/**
 * The older free-form editor: add a content row by key, edit a loaded row's
 * value, delete rows, and upload an image for a key. Inputs are trimmed and
 * blank ones ignored.
 */
module LegacyEditor {
  import opened Js
  import opened CmsStore

  /** A file chosen in the file input. */
  datatype UploadFile = UploadFile(name: string, bytes: Bytes)

  /** `${activePage}/${Date.now()}-${file.name}`. */
  function UploadPath(page: string, now: nat, name: string): (path: string)
    ensures StartsWith(path, page + "/")
  {
    StartsWithConcat(page + "/", NatToString(now) + "-" + name);
    assert page + "/" + NatToString(now) + "-" + name == (page + "/") + (NatToString(now) + "-" + name);
    page + "/" + NatToString(now) + "-" + name
  }

  class Editor {
    var activePage: string
    var cms: CmsHook
    const bucket: Bucket
    var newKey: string
    var newValue: string
    var newType: string
    var saving: bool
    var editingId: Option<RowId>
    var editValue: string
    var uploadingKey: string
    var newImageKey: string

    ghost predicate Valid()
      reads this`activePage, this`cms
    {
      cms.page == Some(activePage) && activePage != ""
    }

    constructor (cms: CmsHook, bucket: Bucket)
      requires cms.page == Some("home")
      ensures Valid() && this.cms == cms && this.bucket == bucket
      ensures newKey == "" && newValue == "" && newType == "text" && !saving && editingId.None?
      ensures editValue == "" && uploadingKey == "" && newImageKey == ""
    {
      activePage, this.cms, this.bucket := "home", cms, bucket;
      newKey, newValue, newType, saving := "", "", "text", false;
      editingId, editValue, uploadingKey, newImageKey := None, "", "", "";
    }

    /** A sidebar button (`setActivePage(p.id)`): the page hook becomes the
        hook of the chosen page, over the same store; the form fields keep
        their values. Choosing the page already shown changes nothing. */
    method SelectPage(page: string, hook: CmsHook)
      requires Valid() && page != "" && hook.page == Some(page) && hook.remote == cms.remote
      modifies this`activePage, this`cms
      ensures Valid() && activePage == page && cms.remote == old(cms.remote)
      ensures page == old(activePage) ==> cms == old(cms)
      ensures page != old(activePage) ==> cms == hook
    {
      if page != activePage {
        activePage, cms := page, hook;
      }
    }

    /** `handleAddContent()`: a key or value that is blank after trimming is
        ignored; otherwise the trimmed pair is upserted on the active page and
        both inputs are cleared. */
    method HandleAddContent(fault: Option<StoreError>, refetch: Refetch)
      requires Valid() && cms.remote.Valid()
      modifies this`newKey, this`newValue, this`saving, cms, cms.remote
      ensures Valid() && cms.remote.Valid()
      ensures Trim(old(newKey)) == "" || Trim(old(newValue)) == "" ==>
        unchanged(cms) && unchanged(cms.remote) && newKey == old(newKey) && newValue == old(newValue) && saving == old(saving)
      ensures Trim(old(newKey)) != "" && Trim(old(newValue)) != "" ==>
        && newKey == "" && newValue == "" && !saving
        && (fault.Some? ==> unchanged(cms) && unchanged(cms.remote))
        && (fault.None? ==>
             cms.remote.content == Upsert(old(cms.remote.content), activePage, Trim(old(newKey)), ContentData(newType, Trim(old(newValue))), old(cms.remote.nextId))
             && cms.Loaded(refetch))
    {
      var key, value := Trim(newKey), Trim(newValue);
      if key != "" && value != "" {
        AddPair(key, value, fault, refetch);
      }
    }

    /** The write of `handleAddContent()` once both inputs are known to be
        non-blank. */
    method AddPair(key: string, value: string, fault: Option<StoreError>, refetch: Refetch)
      requires Valid() && cms.remote.Valid()
      modifies this`newKey, this`newValue, this`saving, cms, cms.remote
      ensures Valid() && cms.remote.Valid()
      ensures newKey == "" && newValue == "" && !saving
      ensures fault.Some? ==> unchanged(cms) && unchanged(cms.remote)
      ensures fault.None? ==>
        cms.remote.content == Upsert(old(cms.remote.content), activePage, key, ContentData(newType, value), old(cms.remote.nextId))
        && cms.Loaded(refetch)
    {
      saving := true;
      assert TargetPage(None, cms.page) == activePage;
      var hook := cms;
      var _ := hook.UpsertContent(key, value, newType, None, fault, refetch);
      assert hook == cms;
      newKey := "";
      newValue := "";
      saving := false;
    }

    /** `handleSaveEdit(item)`: the edited value is upserted under the row's own
        key, content type and page; edit mode ends. */
    method HandleSaveEdit(item: ContentRow, fault: Option<StoreError>, refetch: Refetch)
      requires Valid() && cms.remote.Valid()
      modifies this`editingId, this`saving, cms, cms.remote
      ensures Valid() && cms.remote.Valid() && editingId.None? && !saving
      ensures fault.Some? ==> unchanged(cms) && unchanged(cms.remote)
      ensures fault.None? ==>
        cms.remote.content == Upsert(old(cms.remote.content), TargetPage(Some(item.page), Some(activePage)), item.sectionKey,
                                     ContentData(item.payload.contentType, editValue), old(cms.remote.nextId))
        && cms.Loaded(refetch)
    {
      saving := true;
      var hook := cms;
      var _ := hook.UpsertContent(item.sectionKey, editValue, item.payload.contentType, Some(item.page), fault, refetch);
      assert hook == cms;
      editingId := None;
      saving := false;
    }

    /** `handleDeleteContent(id)`: deletes only after confirmation. */
    method HandleDeleteContent(id: RowId, confirmed: bool, fault: Option<StoreError>, refetch: Refetch)
      requires Valid() && cms.remote.Valid()
      modifies cms, cms.remote
      ensures Valid() && cms.remote.Valid()
      ensures !confirmed || fault.Some? ==> unchanged(cms) && unchanged(cms.remote)
      ensures confirmed && fault.None? ==> cms.remote.content == DeleteById(old(cms.remote.content), id) && cms.Loaded(refetch)
    {
      if confirmed {
        var _ := cms.DeleteContent(id, fault, refetch);
      }
    }

    /** `handleDeleteImage(id)`: deletes only after confirmation. */
    method HandleDeleteImage(id: RowId, confirmed: bool, fault: Option<StoreError>, refetch: Refetch)
      requires Valid() && cms.remote.Valid()
      modifies cms, cms.remote
      ensures Valid() && cms.remote.Valid()
      ensures !confirmed || fault.Some? ==> unchanged(cms) && unchanged(cms.remote)
      ensures confirmed && fault.None? ==> cms.remote.images == DeleteById(old(cms.remote.images), id) && cms.Loaded(refetch)
    {
      if confirmed {
        var _ := cms.DeleteImage(id, fault, refetch);
      }
    }

    /** `handleFileUpload(e)`: without a file or a pending key nothing happens;
        otherwise the file is uploaded under `activePage/now-name`, an image row
        is upserted only when a URL came back, and the pending key is cleared
        in every case. */
    method HandleFileUpload(file: Option<UploadFile>, now: nat, uploadFault: Option<StoreError>, upsertFault: Option<StoreError>,
                            refetch: Refetch)
      requires Valid() && cms.remote.Valid()
      modifies this`uploadingKey, this`saving, cms, cms.remote, bucket
      ensures Valid() && cms.remote.Valid()
      ensures file.None? || old(uploadingKey) == "" ==>
        unchanged(this) && unchanged(cms) && unchanged(cms.remote) && unchanged(bucket)
      ensures file.Some? && old(uploadingKey) != "" ==>
        && uploadingKey == "" && !saving
        && (uploadFault.Some? ==> unchanged(cms) && unchanged(cms.remote) && unchanged(bucket))
        && (uploadFault.None? ==>
             var path := UploadPath(activePage, now, file.value.name);
             && bucket.objects == old(bucket.objects)[path := file.value.bytes]
             && (upsertFault.Some? ==> unchanged(cms) && unchanged(cms.remote))
             && (upsertFault.None? ==>
                  cms.remote.images == Upsert(old(cms.remote.images), activePage, old(uploadingKey),
                                              ImageData(PublicUrl(bucket.baseUrl, path), 0), old(cms.remote.nextId))
                  && cms.Loaded(refetch)))
    {
      if file.None? || uploadingKey == "" {
        return;
      }
      saving := true;
      var path := UploadPath(activePage, now, file.value.name);
      var url, _ := cms.UploadImage(bucket, file.value.bytes, path, uploadFault);
      if url.Some? && url.value != "" {
        var _ := cms.UpsertImage(uploadingKey, url.value, Some(activePage), 0, upsertFault, refetch);
      }
      uploadingKey := "";
      saving := false;
    }

    /** `startImageUpload(key)`. */
    method StartImageUpload(key: string)
      modifies this`uploadingKey
      ensures uploadingKey == key
    {
      uploadingKey := key;
    }

    /** `handleAddNewImage()`: a blank key is ignored; otherwise the trimmed key
        becomes the pending upload key and the input is cleared. */
    method HandleAddNewImage()
      modifies this`uploadingKey, this`newImageKey
      ensures Trim(old(newImageKey)) == "" ==> uploadingKey == old(uploadingKey) && newImageKey == old(newImageKey)
      ensures Trim(old(newImageKey)) != "" ==> uploadingKey == Trim(old(newImageKey)) && newImageKey == ""
    {
      if Trim(newImageKey) == "" {
        return;
      }
      uploadingKey := Trim(newImageKey);
      newImageKey := "";
    }
  }

  /** Saving an edit of a loaded row rewrites that row in place: its id and
      position are kept and no row is added. */
  lemma SaveEditRewritesRow(t: seq<ContentRow>, idx: nat, value: string, n: RowId)
    requires KeysUnique(t) && idx < |t| && t[idx].page != ""
    ensures var item := t[idx];
      Upsert(t, TargetPage(Some(item.page), None), item.sectionKey, ContentData(item.payload.contentType, value), n)
        == t[idx := item.(payload := ContentData(item.payload.contentType, value))]
  {
    UpsertExistingInPlace(t, idx, ContentData(t[idx].payload.contentType, value), n);
  }
}
