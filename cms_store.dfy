/**
 * The CMS content store and its client hook: the two remote tables
 * `site_content` and `site_images`, each keyed by `(page, section_key)`,
 * and the hook object that holds the rows last fetched for one page.
 */
module CmsStore {
  import opened Js

  type RowId = nat

  /** One row of either table; `V` is the table-specific payload. */
  datatype Row<V> = Row(id: RowId, page: string, sectionKey: string, payload: V)

  datatype ContentData = ContentData(contentType: string, contentValue: string)
  datatype ImageData = ImageData(imageUrl: string, displayOrder: int)

  type ContentRow = Row<ContentData>
  type ImageRow = Row<ImageData>

  /** The error object the store returns from a failed call. */
  datatype StoreError = StoreError(message: string)

  /** The outcome of a refetch: which of its two queries came back without data. */
  datatype Refetch = Refetch(contentFails: bool, imagesFails: bool)

  predicate HasKey<V>(r: Row<V>, page: string, key: string) {
    r.page == page && r.sectionKey == key
  }

  /** The uniqueness constraint `(page, section_key)` of both tables. */
  predicate KeysUnique<V>(t: seq<Row<V>>) {
    forall i, j :: 0 <= i < j < |t| ==> !HasKey(t[j], t[i].page, t[i].sectionKey)
  }

  predicate IdsBelow<V>(t: seq<Row<V>>, n: RowId) {
    forall i :: 0 <= i < |t| ==> t[i].id < n
  }

  predicate IdsUnique<V>(t: seq<Row<V>>) {
    forall i, j :: 0 <= i < j < |t| ==> t[i].id != t[j].id
  }

  predicate TableValid<V>(t: seq<Row<V>>, nextId: RowId) {
    KeysUnique(t) && IdsUnique(t) && IdsBelow(t, nextId)
  }

  /** Number of rows stored under `(page, key)`. */
  function CountKey<V>(t: seq<Row<V>>, page: string, key: string): nat {
    if t == [] then 0
    else (if HasKey(t[0], page, key) then 1 else 0) + CountKey(t[1..], page, key)
  }

  /** The payload stored under `(page, key)`, if any (the first such row). */
  function Lookup<V>(t: seq<Row<V>>, page: string, key: string): Option<V> {
    if t == [] then None
    else if HasKey(t[0], page, key) then Some(t[0].payload)
    else Lookup(t[1..], page, key)
  }

  /** `upsert(row, { onConflict: "page,section_key" })`: replace the payload of the
      row with that key (keeping its id), or append a new row with id `freshId`. */
  function Upsert<V>(t: seq<Row<V>>, page: string, key: string, v: V, freshId: RowId): (r: seq<Row<V>>)
    ensures |r| == |t| || |r| == |t| + 1
  {
    if t == [] then [Row(freshId, page, key, v)]
    else if HasKey(t[0], page, key) then [t[0].(payload := v)] + t[1..]
    else [t[0]] + Upsert(t[1..], page, key, v, freshId)
  }

  /** The rows of `t` other than those under `(page, key)`, in order. */
  function OtherKeys<V>(t: seq<Row<V>>, page: string, key: string): seq<Row<V>> {
    if t == [] then []
    else (if HasKey(t[0], page, key) then [] else [t[0]]) + OtherKeys(t[1..], page, key)
  }

  /** An upsert leaves exactly one row under its key, holding the new payload,
      and every other row exactly as it was, in the same order. */
  lemma {:induction false} UpsertSpec<V>(t: seq<Row<V>>, page: string, key: string, v: V, freshId: RowId)
    requires KeysUnique(t)
    ensures CountKey(Upsert(t, page, key, v, freshId), page, key) == 1
    ensures Lookup(Upsert(t, page, key, v, freshId), page, key) == Some(v)
    ensures OtherKeys(Upsert(t, page, key, v, freshId), page, key) == OtherKeys(t, page, key)
  {
    if t == [] {
    } else if HasKey(t[0], page, key) {
      NoKeyInTail(t, page, key);
      var r := Upsert(t, page, key, v, freshId);
      assert r[1..] == t[1..];
    } else {
      UpsertSpec(t[1..], page, key, v, freshId);
      var r := Upsert(t, page, key, v, freshId);
      assert r[1..] == Upsert(t[1..], page, key, v, freshId);
    }
  }

  lemma {:induction false} NoKeyInTail<V>(t: seq<Row<V>>, page: string, key: string)
    requires KeysUnique(t) && t != [] && HasKey(t[0], page, key)
    ensures CountKey(t[1..], page, key) == 0 && OtherKeys(t[1..], page, key) == t[1..]
  {
    CountZero(t[1..], page, key);
  }

  lemma {:induction false} CountZero<V>(t: seq<Row<V>>, page: string, key: string)
    requires forall i :: 0 <= i < |t| ==> !HasKey(t[i], page, key)
    ensures CountKey(t, page, key) == 0 && OtherKeys(t, page, key) == t
  {
    if t != [] {
      CountZero(t[1..], page, key);
    }
  }

  /** The store keeps its constraint: a valid table stays valid under an upsert
      that draws a fresh id. */
  lemma {:induction false} UpsertKeepsValid<V>(t: seq<Row<V>>, page: string, key: string, v: V, n: RowId)
    requires TableValid(t, n)
    ensures TableValid(Upsert(t, page, key, v, n), n + 1)
  {
    if t == [] {
    } else if HasKey(t[0], page, key) {
      TailDiffers(t, n);
      ConsKeepsValid(t[0].(payload := v), t[1..], n + 1);
    } else {
      var rest := Upsert(t[1..], page, key, v, n);
      UpsertKeepsValid(t[1..], page, key, v, n);
      UpsertRowsFrom(t[1..], page, key, v, n);
      TailDiffers(t, n);
      forall x | x in rest
        ensures !HasKey(x, t[0].page, t[0].sectionKey) && x.id != t[0].id
      {
      }
      ConsKeepsValid(t[0], rest, n + 1);
    }
  }

  /** A row whose key and id no later row shares can head a valid table. */
  lemma ConsKeepsValid<V>(h: Row<V>, rest: seq<Row<V>>, n: RowId)
    requires TableValid(rest, n) && h.id < n
    requires forall x :: x in rest ==> !HasKey(x, h.page, h.sectionKey) && x.id != h.id
    ensures TableValid([h] + rest, n)
  {
    var r := [h] + rest;
    forall i, j | 0 <= i < j < |r|
      ensures !HasKey(r[j], r[i].page, r[i].sectionKey) && r[i].id != r[j].id
    {
      assert r[j] == rest[j - 1];
      if i > 0 {
        assert r[i] == rest[i - 1];
      }
    }
    forall i | 0 <= i < |r|
      ensures r[i].id < n
    {
      if i > 0 {
        assert r[i] == rest[i - 1];
      }
    }
  }

  /** In a valid table no later row shares the first row's key or id, nor
      reaches the next id. */
  lemma TailDiffers<V>(t: seq<Row<V>>, n: RowId)
    requires TableValid(t, n) && t != []
    ensures TableValid(t[1..], n) && t[0].id < n
    ensures forall x :: x in t[1..] ==> !HasKey(x, t[0].page, t[0].sectionKey) && x.id != t[0].id
  {
    forall x | x in t[1..]
      ensures !HasKey(x, t[0].page, t[0].sectionKey) && x.id != t[0].id
    {
      var j :| 0 <= j < |t[1..]| && t[1..][j] == x;
      assert t[j + 1] == x;
    }
    forall i, j | 0 <= i < j < |t[1..]|
      ensures !HasKey(t[1..][j], t[1..][i].page, t[1..][i].sectionKey) && t[1..][i].id != t[1..][j].id
    {
      assert t[1..][i] == t[i + 1] && t[1..][j] == t[j + 1];
    }
  }

  /** Every row of an upsert's result is an old row, the old row re-keyed with
      the new payload, or the fresh row. */
  lemma {:induction false} UpsertRowsFrom<V>(t: seq<Row<V>>, page: string, key: string, v: V, n: RowId)
    ensures forall x :: x in Upsert(t, page, key, v, n) ==>
      x in t || x == Row(n, page, key, v) || (HasKey(x, page, key) && exists y :: y in t && y.id == x.id && HasKey(y, page, key))
  {
    if t != [] && !HasKey(t[0], page, key) {
      UpsertRowsFrom(t[1..], page, key, v, n);
    } else if t != [] {
      assert t[0] in t;
    }
  }

  /** Upserting one key does not change what another key reads. */
  lemma {:induction false} UpsertLookupOther<V>(t: seq<Row<V>>, page: string, key: string, v: V, n: RowId, page': string, key': string)
    requires page != page' || key != key'
    ensures Lookup(Upsert(t, page, key, v, n), page', key') == Lookup(t, page', key')
  {
    if t != [] && !HasKey(t[0], page, key) {
      UpsertLookupOther(t[1..], page, key, v, n, page', key');
    }
  }

  /** Upserting the key of an existing row rewrites that row in place: same
      position, same id, no new row. */
  lemma {:induction false} UpsertExistingInPlace<V>(t: seq<Row<V>>, idx: nat, v: V, n: RowId)
    requires KeysUnique(t) && idx < |t|
    ensures Upsert(t, t[idx].page, t[idx].sectionKey, v, n) == t[idx := t[idx].(payload := v)]
  {
    if idx > 0 {
      assert !HasKey(t[0], t[idx].page, t[idx].sectionKey);
      UpsertExistingInPlace(t[1..], idx - 1, v, n);
      assert t[idx := t[idx].(payload := v)] == [t[0]] + t[1..][idx - 1 := t[idx].(payload := v)];
    } else {
      assert t[0 := t[0].(payload := v)] == [t[0].(payload := v)] + t[1..];
    }
  }

  /** `delete().eq("id", id)`: every row whose id is `id` goes, the rest stay in order. */
  function DeleteById<V>(t: seq<Row<V>>, id: RowId): (r: seq<Row<V>>)
    ensures forall i :: 0 <= i < |r| ==> r[i] in t && r[i].id != id
    ensures forall i :: 0 <= i < |t| && t[i].id != id ==> t[i] in r
  {
    if t == [] then []
    else (if t[0].id == id then [] else [t[0]]) + DeleteById(t[1..], id)
  }

  /** The rows whose id is not in `ids`. */
  function RemoveIds<V>(t: seq<Row<V>>, ids: set<RowId>): (r: seq<Row<V>>)
    ensures forall i :: 0 <= i < |r| ==> r[i] in t && r[i].id !in ids
    ensures forall i :: 0 <= i < |t| && t[i].id !in ids ==> t[i] in r
  {
    if t == [] then []
    else (if t[0].id in ids then [] else [t[0]]) + RemoveIds(t[1..], ids)
  }

  /** Deleting one id after a set of ids is deleting the union. */
  lemma {:induction false} RemoveThenDelete<V>(t: seq<Row<V>>, ids: set<RowId>, id: RowId)
    ensures DeleteById(RemoveIds(t, ids), id) == RemoveIds(t, ids + {id})
  {
    if t != [] {
      RemoveThenDelete(t[1..], ids, id);
      var rest := RemoveIds(t[1..], ids);
      if t[0].id !in ids {
        assert RemoveIds(t, ids) == [t[0]] + rest;
        assert ([t[0]] + rest)[1..] == rest;
      } else {
        assert RemoveIds(t, ids) == rest;
      }
    }
  }

  lemma {:induction false} RemoveNone<V>(t: seq<Row<V>>)
    ensures RemoveIds(t, {}) == t
  {
    if t != [] {
      RemoveNone(t[1..]);
    }
  }

  lemma {:induction false} RemoveKeepsValid<V>(t: seq<Row<V>>, ids: set<RowId>, n: RowId)
    requires TableValid(t, n)
    ensures TableValid(RemoveIds(t, ids), n)
  {
    if t != [] {
      var rest := RemoveIds(t[1..], ids);
      TailDiffers(t, n);
      RemoveKeepsValid(t[1..], ids, n);
      if t[0].id !in ids {
        forall x | x in rest
          ensures !HasKey(x, t[0].page, t[0].sectionKey) && x.id != t[0].id
        {
          var j :| 0 <= j < |rest| && rest[j] == x;
        }
        ConsKeepsValid(t[0], rest, n);
      }
    }
  }

  lemma DeleteIsRemove<V>(t: seq<Row<V>>, id: RowId)
    ensures DeleteById(t, id) == RemoveIds(t, {id})
  {
    RemoveNone(t);
    RemoveThenDelete(t, {}, id);
  }

  /** `if (page) query = query.eq("page", page)`: the rows of `page` when one
      is set, every row otherwise. */
  function RowsOfPage<V>(t: seq<Row<V>>, page: Option<string>): (r: seq<Row<V>>)
    ensures forall i :: 0 <= i < |r| ==> r[i] in t && (!Truthy(page) || r[i].page == page.value)
    ensures forall i :: 0 <= i < |t| && (!Truthy(page) || t[i].page == page.value) ==> t[i] in r
    ensures !Truthy(page) ==> r == t
  {
    if !Truthy(page) || t == [] then t
    else (if t[0].page == page.value then [t[0]] else []) + RowsOfPage(t[1..], page)
  }

  /** The `find` predicate of `getContent`/`getImage`. */
  predicate Matches<V>(r: Row<V>, key: string, page: Option<string>) {
    r.sectionKey == key && (!Truthy(page) || r.page == page.value)
  }

  /** `rows.find(...)`: the first matching row. */
  function Find<V>(t: seq<Row<V>>, key: string, page: Option<string>): (r: Option<Row<V>>)
    ensures r.Some? ==> r.value in t && Matches(r.value, key, page)
    ensures r.None? <==> forall x :: x in t ==> !Matches(x, key, page)
  {
    if t == [] then None
    else if Matches(t[0], key, page) then Some(t[0])
    else Find(t[1..], key, page)
  }

  lemma {:induction false} FindFirst<V>(t: seq<Row<V>>, key: string, page: Option<string>, i: nat)
    requires i < |t| && Matches(t[i], key, page)
    requires forall j :: 0 <= j < i ==> !Matches(t[j], key, page)
    ensures Find(t, key, page) == Some(t[i])
  {
    if i > 0 {
      FindFirst(t[1..], key, page, i - 1);
    }
  }

  /** `t[i]` is the row `rows.find(...)` stops at: it matches and no earlier row does. */
  predicate IsFirstMatch<V>(t: seq<Row<V>>, key: string, page: Option<string>, i: nat) {
    i < |t| && Matches(t[i], key, page) && forall j :: 0 <= j < i ==> !Matches(t[j], key, page)
  }

  lemma FindFirstMatch<V>(t: seq<Row<V>>, key: string, page: Option<string>)
    ensures forall i: nat :: IsFirstMatch(t, key, page, i) ==> Find(t, key, page) == Some(t[i])
  {
    forall i: nat | IsFirstMatch(t, key, page, i)
      ensures Find(t, key, page) == Some(t[i])
    {
      FindFirst(t, key, page, i);
    }
  }

  /** `targetPage || page || "home"`: the page an upsert writes to; never empty. */
  function TargetPage(targetPage: Option<string>, page: Option<string>): (p: string)
    ensures p != ""
    ensures Truthy(targetPage) ==> p == targetPage.value
    ensures !Truthy(targetPage) && Truthy(page) ==> p == page.value
    ensures !Truthy(targetPage) && !Truthy(page) ==> p == "home"
  {
    OrElse(targetPage, OrElse(page, "home"))
  }

  /** `item?.content_value || fallback`. */
  function ValueOr(found: Option<ContentRow>, fallback: string): string {
    if found.Some? && found.value.payload.contentValue != "" then found.value.payload.contentValue else fallback
  }

  /** `item?.image_url || fallback`. */
  function UrlOr(found: Option<ImageRow>, fallback: string): string {
    if found.Some? && found.value.payload.imageUrl != "" then found.value.payload.imageUrl else fallback
  }

  /** One entry of a batch write: `{ key, value, type, page }`. */
  datatype ContentItem = ContentItem(key: string, value: string, contentType: string, page: string)

  /** The `site_content` table after upserting `items` in order, each through
      `upsertContent(key, value, type, page)` of a hook for `hookPage`. */
  function UpsertAll(t: seq<ContentRow>, items: seq<ContentItem>, hookPage: Option<string>, n: RowId): seq<ContentRow>
    decreases |items|
  {
    if items == [] then t
    else
      var it := items[0];
      UpsertAll(Upsert(t, TargetPage(Some(it.page), hookPage), it.key, ContentData(it.contentType, it.value), n),
                items[1..], hookPage, n + 1)
  }

  predicate WritesKey(it: ContentItem, hookPage: Option<string>, page: string, key: string) {
    TargetPage(Some(it.page), hookPage) == page && it.key == key
  }

  lemma {:induction false} UpsertAllKeepsValid(t: seq<ContentRow>, items: seq<ContentItem>, hookPage: Option<string>, n: RowId)
    requires TableValid(t, n)
    ensures TableValid(UpsertAll(t, items, hookPage, n), n + |items|)
    decreases |items|
  {
    if items != [] {
      var it := items[0];
      UpsertKeepsValid(t, TargetPage(Some(it.page), hookPage), it.key, ContentData(it.contentType, it.value), n);
      UpsertAllKeepsValid(Upsert(t, TargetPage(Some(it.page), hookPage), it.key, ContentData(it.contentType, it.value), n),
                          items[1..], hookPage, n + 1);
    }
  }

  lemma {:induction false} UpsertAllPrefix(t: seq<ContentRow>, items: seq<ContentItem>, hookPage: Option<string>, n: RowId, i: nat)
    requires i < |items|
    ensures UpsertAll(t, items[..i + 1], hookPage, n)
      == Upsert(UpsertAll(t, items[..i], hookPage, n), TargetPage(Some(items[i].page), hookPage), items[i].key,
                ContentData(items[i].contentType, items[i].value), n + i)
    decreases i
  {
    if i > 0 {
      var it := items[0];
      var t' := Upsert(t, TargetPage(Some(it.page), hookPage), it.key, ContentData(it.contentType, it.value), n);
      UpsertAllPrefix(t', items[1..], hookPage, n + 1, i - 1);
      assert items[..i + 1][1..] == items[1..][..i];
      assert items[..i][1..] == items[1..][..i - 1];
    }
  }

  /** One more write of the batch extends the prefix already written. */
  lemma UpsertAllStep(t: seq<ContentRow>, items: seq<ContentItem>, hookPage: Option<string>, n: RowId, i: nat,
                      before: seq<ContentRow>, m: RowId, after: seq<ContentRow>)
    requires i < |items| && before == UpsertAll(t, items[..i], hookPage, n) && m == n + i
    requires after == Upsert(before, TargetPage(Some(items[i].page), hookPage), items[i].key,
                             ContentData(items[i].contentType, items[i].value), m)
    ensures after == UpsertAll(t, items[..i + 1], hookPage, n)
  {
    UpsertAllPrefix(t, items, hookPage, n, i);
  }

  /** A key no item of the batch writes reads as before. */
  lemma {:induction false} UpsertAllOther(t: seq<ContentRow>, items: seq<ContentItem>, hookPage: Option<string>, n: RowId, page: string, key: string)
    requires forall i :: 0 <= i < |items| ==> !WritesKey(items[i], hookPage, page, key)
    ensures Lookup(UpsertAll(t, items, hookPage, n), page, key) == Lookup(t, page, key)
    decreases |items|
  {
    if items != [] {
      var it := items[0];
      UpsertLookupOther(t, TargetPage(Some(it.page), hookPage), it.key, ContentData(it.contentType, it.value), n, page, key);
      UpsertAllOther(Upsert(t, TargetPage(Some(it.page), hookPage), it.key, ContentData(it.contentType, it.value), n),
                     items[1..], hookPage, n + 1, page, key);
    }
  }

  /** The last item of the batch that writes a key decides what it reads. */
  lemma {:induction false} UpsertAllLastWins(t: seq<ContentRow>, items: seq<ContentItem>, hookPage: Option<string>, n: RowId, i: nat)
    requires KeysUnique(t) && i < |items|
    requires forall j :: i < j < |items| ==> !WritesKey(items[j], hookPage, TargetPage(Some(items[i].page), hookPage), items[i].key)
    ensures Lookup(UpsertAll(t, items, hookPage, n), TargetPage(Some(items[i].page), hookPage), items[i].key)
      == Some(ContentData(items[i].contentType, items[i].value))
    decreases |items|
  {
    var it := items[0];
    var t' := Upsert(t, TargetPage(Some(it.page), hookPage), it.key, ContentData(it.contentType, it.value), n);
    UpsertKeepsValidKeys(t, TargetPage(Some(it.page), hookPage), it.key, ContentData(it.contentType, it.value), n);
    if i == 0 {
      UpsertSpec(t, TargetPage(Some(it.page), hookPage), it.key, ContentData(it.contentType, it.value), n);
      UpsertAllOther(t', items[1..], hookPage, n + 1, TargetPage(Some(it.page), hookPage), it.key);
    } else {
      UpsertAllLastWins(t', items[1..], hookPage, n + 1, i - 1);
    }
  }

  lemma {:induction false} UpsertKeepsValidKeys<V>(t: seq<Row<V>>, page: string, key: string, v: V, n: RowId)
    requires KeysUnique(t)
    ensures KeysUnique(Upsert(t, page, key, v, n))
  {
    if t != [] {
      TailKeysUnique(t);
      if HasKey(t[0], page, key) {
        ConsKeysUnique(t[0].(payload := v), t[1..]);
      } else {
        var rest := Upsert(t[1..], page, key, v, n);
        UpsertKeepsValidKeys(t[1..], page, key, v, n);
        UpsertRowsFrom(t[1..], page, key, v, n);
        forall x | x in rest
          ensures !HasKey(x, t[0].page, t[0].sectionKey)
        {
        }
        ConsKeysUnique(t[0], rest);
      }
    }
  }

  lemma ConsKeysUnique<V>(h: Row<V>, rest: seq<Row<V>>)
    requires KeysUnique(rest)
    requires forall x :: x in rest ==> !HasKey(x, h.page, h.sectionKey)
    ensures KeysUnique([h] + rest)
  {
    var r := [h] + rest;
    forall i, j | 0 <= i < j < |r|
      ensures !HasKey(r[j], r[i].page, r[i].sectionKey)
    {
      assert r[j] == rest[j - 1];
      if i > 0 {
        assert r[i] == rest[i - 1];
      }
    }
  }

  lemma TailKeysUnique<V>(t: seq<Row<V>>)
    requires KeysUnique(t) && t != []
    ensures KeysUnique(t[1..])
    ensures forall x :: x in t[1..] ==> !HasKey(x, t[0].page, t[0].sectionKey)
  {
    forall x | x in t[1..]
      ensures !HasKey(x, t[0].page, t[0].sectionKey)
    {
      var j :| 0 <= j < |t[1..]| && t[1..][j] == x;
      assert t[j + 1] == x;
    }
    forall i, j | 0 <= i < j < |t[1..]|
      ensures !HasKey(t[1..][j], t[1..][i].page, t[1..][i].sectionKey)
    {
      assert t[1..][j] == t[j + 1] && t[1..][i] == t[i + 1];
    }
  }

  /** The index of the first failing write, or `|faults|` when none fails. */
  function FirstFault(faults: seq<Option<StoreError>>): (k: nat)
    ensures k <= |faults|
    ensures forall j :: 0 <= j < k ==> faults[j].None?
    ensures k < |faults| ==> faults[k].Some?
  {
    if faults == [] || faults[0].Some? then 0 else 1 + FirstFault(faults[1..])
  }

  /** The public URL of an object in the `site-uploads` bucket. */
  function PublicUrl(base: string, path: string): (url: string)
    ensures StartsWith(url, base)
  {
    base + "/storage/v1/object/public/site-uploads/" + path
  }

  /** Distinct objects have distinct public URLs. */
  lemma PublicUrlInjective(base: string, p: string, q: string)
    requires PublicUrl(base, p) == PublicUrl(base, q)
    ensures p == q
  {
    var n := |base + "/storage/v1/object/public/site-uploads/"|;
    assert p == PublicUrl(base, p)[n..];
    assert q == PublicUrl(base, q)[n..];
  }

  type Bytes = seq<bv8>

  /** The `site-uploads` storage bucket. */
  class Bucket {
    const baseUrl: string
    var objects: map<string, Bytes>

    constructor (baseUrl: string)
      ensures this.baseUrl == baseUrl && objects == map[]
    {
      this.baseUrl := baseUrl;
      objects := map[];
    }
  }

  /** Both remote tables and the id source of the store. */
  class SiteTables {
    var content: seq<ContentRow>
    var images: seq<ImageRow>
    var nextId: RowId

    ghost predicate Valid()
      reads this
    {
      TableValid(content, nextId) && TableValid(images, nextId)
    }

    constructor ()
      ensures Valid() && content == [] && images == []
    {
      content, images, nextId := [], [], 0;
    }
  }

  /** `useCmsContent(page)`: the rows last fetched and the loading flag. */
  class CmsHook {
    const page: Option<string>
    const remote: SiteTables
    var content: seq<ContentRow>
    var images: seq<ImageRow>
    var loading: bool

    /** The state before the mount effect has fetched anything. */
    constructor (page: Option<string>, remote: SiteTables)
      ensures this.page == page && this.remote == remote
      ensures content == [] && images == [] && loading
    {
      this.page, this.remote := page, remote;
      content, images, loading := [], [], true;
    }

    /** `getContent(sectionKey, fallback)`: the value of the first loaded row
        with that key (on this hook's page, when it has one), unless that value
        is empty; the fallback when there is no such row. */
    function GetContent(key: string, fallback: string): (r: string)
      reads this`content
      ensures forall i: nat :: IsFirstMatch(content, key, page, i) ==>
        r == if content[i].payload.contentValue != "" then content[i].payload.contentValue else fallback
      ensures (forall x :: x in content ==> !Matches(x, key, page)) ==> r == fallback
    {
      FindFirstMatch(content, key, page);
      ValueOr(Find(content, key, page), fallback)
    }

    /** `getImage(sectionKey, fallback)`: the same over the loaded image rows
        and their `image_url`. */
    function GetImage(key: string, fallback: string): (r: string)
      reads this`images
      ensures forall i: nat :: IsFirstMatch(images, key, page, i) ==>
        r == if images[i].payload.imageUrl != "" then images[i].payload.imageUrl else fallback
      ensures (forall x :: x in images ==> !Matches(x, key, page)) ==> r == fallback
    {
      FindFirstMatch(images, key, page);
      UrlOr(Find(images, key, page), fallback)
    }

    /** `fetchContent()`: a failed query (no data) loads as the empty list. */
    method FetchContent(outcome: Refetch)
      modifies this`content, this`images, this`loading
      ensures content == if outcome.contentFails then [] else RowsOfPage(remote.content, page)
      ensures images == if outcome.imagesFails then [] else RowsOfPage(remote.images, page)
      ensures !loading
    {
      loading := true;
      var contentRes := if outcome.contentFails then None else Some(RowsOfPage(remote.content, page));
      var imageRes := if outcome.imagesFails then None else Some(RowsOfPage(remote.images, page));
      content := if contentRes.Some? then contentRes.value else [];
      images := if imageRes.Some? then imageRes.value else [];
      loading := false;
    }

    /** The loaded state is what a fetch of this page with that outcome returns. */
    ghost predicate Loaded(outcome: Refetch)
      reads this`content, this`images, this`loading, remote`content, remote`images
    {
      && content == (if outcome.contentFails then [] else RowsOfPage(remote.content, page))
      && images == (if outcome.imagesFails then [] else RowsOfPage(remote.images, page))
      && !loading
    }


    /** `upsertContent(sectionKey, value, contentType, targetPage)`; `fault` is the
        store's answer. The store's error is returned unchanged; only a write
        without error triggers the refetch, whose outcome is `refetch`. */
    method UpsertContent(key: string, value: string, contentType: string, targetPage: Option<string>, fault: Option<StoreError>, refetch: Refetch)
      returns (error: Option<StoreError>)
      requires remote.Valid()
      modifies remote, this`content, this`images, this`loading
      ensures remote.Valid() && error == fault
      ensures fault.Some? ==> unchanged(remote) && unchanged(this)
      ensures fault.None? ==>
        && remote.content == Upsert(old(remote.content), TargetPage(targetPage, page), key, ContentData(contentType, value), old(remote.nextId))
        && remote.images == old(remote.images) && remote.nextId == old(remote.nextId) + 1
        && Loaded(refetch)
    {
      if fault.None? {
        UpsertKeepsValid(remote.content, TargetPage(targetPage, page), key, ContentData(contentType, value), remote.nextId);
        remote.content := Upsert(remote.content, TargetPage(targetPage, page), key, ContentData(contentType, value), remote.nextId);
        remote.nextId := remote.nextId + 1;
        FetchContent(refetch);
      }
      error := fault;
    }

    /** `upsertImage(sectionKey, imageUrl, targetPage, displayOrder = 0)`. */
    method UpsertImage(key: string, imageUrl: string, targetPage: Option<string>, displayOrder: int, fault: Option<StoreError>, refetch: Refetch)
      returns (error: Option<StoreError>)
      requires remote.Valid()
      modifies remote, this`content, this`images, this`loading
      ensures remote.Valid() && error == fault
      ensures fault.Some? ==> unchanged(remote) && unchanged(this)
      ensures fault.None? ==>
        && remote.images == Upsert(old(remote.images), TargetPage(targetPage, page), key, ImageData(imageUrl, displayOrder), old(remote.nextId))
        && remote.content == old(remote.content) && remote.nextId == old(remote.nextId) + 1
        && Loaded(refetch)
    {
      if fault.None? {
        UpsertKeepsValid(remote.images, TargetPage(targetPage, page), key, ImageData(imageUrl, displayOrder), remote.nextId);
        remote.images := Upsert(remote.images, TargetPage(targetPage, page), key, ImageData(imageUrl, displayOrder), remote.nextId);
        remote.nextId := remote.nextId + 1;
        FetchContent(refetch);
      }
      error := fault;
    }

    /** `deleteContent(id)`. */
    method DeleteContent(id: RowId, fault: Option<StoreError>, refetch: Refetch) returns (error: Option<StoreError>)
      requires remote.Valid()
      modifies remote, this`content, this`images, this`loading
      ensures remote.Valid() && error == fault
      ensures fault.Some? ==> unchanged(remote) && unchanged(this)
      ensures fault.None? ==>
        && remote.content == DeleteById(old(remote.content), id)
        && remote.images == old(remote.images) && remote.nextId == old(remote.nextId)
        && Loaded(refetch)
    {
      if fault.None? {
        DeleteIsRemove(remote.content, id);
        RemoveKeepsValid(remote.content, {id}, remote.nextId);
        remote.content := DeleteById(remote.content, id);
        FetchContent(refetch);
      }
      error := fault;
    }

    /** `deleteImage(id)`. */
    method DeleteImage(id: RowId, fault: Option<StoreError>, refetch: Refetch) returns (error: Option<StoreError>)
      requires remote.Valid()
      modifies remote, this`content, this`images, this`loading
      ensures remote.Valid() && error == fault
      ensures fault.Some? ==> unchanged(remote) && unchanged(this)
      ensures fault.None? ==>
        && remote.images == DeleteById(old(remote.images), id)
        && remote.content == old(remote.content) && remote.nextId == old(remote.nextId)
        && Loaded(refetch)
    {
      if fault.None? {
        DeleteIsRemove(remote.images, id);
        RemoveKeepsValid(remote.images, {id}, remote.nextId);
        remote.images := DeleteById(remote.images, id);
        FetchContent(refetch);
      }
      error := fault;
    }

    /** `batchUpsertContent(items)`: the items are written one after another,
        best effort, up to the first write the store refuses; that write's
        error is returned and the rows already written stay written. Every
        refetch replaces the whole loaded state, so only the last one is seen;
        `refetch` is its outcome. */
    method BatchUpsertContent(items: seq<ContentItem>, faults: seq<Option<StoreError>>, refetch: Refetch)
      returns (error: Option<StoreError>)
      requires remote.Valid() && |faults| == |items|
      modifies remote, this`content, this`images, this`loading
      ensures remote.Valid()
      ensures error == if FirstFault(faults) < |items| then faults[FirstFault(faults)] else None
      ensures remote.content == UpsertAll(old(remote.content), items[..FirstFault(faults)], page, old(remote.nextId))
      ensures remote.images == old(remote.images) && remote.nextId == old(remote.nextId) + FirstFault(faults)
      ensures FirstFault(faults) > 0 ==> Loaded(refetch)
      ensures FirstFault(faults) == 0 ==> unchanged(this)
    {
      var k := FirstFault(faults);
      for i := 0 to k
        invariant remote.Valid()
        invariant remote.content == UpsertAll(old(remote.content), items[..i], page, old(remote.nextId))
        invariant remote.images == old(remote.images) && remote.nextId == old(remote.nextId) + i
        invariant i > 0 ==> Loaded(refetch)
        invariant i == 0 ==> unchanged(this)
      {
        ghost var before, m := remote.content, remote.nextId;
        var e := UpsertContent(items[i].key, items[i].value, items[i].contentType, Some(items[i].page), None, refetch);
        UpsertAllStep(old(remote.content), items, page, old(remote.nextId), i, before, m, remote.content);
      }
      error := if k < |items| then faults[k] else None;
    }

    /** `uploadImage(file, path)`: on success the object is stored under `path`
        (replacing any object there) and its public URL returned; on failure no
        URL and the storage error. */
    method UploadImage(bucket: Bucket, file: Bytes, path: string, fault: Option<StoreError>)
      returns (url: Option<string>, error: Option<StoreError>)
      modifies bucket
      ensures fault.Some? ==> url.None? && error == fault && unchanged(bucket)
      ensures fault.None? ==>
        url == Some(PublicUrl(bucket.baseUrl, path)) && error.None? && bucket.objects == old(bucket.objects)[path := file]
    {
      if fault.Some? {
        return None, fault;
      }
      bucket.objects := bucket.objects[path := file];
      url, error := Some(PublicUrl(bucket.baseUrl, path)), None;
    }
  }

  /** Once the loaded rows match the store, `getContent` reads the stored value
      (or the fallback when that value is the empty string). */
  lemma {:induction false} GetContentReadsStore(t: seq<ContentRow>, page: string, key: string, fallback: string)
    requires page != "" && KeysUnique(t)
    ensures ValueOr(Find(RowsOfPage(t, Some(page)), key, Some(page)), fallback)
      == match Lookup(t, page, key)
         case None => fallback
         case Some(d) => if d.contentValue != "" then d.contentValue else fallback
  {
    FindIsLookup(t, page, key);
  }

  /** Once the loaded images match the store, `getImage` reads the stored URL
      (or the fallback when that URL is the empty string). */
  lemma {:induction false} GetImageReadsStore(t: seq<ImageRow>, page: string, key: string, fallback: string)
    requires page != "" && KeysUnique(t)
    ensures UrlOr(Find(RowsOfPage(t, Some(page)), key, Some(page)), fallback)
      == match Lookup(t, page, key)
         case None => fallback
         case Some(d) => if d.imageUrl != "" then d.imageUrl else fallback
  {
    FindIsLookup(t, page, key);
  }

  lemma {:induction false} FindIsLookup<V>(t: seq<Row<V>>, page: string, key: string)
    requires page != ""
    ensures var f := Find(RowsOfPage(t, Some(page)), key, Some(page));
      match Lookup(t, page, key)
      case None => f.None?
      case Some(v) => f.Some? && f.value.payload == v
  {
    if t != [] {
      FindIsLookup(t[1..], page, key);
      var rest := RowsOfPage(t[1..], Some(page));
      if t[0].page == page {
        assert RowsOfPage(t, Some(page)) == [t[0]] + rest;
      } else {
        assert RowsOfPage(t, Some(page)) == rest;
      }
    }
  }
}
