/**
 * The section-driven admin editor: unsaved edits in a `drafts` overlay, and
 * repeatable lists stored as flat keys `listKey_index_field` whose length is
 * found by scanning indices until the first gap.
 */
module ListEditor {
  import opened Js
  import opened CmsStore
  import opened CmsConfig

  /** The scan in `getListItemCount` looks at indices `0 .. 49`. */
  const ScanLimit: nat := 50

  /** `${listKey}_${i}_`: the key prefix of item `i`. */
  function ItemPrefix(listKey: string, i: nat): string {
    listKey + "_" + NatToString(i) + "_"
  }

  /** A loaded row's key starts with `p` (`content.find(c => c.section_key.startsWith(p))`). */
  predicate HasPrefixedRow<V>(rows: seq<Row<V>>, p: string) {
    exists k :: 0 <= k < |rows| && StartsWith(rows[k].sectionKey, p)
  }

  /** A pending draft's key starts with `p` (`Object.keys(drafts).some(...)`). */
  predicate HasPrefixedDraft(drafts: map<string, string>, p: string) {
    exists k :: k in drafts && StartsWith(k, p)
  }

  /** Item `i` exists when a stored row or a draft carries its prefix. */
  predicate ItemPresent(content: seq<ContentRow>, drafts: map<string, string>, listKey: string, i: nat) {
    HasPrefixedRow(content, ItemPrefix(listKey, i)) || HasPrefixedDraft(drafts, ItemPrefix(listKey, i))
  }

  function CountFrom(content: seq<ContentRow>, drafts: map<string, string>, listKey: string, i: nat): (n: nat)
    requires i <= ScanLimit
    ensures i <= n <= ScanLimit
    ensures forall j :: i <= j < n ==> ItemPresent(content, drafts, listKey, j)
    ensures n < ScanLimit ==> !ItemPresent(content, drafts, listKey, n)
    decreases ScanLimit - i
  {
    if i == ScanLimit || !ItemPresent(content, drafts, listKey, i) then i
    else CountFrom(content, drafts, listKey, i + 1)
  }

  /** The number of list items: the first index below 50 with no item, or 50. */
  function ListItemCount(content: seq<ContentRow>, drafts: map<string, string>, listKey: string): (n: nat)
    ensures n <= ScanLimit
    ensures forall j :: 0 <= j < n ==> ItemPresent(content, drafts, listKey, j)
    ensures n < ScanLimit ==> !ItemPresent(content, drafts, listKey, n)
  {
    CountFrom(content, drafts, listKey, 0)
  }

  /** The count is the only number with those properties. */
  lemma CountUnique(content: seq<ContentRow>, drafts: map<string, string>, listKey: string, m: nat)
    requires m <= ScanLimit
    requires forall j :: 0 <= j < m ==> ItemPresent(content, drafts, listKey, j)
    requires m < ScanLimit ==> !ItemPresent(content, drafts, listKey, m)
    ensures m == ListItemCount(content, drafts, listKey)
  {
  }

  /** A gap ends the scan: nothing at or after a missing index is counted. */
  lemma GapEndsScan(content: seq<ContentRow>, drafts: map<string, string>, listKey: string, g: nat)
    requires !ItemPresent(content, drafts, listKey, g)
    ensures ListItemCount(content, drafts, listKey) <= g
  {
  }

  /** No key lies under the prefixes of two different items of the same list:
      `L_1_` and `L_12_` differ where the first has `_` and the second a digit. */
  lemma ItemPrefixesDisjoint(listKey: string, i: nat, j: nat, key: string)
    requires StartsWith(key, ItemPrefix(listKey, i)) && StartsWith(key, ItemPrefix(listKey, j))
    ensures i == j
  {
    var a, b := NatToString(i), NatToString(j);
    var o := |listKey| + 1;
    assert key[..|ItemPrefix(listKey, i)|] == ItemPrefix(listKey, i);
    assert key[..|ItemPrefix(listKey, j)|] == ItemPrefix(listKey, j);
    assert forall k :: 0 <= k < |a| ==> key[o + k] == a[k] by {
      forall k | 0 <= k < |a| ensures key[o + k] == a[k] {
        assert ItemPrefix(listKey, i)[o + k] == a[k];
      }
    }
    assert forall k :: 0 <= k < |b| ==> key[o + k] == b[k] by {
      forall k | 0 <= k < |b| ensures key[o + k] == b[k] {
        assert ItemPrefix(listKey, j)[o + k] == b[k];
      }
    }
    assert key[o + |a|] == '_' by { assert ItemPrefix(listKey, i)[o + |a|] == '_'; }
    assert key[o + |b|] == '_' by { assert ItemPrefix(listKey, j)[o + |b|] == '_'; }
    assert a == b;
    NatToStringInjective(i, j);
  }

  /** The rows `addListItem` writes for a new item at index `count`: one per item
      field, under `listKey_count_field`, holding the placeholder or `""`. */
  function NewItemRows(listKey: string, count: nat, fields: seq<Field>, page: string): (items: seq<ContentItem>)
    ensures |items| == |fields|
    ensures forall k :: 0 <= k < |fields| ==>
      && items[k].key == ItemPrefix(listKey, count) + fields[k].key
      && items[k].value == OrElse(fields[k].placeholder, "")
      && items[k].contentType == "text" && items[k].page == page
  {
    seq(|fields|, k requires 0 <= k < |fields| =>
      ContentItem(ItemPrefix(listKey, count) + fields[k].key, OrElse(fields[k].placeholder, ""), "text", page))
  }

  /** The `disabled` state of the "Add" button: while saving, or once the count
      reached a (truthy) `maxItems`. */
  function AddDisabled(saving: bool, maxItems: Option<nat>, count: nat): (r: bool)
    ensures !r ==> !saving
    ensures !r && maxItems.Some? && maxItems.value > 0 ==> count < maxItems.value
    ensures maxItems.None? || maxItems.value == 0 ==> r == saving
    ensures !saving && (maxItems.None? || maxItems.value == 0 || count < maxItems.value) ==> !r
  {
    saving || (if maxItems.Some? && maxItems.value != 0 then count >= maxItems.value else false)
  }

  /** A row that exists in the table keeps existing, under the same key, after
      an upsert. */
  lemma {:induction false} LookupOfRow<V>(t: seq<Row<V>>, k: nat)
    requires k < |t|
    ensures Lookup(t, t[k].page, t[k].sectionKey).Some?
  {
    if k > 0 && !HasKey(t[0], t[k].page, t[k].sectionKey) {
      LookupOfRow(t[1..], k - 1);
    }
  }

  lemma {:induction false} RowOfLookup<V>(t: seq<Row<V>>, page: string, key: string) returns (k: nat)
    requires Lookup(t, page, key).Some?
    ensures k < |t| && HasKey(t[k], page, key)
  {
    if HasKey(t[0], page, key) {
      k := 0;
    } else {
      var k' := RowOfLookup(t[1..], page, key);
      k := k' + 1;
    }
  }

  lemma {:induction false} UpsertLookupSame<V>(t: seq<Row<V>>, page: string, key: string, v: V, n: RowId)
    ensures Lookup(Upsert(t, page, key, v, n), page, key) == Some(v)
  {
    if t != [] && !HasKey(t[0], page, key) {
      UpsertLookupSame(t[1..], page, key, v, n);
    }
  }

  /** After a batch, every key that was stored and every key the batch wrote
      can be found. */
  lemma {:induction false} UpsertAllKeepsKeys(t: seq<ContentRow>, items: seq<ContentItem>, hookPage: Option<string>, n: RowId, page: string, key: string)
    requires Lookup(t, page, key).Some? || exists i :: 0 <= i < |items| && WritesKey(items[i], hookPage, page, key)
    ensures Lookup(UpsertAll(t, items, hookPage, n), page, key).Some?
    decreases |items|
  {
    if items != [] {
      var it := items[0];
      var p := TargetPage(Some(it.page), hookPage);
      var t' := Upsert(t, p, it.key, ContentData(it.contentType, it.value), n);
      if p == page && it.key == key {
        UpsertLookupSame(t, p, it.key, ContentData(it.contentType, it.value), n);
      } else {
        UpsertLookupOther(t, p, it.key, ContentData(it.contentType, it.value), n, page, key);
        if Lookup(t, page, key).None? {
          var i :| 0 <= i < |items| && WritesKey(items[i], hookPage, page, key);
          assert i > 0;
          assert WritesKey(items[1..][i - 1], hookPage, page, key);
        }
      }
      UpsertAllKeepsKeys(t', items[1..], hookPage, n + 1, page, key);
    }
  }

  /** A stored row of `page` whose key starts with `p` survives a batch, as a row
      of `page` with the same key. */
  lemma PrefixedRowSurvives(t: seq<ContentRow>, items: seq<ContentItem>, page: string, n: RowId, p: string)
    requires page != ""
    requires HasPrefixedRow(RowsOfPage(t, Some(page)), p)
    ensures HasPrefixedRow(RowsOfPage(UpsertAll(t, items, Some(page), n), Some(page)), p)
  {
    var rows := RowsOfPage(t, Some(page));
    var k :| 0 <= k < |rows| && StartsWith(rows[k].sectionKey, p);
    var idx :| 0 <= idx < |t| && t[idx] == rows[k];
    LookupOfRow(t, idx);
    UpsertAllKeepsKeys(t, items, Some(page), n, page, rows[k].sectionKey);
    FoundInPage(UpsertAll(t, items, Some(page), n), page, rows[k].sectionKey, p);
  }

  lemma FoundInPage(t: seq<ContentRow>, page: string, key: string, p: string)
    requires page != "" && StartsWith(key, p)
    requires Lookup(t, page, key).Some?
    ensures HasPrefixedRow(RowsOfPage(t, Some(page)), p)
  {
    var idx := RowOfLookup(t, page, key);
    var rows := RowsOfPage(t, Some(page));
    assert t[idx] in rows;
    var k :| 0 <= k < |rows| && rows[k] == t[idx];
  }

  /** Adding an item to a list whose loaded rows match the store makes the new
      index count: the item lands at the first gap and the count grows. */
  lemma AddedItemIsCounted(t: seq<ContentRow>, drafts: map<string, string>, listKey: string, fields: seq<Field>, page: string, n: RowId)
    requires page != "" && |fields| > 0
    requires ListItemCount(RowsOfPage(t, Some(page)), drafts, listKey) < ScanLimit
    ensures var c := ListItemCount(RowsOfPage(t, Some(page)), drafts, listKey);
      ListItemCount(RowsOfPage(UpsertAll(t, NewItemRows(listKey, c, fields, page), Some(page), n), Some(page)), drafts, listKey) > c
  {
    var c := ListItemCount(RowsOfPage(t, Some(page)), drafts, listKey);
    var items := NewItemRows(listKey, c, fields, page);
    var t' := UpsertAll(t, items, Some(page), n);
    forall j | 0 <= j < c
      ensures ItemPresent(RowsOfPage(t', Some(page)), drafts, listKey, j)
    {
      OldItemStays(t, items, drafts, listKey, page, n, j);
    }
    assert WritesKey(items[0], Some(page), page, items[0].key);
    UpsertAllKeepsKeys(t, items, Some(page), n, page, items[0].key);
    StartsWithConcat(ItemPrefix(listKey, c), fields[0].key);
    FoundInPage(t', page, items[0].key, ItemPrefix(listKey, c));
    PresentUpToCounts(RowsOfPage(t', Some(page)), drafts, listKey, c);
  }

  lemma PresentUpToCounts(content: seq<ContentRow>, drafts: map<string, string>, listKey: string, c: nat)
    requires c < ScanLimit
    requires forall j :: 0 <= j <= c ==> ItemPresent(content, drafts, listKey, j)
    ensures ListItemCount(content, drafts, listKey) > c
  {
  }

  /** An item that was present is still present after a batch write. */
  lemma OldItemStays(t: seq<ContentRow>, items: seq<ContentItem>, drafts: map<string, string>, listKey: string, page: string, n: RowId, j: nat)
    requires page != "" && ItemPresent(RowsOfPage(t, Some(page)), drafts, listKey, j)
    ensures ItemPresent(RowsOfPage(UpsertAll(t, items, Some(page), n), Some(page)), drafts, listKey, j)
  {
    if HasPrefixedRow(RowsOfPage(t, Some(page)), ItemPrefix(listKey, j)) {
      PrefixedRowSurvives(t, items, page, n, ItemPrefix(listKey, j));
    }
  }

  /** The ids of `rows`. */
  function IdsOf<V>(rows: seq<Row<V>>): set<RowId> {
    set k | 0 <= k < |rows| :: rows[k].id
  }

  /** Deleting the next row of `rows`, unless its delete fails, extends the
      removal by that row's id. */
  lemma RemoveStep<V, W>(t: seq<Row<V>>, rows: seq<Row<W>>, failing: set<RowId>, i: nat)
    requires i < |rows|
    ensures var before := RemoveIds(t, IdsOf(rows[..i]) - failing);
      RemoveIds(t, IdsOf(rows[..i + 1]) - failing)
        == if rows[i].id in failing then before else DeleteById(before, rows[i].id)
  {
    IdsOfSnoc(rows, i);
    if rows[i].id in failing {
      assert IdsOf(rows[..i + 1]) - failing == IdsOf(rows[..i]) - failing;
    } else {
      RemoveThenDelete(t, IdsOf(rows[..i]) - failing, rows[i].id);
      assert IdsOf(rows[..i + 1]) - failing == (IdsOf(rows[..i]) - failing) + {rows[i].id};
    }
  }

  lemma IdsOfSnoc<V>(rows: seq<Row<V>>, i: nat)
    requires i < |rows|
    ensures IdsOf(rows[..i + 1]) == IdsOf(rows[..i]) + {rows[i].id}
  {
    var a, b := rows[..i + 1], rows[..i];
    forall x | x in IdsOf(a)
      ensures x in IdsOf(b) + {rows[i].id}
    {
      var k :| 0 <= k < |a| && a[k].id == x;
      if k < i {
        assert b[k] == a[k];
      }
    }
    forall x | x in IdsOf(b)
      ensures x in IdsOf(a)
    {
      var k :| 0 <= k < |b| && b[k].id == x;
      assert a[k] == b[k];
    }
    assert a[i] == rows[i];
  }

  /** `rows.filter(r => r.section_key.startsWith(p))`. */
  function RowsWithPrefix<V>(rows: seq<Row<V>>, p: string): (r: seq<Row<V>>)
    ensures forall k :: 0 <= k < |r| ==> r[k] in rows && StartsWith(r[k].sectionKey, p)
    ensures forall k :: 0 <= k < |rows| && StartsWith(rows[k].sectionKey, p) ==> rows[k] in r
  {
    if rows == [] then []
    else (if StartsWith(rows[0].sectionKey, p) then [rows[0]] else []) + RowsWithPrefix(rows[1..], p)
  }

  /** Deleting the rows of item `index`, as loaded from a page whose loaded rows
      match the store, removes exactly the store's rows of that page under
      `L_index_` and keeps every other row, in particular every row of every
      other item. */
  lemma DeleteItemRemovesExactly<V>(t: seq<Row<V>>, page: string, listKey: string, index: nat, x: Row<V>)
    requires page != "" && IdsUnique(t) && x in t
    ensures var after := RemoveIds(t, IdsOf(RowsWithPrefix(RowsOfPage(t, Some(page)), ItemPrefix(listKey, index))));
      (x in after <==> !(x.page == page && StartsWith(x.sectionKey, ItemPrefix(listKey, index))))
    ensures forall j :: j != index && StartsWith(x.sectionKey, ItemPrefix(listKey, j)) ==>
      x in RemoveIds(t, IdsOf(RowsWithPrefix(RowsOfPage(t, Some(page)), ItemPrefix(listKey, index))))
  {
    var p := ItemPrefix(listKey, index);
    var doomed := RowsWithPrefix(RowsOfPage(t, Some(page)), p);
    var xi :| 0 <= xi < |t| && t[xi] == x;
    if x.page == page && StartsWith(x.sectionKey, p) {
      var rows := RowsOfPage(t, Some(page));
      var k :| 0 <= k < |rows| && rows[k] == x;
      var d :| 0 <= d < |doomed| && doomed[d] == x;
      assert x.id in IdsOf(doomed);
    } else {
      forall d | 0 <= d < |doomed|
        ensures doomed[d].id != x.id
      {
        var rows := RowsOfPage(t, Some(page));
        assert doomed[d] in rows;
        assert doomed[d] != x;
        var yi :| 0 <= yi < |t| && t[yi] == doomed[d];
      }
    }
    forall j | j != index && StartsWith(x.sectionKey, ItemPrefix(listKey, j))
      ensures x in RemoveIds(t, IdsOf(doomed))
    {
      if StartsWith(x.sectionKey, p) {
        ItemPrefixesDisjoint(listKey, index, j, x.sectionKey);
      }
    }
  }

  /** Deleting a middle item is not followed by renumbering, so once its rows are
      gone (and no draft names it) the scan stops there: the items after it stay
      stored but are no longer counted. */
  lemma DeleteHidesLaterItems(t: seq<ContentRow>, drafts: map<string, string>, page: string, listKey: string, index: nat)
    requires page != "" && IdsUnique(t)
    requires !HasPrefixedDraft(drafts, ItemPrefix(listKey, index))
    ensures var after := RemoveIds(t, IdsOf(RowsWithPrefix(RowsOfPage(t, Some(page)), ItemPrefix(listKey, index))));
      ListItemCount(RowsOfPage(after, Some(page)), drafts, listKey) <= index
  {
    var p := ItemPrefix(listKey, index);
    var after := RemoveIds(t, IdsOf(RowsWithPrefix(RowsOfPage(t, Some(page)), p)));
    var rows := RowsOfPage(after, Some(page));
    forall k | 0 <= k < |rows|
      ensures !StartsWith(rows[k].sectionKey, p)
    {
      assert rows[k] in after;
      assert rows[k] in t;
      DeleteItemRemovesExactly(t, page, listKey, index, rows[k]);
    }
    GapEndsScan(rows, drafts, listKey, index);
  }

  /** When the add button is enabled on a well-formed list section (every
      configured one is, see `ConfigWellFormed`), the count is below the cap,
      hence below the 50-slot scan, and the new item is counted. */
  lemma EnabledAddIsCounted(s: Section, page: string, t: seq<ContentRow>, drafts: map<string, string>, n: RowId)
    requires SectionWellFormed(s) && s.listKey.Some? && page != ""
    requires !AddDisabled(false, s.maxItems, ListItemCount(RowsOfPage(t, Some(page)), drafts, s.listKey.value))
    ensures var c := ListItemCount(RowsOfPage(t, Some(page)), drafts, s.listKey.value);
      s.listItem.Some? && c < s.maxItems.value <= 30 &&
      ListItemCount(RowsOfPage(UpsertAll(t, NewItemRows(s.listKey.value, c, s.listItem.value.fields, page), Some(page), n),
                               Some(page)), drafts, s.listKey.value) > c
  {
    AddedItemIsCounted(t, drafts, s.listKey.value, s.listItem.value.fields, page, n);
  }

  /** A batch whose items all target `page` under distinct keys stores every
      item's value under its key. */
  lemma BatchStoresEach(t: seq<ContentRow>, items: seq<ContentItem>, page: string, n: RowId, i: nat)
    requires KeysUnique(t) && page != "" && i < |items|
    requires forall j :: 0 <= j < |items| ==> items[j].page == page
    requires forall j, l :: 0 <= j < l < |items| ==> items[j].key != items[l].key
    ensures Lookup(UpsertAll(t, items, Some(page), n), page, items[i].key) == Some(ContentData(items[i].contentType, items[i].value))
  {
    UpsertAllLastWins(t, items, Some(page), n, i);
  }

  /** `items` holds one text item per draft on `page`, each key once. */
  ghost predicate IsDraftBatch(items: seq<ContentItem>, drafts: map<string, string>, page: string) {
    && (forall i :: 0 <= i < |items| ==> items[i].key in drafts)
    && (forall i :: 0 <= i < |items| ==> items[i] == ContentItem(items[i].key, drafts[items[i].key], "text", page))
    && (forall i, j :: 0 <= i < j < |items| ==> items[i].key != items[j].key)
    && (forall k :: k in drafts ==> exists i :: 0 <= i < |items| && items[i].key == k)
  }

  /** The outcome of sending every draft in one batch: no error exactly when
      no item failed, and then every drafted value stored under its key. */
  lemma DraftBatchOutcome(t: seq<ContentRow>, drafts: map<string, string>, items: seq<ContentItem>, page: string, n: RowId,
                          faults: seq<Option<StoreError>>, error: Option<StoreError>)
    requires KeysUnique(t) && page != "" && |faults| == |items|
    requires IsDraftBatch(items, drafts, page)
    requires error == if FirstFault(faults) < |items| then faults[FirstFault(faults)] else None
    ensures error.None? <==> FirstFault(faults) == |faults|
    ensures error.None? ==> items[..FirstFault(faults)] == items
    ensures error.None? ==> forall k :: k in drafts ==> Lookup(UpsertAll(t, items, Some(page), n), page, k) == Some(ContentData("text", drafts[k]))
  {
    if error.None? {
      assert items[..FirstFault(faults)] == items;
      DraftsAllStored(t, drafts, items, page, n);
    }
  }

  /** A batch holding one text item per draft stores every drafted value
      under its key. */
  lemma DraftsAllStored(t: seq<ContentRow>, drafts: map<string, string>, items: seq<ContentItem>, page: string, n: RowId)
    requires KeysUnique(t) && page != ""
    requires IsDraftBatch(items, drafts, page)
    ensures forall k :: k in drafts ==> Lookup(UpsertAll(t, items, Some(page), n), page, k) == Some(ContentData("text", drafts[k]))
  {
    forall k | k in drafts
      ensures Lookup(UpsertAll(t, items, Some(page), n), page, k) == Some(ContentData("text", drafts[k]))
    {
      var i :| 0 <= i < |items| && items[i].key == k;
      BatchStoresEach(t, items, page, n, i);
    }
  }

  /** From `before` to `after` exactly the drafts in `written` were stored:
      each holds its drafted value, and every other (page, key) reads as before. */
  ghost predicate DraftsWritten(before: seq<ContentRow>, after: seq<ContentRow>, drafts: map<string, string>, page: string, written: set<string>) {
    && written <= drafts.Keys
    && (forall k :: k in written ==> Lookup(after, page, k) == Some(ContentData("text", drafts[k])))
    && (forall p, k :: !(p == page && k in written) ==> Lookup(after, p, k) == Lookup(before, p, k))
  }

  /** The keys of `items`. */
  function KeysOf(items: seq<ContentItem>): (r: set<string>)
    ensures forall i :: 0 <= i < |items| ==> items[i].key in r
    ensures forall k :: k in r ==> exists i :: 0 <= i < |items| && items[i].key == k
  {
    if items == [] then {} else {items[0].key} + KeysOf(items[1..])
  }

  /** Items with pairwise distinct keys have as many keys as items. */
  lemma {:induction false} KeysOfDistinct(items: seq<ContentItem>)
    requires forall i, j :: 0 <= i < j < |items| ==> items[i].key != items[j].key
    ensures |KeysOf(items)| == |items|
  {
    if items != [] {
      KeysOfDistinct(items[1..]);
      forall i | 0 <= i < |items[1..]|
        ensures items[1..][i].key != items[0].key
      {
        assert items[1..][i] == items[i + 1];
      }
    }
  }

  /** The first `f` items of a draft batch store their drafts and nothing else. */
  lemma DraftPrefixWritten(t: seq<ContentRow>, drafts: map<string, string>, items: seq<ContentItem>, page: string, n: RowId, f: nat)
    returns (written: set<string>)
    requires KeysUnique(t) && page != "" && f <= |items|
    requires IsDraftBatch(items, drafts, page)
    ensures DraftsWritten(t, UpsertAll(t, items[..f], Some(page), n), drafts, page, written)
    ensures |written| == f
  {
    written := KeysOf(items[..f]);
    KeysOfDistinct(items[..f]);
    PrefixStoresDrafts(t, drafts, items, page, n, f);
    PrefixKeepsOthers(t, items, page, n, f);
  }

  lemma PrefixStoresDrafts(t: seq<ContentRow>, drafts: map<string, string>, items: seq<ContentItem>, page: string, n: RowId, f: nat)
    requires KeysUnique(t) && page != "" && f <= |items|
    requires IsDraftBatch(items, drafts, page)
    ensures KeysOf(items[..f]) <= drafts.Keys
    ensures forall k :: k in KeysOf(items[..f]) ==>
      Lookup(UpsertAll(t, items[..f], Some(page), n), page, k) == Some(ContentData("text", drafts[k]))
  {
    var pre := items[..f];
    assert forall j :: 0 <= j < |pre| ==> pre[j].page == page && pre[j].key in drafts;
    assert forall j, l :: 0 <= j < l < |pre| ==> pre[j].key != pre[l].key;
    forall k | k in KeysOf(pre)
      ensures k in drafts && Lookup(UpsertAll(t, pre, Some(page), n), page, k) == Some(ContentData("text", drafts[k]))
    {
      var i :| 0 <= i < |pre| && pre[i].key == k;
      assert pre[i] == items[i];
      BatchStoresEach(t, pre, page, n, i);
    }
  }

  lemma PrefixKeepsOthers(t: seq<ContentRow>, items: seq<ContentItem>, page: string, n: RowId, f: nat)
    requires page != "" && f <= |items|
    requires forall i :: 0 <= i < |items| ==> items[i].page == page
    ensures forall p, k :: !(p == page && k in KeysOf(items[..f])) ==>
      Lookup(UpsertAll(t, items[..f], Some(page), n), p, k) == Lookup(t, p, k)
  {
    var pre := items[..f];
    forall p, k | !(p == page && k in KeysOf(pre))
      ensures Lookup(UpsertAll(t, pre, Some(page), n), p, k) == Lookup(t, p, k)
    {
      UpsertAllOther(t, pre, Some(page), n, p, k);
    }
  }

  /** After a save, a drafted value is not lost: it is stored under its key on
      the page, or still pending in the drafts. */
  predicate EditSurvives(content: seq<ContentRow>, drafts: map<string, string>, page: string, key: string, value: string) {
    Lookup(content, page, key) == Some(ContentData("text", value)) || (key in drafts && drafts[key] == value)
  }

  /** `saveField` as written drops the draft even when the store refused the
      write: with an empty store and one draft, a refused save keeps neither. */
  lemma SaveFieldLosesEditOnError()
    ensures var drafts := map["hero_title" := "New title"];
      !EditSurvives([], drafts - {"hero_title"}, "home", "hero_title", "New title")
  {
  }

  datatype ProfileForm = ProfileForm(email: string, password: string, confirmPassword: string)

  /** The body of the `PUT /auth/update-profile` request. */
  datatype ProfileRequest = ProfileRequest(email: string, password: Option<string>)

  /** `handleUpdateProfile`'s decision: a non-empty password that differs from its
      confirmation sends nothing; otherwise the email and the password (left out
      when empty) are sent. */
  function ProfileRequestOf(form: ProfileForm): (r: Result<ProfileRequest, string>)
    ensures r.Failure? <==> form.password != "" && form.password != form.confirmPassword
    ensures r.Failure? ==> r.error == "Passwords do not match"
    ensures r.Success? ==> r.value.email == form.email
    ensures r.Success? ==> (r.value.password.Some? <==> form.password != "")
    ensures r.Success? && r.value.password.Some? ==> r.value.password.value == form.password == form.confirmPassword
  {
    if form.password != "" && form.password != form.confirmPassword then Failure("Passwords do not match")
    else Success(ProfileRequest(form.email, if form.password != "" then Some(form.password) else None))
  }

  /** The editor's state: the selected page, its CMS hook and the global one,
      the drafts overlay, the saving flag and the profile form. */
  class Dashboard {
    var activePage: string
    var cms: CmsHook
    const globalCms: CmsHook
    var drafts: map<string, string>
    var saving: bool
    var profile: ProfileForm

    ghost predicate Valid()
      reads this`activePage, this`cms
    {
      && cms.page == Some(activePage) && globalCms.page == Some("global")
      && activePage != "" && cms.remote == globalCms.remote
    }

    /** `activePage === "global" ? globalCms : cms`. */
    function ActiveCms(): (h: CmsHook)
      reads this`activePage, this`cms
      ensures h == cms || h == globalCms
    {
      if activePage == "global" then globalCms else cms
    }

    lemma ActivePageOfHook()
      requires Valid()
      ensures ActiveCms().page == Some(activePage)
    {
    }

    constructor (cms: CmsHook, globalCms: CmsHook)
      requires cms.page == Some("home") && globalCms.page == Some("global") && cms.remote == globalCms.remote
      ensures Valid() && this.cms == cms && this.globalCms == globalCms
      ensures activePage == "home" && drafts == map[] && !saving && profile == ProfileForm("", "", "")
    {
      activePage, this.cms, this.globalCms := "home", cms, globalCms;
      drafts, saving, profile := map[], false, ProfileForm("", "", "");
    }

    /** `setActivePage(page)`: selecting another page switches the page hook,
        and the `[activePage]` effect discards the drafts. Selecting the page
        already shown sets the same state, so nothing re-renders, the effect
        does not run and the drafts stay. */
    method SelectPage(page: string, hook: CmsHook)
      requires Valid() && page != "" && hook.page == Some(page) && hook.remote == globalCms.remote
      modifies this
      ensures Valid() && saving == old(saving) && profile == old(profile)
      ensures page == old(activePage) ==> activePage == old(activePage) && cms == old(cms) && drafts == old(drafts)
      ensures page != old(activePage) ==> activePage == page && cms == hook && drafts == map[]
    {
      if page != activePage {
        activePage, cms, drafts := page, hook, map[];
      }
    }

    /** `getDraftOrValue(key, fallback)`: the draft shadows the stored value. */
    function GetDraftOrValue(key: string, fallback: string): (r: string)
      reads this`drafts, this`activePage, this`cms, ActiveCms()
      ensures key in drafts ==> r == drafts[key]
      ensures key !in drafts ==> r == ActiveCms().GetContent(key, fallback)
    {
      if key in drafts then drafts[key] else ActiveCms().GetContent(key, fallback)
    }

    /** `setDraft(key, value)`. */
    method SetDraft(key: string, value: string)
      modifies this`drafts
      ensures drafts == old(drafts)[key := value]
    {
      drafts := drafts[key := value];
    }

    /** `saveField(key)` as written: without a draft nothing happens; otherwise
        the draft is written to the active page and then removed from the
        drafts whether or not the write succeeded. */
    method SaveField(key: string, fault: Option<StoreError>, refetch: Refetch)
      requires Valid() && ActiveCms().remote.Valid()
      modifies this`drafts, this`saving, ActiveCms(), ActiveCms().remote
      ensures Valid() && ActiveCms().remote.Valid()
      ensures key !in old(drafts) ==>
        unchanged(ActiveCms()) && unchanged(ActiveCms().remote) && drafts == old(drafts) && saving == old(saving)
      ensures key in old(drafts) ==> drafts == old(drafts) - {key} && !saving
      ensures key in old(drafts) && fault.Some? ==> unchanged(ActiveCms()) && unchanged(ActiveCms().remote)
      ensures key in old(drafts) && fault.None? ==>
        ActiveCms().remote.content == Upsert(old(ActiveCms().remote.content), activePage, key, ContentData("text", old(drafts)[key]), old(ActiveCms().remote.nextId))
        && ActiveCms().Loaded(refetch)
    {
      if key !in drafts {
        return;
      }
      saving := true;
      var hook := ActiveCms();
      var _ := hook.UpsertContent(key, drafts[key], "text", Some(activePage), fault, refetch);
      assert hook == ActiveCms();
      drafts := drafts - {key};
      saving := false;
    }

    /** `saveField` keeping the draft when the write is refused, so that an
        edit is never lost. */
    method SaveFieldKeepingDraft(key: string, fault: Option<StoreError>, refetch: Refetch)
      requires Valid() && ActiveCms().remote.Valid()
      modifies this`drafts, this`saving, ActiveCms(), ActiveCms().remote
      ensures Valid() && ActiveCms().remote.Valid()
      ensures key !in old(drafts) ==>
        unchanged(ActiveCms()) && unchanged(ActiveCms().remote) && drafts == old(drafts) && saving == old(saving)
      ensures key in old(drafts) ==>
        !saving && EditSurvives(ActiveCms().remote.content, drafts, activePage, key, old(drafts)[key])
      ensures key in old(drafts) ==> drafts == if fault.None? then old(drafts) - {key} else old(drafts)
      ensures key in old(drafts) && fault.Some? ==> unchanged(ActiveCms()) && unchanged(ActiveCms().remote)
      ensures key in old(drafts) && fault.None? ==>
        ActiveCms().remote.content == Upsert(old(ActiveCms().remote.content), activePage, key, ContentData("text", old(drafts)[key]), old(ActiveCms().remote.nextId))
        && ActiveCms().Loaded(refetch)
    {
      if key !in drafts {
        return;
      }
      saving := true;
      var hook := ActiveCms();
      var value := drafts[key];
      var error := hook.UpsertContent(key, value, "text", Some(activePage), fault, refetch);
      assert hook == ActiveCms();
      if error.None? {
        UpsertLookupSame(old(hook.remote.content), activePage, key, ContentData("text", value), old(hook.remote.nextId));
        drafts := drafts - {key};
      }
      saving := false;
    }

    /** `saveAllDrafts()`: without drafts nothing happens; otherwise every draft
        is sent in one batch to the active page, and the drafts are cleared only
        when the batch reports no error. `written` names the drafts the store
        accepted before the first refused write: exactly those rows changed. */
    method SaveAllDrafts(faults: seq<Option<StoreError>>, refetch: Refetch)
      returns (error: Option<StoreError>, ghost written: set<string>)
      requires Valid() && ActiveCms().remote.Valid() && |faults| == |drafts.Keys|
      modifies this`drafts, this`saving, ActiveCms(), ActiveCms().remote
      ensures Valid() && ActiveCms().remote.Valid()
      ensures old(drafts) == map[] ==>
        error.None? && unchanged(ActiveCms()) && unchanged(ActiveCms().remote) && drafts == old(drafts) && saving == old(saving)
      ensures old(drafts) != map[] ==> !saving && (error.None? <==> FirstFault(faults) == |faults|)
      ensures old(drafts) != map[] && error.Some? ==> drafts == old(drafts)
      ensures old(drafts) != map[] && error.None? ==>
        && drafts == map[] && ActiveCms().Loaded(refetch)
        && forall k :: k in old(drafts) ==> Lookup(ActiveCms().remote.content, activePage, k) == Some(ContentData("text", old(drafts)[k]))
      ensures DraftsWritten(old(ActiveCms().remote.content), ActiveCms().remote.content, old(drafts), activePage, written)
      ensures |written| == FirstFault(faults) || old(drafts) == map[]
      ensures ActiveCms().remote.images == old(ActiveCms().remote.images)
    {
      if drafts == map[] {
        written := {};
        return None, written;
      }
      saving := true;
      var hook := ActiveCms();
      error, written := SendDrafts(hook, drafts, activePage, faults, refetch);
      assert hook == ActiveCms();
      if error.None? {
        drafts := map[];
      }
      saving := false;
    }

    /** `handleUpdateProfile`: mismatched passwords send nothing and change
        nothing; otherwise the request is sent and, when the response is ok,
        both password fields are cleared. The returned text is the toast. */
    method HandleUpdateProfile(responseOk: bool) returns (sent: Option<ProfileRequest>, toast: string)
      modifies this`profile, this`saving
      ensures ProfileRequestOf(old(profile)).Failure? ==>
        sent.None? && toast == "Passwords do not match" && profile == old(profile) && saving == old(saving)
      ensures ProfileRequestOf(old(profile)).Success? ==>
        && sent == Some(ProfileRequestOf(old(profile)).value) && !saving
        && (responseOk ==> profile == old(profile).(password := "", confirmPassword := "") && toast == "Profile updated successfully")
        && (!responseOk ==> profile == old(profile) && toast == "Failed to update profile")
    {
      var request := ProfileRequestOf(profile);
      if request.Failure? {
        return None, request.error;
      }
      saving := true;
      sent := Some(request.value);
      if responseOk {
        toast := "Profile updated successfully";
        profile := profile.(password := "", confirmPassword := "");
      } else {
        toast := "Failed to update profile";
      }
      saving := false;
    }

    /** `getListItemCount(prefix)`: the scan over `0 .. 49` that stops at the first gap. */
    method GetListItemCount(listKey: string) returns (count: nat)
      ensures count == ListItemCount(ActiveCms().content, drafts, listKey)
    {
      var content := ActiveCms().content;
      count := 0;
      for i := 0 to ScanLimit
        invariant count == i
        invariant forall j :: 0 <= j < i ==> ItemPresent(content, drafts, listKey, j)
      {
        var found := HasPrefixedRow(content, ItemPrefix(listKey, i));
        if !found && !HasPrefixedDraft(drafts, ItemPrefix(listKey, i)) {
          break;
        }
        count := count + 1;
      }
      CountUnique(content, drafts, listKey, count);
    }

    /** `addListItem(section)`: sections without a (truthy) list key or an item
        shape are ignored; otherwise one row per item field is written at the
        index the scan returns. `faults` are the store's answers to the writes. */
    method AddListItem(section: Section, faults: seq<Option<StoreError>>, refetch: Refetch)
      requires Valid() && ActiveCms().remote.Valid()
      requires section.listItem.Some? ==> |faults| == |section.listItem.value.fields|
      modifies this`saving, ActiveCms(), ActiveCms().remote
      ensures Valid() && ActiveCms().remote.Valid()
      ensures !Truthy(section.listKey) || section.listItem.None? ==>
        unchanged(ActiveCms()) && unchanged(ActiveCms().remote) && saving == old(saving)
      ensures Truthy(section.listKey) && section.listItem.Some? ==>
        var items := NewItemRows(section.listKey.value, ListItemCount(old(ActiveCms().content), drafts, section.listKey.value),
                                 section.listItem.value.fields, activePage);
        ActiveCms().remote.content == UpsertAll(old(ActiveCms().remote.content), items[..FirstFault(faults)], Some(activePage), old(ActiveCms().remote.nextId))
        && ActiveCms().remote.images == old(ActiveCms().remote.images)
        && (FirstFault(faults) > 0 ==> ActiveCms().Loaded(refetch)) && !saving
    {
      if !Truthy(section.listKey) || section.listItem.None? {
        return;
      }
      var listKey := section.listKey.value;
      var count := GetListItemCount(listKey);
      saving := true;
      SendItemRows(ActiveCms(), activePage, listKey, count, section.listItem.value.fields, faults, refetch);
      saving := false;
    }

    /** `deleteListItem(section, index)`: with a (truthy) list key and the user's
        confirmation, every loaded content row and image row under
        `listKey_index_` is deleted by id, one after another, then the page is
        refetched with outcome `refetch`. A delete the store refuses (its id in
        `failing`) is skipped. */
    method DeleteListItem(section: Section, index: nat, confirmed: bool, failing: set<RowId>, refetch: Refetch)
      requires Valid() && ActiveCms().remote.Valid()
      modifies this`saving, ActiveCms(), ActiveCms().remote
      ensures Valid() && ActiveCms().remote.Valid()
      ensures !Truthy(section.listKey) || !confirmed ==>
        unchanged(ActiveCms()) && unchanged(ActiveCms().remote) && saving == old(saving)
      ensures Truthy(section.listKey) && confirmed ==>
        var p := ItemPrefix(section.listKey.value, index);
        && ActiveCms().remote.content == RemoveIds(old(ActiveCms().remote.content), IdsOf(RowsWithPrefix(old(ActiveCms().content), p)) - failing)
        && ActiveCms().remote.images == RemoveIds(old(ActiveCms().remote.images), IdsOf(RowsWithPrefix(old(ActiveCms().images), p)) - failing)
        && ActiveCms().Loaded(refetch) && !saving
    {
      if !Truthy(section.listKey) || !confirmed {
        return;
      }
      saving := true;
      var hook := ActiveCms();
      var p := ItemPrefix(section.listKey.value, index);
      var toDelete := RowsWithPrefix(hook.content, p);
      var imgToDelete := RowsWithPrefix(hook.images, p);
      DeleteContentRows(hook, toDelete, failing, refetch);
      DeleteImageRows(hook, imgToDelete, failing, refetch);
      hook.FetchContent(refetch);
      saving := false;
    }
  }

  /** The `for (const item of toDelete) await deleteContent(item.id)` loop. */
  method DeleteContentRows(hook: CmsHook, rows: seq<ContentRow>, failing: set<RowId>, refetch: Refetch)
    requires hook.remote.Valid()
    modifies hook`content, hook`images, hook`loading, hook.remote
    ensures hook.remote.Valid()
    ensures hook.remote.content == RemoveIds(old(hook.remote.content), IdsOf(rows) - failing)
    ensures hook.remote.images == old(hook.remote.images)
  {
    RemoveNone(hook.remote.content);
    assert IdsOf(rows[..0]) - failing == {};
    for i := 0 to |rows|
      invariant hook.remote.Valid()
      invariant hook.remote.content == RemoveIds(old(hook.remote.content), IdsOf(rows[..i]) - failing)
      invariant hook.remote.images == old(hook.remote.images)
    {
      var fault := if rows[i].id in failing then Some(StoreError("delete failed")) else None;
      var _ := hook.DeleteContent(rows[i].id, fault, refetch);
      RemoveStep(old(hook.remote.content), rows, failing, i);
    }
    assert rows[..|rows|] == rows;
  }

  /** The `for (const img of imgToDelete) await deleteImage(img.id)` loop. */
  method DeleteImageRows(hook: CmsHook, rows: seq<ImageRow>, failing: set<RowId>, refetch: Refetch)
    requires hook.remote.Valid()
    modifies hook`content, hook`images, hook`loading, hook.remote
    ensures hook.remote.Valid()
    ensures hook.remote.images == RemoveIds(old(hook.remote.images), IdsOf(rows) - failing)
    ensures hook.remote.content == old(hook.remote.content)
  {
    RemoveNone(hook.remote.images);
    assert IdsOf(rows[..0]) - failing == {};
    for i := 0 to |rows|
      invariant hook.remote.Valid()
      invariant hook.remote.images == RemoveIds(old(hook.remote.images), IdsOf(rows[..i]) - failing)
      invariant hook.remote.content == old(hook.remote.content)
    {
      var fault := if rows[i].id in failing then Some(StoreError("delete failed")) else None;
      var _ := hook.DeleteImage(rows[i].id, fault, refetch);
      RemoveStep(old(hook.remote.images), rows, failing, i);
    }
    assert rows[..|rows|] == rows;
  }

  /** Writes the rows of a new list item at index `count` to the store in one batch. */
  method SendItemRows(hook: CmsHook, page: string, listKey: string, count: nat, fields: seq<Field>, faults: seq<Option<StoreError>>,
                      refetch: Refetch)
    requires hook.remote.Valid() && |faults| == |fields|
    modifies hook, hook.remote
    ensures hook.remote.Valid()
    ensures hook.remote.content == UpsertAll(old(hook.remote.content), NewItemRows(listKey, count, fields, page)[..FirstFault(faults)], hook.page, old(hook.remote.nextId))
    ensures hook.remote.images == old(hook.remote.images)
    ensures FirstFault(faults) > 0 ==> hook.Loaded(refetch)
  {
    var items := NewItemRows(listKey, count, fields, page);
    var _ := hook.BatchUpsertContent(items, faults, refetch);
  }

  /** Sends every draft of `page` to the store in one batch; `written` are
      the drafts stored before the first refused write. */
  method SendDrafts(hook: CmsHook, drafts: map<string, string>, page: string, faults: seq<Option<StoreError>>, refetch: Refetch)
    returns (error: Option<StoreError>, ghost written: set<string>)
    requires hook.page == Some(page) && page != "" && hook.remote.Valid() && drafts != map[] && |faults| == |drafts.Keys|
    modifies hook, hook.remote
    ensures hook.remote.Valid()
    ensures error.None? <==> FirstFault(faults) == |faults|
    ensures error.None? ==>
      && hook.Loaded(refetch)
      && forall k :: k in drafts ==> Lookup(hook.remote.content, page, k) == Some(ContentData("text", drafts[k]))
    ensures DraftsWritten(old(hook.remote.content), hook.remote.content, drafts, page, written)
    ensures |written| == FirstFault(faults)
    ensures hook.remote.images == old(hook.remote.images)
  {
    var items := DraftItems(drafts, page);
    assert |items| > 0 by {
      var k0 :| k0 in drafts;
      assert k0 in drafts.Keys;
    }
    error := hook.BatchUpsertContent(items, faults, refetch);
    DraftBatchOutcome(old(hook.remote.content), drafts, items, page, old(hook.remote.nextId), faults, error);
    written := DraftPrefixWritten(old(hook.remote.content), drafts, items, page, old(hook.remote.nextId), FirstFault(faults));
  }

  /** `Object.entries(drafts).map(([key, value]) => ({ key, value, type: "text", page }))`:
      one item per draft, each key once (the order of the entries is not modelled). */
  method DraftItems(drafts: map<string, string>, page: string) returns (items: seq<ContentItem>)
    ensures |items| == |drafts.Keys|
    ensures IsDraftBatch(items, drafts, page)
  {
    var keys := drafts.Keys;
    items := [];
    while keys != {}
      invariant keys <= drafts.Keys
      invariant |items| + |keys| == |drafts.Keys|
      invariant forall i :: 0 <= i < |items| ==> items[i].key in drafts && items[i].key !in keys
      invariant forall i :: 0 <= i < |items| ==> items[i] == ContentItem(items[i].key, drafts[items[i].key], "text", page)
      invariant forall i, j :: 0 <= i < j < |items| ==> items[i].key != items[j].key
      invariant forall k :: k in drafts && k !in keys ==> exists i :: 0 <= i < |items| && items[i].key == k
      decreases keys
    {
      var k :| k in keys;
      ghost var before := items;
      items := items + [ContentItem(k, drafts[k], "text", page)];
      keys := keys - {k};
      assert items[|items| - 1].key == k;
      assert forall i :: 0 <= i < |before| ==> items[i] == before[i];
    }
  }
}
