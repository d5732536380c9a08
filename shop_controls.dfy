/**
 * The shop controls: the `withSort` link builder over a path and its query
 * parameters, the category chip and sort links, and which chip is active.
 */
module ShopControls {

  import opened Wrappers

  /** A parsed relative URL: its pathname and its search parameters, in order. */
  datatype Url = Url(path: string, query: seq<(string, string)>)

  // ---------------------------------------------------------------------------
  // URLSearchParams

  /** `get(key)`: the value of the first entry with that key. */
  function Get(q: seq<(string, string)>, key: string): Option<string> {
    if q == [] then None else if q[0].0 == key then Some(q[0].1) else Get(q[1..], key)
  }

  /** `delete(key)`: drop every entry with that key. */
  function Delete(q: seq<(string, string)>, key: string): (r: seq<(string, string)>)
    ensures |r| <= |q|
    ensures forall k :: 0 <= k < |r| ==> r[k].0 != key
  {
    if q == [] then []
    else if q[0].0 == key then Delete(q[1..], key)
    else [q[0]] + Delete(q[1..], key)
  }

  /** The first entry with the key takes the value; later entries with the key are dropped. */
  function ReplaceFirst(q: seq<(string, string)>, key: string, value: string): seq<(string, string)> {
    if q == [] then []
    else if q[0].0 == key then [(key, value)] + Delete(q[1..], key)
    else [q[0]] + ReplaceFirst(q[1..], key, value)
  }

  /** `set(key, value)`: replace the key's entries by one, in place of the first; else append. */
  function Set(q: seq<(string, string)>, key: string, value: string): seq<(string, string)> {
    if Get(q, key).Some? then ReplaceFirst(q, key, value) else q + [(key, value)]
  }

  /** `toString()`: the entries as `key=value`, joined by `&`. */
  function QueryString(q: seq<(string, string)>): (s: string)
    ensures s == "" <==> q == []
  {
    if q == [] then ""
    else if |q| == 1 then q[0].0 + "=" + q[0].1
    else q[0].0 + "=" + q[0].1 + "&" + QueryString(q[1..])
  }

  /** `pathname` followed by `?` and the query only when the query is not empty. */
  function Href(u: Url): (s: string)
    ensures |s| >= |u.path| && s[..|u.path|] == u.path
  {
    var qs := QueryString(u.query);
    u.path + (if qs != "" then "?" + qs else "")
  }

  // ---------------------------------------------------------------------------
  // Properties of the search parameters

  /** After `delete`, no entry has the key and the other entries stay in order. */
  lemma {:induction false} DeleteProps(q: seq<(string, string)>, key: string)
    ensures Get(Delete(q, key), key) == None
    ensures Delete(Delete(q, key), key) == Delete(q, key)
    ensures forall k :: k != key ==> Get(Delete(q, key), k) == Get(q, k)
  {
    if q != [] {
      DeleteProps(q[1..], key);
    }
  }

  /** Replacing the first entry of a key present in `q` leaves one entry with the new value. */
  lemma {:induction false} ReplaceFirstProps(q: seq<(string, string)>, key: string, value: string)
    requires Get(q, key).Some?
    ensures Get(ReplaceFirst(q, key, value), key) == Some(value)
    ensures Delete(ReplaceFirst(q, key, value), key) == Delete(q, key)
    ensures ReplaceFirst(ReplaceFirst(q, key, value), key, value) == ReplaceFirst(q, key, value)
  {
    if q[0].0 == key {
      DeleteProps(q[1..], key);
    } else {
      ReplaceFirstProps(q[1..], key, value);
    }
  }

  /** A list with no entry for the key is not changed by deleting it. */
  lemma {:induction false} DeleteFixed(q: seq<(string, string)>, key: string)
    requires Get(q, key) == None
    ensures Delete(q, key) == q
  {
    if q != [] {
      DeleteFixed(q[1..], key);
    }
  }

  /** Appending an entry for a key the list lacks. */
  lemma {:induction false} AppendProps(q: seq<(string, string)>, key: string, value: string)
    requires Get(q, key) == None
    ensures Get(q + [(key, value)], key) == Some(value)
    ensures Delete(q + [(key, value)], key) == Delete(q, key)
  {
    if q != [] {
      assert (q + [(key, value)])[1..] == q[1..] + [(key, value)];
      AppendProps(q[1..], key, value);
    } else {
      assert [(key, value)][1..] == [];
    }
  }

  /** `set` leaves exactly the given value under the key and the other entries as they were, in order. */
  lemma SetProps(q: seq<(string, string)>, key: string, value: string)
    ensures Get(Set(q, key, value), key) == Some(value)
    ensures Delete(Set(q, key, value), key) == Delete(q, key)
    ensures Set(Set(q, key, value), key, value) == Set(q, key, value)
  {
    if Get(q, key).Some? {
      ReplaceFirstProps(q, key, value);
    } else {
      AppendProps(q, key, value);
      ReplaceFirstProps(q + [(key, value)], key, value);
      ReplaceFirstAppend(q, key, value);
    }
  }

  /** Setting the key again on a list whose only entry for it is the last one changes nothing. */
  lemma {:induction false} ReplaceFirstAppend(q: seq<(string, string)>, key: string, value: string)
    requires Get(q, key) == None
    ensures ReplaceFirst(q + [(key, value)], key, value) == q + [(key, value)]
  {
    if q == [] {
      assert [(key, value)][1..] == [];
    } else {
      assert (q + [(key, value)])[1..] == q[1..] + [(key, value)];
      ReplaceFirstAppend(q[1..], key, value);
    }
  }

  // ---------------------------------------------------------------------------
  // withSort

  /** `withSort`: set the `sort` parameter, or delete it for `new` and for an empty sort. */
  function WithSort(u: Url, sort: string): (r: Url)
    ensures r.path == u.path
  {
    if sort != "" && sort != "new" then u.(query := Set(u.query, "sort", sort))
    else u.(query := Delete(u.query, "sort"))
  }

  /**
   * `withSort` keeps the path and every other parameter in order, and leaves `sort`
   * absent for `new` or empty, otherwise holding exactly the given value.
   */
  lemma WithSortProps(u: Url, sort: string)
    ensures WithSort(u, sort).path == u.path
    ensures Delete(WithSort(u, sort).query, "sort") == Delete(u.query, "sort")
    ensures Get(WithSort(u, sort).query, "sort") == if sort == "" || sort == "new" then None else Some(sort)
  {
    if sort != "" && sort != "new" {
      SetProps(u.query, "sort", sort);
    } else {
      DeleteProps(u.query, "sort");
    }
  }

  /** Applying `withSort` twice with the same sort is the same as once. */
  lemma WithSortIdempotent(u: Url, sort: string)
    ensures WithSort(WithSort(u, sort), sort) == WithSort(u, sort)
  {
    if sort != "" && sort != "new" {
      SetProps(u.query, "sort", sort);
    } else {
      DeleteProps(u.query, "sort");
    }
  }

  /** No `?` is added for an empty query; otherwise the query follows the path after one `?`. */
  lemma HrefQuestionMark(u: Url)
    ensures u.query == [] ==> Href(u) == u.path
    ensures u.query != [] ==> |Href(u)| > |u.path| && Href(u)[..|u.path| + 1] == u.path + "?"
  {
    if u.query != [] {
      var qs := QueryString(u.query);
      assert |qs| >= 1;
      assert (u.path + ("?" + qs))[..|u.path| + 1] == u.path + "?";
    }
  }

  // ---------------------------------------------------------------------------
  // Category chips and sort links

  /** A category chip: its key (`None` for All), its caption and its link. */
  datatype Chip = Chip(key: Option<string>, caption: string, href: Url)

  function CategoryUrl(slug: string): Url {
    Url("/shop", [("c", slug)])
  }

  /** The chips, in display order. */
  const Chips: seq<Chip> := [
    Chip(None, "All", Url("/shop", [])),
    Chip(Some("gift-boxes"), "Gift Boxes", CategoryUrl("gift-boxes")),
    Chip(Some("seasonal"), "Seasonal", CategoryUrl("seasonal")),
    Chip(Some("under-25"), "Under 25", CategoryUrl("under-25")),
    Chip(Some("apparel"), "Apparel", CategoryUrl("apparel"))
  ]

  /** The sort keys, in display order. */
  const SortKeys: seq<string> := ["new", "price-asc", "price-desc"]

  /** A chip links to its own href with the current sort applied. */
  function ChipLink(chip: Chip, currentSort: string): Url {
    WithSort(chip.href, currentSort)
  }

  /** A sort link starts from the shop, with `c` only for a non-empty current category. */
  function SortLink(currentCategory: Option<string>, sortKey: string): Url {
    var base := if currentCategory.Some? && currentCategory.value != "" then CategoryUrl(currentCategory.value)
                else Url("/shop", []);
    WithSort(base, sortKey)
  }

  /** `c.key === currentCategory` */
  predicate ChipActive(chip: Chip, currentCategory: Option<string>) {
    chip.key == currentCategory
  }

  /** Every chip link carries the chip's own category and the current sort. */
  lemma ChipLinksCarrySort(i: nat, currentSort: string)
    requires i < |Chips|
    ensures Get(ChipLink(Chips[i], currentSort).query, "c") == Chips[i].key
    ensures Get(ChipLink(Chips[i], currentSort).query, "sort") ==
      if currentSort == "" || currentSort == "new" then None else Some(currentSort)
  {
    var u := Chips[i].href;
    WithSortProps(u, currentSort);
    DeleteProps(ChipLink(Chips[i], currentSort).query, "sort");
    DeleteProps(u.query, "sort");
  }

  /** Every sort link carries the current category (when it is not empty) and its own sort. */
  lemma SortLinksCarryCategory(currentCategory: Option<string>, i: nat)
    requires i < |SortKeys|
    ensures Get(SortLink(currentCategory, SortKeys[i]).query, "c") ==
      if currentCategory.Some? && currentCategory.value != "" then currentCategory else None
    ensures Get(SortLink(currentCategory, SortKeys[i]).query, "sort") ==
      if SortKeys[i] == "new" then None else Some(SortKeys[i])
  {
    var base := if currentCategory.Some? && currentCategory.value != "" then CategoryUrl(currentCategory.value)
                else Url("/shop", []);
    WithSortProps(base, SortKeys[i]);
    DeleteProps(SortLink(currentCategory, SortKeys[i]).query, "sort");
    DeleteProps(base.query, "sort");
  }

  /** `s.key === currentSort` */
  predicate SortActive(sortKey: string, currentSort: string) {
    sortKey == currentSort
  }

  /** At most one sort link is active, and none for a sort outside the three keys. */
  lemma ActiveSort(currentSort: string)
    ensures forall i, j :: 0 <= i < j < |SortKeys| && SortActive(SortKeys[i], currentSort) ==>
      !SortActive(SortKeys[j], currentSort)
    ensures (exists i :: 0 <= i < |SortKeys| && SortActive(SortKeys[i], currentSort)) <==> currentSort in SortKeys
  {
  }

  /** "All" is active exactly when there is no category, and at most one chip is active. */
  lemma ActiveChip(currentCategory: Option<string>)
    ensures ChipActive(Chips[0], currentCategory) <==> currentCategory.None?
    ensures forall i, j :: 0 <= i < j < |Chips| && ChipActive(Chips[i], currentCategory) ==>
      !ChipActive(Chips[j], currentCategory)
  {
  }
}
