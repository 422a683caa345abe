/** The state updater of `handleNewItem` on the home page: a pushed item is merged
    into the displayed list unless its id is already there or it fails the active
    category and search filters; an admitted item is prepended and the list is
    re-sorted, stably, by creation time, newest first. */
module ContentMerge {
  import opened Wrappers
  import opened Text
  import opened SanityTypes

  // ---------------------------------------------------------------------------
  // Filters

  /** The category test: `'all'` admits everything; otherwise the item's category
      must be a non-empty string equal to the selection ignoring case. */
  predicate CategoryMatches(item: ContentItem, selected: string)
  {
    selected == "all" ||
    (Truthy(item.category) && Lower(item.category.value) == Lower(selected))
  }

  /** The search test: an empty term admits everything; otherwise the title, or a
      non-empty excerpt, must contain the term ignoring case. */
  predicate SearchMatches(item: ContentItem, term: string)
  {
    term == "" ||
    Contains(Lower(item.title), Lower(term)) ||
    (Truthy(item.excerpt) && Contains(Lower(item.excerpt.value), Lower(term)))
  }

  /** Both filters of the page hold of `item`. */
  predicate MatchesFilters(item: ContentItem, selected: string, term: string)
  {
    CategoryMatches(item, selected) && SearchMatches(item, term)
  }

  /** The search test in terms of positions: an empty term, or an occurrence of the
      lower-cased term at some offset of the lower-cased title or of a present,
      non-empty lower-cased excerpt. */
  lemma {:induction false} SearchMatchesIff(item: ContentItem, term: string)
    ensures SearchMatches(item, term) <==>
      term == "" ||
      (exists i: nat :: OccursAt(Lower(item.title), Lower(term), i)) ||
      (item.excerpt.Some? && item.excerpt.value != "" &&
       exists i: nat :: OccursAt(Lower(item.excerpt.value), Lower(term), i))
  {
    ContainsIff(Lower(item.title), Lower(term));
    if item.excerpt.Some? {
      ContainsIff(Lower(item.excerpt.value), Lower(term));
    }
    assert Truthy(item.excerpt) <==> item.excerpt.Some? && item.excerpt.value != "";
    assert SearchMatches(item, term) <==>
      term == "" || Contains(Lower(item.title), Lower(term)) ||
      (Truthy(item.excerpt) && Contains(Lower(item.excerpt.value), Lower(term)));
    assert Contains(Lower(item.title), Lower(term)) <==> exists i: nat :: OccursAt(Lower(item.title), Lower(term), i);
  }

  /** The filters ignore the case of the selection and of the search term. */
  lemma MatchesFiltersIgnoresCase(item: ContentItem, selected: string, term: string)
    requires Lower(selected) != "all"
    ensures MatchesFilters(item, Lower(selected), Lower(term)) == MatchesFilters(item, selected, term)
  {
    LowerIdempotent(selected);
    LowerIdempotent(term);
    assert (Lower(term) == "") == (term == "");
  }

  // ---------------------------------------------------------------------------
  // Identity

  /** `list.find(item => item._id === id)` finds something. */
  predicate HasId(s: seq<ContentItem>, id: string)
  {
    exists i :: 0 <= i < |s| && s[i].id == id
  }

  /** No two positions of `s` hold the same id. */
  predicate UniqueIds(s: seq<ContentItem>)
  {
    forall i, j :: 0 <= i < j < |s| ==> s[i].id != s[j].id
  }

  /** An id occurs in a sequence exactly when it occurs in any permutation of it. */
  lemma HasIdPermutation(a: seq<ContentItem>, b: seq<ContentItem>, id: string)
    requires multiset(a) == multiset(b)
    ensures HasId(a, id) <==> HasId(b, id)
  {
    if HasId(a, id) {
      var i :| 0 <= i < |a| && a[i].id == id;
      assert a[i] in multiset(b);
      var j :| 0 <= j < |b| && b[j] == a[i];
    }
    if HasId(b, id) {
      var j :| 0 <= j < |b| && b[j].id == id;
      assert b[j] in multiset(a);
      var i :| 0 <= i < |a| && a[i] == b[j];
    }
  }

  // ---------------------------------------------------------------------------
  // Sorting by `_createdAt`, newest first

  /** Creation times never increase along `s`. */
  predicate SortedDesc(s: seq<ContentItem>)
  {
    forall i, j :: 0 <= i < j < |s| ==> s[j].createdAt <= s[i].createdAt
  }

  /** The items of `s` created at time `t`, in their order in `s`. A sort is stable
      exactly when it keeps every such subsequence. */
  function ItemsCreatedAt(s: seq<ContentItem>, t: int): (r: seq<ContentItem>)
    ensures |r| <= |s|
    ensures forall i :: 0 <= i < |r| ==> r[i].createdAt == t
  {
    if s == [] then []
    else (if s[0].createdAt == t then [s[0]] else []) + ItemsCreatedAt(s[1..], t)
  }

  /** Stability: the items of each creation time keep their relative order. */
  ghost predicate SameTies(a: seq<ContentItem>, b: seq<ContentItem>)
  {
    forall t :: ItemsCreatedAt(a, t) == ItemsCreatedAt(b, t)
  }

  /** Inserts `x` into `s` ahead of the first item that is not newer than it. */
  function Insert(x: ContentItem, s: seq<ContentItem>): (r: seq<ContentItem>)
    ensures multiset(r) == multiset(s) + multiset{x}
    ensures |r| == |s| + 1
  {
    if s == [] || s[0].createdAt <= x.createdAt then [x] + s
    else
      assert s == [s[0]] + s[1..];
      [s[0]] + Insert(x, s[1..])
  }

  /** No item of `s` is newer than `bound`. */
  predicate NoneNewer(s: seq<ContentItem>, bound: int)
  {
    forall i :: 0 <= i < |s| ==> s[i].createdAt <= bound
  }

  /** Inserting an item no newer than `bound` keeps every item no newer than `bound`. */
  lemma {:induction false} InsertBounded(x: ContentItem, s: seq<ContentItem>, bound: int)
    requires NoneNewer(s, bound) && x.createdAt <= bound
    ensures NoneNewer(Insert(x, s), bound)
    decreases |s|
  {
    if s != [] && s[0].createdAt > x.createdAt {
      InsertBounded(x, s[1..], bound);
    }
  }

  /** Inserting into a sorted list keeps it sorted. */
  lemma {:induction false} InsertSorted(x: ContentItem, s: seq<ContentItem>)
    requires SortedDesc(s)
    ensures SortedDesc(Insert(x, s))
    decreases |s|
  {
    if s != [] && s[0].createdAt > x.createdAt {
      InsertSorted(x, s[1..]);
      InsertBounded(x, s[1..], s[0].createdAt);
      assert Insert(x, s) == [s[0]] + Insert(x, s[1..]);
    }
  }

  /** The comparator sort `(a, b) => b._createdAt - a._createdAt`, done as a stable
      insertion sort (the stable result is unique, see `StableSortIsUnique`). */
  function SortByCreatedDesc(s: seq<ContentItem>): (r: seq<ContentItem>)
    ensures SortedDesc(r)
    ensures multiset(r) == multiset(s)
    ensures |r| == |s|
  {
    if s == [] then []
    else
      assert s == [s[0]] + s[1..];
      InsertSorted(s[0], SortByCreatedDesc(s[1..]));
      Insert(s[0], SortByCreatedDesc(s[1..]))
  }

  /** Inserting keeps the ties of `x`'s creation time behind `x`. */
  lemma {:induction false} InsertTies(x: ContentItem, s: seq<ContentItem>, t: int)
    ensures ItemsCreatedAt(Insert(x, s), t) == ItemsCreatedAt([x] + s, t)
    decreases |s|
  {
    if s == [] || s[0].createdAt <= x.createdAt {
    } else {
      InsertTies(x, s[1..], t);
      assert ([x] + s)[1..] == s;
      assert ([x] + s[1..])[1..] == s[1..];
      assert ([s[0]] + Insert(x, s[1..]))[1..] == Insert(x, s[1..]);
    }
  }

  /** The sort is stable. */
  lemma {:induction false} SortIsStable(s: seq<ContentItem>)
    ensures SameTies(SortByCreatedDesc(s), s)
    decreases |s|
  {
    forall t ensures ItemsCreatedAt(SortByCreatedDesc(s), t) == ItemsCreatedAt(s, t) {
      SortTies(s, t);
    }
  }

  lemma {:induction false} SortTies(s: seq<ContentItem>, t: int)
    ensures ItemsCreatedAt(SortByCreatedDesc(s), t) == ItemsCreatedAt(s, t)
    decreases |s|
  {
    if s != [] {
      SortTies(s[1..], t);
      InsertTies(s[0], SortByCreatedDesc(s[1..]), t);
      assert ([s[0]] + SortByCreatedDesc(s[1..]))[1..] == SortByCreatedDesc(s[1..]);
    }
  }

  /** A list already sorted newest first is left as it is. */
  lemma {:induction false} SortKeepsSorted(s: seq<ContentItem>)
    requires SortedDesc(s)
    ensures SortByCreatedDesc(s) == s
    decreases |s|
  {
    if s != [] {
      SortKeepsSorted(s[1..]);
      assert s == [s[0]] + s[1..];
    }
  }

  /** An item created at `t` in a list sorted newest first is not newer than its head. */
  lemma {:induction false} TieBound(s: seq<ContentItem>, t: int)
    requires SortedDesc(s) && ItemsCreatedAt(s, t) != []
    ensures s != [] && t <= s[0].createdAt
    decreases |s|
  {
    if s[0].createdAt != t {
      assert SortedDesc(s[1..]);
      TieBound(s[1..], t);
    }
  }

  /** Two lists sorted newest first with the same items per creation time are equal. */
  lemma {:induction false} SortedWithSameTiesEqual(a: seq<ContentItem>, b: seq<ContentItem>)
    requires SortedDesc(a) && SortedDesc(b) && SameTies(a, b)
    ensures a == b
    decreases |a| + |b|
  {
    if a != [] {
      assert ItemsCreatedAt(a, a[0].createdAt) == ItemsCreatedAt(b, a[0].createdAt);
      TieBound(b, a[0].createdAt);
    }
    if b != [] {
      assert ItemsCreatedAt(b, b[0].createdAt) == ItemsCreatedAt(a, b[0].createdAt);
      TieBound(a, b[0].createdAt);
    }
    if a != [] {
      var ta := a[0].createdAt;
      assert ItemsCreatedAt(a, ta)[0] == a[0] && ItemsCreatedAt(b, ta)[0] == b[0];
      assert ItemsCreatedAt(a, ta) == ItemsCreatedAt(b, ta);
      assert a[0] == b[0];
      forall t ensures ItemsCreatedAt(a[1..], t) == ItemsCreatedAt(b[1..], t) {
        var head := if a[0].createdAt == t then [a[0]] else [];
        assert ItemsCreatedAt(a, t) == head + ItemsCreatedAt(a[1..], t);
        assert ItemsCreatedAt(b, t) == head + ItemsCreatedAt(b[1..], t);
        assert ItemsCreatedAt(a, t) == ItemsCreatedAt(b, t);
        assert (head + ItemsCreatedAt(a[1..], t))[|head|..] == ItemsCreatedAt(a[1..], t);
        assert (head + ItemsCreatedAt(b[1..], t))[|head|..] == ItemsCreatedAt(b[1..], t);
      }
      assert SortedDesc(a[1..]) && SortedDesc(b[1..]);
      SortedWithSameTiesEqual(a[1..], b[1..]);
      assert a == [a[0]] + a[1..] && b == [b[0]] + b[1..];
    }
  }

  /** Any list sorted newest first that keeps the ties of `s` is the sort of `s`:
      every stable sort by the page's comparator gives the model's result. */
  lemma StableSortIsUnique(s: seq<ContentItem>, r: seq<ContentItem>)
    requires SortedDesc(r) && SameTies(r, s)
    ensures r == SortByCreatedDesc(s)
  {
    SortIsStable(s);
    SortedWithSameTiesEqual(r, SortByCreatedDesc(s));
  }

  // ---------------------------------------------------------------------------
  // Ids through insertion and sorting

  lemma HasIdCons(y: ContentItem, s: seq<ContentItem>, id: string)
    ensures HasId([y] + s, id) <==> y.id == id || HasId(s, id)
  {
    if HasId(s, id) {
      var i :| 0 <= i < |s| && s[i].id == id;
      assert ([y] + s)[i + 1] == s[i];
    }
    if y.id == id {
      assert ([y] + s)[0].id == id;
    }
    if HasId([y] + s, id) && y.id != id {
      var i :| 0 <= i < |[y] + s| && ([y] + s)[i].id == id;
      assert s[i - 1] == ([y] + s)[i];
    }
  }

  lemma UniqueIdsCons(y: ContentItem, s: seq<ContentItem>)
    ensures UniqueIds([y] + s) <==> !HasId(s, y.id) && UniqueIds(s)
  {
    var ys := [y] + s;
    assert forall i :: 0 <= i < |s| ==> ys[i + 1] == s[i];
    if UniqueIds(ys) {
      forall i | 0 <= i < |s| ensures s[i].id != y.id {
        assert ys[0].id != ys[i + 1].id;
      }
      forall i, j | 0 <= i < j < |s| ensures s[i].id != s[j].id {
        assert ys[i + 1].id != ys[j + 1].id;
      }
    }
  }

  lemma {:induction false} InsertKeepsIdsUnique(x: ContentItem, s: seq<ContentItem>)
    requires UniqueIds(s) && !HasId(s, x.id)
    ensures UniqueIds(Insert(x, s))
    decreases |s|
  {
    if s == [] || s[0].createdAt <= x.createdAt {
      UniqueIdsCons(x, s);
    } else {
      assert s == [s[0]] + s[1..];
      HasIdCons(s[0], s[1..], x.id);
      UniqueIdsCons(s[0], s[1..]);
      InsertKeepsIdsUnique(x, s[1..]);
      var rest := Insert(x, s[1..]);
      HasIdPermutation(rest, [x] + s[1..], s[0].id);
      HasIdCons(x, s[1..], s[0].id);
      UniqueIdsCons(s[0], rest);
    }
  }

  lemma {:induction false} SortKeepsIdsUnique(s: seq<ContentItem>)
    requires UniqueIds(s)
    ensures UniqueIds(SortByCreatedDesc(s))
    decreases |s|
  {
    if s != [] {
      assert s == [s[0]] + s[1..];
      UniqueIdsCons(s[0], s[1..]);
      SortKeepsIdsUnique(s[1..]);
      HasIdPermutation(SortByCreatedDesc(s[1..]), s[1..], s[0].id);
      InsertKeepsIdsUnique(s[0], SortByCreatedDesc(s[1..]));
    }
  }

  /** Where `Insert` puts `x`: behind every strictly newer item it passes over and,
      in a sorted list, ahead of everything else. */
  lemma {:induction false} InsertPosition(x: ContentItem, s: seq<ContentItem>) returns (k: nat)
    ensures var r := Insert(x, s);
      && k <= |s| && r[k] == x
      && (forall j :: 0 <= j < k ==> r[j] == s[j] && s[j].createdAt > x.createdAt)
      && (forall j :: k < j < |r| ==> r[j] == s[j - 1])
    ensures k < |s| ==> s[k].createdAt <= x.createdAt
    decreases |s|
  {
    if s == [] || s[0].createdAt <= x.createdAt {
      k := 0;
      var r := Insert(x, s);
      assert r == [x] + s;
      forall j | 0 < j < |r| ensures r[j] == s[j - 1] {
      }
    } else {
      var t := s[1..];
      var k' := InsertPosition(x, t);
      k := k' + 1;
      var r := Insert(x, s);
      var r' := Insert(x, t);
      assert r == [s[0]] + r';
      forall j | 0 <= j < k ensures r[j] == s[j] && s[j].createdAt > x.createdAt {
        if j > 0 {
          assert r[j] == r'[j - 1] && s[j] == t[j - 1];
        }
      }
      forall j | k < j < |r| ensures r[j] == s[j - 1] {
        assert r[j] == r'[j - 1] && s[j - 1] == t[j - 2];
      }
      if k < |s| {
        assert s[k] == t[k'];
      }
    }
  }

  // ---------------------------------------------------------------------------
  // The updater

  /** What the updater returns, and whether it schedules the "New Content Added!" toast. */
  datatype MergeOutcome = MergeOutcome(items: seq<ContentItem>, notify: bool)

  /** The `setContentItems` updater of `handleNewItem`. */
  function MergeNewItem(prev: seq<ContentItem>, x: ContentItem, selected: string, term: string): (r: MergeOutcome)
    ensures HasId(prev, x.id) ==> r == MergeOutcome(prev, false)
    ensures !MatchesFilters(x, selected, term) ==> r == MergeOutcome(prev, false)
    ensures r.notify <==> !HasId(prev, x.id) && MatchesFilters(x, selected, term)
    ensures r.notify ==> multiset(r.items) == multiset([x] + prev) && |r.items| == |prev| + 1
    ensures r.notify ==> SortedDesc(r.items) && SameTies(r.items, [x] + prev)
  {
    if HasId(prev, x.id) then MergeOutcome(prev, false)
    else if MatchesFilters(x, selected, term) then
      SortIsStable([x] + prev);
      MergeOutcome(SortByCreatedDesc([x] + prev), true)
    else MergeOutcome(prev, false)
  }

  /** A merge keeps the displayed ids unique. */
  lemma MergeKeepsIdsUnique(prev: seq<ContentItem>, x: ContentItem, selected: string, term: string)
    requires UniqueIds(prev)
    ensures UniqueIds(MergeNewItem(prev, x, selected, term).items)
  {
    if !HasId(prev, x.id) && MatchesFilters(x, selected, term) {
      UniqueIdsCons(x, prev);
      SortKeepsIdsUnique([x] + prev);
    }
  }

  /** The feed may deliver the same item twice: the second delivery, under the same
      filters, leaves the list as the first one left it and raises no toast. */
  lemma RedeliveryIsIdempotent(prev: seq<ContentItem>, x: ContentItem, selected: string, term: string)
    ensures var once := MergeNewItem(prev, x, selected, term).items;
      MergeNewItem(once, x, selected, term) == MergeOutcome(once, false)
  {
    if !HasId(prev, x.id) && MatchesFilters(x, selected, term) {
      var k := AdmittedItemPlacement(prev, x, selected, term);
      var once := MergeNewItem(prev, x, selected, term).items;
      assert once[k].id == x.id;
      assert HasId(once, x.id);
    }
  }

  /** An admitted item appears exactly once (no other position has its id), after
      every strictly newer item and before every item not newer than it, including
      the earlier items created at the same time. */
  lemma AdmittedItemPlacement(prev: seq<ContentItem>, x: ContentItem, selected: string, term: string)
      returns (k: nat)
    requires !HasId(prev, x.id) && MatchesFilters(x, selected, term)
    ensures var r := MergeNewItem(prev, x, selected, term).items;
      && k < |r| && r[k] == x
      && (forall j :: 0 <= j < |r| && j != k ==> r[j].id != x.id)
      && (forall j :: 0 <= j < k ==> r[j].createdAt > x.createdAt)
      && (forall j :: k < j < |r| ==> r[j].createdAt <= x.createdAt)
  {
    assert MergeNewItem(prev, x, selected, term).items == SortByCreatedDesc([x] + prev);
    k := PrependedPlacement(prev, x);
  }

  lemma PrependedPlacement(prev: seq<ContentItem>, x: ContentItem) returns (k: nat)
    requires !HasId(prev, x.id)
    ensures var r := SortByCreatedDesc([x] + prev);
      && k < |r| && r[k] == x
      && (forall j :: 0 <= j < |r| && j != k ==> r[j].id != x.id)
      && (forall j :: 0 <= j < k ==> r[j].createdAt > x.createdAt)
      && (forall j :: k < j < |r| ==> r[j].createdAt <= x.createdAt)
  {
    var s := SortByCreatedDesc(prev);
    assert SortByCreatedDesc([x] + prev) == Insert(x, s) by {
      assert ([x] + prev)[0] == x && ([x] + prev)[1..] == prev;
    }
    HasIdPermutation(s, prev, x.id);
    k := InsertedPlacement(x, s);
  }

  /** `PrependedPlacement` for one insertion into a sorted list. */
  lemma InsertedPlacement(x: ContentItem, s: seq<ContentItem>) returns (k: nat)
    requires SortedDesc(s) && !HasId(s, x.id)
    ensures var r := Insert(x, s);
      && k < |r| && r[k] == x
      && (forall j :: 0 <= j < |r| && j != k ==> r[j].id != x.id)
      && (forall j :: 0 <= j < k ==> r[j].createdAt > x.createdAt)
      && (forall j :: k < j < |r| ==> r[j].createdAt <= x.createdAt)
  {
    k := InsertPosition(x, s);
    forall j | k <= j < |s| ensures s[j].createdAt <= x.createdAt {
      assert s[j].createdAt <= s[k].createdAt;
    }
  }
}
