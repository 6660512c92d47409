/** The product listing for a category and subcategory (`ProductListPage`):
    the ids and the title read from the route, the paged product list, and
    the sidebar of subcategories of the category, newest first. */
module ProductListPage {
  import opened Common

  // ---------------------------------------------------------------------------
  // Route parameters ("<name words joined by '-'>-<id>")

  /** `param?.split('-').slice(-1)[0] || ''`: None is an absent parameter.
      The id is the text after the last '-', the whole parameter when it has
      none, and '' when the parameter is absent. */
  function ParamId(param: Option<string>): (r: string)
    ensures param.None? ==> r == ""
    ensures param.Some? ==> r == param.value[LastIndexOf(param.value, '-') + 1..]
    ensures param.Some? && '-' !in param.value ==> r == param.value
    ensures '-' !in r
  {
    if param.None? then ""
    else
      LastPieceAfterIndex(param.value, '-');
      var parts := Split(param.value, '-');
      parts[|parts| - 1]
  }

  /** `subCategory?.slice(0, length - 1)?.join(' ') || 'Products'`. The title
      is the text before the last '-' with every '-' turned into a space, or
      'Products' when that text is empty or the parameter absent. */
  function ParamName(param: Option<string>): (r: string)
    ensures param.None? ==> r == "Products"
    ensures param.Some? ==>
      var i := LastIndexOf(param.value, '-');
      r == if i <= 0 then "Products" else Replace(param.value[..i], '-', ' ')
  {
    if param.None? then "Products"
    else
      TitlePieces(param.value);
      var parts := Split(param.value, '-');
      var joined := Join(parts[..|parts| - 1], " ");
      if joined == "" then "Products" else joined
  }

  /** The pieces before the last one, joined with spaces, are the text
      before the last '-' with every '-' turned into a space ('' when there
      is no '-'). */
  lemma TitlePieces(s: string)
    ensures var i := LastIndexOf(s, '-'); var parts := Split(s, '-');
      Join(parts[..|parts| - 1], " ") == if i < 0 then "" else Replace(s[..i], '-', ' ')
  {
    var i := LastIndexOf(s, '-');
    var parts := Split(s, '-');
    if i < 0 {
      SplitWithoutSeparator(s, '-');
      assert parts[..|parts| - 1] == [];
    } else {
      LastPieceAfterIndex(s, '-');
      JoinSplitIsReplace(s[..i], '-', ' ');
      assert parts[..|parts| - 1] == Split(s[..i], '-');
    }
  }

  // ---------------------------------------------------------------------------
  // Paged product list

  /** The list after a successful response for `page`: page 1 replaces the
      list, any other page is appended after it. */
  function MergePage<T>(data: seq<T>, page: int, items: seq<T>): (r: seq<T>)
    ensures page == 1 ==> r == items
    ensures page != 1 ==> |r| == |data| + |items| && r[..|data|] == data && r[|data|..] == items
  {
    if page == 1 then items else data + items
  }

  function Concat<T>(pages: seq<seq<T>>): seq<T> {
    if |pages| == 0 then [] else pages[0] + Concat(pages[1..])
  }

  /** The list after the responses `pages`, numbered from `first` on. */
  function LoadPages<T>(data: seq<T>, first: int, pages: seq<seq<T>>): seq<T>
    decreases |pages|
  {
    if |pages| == 0 then data else LoadPages(MergePage(data, first, pages[0]), first + 1, pages[1..])
  }

  /** Pages 2, 3, … are appended in turn. */
  lemma {:induction false} LaterPagesAppend<T>(data: seq<T>, first: int, pages: seq<seq<T>>)
    requires first >= 2
    ensures LoadPages(data, first, pages) == data + Concat(pages)
    decreases |pages|
  {
    if |pages| > 0 {
      LaterPagesAppend(data + pages[0], first + 1, pages[1..]);
    }
  }

  /** Whatever was shown before, loading pages 1, 2, …, n in order shows
      their items in order. */
  lemma PagesAccumulate<T>(data: seq<T>, pages: seq<seq<T>>)
    requires |pages| >= 1
    ensures LoadPages(data, 1, pages) == Concat(pages)
  {
    LaterPagesAppend(pages[0], 2, pages[1..]);
  }

  /** The list of products as `setData` keeps it. */
  class ProductFeed<T> {
    var data: seq<T>

    constructor()
      ensures data == []
    {
      data := [];
    }

    /** `fetchProductdata` once the response arrives; an unsuccessful or
        failed response leaves the list as it is. */
    method ApplyResponse(success: bool, page: int, items: seq<T>)
      modifies this
      ensures data == if success then MergePage(old(data), page, items) else old(data)
    {
      if success {
        if page == 1 {
          data := items;
        } else {
          data := data + items;
        }
      }
    }
  }

  // ---------------------------------------------------------------------------
  // Subcategories of the category

  /** A subcategory: the ids of its categories (absent when the document has
      no list) and its creation time (absent when it has none). */
  datatype SubCategory = SubCategory(id: string, name: string, category: Option<seq<string>>, createdAt: Option<Time>)

  /** `s.category?.some(el => el._id === categoryId) || null`. */
  predicate InCategory(s: SubCategory, categoryId: string) {
    s.category.Some? && categoryId in s.category.value
  }

  /** `Array.prototype.filter`: the members in the category, in their order. */
  function FilterByCategory(subs: seq<SubCategory>, categoryId: string): (r: seq<SubCategory>)
    ensures |r| <= |subs|
    ensures forall s :: s in r <==> s in subs && InCategory(s, categoryId)
    ensures multiset(r) <= multiset(subs)
  {
    if |subs| == 0 then []
    else
      var rest := FilterByCategory(subs[1..], categoryId);
      assert subs == [subs[0]] + subs[1..];
      if InCategory(subs[0], categoryId) then [subs[0]] + rest else rest
  }

  /** Each subcategory in the category is kept as often as it occurs, and
      no other is kept. */
  lemma {:induction false} FilterByCategoryMultiplicity(subs: seq<SubCategory>, categoryId: string)
    ensures forall s :: multiset(FilterByCategory(subs, categoryId))[s] ==
                          if InCategory(s, categoryId) then multiset(subs)[s] else 0
    decreases |subs|
  {
    if |subs| > 0 {
      FilterByCategoryMultiplicity(subs[1..], categoryId);
      assert subs == [subs[0]] + subs[1..];
    }
  }

  /** The filter keeps the members' order: filtering a concatenation filters
      each part in turn. */
  lemma {:induction false} FilterByCategoryAppend(a: seq<SubCategory>, b: seq<SubCategory>, categoryId: string)
    ensures FilterByCategory(a + b, categoryId) == FilterByCategory(a, categoryId) + FilterByCategory(b, categoryId)
    decreases |a|
  {
    if |a| > 0 {
      assert (a + b)[0] == a[0] && (a + b)[1..] == a[1..] + b;
      FilterByCategoryAppend(a[1..], b, categoryId);
      var head := if InCategory(a[0], categoryId) then [a[0]] else [];
      assert FilterByCategory(a, categoryId) == head + FilterByCategory(a[1..], categoryId);
      assert FilterByCategory(a + b, categoryId) == head + FilterByCategory(a[1..] + b, categoryId);
    } else {
      assert a + b == b;
    }
  }

  /** The sort key: the creation time, the epoch when it is absent. */
  function SortKey(s: SubCategory): int {
    s.createdAt.GetOr(0)
  }

  predicate NewestFirst(r: seq<SubCategory>) {
    forall i, j :: 0 <= i < j < |r| ==> SortKey(r[i]) >= SortKey(r[j])
  }

  /** The members whose key is `k`, in order. */
  function WithKey(r: seq<SubCategory>, k: int): seq<SubCategory> {
    if |r| == 0 then []
    else if SortKey(r[0]) == k then [r[0]] + WithKey(r[1..], k)
    else WithKey(r[1..], k)
  }

  /** `x` placed before the first member whose key is not greater than its
      own, so it stays ahead of the later members with the same key. */
  function Insert(x: SubCategory, r: seq<SubCategory>): seq<SubCategory> {
    if |r| == 0 || SortKey(r[0]) <= SortKey(x) then [x] + r
    else [r[0]] + Insert(x, r[1..])
  }

  /** `sort((a, b) => dateB - dateA)`: `Array.prototype.sort` is stable, and
      this insertion sort is the stable sort with that comparator. The result
      is newest first, holds the same members as often, and keeps the
      relative order of members created at the same time. */
  function SortNewestFirst(subs: seq<SubCategory>): (r: seq<SubCategory>)
    ensures NewestFirst(r)
    ensures multiset(r) == multiset(subs)
    ensures forall k :: WithKey(r, k) == WithKey(subs, k)
    decreases |subs|
  {
    if |subs| == 0 then []
    else
      var rest := SortNewestFirst(subs[1..]);
      InsertSortedTail(subs[0], subs[1..], rest);
      assert subs == [subs[0]] + subs[1..];
      Insert(subs[0], rest)
  }

  /** Inserting the head into a sorted copy of the tail gives a sorted copy
      of the whole list. */
  lemma InsertSortedTail(x: SubCategory, tail: seq<SubCategory>, rest: seq<SubCategory>)
    requires NewestFirst(rest) && multiset(rest) == multiset(tail)
    requires forall k :: WithKey(rest, k) == WithKey(tail, k)
    ensures NewestFirst(Insert(x, rest))
    ensures multiset(Insert(x, rest)) == multiset([x] + tail)
    ensures forall k :: WithKey(Insert(x, rest), k) == WithKey([x] + tail, k)
  {
    InsertKeepsOrder(x, rest);
    InsertAddsOne(x, rest);
    InsertKeepsAllTies(x, rest);
    assert ([x] + tail)[1..] == tail;
  }

  /** Insertion keeps every member and adds `x`. */
  lemma {:induction false} InsertAddsOne(x: SubCategory, r: seq<SubCategory>)
    ensures multiset(Insert(x, r)) == multiset(r) + multiset{x}
    decreases |r|
  {
    if !(|r| == 0 || SortKey(r[0]) <= SortKey(x)) {
      InsertAddsOne(x, r[1..]);
      assert r == [r[0]] + r[1..];
    }
  }

  /** Insertion into a list ordered newest first keeps it so. */
  lemma {:induction false} InsertKeepsOrder(x: SubCategory, r: seq<SubCategory>)
    requires NewestFirst(r)
    ensures NewestFirst(Insert(x, r))
    decreases |r|
  {
    if !(|r| == 0 || SortKey(r[0]) <= SortKey(x)) {
      var t := Insert(x, r[1..]);
      assert NewestFirst(r[1..]) by {
        forall i, j | 0 <= i < j < |r[1..]|
          ensures SortKey(r[1..][i]) >= SortKey(r[1..][j])
        {
          assert r[1..][i] == r[i + 1] && r[1..][j] == r[j + 1];
        }
      }
      InsertKeepsOrder(x, r[1..]);
      assert t[0] == x || t[0] == r[1];
      forall j | 0 <= j < |t|
        ensures SortKey(r[0]) >= SortKey(t[j])
      {
        if j > 0 {
          assert SortKey(t[0]) >= SortKey(t[j]);
        }
      }
      assert Insert(x, r) == [r[0]] + t;
    }
  }

  /** Insertion puts `x` ahead of the members with its key. */
  lemma {:induction false} InsertKeepsTies(x: SubCategory, r: seq<SubCategory>, k: int)
    ensures WithKey(Insert(x, r), k) == if SortKey(x) == k then [x] + WithKey(r, k) else WithKey(r, k)
    decreases |r|
  {
    if |r| == 0 || SortKey(r[0]) <= SortKey(x) {
      assert ([x] + r)[1..] == r;
    } else {
      InsertKeepsTies(x, r[1..], k);
      var t := Insert(x, r[1..]);
      assert ([r[0]] + t)[1..] == t;
    }
  }

  /** Insertion puts `x` ahead of the members with its key, whatever the key. */
  lemma InsertKeepsAllTies(x: SubCategory, r: seq<SubCategory>)
    ensures forall k :: WithKey(Insert(x, r), k) == if SortKey(x) == k then [x] + WithKey(r, k) else WithKey(r, k)
  {
    forall k
      ensures WithKey(Insert(x, r), k) == if SortKey(x) == k then [x] + WithKey(r, k) else WithKey(r, k)
    {
      InsertKeepsTies(x, r, k);
    }
  }

  /** The sidebar: the subcategories in the category, newest first. */
  function DisplayedSubCategories(all: seq<SubCategory>, categoryId: string): (r: seq<SubCategory>)
    ensures NewestFirst(r)
    ensures forall s :: s in r <==> s in all && InCategory(s, categoryId)
    ensures multiset(r) == multiset(FilterByCategory(all, categoryId))
  {
    var kept := FilterByCategory(all, categoryId);
    assert forall s :: s in SortNewestFirst(kept) <==> s in multiset(kept);
    SortNewestFirst(kept)
  }
}
