/** The subcategory carousel (`DisplayTable`). It reads the route and pages
    its products exactly as the listing page does (`ParamId`, `ParamName`,
    `ProductFeed`); its subcategory list is filtered but not sorted, and its
    arrows depend on the number of products loaded. */
module DisplayTable {
  import opened Common
  import opened ProductListPage

  /** The carousel's subcategories: those in the category, each as often as
      the store holds it, in the store's order (`FilterByCategoryAppend`). */
  function CarouselSubCategories(all: seq<SubCategory>, categoryId: string): (r: seq<SubCategory>)
    ensures forall s :: s in r <==> s in all && InCategory(s, categoryId)
    ensures forall s :: multiset(r)[s] == if InCategory(s, categoryId) then multiset(all)[s] else 0
  {
    FilterByCategoryMultiplicity(all, categoryId);
    FilterByCategory(all, categoryId)
  }

  /** The previous/next arrows are rendered only with more than one product. */
  predicate NavButtonsShown<T>(data: seq<T>) {
    |data| > 1
  }

  /** After the first page the arrows are shown exactly when it held more
      than one product; a later page, appended, never hides them. */
  lemma NavButtonsAfterResponse<T>(data: seq<T>, page: int, items: seq<T>)
    ensures page == 1 ==> (NavButtonsShown(MergePage(data, page, items)) <==> |items| > 1)
    ensures page != 1 && NavButtonsShown(data) ==> NavButtonsShown(MergePage(data, page, items))
  {
  }

  /** The carousel and the listing page show the same subcategories; the
      carousel keeps the store's order, the listing page orders them newest
      first, and the two orders agree when the store is already newest
      first. */
  lemma SameSubCategoriesAsListing(all: seq<SubCategory>, categoryId: string)
    ensures multiset(CarouselSubCategories(all, categoryId)) == multiset(DisplayedSubCategories(all, categoryId))
    ensures NewestFirst(CarouselSubCategories(all, categoryId)) ==>
              CarouselSubCategories(all, categoryId) == DisplayedSubCategories(all, categoryId)
  {
    var kept := FilterByCategory(all, categoryId);
    if NewestFirst(kept) {
      SortedInputIsUnchanged(kept);
    }
  }

  /** The stable sort leaves a newest-first list as it is. */
  lemma {:induction false} SortedInputIsUnchanged(r: seq<SubCategory>)
    requires NewestFirst(r)
    ensures SortNewestFirst(r) == r
    decreases |r|
  {
    if |r| > 0 {
      assert NewestFirst(r[1..]) by {
        forall i, j | 0 <= i < j < |r[1..]|
          ensures SortKey(r[1..][i]) >= SortKey(r[1..][j])
        {
          assert r[1..][i] == r[i + 1] && r[1..][j] == r[j + 1];
        }
      }
      SortedInputIsUnchanged(r[1..]);
      if |r| > 1 {
        assert SortKey(r[1]) <= SortKey(r[0]);
      }
    }
  }
}
