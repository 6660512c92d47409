/** The dialog that creates a subcategory (`UploadSubCategoryModel`): its
    chosen categories, kept free of duplicate ids, the image upload and the
    gating of Submit. The chip-list operations are shared with the edit
    dialog. */
module UploadSubCategoryModel {
  import opened Common

  /** A category as the store lists it. */
  datatype Category = Category(id: string, name: string)

  /** `allCategory.find(el => el._id === value)`. */
  function FindCategory(all: seq<Category>, id: string): (r: Option<Category>)
    ensures r.Some? ==> r.value in all && r.value.id == id
    ensures r.None? <==> forall c :: c in all ==> c.id != id
    decreases |all|
  {
    if |all| == 0 then None
    else if all[0].id == id then Some(all[0])
    else FindCategory(all[1..], id)
  }

  predicate HasId(chosen: seq<Category>, id: string) {
    exists c :: c in chosen && c.id == id
  }

  predicate DistinctIds(chosen: seq<Category>) {
    forall i, j :: 0 <= i < j < |chosen| ==> chosen[i].id != chosen[j].id
  }

  /** The select's `onChange`: the category is appended only when the store
      knows it and no chosen category has its id. */
  function AddCategory(chosen: seq<Category>, all: seq<Category>, id: string): (r: seq<Category>)
    ensures FindCategory(all, id).None? || HasId(chosen, id) ==> r == chosen
    ensures FindCategory(all, id).Some? && !HasId(chosen, id) ==>
              |r| == |chosen| + 1 && r[..|chosen|] == chosen && r[|chosen|] in all && r[|chosen|].id == id
  {
    var found := FindCategory(all, id);
    if found.Some? && !HasId(chosen, id) then chosen + [found.value] else chosen
  }

  /** `category.filter(el => el._id !== categoryId)`. */
  function RemoveCategory(chosen: seq<Category>, id: string): (r: seq<Category>)
    ensures |r| <= |chosen|
    ensures forall c :: c in r <==> c in chosen && c.id != id
    decreases |chosen|
  {
    if |chosen| == 0 then []
    else
      var rest := RemoveCategory(chosen[1..], id);
      assert chosen == [chosen[0]] + chosen[1..];
      if chosen[0].id != id then [chosen[0]] + rest else rest
  }

  /** Every chip without the id is kept as often as it occurs; none with the
      id is kept. */
  lemma {:induction false} RemoveCategoryMultiplicity(chosen: seq<Category>, id: string)
    ensures forall c :: multiset(RemoveCategory(chosen, id))[c] == if c.id != id then multiset(chosen)[c] else 0
    decreases |chosen|
  {
    if |chosen| > 0 {
      RemoveCategoryMultiplicity(chosen[1..], id);
      assert chosen == [chosen[0]] + chosen[1..];
    }
  }

  /** Removal keeps the chips' order: removing from a concatenation removes
      from each part in turn. */
  lemma {:induction false} RemoveCategoryAppend(a: seq<Category>, b: seq<Category>, id: string)
    ensures RemoveCategory(a + b, id) == RemoveCategory(a, id) + RemoveCategory(b, id)
    decreases |a|
  {
    if |a| > 0 {
      assert (a + b)[0] == a[0] && (a + b)[1..] == a[1..] + b;
      RemoveCategoryAppend(a[1..], b, id);
      var head := if a[0].id != id then [a[0]] else [];
      assert RemoveCategory(a, id) == head + RemoveCategory(a[1..], id);
      assert RemoveCategory(a + b, id) == head + RemoveCategory(a[1..] + b, id);
    } else {
      assert a + b == b;
    }
  }

  /** Adding never creates two chips with the same id. */
  lemma AddKeepsIdsDistinct(chosen: seq<Category>, all: seq<Category>, id: string)
    requires DistinctIds(chosen)
    ensures DistinctIds(AddCategory(chosen, all, id))
  {
    var r := AddCategory(chosen, all, id);
    if r != chosen {
      forall i, j | 0 <= i < j < |r|
        ensures r[i].id != r[j].id
      {
        if j == |chosen| {
          assert r[i] == chosen[i];
          assert chosen[i] in chosen;
        } else {
          assert r[i] == chosen[i] && r[j] == chosen[j];
        }
      }
    }
  }

  /** Ids are distinct exactly when the head's id is not repeated in the
      tail and the tail's ids are distinct. */
  lemma DistinctCons(s: seq<Category>)
    requires |s| > 0
    ensures DistinctIds(s) <==> (forall c :: c in s[1..] ==> c.id != s[0].id) && DistinctIds(s[1..])
  {
    if DistinctIds(s) {
      forall c | c in s[1..] ensures c.id != s[0].id {
        var m :| 0 <= m < |s[1..]| && s[1..][m] == c;
        assert s[m + 1] == c;
      }
      forall i, j | 0 <= i < j < |s[1..]| ensures s[1..][i].id != s[1..][j].id {
        assert s[1..][i] == s[i + 1] && s[1..][j] == s[j + 1];
      }
    }
    if (forall c :: c in s[1..] ==> c.id != s[0].id) && DistinctIds(s[1..]) {
      forall i, j | 0 <= i < j < |s| ensures s[i].id != s[j].id {
        assert s[j] == s[1..][j - 1];
        if i > 0 {
          assert s[i] == s[1..][i - 1];
        }
      }
    }
  }

  /** Without a chip of that id, removal changes nothing. */
  lemma {:induction false} RemoveAbsentIdIsIdentity(chosen: seq<Category>, id: string)
    requires !HasId(chosen, id)
    ensures RemoveCategory(chosen, id) == chosen
    decreases |chosen|
  {
    if |chosen| > 0 {
      assert chosen[0] in chosen;
      assert !HasId(chosen[1..], id) by {
        forall c | c in chosen[1..] ensures c.id != id {
          assert c in chosen;
        }
      }
      RemoveAbsentIdIsIdentity(chosen[1..], id);
      assert chosen == [chosen[0]] + chosen[1..];
    }
  }

  /** Removal never creates duplicate ids. */
  lemma {:induction false} RemoveKeepsIdsDistinct(chosen: seq<Category>, id: string)
    requires DistinctIds(chosen)
    ensures DistinctIds(RemoveCategory(chosen, id))
    decreases |chosen|
  {
    if |chosen| > 0 {
      DistinctCons(chosen);
      RemoveKeepsIdsDistinct(chosen[1..], id);
      var rest := RemoveCategory(chosen[1..], id);
      if chosen[0].id != id {
        var r := [chosen[0]] + rest;
        assert r[1..] == rest;
        DistinctCons(r);
      }
    }
  }

  /** Removing a chip just added gives back the chips there were. */
  lemma RemoveUndoesAdd(chosen: seq<Category>, all: seq<Category>, id: string)
    requires !HasId(chosen, id)
    ensures RemoveCategory(AddCategory(chosen, all, id), id) == chosen
  {
    RemoveAbsentIdIsIdentity(chosen, id);
    var found := FindCategory(all, id);
    if found.Some? {
      RemoveAppendedId(chosen, found.value, id);
    }
  }

  lemma {:induction false} RemoveAppendedId(chosen: seq<Category>, c: Category, id: string)
    requires c.id == id
    ensures RemoveCategory(chosen + [c], id) == RemoveCategory(chosen, id)
    decreases |chosen|
  {
    if |chosen| == 0 {
      assert [c][1..] == [];
    } else {
      RemoveAppendedId(chosen[1..], c, id);
      assert (chosen + [c])[1..] == chosen[1..] + [c];
    }
  }

  /** Submit is enabled with a name, an image and at least one category. */
  predicate SubmitEnabled(name: string, image: string, chosen: seq<Category>) {
    name != "" && image != "" && |chosen| > 0
  }

  /** The form's fields as they are sent. */
  datatype SubCategoryBody = SubCategoryBody(name: string, image: string, category: seq<Category>)

  class SubCategoryDraft {
    var name: string
    var image: string
    var category: seq<Category>
    var loading: bool

    predicate Valid()
      reads this
    {
      DistinctIds(category)
    }

    constructor()
      ensures name == "" && image == "" && category == [] && !loading
      ensures Valid() && !SubmitEnabled(name, image, category)
    {
      name := "";
      image := "";
      category := [];
      loading := false;
    }

    method SetName(value: string)
      modifies this`name
      ensures name == value
    {
      name := value;
    }

    method SelectCategory(all: seq<Category>, id: string)
      requires Valid()
      modifies this`category
      ensures category == AddCategory(old(category), all, id)
      ensures Valid()
    {
      AddKeepsIdsDistinct(category, all, id);
      var found := FindCategory(all, id);
      if found.Some? && !HasId(category, id) {
        category := category + [found.value];
      }
    }

    method RemoveCategorySelected(id: string)
      requires Valid()
      modifies this`category
      ensures category == RemoveCategory(old(category), id)
      ensures Valid()
    {
      RemoveKeepsIdsDistinct(category, id);
      category := RemoveCategory(category, id);
    }

    /** `handleUploadSubCategoryImage`: `file` is whether a file was picked,
        `uploaded` the URL returned, None when the upload failed. */
    method UploadImage(file: bool, uploaded: Option<string>)
      modifies this`image, this`loading
      ensures file && uploaded.Some? ==> image == uploaded.value
      ensures !file || uploaded.None? ==> image == old(image)
      ensures file ==> !loading
      ensures !file ==> loading == old(loading)
    {
      if !file {
        return;
      }
      loading := true;
      if uploaded.Some? {
        image := uploaded.value;
      }
      loading := false;
    }

    /** `handleSubmitSubCategory`: the form is sent as it is; `loading` is
        cleared whatever the reply. */
    method Submit() returns (body: SubCategoryBody)
      requires SubmitEnabled(name, image, category)
      modifies this`loading
      ensures body == SubCategoryBody(name, image, category) && |body.category| > 0
      ensures !loading
    {
      loading := true;
      body := SubCategoryBody(name, image, category);
      loading := false;
    }
  }
}
