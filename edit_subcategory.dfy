/** The dialog that edits a subcategory (`EditSubCategory`): it starts from
    the stored record, shares the chip-list operations of the create dialog,
    and sends the record with its id. */
module EditSubCategory {
  import opened Common
  import opened UploadSubCategoryModel

  /** The record the dialog is opened with; `category` is absent when the
      stored document has no list. */
  datatype StoredSubCategory = StoredSubCategory(id: string, name: string, image: string,
                                                 category: Option<seq<Category>>)

  /** What the update endpoint receives. */
  datatype UpdateBody = UpdateBody(id: string, name: string, image: string, category: seq<Category>)

  class SubCategoryEdit {
    const id: string
    var name: string
    var image: string
    var category: seq<Category>

    /** `data.category || []`: an absent list starts empty; the stored list
        is taken as it is, duplicates included. */
    constructor(data: StoredSubCategory)
      ensures id == data.id && name == data.name && image == data.image
      ensures category == data.category.GetOr([])
      ensures data.category.None? ==> !SubmitEnabled(name, image, category)
    {
      id := data.id;
      name := data.name;
      image := data.image;
      category := data.category.GetOr([]);
    }

    method SetName(value: string)
      modifies this`name
      ensures name == value
    {
      name := value;
    }

    /** The select adds the chosen category unless a chip has its id; the
        list stays free of duplicates when it started so. */
    method SelectCategory(all: seq<Category>, categoryId: string)
      modifies this`category
      ensures category == AddCategory(old(category), all, categoryId)
      ensures DistinctIds(old(category)) ==> DistinctIds(category)
    {
      if DistinctIds(category) {
        AddKeepsIdsDistinct(category, all, categoryId);
      }
      var found := FindCategory(all, categoryId);
      if found.Some? && !HasId(category, categoryId) {
        category := category + [found.value];
      }
    }

    method RemoveCategorySelected(categoryId: string)
      modifies this`category
      ensures category == RemoveCategory(old(category), categoryId)
      ensures !HasId(category, categoryId)
      ensures DistinctIds(old(category)) ==> DistinctIds(category)
    {
      if DistinctIds(category) {
        RemoveKeepsIdsDistinct(category, categoryId);
      }
      category := RemoveCategory(category, categoryId);
    }

    /** `handleUploadSubCategoryImage` has no loading flag and no error
        handler: a failed upload (`uploaded` None) leaves the image as it
        was. */
    method UploadImage(file: bool, uploaded: Option<string>)
      modifies this`image
      ensures file && uploaded.Some? ==> image == uploaded.value
      ensures !file || uploaded.None? ==> image == old(image)
    {
      if file && uploaded.Some? {
        image := uploaded.value;
      }
    }

    /** `handleSubmitSubCategory`: the whole record is sent, id included. */
    method Submit() returns (body: UpdateBody)
      requires SubmitEnabled(name, image, category)
      ensures body.id == id && body.name == name && body.image == image && body.category == category
      ensures body.name != "" && body.image != "" && |body.category| > 0
    {
      body := UpdateBody(id, name, image, category);
    }
  }
}
