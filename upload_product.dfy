/** The product creation page (`UploadProduct`): the form record, the image
    uploads, the category and subcategory chips, the extra detail fields, and
    the submit that turns the numeric fields into numbers. */
module UploadProduct {
  import opened Common
  import opened UploadSubCategoryModel

  // ---------------------------------------------------------------------------
  // Lists edited by position

  /** `copy.splice(index, 1)`: the element at `index` is removed, the others
      keep their order; an index past the end removes nothing. */
  function RemoveAt<T>(s: seq<T>, index: nat): (r: seq<T>)
    ensures index < |s| ==> |r| == |s| - 1 && r[..index] == s[..index] && r[index..] == s[index + 1..]
    ensures index < |s| ==> multiset(r) + multiset{s[index]} == multiset(s)
    ensures index >= |s| ==> r == s
  {
    if index < |s| then
      assert s == s[..index] + [s[index]] + s[index + 1..];
      s[..index] + s[index + 1..]
    else s
  }

  /** Removing the chip just appended gives back the list before. */
  lemma RemoveLastUndoesAppend<T>(s: seq<T>, x: T)
    ensures RemoveAt(s + [x], |s|) == s
  {
    assert (s + [x])[..|s|] == s;
  }

  /** The selects' `onChange`: a known id appends its entry, even when it is
      already there; an unknown id changes nothing. */
  function AppendSelected(chosen: seq<Category>, all: seq<Category>, id: string): (r: seq<Category>)
    ensures FindCategory(all, id).None? ==> r == chosen
    ensures FindCategory(all, id).Some? ==>
              |r| == |chosen| + 1 && r[..|chosen|] == chosen && r[|chosen|] in all && r[|chosen|].id == id
  {
    var found := FindCategory(all, id);
    if found.Some? then chosen + [found.value] else chosen
  }

  /** Unlike the subcategory dialogs, this page does not keep ids distinct:
      choosing a known category twice shows two chips for it. */
  lemma SelectingTwiceDuplicates(chosen: seq<Category>, all: seq<Category>, id: string)
    requires FindCategory(all, id).Some?
    ensures var r := AppendSelected(AppendSelected(chosen, all, id), all, id);
            |r| == |chosen| + 2 && r[|chosen|] == r[|chosen| + 1] && !DistinctIds(r)
  {
  }

  // ---------------------------------------------------------------------------
  // Image uploads

  /** One upload's outcome: the request threw, or it answered with a URL
      (`response?.data?.data?.url`, None when missing). */
  datatype UploadReply = Rejected | Answered(url: Option<string>)

  /** `responses.filter(r => url).map(r => url)`: the non-empty URLs, in
      order. */
  function UploadedUrls(replies: seq<UploadReply>): (r: seq<string>)
    ensures |r| <= |replies|
    ensures forall u :: u in r <==> u != "" && Answered(Some(u)) in replies
    decreases |replies|
  {
    if |replies| == 0 then []
    else
      var rest := UploadedUrls(replies[1..]);
      assert replies == [replies[0]] + replies[1..];
      if replies[0].Answered? && replies[0].url.Some? && replies[0].url.value != "" then
        [replies[0].url.value] + rest
      else rest
  }

  /** Every non-empty URL appears as often as an upload answered with it;
      the empty string never appears. */
  lemma {:induction false} UploadedUrlsMultiplicity(replies: seq<UploadReply>)
    ensures forall u :: multiset(UploadedUrls(replies))[u] ==
                          if u != "" then multiset(replies)[Answered(Some(u))] else 0
    decreases |replies|
  {
    if |replies| > 0 {
      UploadedUrlsMultiplicity(replies[1..]);
      assert replies == [replies[0]] + replies[1..];
    }
  }

  /** The URLs keep the uploads' order: the URLs of a concatenation are
      those of each part in turn. */
  lemma {:induction false} UploadedUrlsAppend(a: seq<UploadReply>, b: seq<UploadReply>)
    ensures UploadedUrls(a + b) == UploadedUrls(a) + UploadedUrls(b)
    decreases |a|
  {
    if |a| > 0 {
      assert (a + b)[0] == a[0] && (a + b)[1..] == a[1..] + b;
      UploadedUrlsAppend(a[1..], b);
      var head := if a[0].Answered? && a[0].url.Some? && a[0].url.value != "" then [a[0].url.value] else [];
      assert UploadedUrls(a) == head + UploadedUrls(a[1..]);
      assert UploadedUrls(a + b) == head + UploadedUrls(a[1..] + b);
    } else {
      assert a + b == b;
    }
  }

  /** The images after `handleUploadImages`: `Promise.all` rejects when any
      upload throws, and then nothing is added. */
  function ImagesAfterUpload(images: seq<string>, replies: seq<UploadReply>): (r: seq<string>)
    ensures Rejected in replies ==> r == images
    ensures Rejected !in replies ==> |r| == |images| + |UploadedUrls(replies)| && r[..|images|] == images && r[|images|..] == UploadedUrls(replies)
  {
    if Rejected in replies then images
    else
      assert (images + UploadedUrls(replies))[..|images|] == images;
      images + UploadedUrls(replies)
  }

  // ---------------------------------------------------------------------------
  // Numeric fields

  /** What `x ? Number(x) : null` yields: null for the empty string, the
      value of a string of decimal digits, and for any other text a number
      this model does not compute. */
  datatype JsNumber = Null | Whole(n: nat) | OtherNumber(text: string)

  function Coerce(s: string): (r: JsNumber)
    ensures r.Null? <==> s == ""
    ensures s != "" && AllDigits(s) ==> r == Whole(DecimalValue(s))
  {
    if s == "" then Null
    else if AllDigits(s) then Whole(DecimalValue(s))
    else OtherNumber(s)
  }

  /** The decimal numeral of `n`, as a number input shows it. */
  function DecimalNumeral(n: nat): string
    decreases n
  {
    var d := ['0' + (n % 10) as char];
    if n < 10 then d else DecimalNumeral(n / 10) + d
  }

  /** A number typed into a numeric field is sent as that number. */
  lemma {:induction false} CoerceReadsNumeral(n: nat)
    ensures DecimalNumeral(n) != "" && AllDigits(DecimalNumeral(n))
    ensures Coerce(DecimalNumeral(n)) == Whole(n)
    decreases n
  {
    var d := ['0' + (n % 10) as char];
    if n >= 10 {
      CoerceReadsNumeral(n / 10);
      var s := DecimalNumeral(n);
      assert s[..|s| - 1] == DecimalNumeral(n / 10);
      assert DecimalValue(s) == DecimalValue(DecimalNumeral(n / 10)) * 10 + n % 10;
    }
  }

  // ---------------------------------------------------------------------------
  // The form

  /** The `data` record of the page. */
  datatype ProductData = ProductData(
    name: string, image: seq<string>, category: seq<Category>, subCategory: seq<Category>,
    unit: string, stock: string, price: string, discount: string,
    description: string, color: string, moreDetails: map<string, string>)

  const Initial := ProductData("", [], [], [], "", "", "", "", "", "", map[])

  /** The record as the create endpoint receives it. */
  datatype ProductBody = ProductBody(
    name: string, image: seq<string>, category: seq<Category>, subCategory: seq<Category>,
    unit: string, stock: JsNumber, price: JsNumber, discount: JsNumber,
    description: string, color: string, moreDetails: map<string, string>)

  /** `{...data, stock, price, discount}` with the three numbers coerced. */
  function Payload(d: ProductData): (b: ProductBody)
    ensures b.stock.Null? <==> d.stock == ""
    ensures b.price.Null? <==> d.price == ""
    ensures b.discount.Null? <==> d.discount == ""
  {
    ProductBody(d.name, d.image, d.category, d.subCategory, d.unit,
                Coerce(d.stock), Coerce(d.price), Coerce(d.discount),
                d.description, d.color, d.moreDetails)
  }

  /** The inputs bound to `handleChange` by their `name`. */
  datatype TextField = Name | Unit | Stock | Price | Discount | Description | Color

  function WithText(d: ProductData, f: TextField, value: string): ProductData {
    match f
    case Name => d.(name := value)
    case Unit => d.(unit := value)
    case Stock => d.(stock := value)
    case Price => d.(price := value)
    case Discount => d.(discount := value)
    case Description => d.(description := value)
    case Color => d.(color := value)
  }

  /** `handleAddField`: a name that is blank after trimming adds nothing;
      any other name gets an empty value, replacing the value of a field
      already so named. */
  function AddDetail(details: map<string, string>, fieldName: string): (r: map<string, string>)
    ensures IsBlank(fieldName) ==> r == details
    ensures !IsBlank(fieldName) ==> r.Keys == details.Keys + {fieldName} && r[fieldName] == ""
    ensures forall k :: k in details && k != fieldName ==> k in r && r[k] == details[k]
  {
    if IsBlank(fieldName) then details else details[fieldName := ""]
  }

  class ProductForm {
    var data: ProductData
    var imageLoading: bool
    var selectCategory: string
    var selectSubCategory: string
    var openAddField: bool
    var fieldName: string

    constructor()
      ensures data == Initial && !imageLoading && selectCategory == "" && selectSubCategory == ""
      ensures !openAddField && fieldName == ""
    {
      data := Initial;
      imageLoading := false;
      selectCategory, selectSubCategory := "", "";
      openAddField := false;
      fieldName := "";
    }

    /** `handleChange`: the named field alone takes the value. */
    method HandleChange(f: TextField, value: string)
      modifies this`data
      ensures data == WithText(old(data), f, value)
    {
      data := WithText(data, f, value);
    }

    /** `handleUploadImages`: with no file picked nothing happens; otherwise
        the uploaded URLs are appended and `imageLoading` is cleared. */
    method UploadImages(replies: seq<UploadReply>)
      modifies this`data, this`imageLoading
      ensures |replies| == 0 ==> data == old(data) && imageLoading == old(imageLoading)
      ensures |replies| > 0 ==> data == old(data).(image := ImagesAfterUpload(old(data).image, replies))
      ensures |replies| > 0 ==> !imageLoading
    {
      if |replies| == 0 {
        return;
      }
      imageLoading := true;
      if Rejected !in replies {
        data := data.(image := data.image + UploadedUrls(replies));
      }
      imageLoading := false;
    }

    method DeleteImage(index: nat)
      modifies this`data
      ensures data == old(data).(image := RemoveAt(old(data).image, index))
    {
      data := data.(image := RemoveAt(data.image, index));
    }

    method RemoveCategoryAt(index: nat)
      modifies this`data
      ensures data == old(data).(category := RemoveAt(old(data).category, index))
    {
      data := data.(category := RemoveAt(data.category, index));
    }

    method RemoveSubCategoryAt(index: nat)
      modifies this`data
      ensures data == old(data).(subCategory := RemoveAt(old(data).subCategory, index))
    {
      data := data.(subCategory := RemoveAt(data.subCategory, index));
    }

    /** The category select: a known id is appended and the select cleared;
        an unknown id changes nothing. */
    method SelectCategory(allCategory: seq<Category>, id: string)
      modifies this`data, this`selectCategory
      ensures data == old(data).(category := AppendSelected(old(data).category, allCategory, id))
      ensures FindCategory(allCategory, id).Some? ==> selectCategory == ""
      ensures FindCategory(allCategory, id).None? ==> selectCategory == old(selectCategory)
    {
      var found := FindCategory(allCategory, id);
      if found.Some? {
        data := data.(category := data.category + [found.value]);
        selectCategory := "";
      }
    }

    /** The subcategory select, the same over the subcategories. */
    method SelectSubCategory(allSubCategory: seq<Category>, id: string)
      modifies this`data, this`selectSubCategory
      ensures data == old(data).(subCategory := AppendSelected(old(data).subCategory, allSubCategory, id))
      ensures FindCategory(allSubCategory, id).Some? ==> selectSubCategory == ""
      ensures FindCategory(allSubCategory, id).None? ==> selectSubCategory == old(selectSubCategory)
    {
      var found := FindCategory(allSubCategory, id);
      if found.Some? {
        data := data.(subCategory := data.subCategory + [found.value]);
        selectSubCategory := "";
      }
    }

    /** The input of an extra field, rendered for each key present. */
    method EditDetail(key: string, value: string)
      requires key in data.moreDetails
      modifies this`data
      ensures data == old(data).(moreDetails := old(data).moreDetails[key := value])
      ensures data.moreDetails.Keys == old(data).moreDetails.Keys
    {
      data := data.(moreDetails := data.moreDetails[key := value]);
    }

    method OpenAddField()
      modifies this`openAddField
      ensures openAddField
    {
      openAddField := true;
    }

    method SetFieldName(value: string)
      modifies this`fieldName
      ensures fieldName == value
    {
      fieldName := value;
    }

    /** `handleAddField`: a blank name changes nothing and leaves the dialog
        open; otherwise the field is added, the name cleared and the dialog
        closed. */
    method AddField()
      modifies this`data, this`fieldName, this`openAddField
      ensures data == old(data).(moreDetails := AddDetail(old(data).moreDetails, old(fieldName)))
      ensures IsBlank(old(fieldName)) ==> fieldName == old(fieldName) && openAddField == old(openAddField)
      ensures !IsBlank(old(fieldName)) ==> fieldName == "" && !openAddField
    {
      if IsBlank(fieldName) {
        return;
      }
      data := data.(moreDetails := data.moreDetails[fieldName := ""]);
      fieldName := "";
      openAddField := false;
    }

    /** `handleSubmit`: the record is sent with its numbers coerced; a
        successful reply resets the form to its initial record. */
    method Submit(success: bool) returns (body: ProductBody)
      modifies this`data
      ensures body == Payload(old(data))
      ensures success ==> data == Initial
      ensures !success ==> data == old(data)
    {
      body := Payload(data);
      if success {
        data := Initial;
      }
    }
  }
}
