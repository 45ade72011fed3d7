/**
 * The state updates of the product form, as pure functions over the
 * component's three state cells (the product draft, the gallery preview URLs
 * and the error message). Each event handler of the component applies one of
 * these transitions; the lemmas state what the transitions promise.
 */
module ProductFormLogic {
  import opened Wrappers
  import opened Sequences
  import opened ProductsApi

  /** What the upload widget reports for one uploaded asset. */
  datatype CloudinaryInfo = CloudinaryInfo(secureUrl: string, originalFilename: string)

  /** The upload callback's argument: a single object or an array of them. */
  datatype UploadInfo = Single(info: CloudinaryInfo) | Batch(infos: seq<CloudinaryInfo>)

  /** The three state cells of the component. */
  datatype FormState = FormState(product: Product, previewUrls: seq<string>, error: string)

  /** The empty draft every form starts from and returns to. */
  const InitialProduct: Product :=
    Product(None, "", 0, 0, [], "", "", [], "", map[])

  const InitialState: FormState := FormState(InitialProduct, [], "")

  /**
   * The initial draft has no id, an empty name, zero price and stock, no
   * gallery and no thumbnail, so a fresh form's gallery is (trivially)
   * aligned and it cannot be submitted as it stands.
   */
  lemma InitialFormIsEmpty()
    ensures InitialProduct.productId.None? && InitialProduct.productName == "" && InitialProduct.description == ""
    ensures InitialProduct.price == 0 && InitialProduct.stock == 0
    ensures InitialProduct.thumbnail == "" && InitialProduct.thumbnailName == ""
    ensures InitialProduct.productPhoto == [] && InitialProduct.photoName == [] && InitialProduct.extraProps == map[]
    ensures Aligned(InitialState)
    ensures !PassesValidation(InitialProduct)
  {
  }

  /** The value a scalar property lookup `product[name]` yields. */
  datatype PropValue = Num(n: int) | Str(s: string)

  /** The record's own properties that hold a string or a number. */
  const OwnScalarProps: set<string> :=
    {"productName", "price", "stock", "thumbnail", "thumbnailName", "description"}

  /** Property names that hold a sequence or the identifier rather than a string or a number. */
  const NonScalarProps: set<string> := {"productId", "productPhoto", "photoName"}

  /** `product[name]` for every name other than the non-scalar ones; `None` is `undefined`. */
  function Prop(p: Product, name: string): Option<PropValue>
  {
    if name == "productName" then Some(Str(p.productName))
    else if name == "price" then Some(Num(p.price))
    else if name == "stock" then Some(Num(p.stock))
    else if name == "thumbnail" then Some(Str(p.thumbnail))
    else if name == "thumbnailName" then Some(Str(p.thumbnailName))
    else if name == "description" then Some(Str(p.description))
    else if name in NonScalarProps then None
    else if name in p.extraProps then Some(Str(p.extraProps[name]))
    else None
  }

  /** `Array.isArray(info) ? info : [info]` */
  function Images(info: UploadInfo): (r: seq<CloudinaryInfo>)
    ensures info.Single? ==> |r| == 1 && r[0] == info.info
    ensures info.Batch? ==> r == info.infos
  {
    match info
    case Single(i) => [i]
    case Batch(infos) => infos
  }

  /** The gallery entry `{url: secure_url, filename: original_filename}` for an upload. */
  function PhotoOf(img: CloudinaryInfo): Photo
  {
    Photo(img.secureUrl, img.originalFilename)
  }

  /**
   * Gallery upload: every uploaded image is appended, in the order received,
   * to the preview URLs, the gallery photos and the photo names; the old
   * contents stay as a prefix and nothing else changes.
   */
  function Upload(s: FormState, info: UploadInfo): (r: FormState)
    ensures var k := |Images(info)|;
      |r.previewUrls| == |s.previewUrls| + k &&
      |r.product.productPhoto| == |s.product.productPhoto| + k &&
      |r.product.photoName| == |s.product.photoName| + k
    ensures r.previewUrls[..|s.previewUrls|] == s.previewUrls
    ensures r.product.productPhoto[..|s.product.productPhoto|] == s.product.productPhoto
    ensures r.product.photoName[..|s.product.photoName|] == s.product.photoName
    ensures forall j :: 0 <= j < |Images(info)| ==>
      r.previewUrls[|s.previewUrls| + j] == Images(info)[j].secureUrl &&
      r.product.productPhoto[|s.product.productPhoto| + j] ==
        Photo(Images(info)[j].secureUrl, Images(info)[j].originalFilename) &&
      r.product.photoName[|s.product.photoName| + j] == Images(info)[j].originalFilename
    ensures r.product.(productPhoto := s.product.productPhoto, photoName := s.product.photoName) == s.product
    ensures r.error == s.error
  {
    var images := Images(info);
    var newImages := Map(PhotoOf, images);
    FormState(
      s.product.(
        productPhoto := s.product.productPhoto + newImages,
        photoName := s.product.photoName + Map((img: CloudinaryInfo) => img.originalFilename, images)),
      s.previewUrls + Map((img: CloudinaryInfo) => img.secureUrl, images),
      s.error)
  }

  /**
   * Remove-at-index: the preview URLs and the gallery photos each lose the
   * element at `index` when it is in range for them and are unchanged when it
   * is not. The photo names and every other field are left alone.
   */
  function RemoveImage(s: FormState, index: int): (r: FormState)
    ensures 0 <= index < |s.previewUrls| ==>
      r.previewUrls == s.previewUrls[..index] + s.previewUrls[index + 1..]
    ensures !(0 <= index < |s.previewUrls|) ==> r.previewUrls == s.previewUrls
    ensures 0 <= index < |s.product.productPhoto| ==>
      r.product.productPhoto == s.product.productPhoto[..index] + s.product.productPhoto[index + 1..]
    ensures !(0 <= index < |s.product.productPhoto|) ==> r.product.productPhoto == s.product.productPhoto
    ensures r.product.photoName == s.product.photoName
    ensures r.product.(productPhoto := s.product.productPhoto) == s.product
    ensures r.error == s.error
  {
    DropIndexSpec(s.previewUrls, index);
    DropIndexSpec(s.product.productPhoto, index);
    FormState(
      s.product.(productPhoto := DropIndex(s.product.productPhoto, index)),
      DropIndex(s.previewUrls, index),
      s.error)
  }

  /**
   * Thumbnail upload: a single object sets the thumbnail and its file name and
   * changes nothing else; an array is ignored.
   */
  function UploadThumbnail(s: FormState, info: UploadInfo): (r: FormState)
    ensures info.Single? ==>
      r.product.thumbnail == info.info.secureUrl &&
      r.product.thumbnailName == info.info.originalFilename &&
      r.product.(thumbnail := s.product.thumbnail, thumbnailName := s.product.thumbnailName) == s.product &&
      r.previewUrls == s.previewUrls && r.error == s.error
    ensures info.Batch? ==> r == s
  {
    match info
    case Single(i) =>
      s.(product := s.product.(thumbnail := i.secureUrl, thumbnailName := i.originalFilename))
    case Batch(_) => s
  }

  /** What a field edit stores: `Number(value)` for price and stock, the text otherwise. */
  function Coerced(name: string, value: string, toNumber: string -> int): (r: PropValue)
    ensures r.Num? <==> name == "price" || name == "stock"
    ensures r.Num? ==> r.n == toNumber(value)
    ensures r.Str? ==> r.s == value
  {
    if name == "price" || name == "stock" then Num(toNumber(value)) else Str(value)
  }

  /**
   * Field edit `{...prev, [name]: value}`: afterwards `product[name]` is the
   * coerced value, every other property reads as before, and the gallery,
   * the identifier, the previews and the error are untouched.
   */
  function InputChange(s: FormState, name: string, value: string, toNumber: string -> int): (r: FormState)
    requires name !in NonScalarProps
    ensures Prop(r.product, name) == Some(Coerced(name, value, toNumber))
    ensures forall n :: n != name ==> Prop(r.product, n) == Prop(s.product, n)
    ensures r.product.productId == s.product.productId
    ensures r.product.productPhoto == s.product.productPhoto
    ensures r.product.photoName == s.product.photoName
    ensures r.product.extraProps ==
      if name in OwnScalarProps then s.product.extraProps else s.product.extraProps[name := value]
    ensures r.previewUrls == s.previewUrls && r.error == s.error
  {
    var p := s.product;
    var q :=
      if name == "productName" then p.(productName := value)
      else if name == "price" then p.(price := toNumber(value))
      else if name == "stock" then p.(stock := toNumber(value))
      else if name == "thumbnail" then p.(thumbnail := value)
      else if name == "thumbnailName" then p.(thumbnailName := value)
      else if name == "description" then p.(description := value)
      else p.(extraProps := p.extraProps[name := value]);
    s.(product := q)
  }

  /**
   * The submit guard `!productName || price <= 0 || stock < 0`, negated:
   * a name counts as missing only when it is the empty string.
   */
  predicate PassesValidation(p: Product)
  {
    !(p.productName == "" || p.price <= 0 || p.stock < 0)
  }

  /** `isEdit`: the route's product id is present and, as a string, truthy. */
  predicate IsEdit(routeId: Option<string>)
  {
    routeId.Some? && routeId.value != ""
  }

  /**
   * A draft passes validation exactly when its name is non-empty, its price
   * positive and its stock not negative; violating any one of the three fails.
   */
  lemma ValidationConditions(p: Product)
    ensures PassesValidation(p) <==> p.productName != "" && p.price > 0 && p.stock >= 0
    ensures p.productName == "" ==> !PassesValidation(p)
    ensures p.price <= 0 ==> !PassesValidation(p)
    ensures p.stock < 0 ==> !PassesValidation(p)
  {
  }

  /** Without a route id the form creates; with one it edits exactly when the id is not the empty string. */
  lemma EditModeFromRoute(id: string)
    ensures !IsEdit(None)
    ensures IsEdit(Some(id)) <==> |id| > 0
  {
  }

  /**
   * The remote call a submit makes: none when validation fails, otherwise
   * exactly one, an update of the route's id in edit mode and a create
   * otherwise, carrying the draft as it stands.
   */
  function SubmitCall(routeId: Option<string>, p: Product): (r: Option<RemoteCall>)
    ensures r.None? <==> !PassesValidation(p)
    ensures r.Some? ==> r.value.body == p
    ensures r.Some? ==> (r.value.UpdateProduct? <==> IsEdit(routeId))
    ensures r.Some? && r.value.UpdateProduct? ==> routeId.Some? && r.value.id == routeId.value
  {
    if !PassesValidation(p) then None
    else if IsEdit(routeId) then Some(UpdateProduct(routeId.value, p))
    else Some(CreateProduct(p))
  }

  /**
   * The form after the awaited call settles: reset to the empty draft and no
   * previews when a call was made and succeeded; otherwise as it was, so the
   * user can retry. The error message is never touched.
   */
  function AfterSubmit(s: FormState, call: Option<RemoteCall>, outcome: RemoteOutcome): (r: FormState)
    ensures r.error == s.error
    ensures call.Some? && outcome.Succeeded? ==> r.product == InitialProduct && r.previewUrls == []
    ensures call.None? || outcome.Failed? ==> r == s
  {
    if call.Some? && outcome.Succeeded? then FormState(InitialProduct, [], s.error) else s
  }

  // ---------------------------------------------------------------------------
  // The parallel gallery sequences

  /** The three gallery sequences have the same length. */
  predicate SameLengths(s: FormState)
  {
    |s.product.productPhoto| == |s.product.photoName| == |s.previewUrls|
  }

  /** Entry i of the gallery is the photo whose URL is preview i and whose name is photo name i. */
  predicate Aligned(s: FormState)
  {
    SameLengths(s) &&
    forall i :: 0 <= i < |s.previewUrls| ==>
      s.product.productPhoto[i] == Photo(s.previewUrls[i], s.product.photoName[i])
  }

  /** A gallery upload grows all three sequences by the same amount, so their lengths agree after it exactly when they agreed before it. */
  lemma UploadKeepsLengthsInStep(s: FormState, info: UploadInfo)
    ensures SameLengths(Upload(s, info)) <==> SameLengths(s)
  {
  }

  /** A gallery upload keeps the three sequences aligned entry by entry. */
  lemma UploadPreservesAligned(s: FormState, info: UploadInfo)
    requires Aligned(s)
    ensures Aligned(Upload(s, info))
  {
  }

  /**
   * Removing an image from an aligned gallery leaves the photo names one entry
   * longer than the previews and the photos: the removal does not touch them.
   */
  lemma RemoveLeavesPhotoNamesBehind(s: FormState, index: int)
    requires Aligned(s) && 0 <= index < |s.previewUrls|
    ensures var r := RemoveImage(s, index);
      |r.previewUrls| == |r.product.productPhoto| == |r.product.photoName| - 1 &&
      !SameLengths(r)
  {
  }

  /** Removal drops the same index from the previews and the photos, so those two stay paired by URL. */
  lemma RemoveKeepsUrlsPaired(s: FormState, index: int)
    requires |s.previewUrls| == |s.product.productPhoto|
    requires forall i :: 0 <= i < |s.previewUrls| ==> s.product.productPhoto[i].url == s.previewUrls[i]
    ensures var r := RemoveImage(s, index);
      |r.previewUrls| == |r.product.productPhoto| &&
      forall i :: 0 <= i < |r.previewUrls| ==> r.product.productPhoto[i].url == r.previewUrls[i]
  {
  }

  /** A run of gallery uploads, one callback after another. */
  function UploadAll(s: FormState, uploads: seq<UploadInfo>): FormState
    decreases |uploads|
  {
    if |uploads| == 0 then s else UploadAll(Upload(s, uploads[0]), uploads[1..])
  }

  /** The number of images a run of uploads delivers. */
  function ImageCount(uploads: seq<UploadInfo>): nat
    decreases |uploads|
  {
    if |uploads| == 0 then 0 else |Images(uploads[0])| + ImageCount(uploads[1..])
  }

  /** Any run of gallery uploads keeps an aligned gallery aligned. */
  lemma {:induction false} UploadAllPreservesAligned(s: FormState, uploads: seq<UploadInfo>)
    requires Aligned(s)
    ensures Aligned(UploadAll(s, uploads))
    decreases |uploads|
  {
    if |uploads| > 0 {
      UploadPreservesAligned(s, uploads[0]);
      UploadAllPreservesAligned(Upload(s, uploads[0]), uploads[1..]);
    }
  }

  /**
   * A run of gallery uploads grows the previews, the photos and the photo
   * names each by the number of images delivered, keeping the old contents
   * of each as a prefix, and touches no field other than the gallery's.
   */
  lemma {:induction false} UploadAllGrows(s: FormState, uploads: seq<UploadInfo>)
    ensures var r := UploadAll(s, uploads);
      |r.previewUrls| == |s.previewUrls| + ImageCount(uploads) &&
      |r.product.productPhoto| == |s.product.productPhoto| + ImageCount(uploads) &&
      |r.product.photoName| == |s.product.photoName| + ImageCount(uploads) &&
      r.previewUrls[..|s.previewUrls|] == s.previewUrls &&
      r.product.productPhoto[..|s.product.productPhoto|] == s.product.productPhoto &&
      r.product.photoName[..|s.product.photoName|] == s.product.photoName &&
      r.product.(productPhoto := s.product.productPhoto, photoName := s.product.photoName) == s.product &&
      r.error == s.error
    decreases |uploads|
  {
    if |uploads| > 0 {
      var t := Upload(s, uploads[0]);
      UploadAllGrows(t, uploads[1..]);
      var r := UploadAll(t, uploads[1..]);
      assert r.previewUrls[..|s.previewUrls|] == r.previewUrls[..|t.previewUrls|][..|s.previewUrls|];
      assert r.product.productPhoto[..|s.product.productPhoto|] ==
        r.product.productPhoto[..|t.product.productPhoto|][..|s.product.productPhoto|];
      assert r.product.photoName[..|s.product.photoName|] ==
        r.product.photoName[..|t.product.photoName|][..|s.product.photoName|];
    }
  }

  // ---------------------------------------------------------------------------
  // Submission

  /** A name made only of spaces passes validation: only the empty name is rejected. */
  lemma BlankNamePassesValidation(p: Product)
    requires p.price > 0 && p.stock >= 0
    ensures PassesValidation(p.(productName := " "))
    ensures !PassesValidation(p.(productName := ""))
  {
  }
}
