/**
 * The product form component: its state cells as fields and one method per
 * event handler. Every handler's new state is the matching transition of
 * ProductFormLogic applied to the old state.
 */
module ProductFormComponent {
  import opened Wrappers
  import opened Sequences
  import opened ProductsApi
  import opened ProductFormLogic

  class ProductForm {
    /** The `productId` route parameter, absent when creating a product. */
    const productId: Option<string>
    /** JavaScript's `Number(value)` on the text of a numeric input. */
    const toNumber: string -> int
    /** The submitting flag; it has no setter, so it stays false. */
    const isSubmitting: bool

    var product: Product
    var previewUrls: seq<string>
    var error: string

    /** Every path passed to `navigate`. */
    ghost var navigatedTo: seq<string>
    /** Every argument passed to `URL.revokeObjectURL`; `None` is `undefined`. */
    ghost var revoked: seq<Option<string>>

    /** The three state cells as one value. */
    function State(): FormState
      reads this
    {
      FormState(product, previewUrls, error)
    }

    /** No handler ever stores a non-empty error, and the form is never marked as submitting. */
    ghost predicate Valid()
      reads this
    {
      error == "" && !isSubmitting
    }

    predicate IsEditMode()
    {
      IsEdit(productId)
    }

    constructor (productId: Option<string>, toNumber: string -> int)
      ensures this.productId == productId && this.toNumber == toNumber
      ensures Valid() && !isSubmitting
      ensures State() == InitialState
      ensures navigatedTo == [] && revoked == []
    {
      this.productId := productId;
      this.toNumber := toNumber;
      isSubmitting := false;
      product := InitialProduct;
      previewUrls := [];
      error := "";
      navigatedTo := [];
      revoked := [];
    }

    /** `handleRemoveImage(index)`: release the preview and drop the entry from the previews and the photos. */
    method HandleRemoveImage(index: int)
      requires Valid()
      modifies this
      ensures Valid()
      ensures State() == RemoveImage(old(State()), index)
      ensures revoked == old(revoked) +
        [if 0 <= index < |old(previewUrls)| then Some(old(previewUrls)[index]) else None]
      ensures navigatedTo == old(navigatedTo)
    {
      var newUrls := previewUrls;
      revoked := revoked + [if 0 <= index < |newUrls| then Some(newUrls[index]) else None];
      previewUrls := DropIndex(newUrls, index);
      product := product.(productPhoto := DropIndex(product.productPhoto, index));
    }

    /** `handleCloudinaryUpload(info)`: append every uploaded image to the gallery. */
    method HandleCloudinaryUpload(info: UploadInfo)
      requires Valid()
      modifies this
      ensures Valid()
      ensures State() == Upload(old(State()), info)
      ensures SameLengths(old(State())) ==> SameLengths(State())
      ensures Aligned(old(State())) ==> Aligned(State())
      ensures navigatedTo == old(navigatedTo) && revoked == old(revoked)
    {
      ghost var before := State();
      var next := Upload(State(), info);
      previewUrls := next.previewUrls;
      product := next.product;
      UploadKeepsLengthsInStep(before, info);
      if Aligned(before) {
        UploadPreservesAligned(before, info);
      }
    }

    /** `handleThumbnailUpload(info)`: take the thumbnail from a single result only. */
    method HandleThumbnailUpload(info: UploadInfo)
      requires Valid()
      modifies this
      ensures Valid()
      ensures State() == UploadThumbnail(old(State()), info)
      ensures navigatedTo == old(navigatedTo) && revoked == old(revoked)
    {
      if info.Single? {
        product := product.(thumbnail := info.info.secureUrl, thumbnailName := info.info.originalFilename);
      }
    }

    /** `handleInputChange`: merge the edited input's value into the draft under the input's name. */
    method HandleInputChange(name: string, value: string)
      requires Valid()
      requires name !in NonScalarProps
      modifies this
      ensures Valid()
      ensures State() == InputChange(old(State()), name, value, toNumber)
      ensures navigatedTo == old(navigatedTo) && revoked == old(revoked)
    {
      product := InputChange(State(), name, value, toNumber).product;
    }

    /**
     * `handleSubmit`: validate, make at most one remote call, and reset and
     * navigate to the list when it succeeds. `outcome` is how the awaited call
     * settles; it is not consulted when no call is made.
     */
    method HandleSubmit(outcome: RemoteOutcome) returns (call: Option<RemoteCall>)
      requires Valid()
      modifies this
      ensures Valid()
      ensures call == SubmitCall(productId, old(product))
      ensures State() == AfterSubmit(old(State()), call, outcome)
      ensures navigatedTo == old(navigatedTo) + (if call.Some? && outcome.Succeeded? then ["/products"] else [])
      ensures revoked == old(revoked)
    {
      if product.productName == "" || product.price <= 0 || product.stock < 0 {
        return None;
      }
      if IsEditMode() {
        call := Some(UpdateProduct(productId.value, product));
      } else {
        call := Some(CreateProduct(product));
      }
      if outcome.Succeeded? {
        product := InitialProduct;
        previewUrls := [];
        navigatedTo := navigatedTo + ["/products"];
      }
    }

    /** `handleCancel`: back to the empty draft, no previews and no error, from any state. */
    method HandleCancel()
      requires Valid()
      modifies this
      ensures Valid()
      ensures State() == InitialState
      ensures navigatedTo == old(navigatedTo) && revoked == old(revoked)
    {
      product := InitialProduct;
      previewUrls := [];
      error := "";
    }

    /**
     * The effect that hydrates the draft in edit mode: the fetched product
     * replaces the draft wholesale; a failed fetch (`None`) changes nothing.
     */
    method Hydrate(fetched: Option<Product>)
      requires Valid() && IsEditMode()
      modifies this
      ensures Valid()
      ensures State() == if fetched.Some? then old(State()).(product := fetched.value) else old(State())
      ensures navigatedTo == old(navigatedTo) && revoked == old(revoked)
    {
      if fetched.Some? {
        product := fetched.value;
      }
    }
  }

  /** Cancelling twice leaves the same state as cancelling once. */
  method CancelIsIdempotent(form: ProductForm)
    requires form.Valid()
    modifies form
    ensures form.Valid() && form.State() == InitialState
  {
    form.HandleCancel();
    var once := form.State();
    form.HandleCancel();
    assert form.State() == once;
  }

  /**
   * Creating a product: enter a name, a price and a stock, upload one gallery
   * image, then submit successfully. One create call carries the draft, and
   * the form is reset and back on the list.
   */
  method CreateMugScenario(toNumber: string -> int)
    requires toNumber("9900") == 9900 && toNumber("5") == 5
  {
    var form := new ProductForm(None, toNumber);
    form.HandleInputChange("productName", "Mug");
    assert form.product == InitialProduct.(productName := "Mug");
    form.HandleInputChange("price", "9900");
    assert form.product == InitialProduct.(productName := "Mug", price := 9900);
    form.HandleInputChange("stock", "5");
    var typed := Product(None, "Mug", 9900, 5, [], "", "", [], "", map[]);
    assert form.product == typed;
    var img := CloudinaryInfo("https://img/1.png", "mug.png");
    form.HandleCloudinaryUpload(Single(img));
    var uploaded := typed.(productPhoto := [Photo("https://img/1.png", "mug.png")], photoName := ["mug.png"]);
    assert form.product.productPhoto == [] + Map(PhotoOf, [img]);
    assert form.product.photoName == [] + ["mug.png"];
    assert form.product == uploaded;
    var call := form.HandleSubmit(Succeeded);
    assert call == Some(CreateProduct(uploaded));
    assert form.State() == InitialState;
    assert form.navigatedTo == ["/products"];
  }

  /**
   * Editing a product: hydrate the draft from the fetched record and submit it
   * unchanged. The one call made is an update of the route's id whose body is
   * the fetched record, field for field. When it fails the draft is still the
   * fetched record, so the user can retry; when it succeeds the form is reset.
   */
  method HydrateThenSubmit(form: ProductForm, fetched: Product, outcome: RemoteOutcome)
    returns (call: Option<RemoteCall>)
    requires form.Valid() && form.IsEditMode()
    requires PassesValidation(fetched)
    modifies form
    ensures form.Valid()
    ensures call == Some(UpdateProduct(form.productId.value, fetched))
    ensures outcome.Failed? ==> form.product == fetched
    ensures outcome.Succeeded? ==> form.State() == InitialState
  {
    form.Hydrate(Some(fetched));
    call := form.HandleSubmit(outcome);
  }
}
