# Product form draft state — Dafny model

This project models the state logic of the admin console's product form
(`src/pages/products/ProductForm.tsx`). The React component holds three state
cells: the `Product` draft, the gallery `previewUrls`, and an `error` string.
Its event handlers rewrite those cells:

- a gallery upload appends every uploaded image to three parallel sequences:
  the previews, `productPhoto` and `photoName`;
- remove-at-index filters the previews and `productPhoto`;
- a thumbnail upload accepts only a single result;
- a field edit merges one property into the draft;
- submit validates the draft, makes one remote call (create or update), and
  resets the form when that call succeeds;
- cancel resets the form.

Layout:

- `wrappers.dfy`: `Option`, used for JavaScript's `null` and `undefined`.
- `sequences.dfy`: the two array operations the handlers use. `Map` models
  `Array.prototype.map`. `DropIndex` models `filter((_, i) => i !== index)`.
- `products_api.dfy`: the `Product` record, a gallery `Photo`, the remote
  call as a value (`CreateProduct(body)`, `UpdateProduct(id, body)`), and how
  such a call settles (`Succeeded`, `Failed`).
- `form_logic.dfy`: each handler's update as a pure transition on
  `FormState(product, previewUrls, error)`, plus lemmas about those
  transitions.
- `product_form.dfy`: the class `ProductForm`. Its fields are the component's
  state cells, and it has one method per handler. Each method's contract
  gives the new `State()` as the matching transition applied to
  `old(State())`. The file ends with three client methods: cancel twice, a
  scenario that creates a product, and hydrate-then-submit in edit mode for
  any fetched product and any outcome of the call.

Quirks of the code that the model keeps:

- `handleRemoveImage` filters `previewUrls` and `productPhoto` but leaves
  `photoName` alone. After a removal from an aligned gallery, `photoName` is
  one entry longer than the other two (`RemoveLeavesPhotoNamesBehind`). The
  intended design removes the entry from all three lists in the same update.
  The model follows the code.
- Each of the two filters drops index `i` only when `i` is in range for its
  own sequence. An index out of range changes neither. `URL.revokeObjectURL`
  is still called, with `undefined` (`None` in the ghost log `revoked`).
- Validation rejects only the empty name. A name made only of spaces is
  accepted (`BlankNamePassesValidation`). The intended design also rejects
  blank names and treats an empty price or stock as "unset". The code does
  neither, and the model follows the code.
- `isEdit` is the route's `productId` read with JavaScript truthiness: it is
  present and is not the empty string (`IsEdit`, `EditModeFromRoute`).
- `isSubmitting` has no setter, so it is always false. `setError` is only
  ever called with `""`, so `error` is always empty. Both facts are part of
  `ProductForm.Valid()`, and every handler preserves it.
- `handleInputChange` writes `[name]: value` for whatever name the input
  carries. The thumbnail-name text box has no `name` attribute, so typing in
  it writes the property `""`, which the model keeps in `extraProps`. It does
  not change `thumbnailName`.
- Hydration replaces the draft but not `previewUrls`. In edit mode the
  previews therefore start empty even when the fetched product has photos.
- `src/api/products.ts` declares a narrower `Product` type (`productPhoto` as
  strings, no thumbnail or photo names). The model uses the shape the form
  builds in `INITIAL_PRODUCT`.

## Model

| member | source | states |
|---|---|---|
| `Sequences.Map` | src/pages/products/ProductForm.tsx:50-53 | `map` yields one result per element, in order: same length, and element j is `f` of input element j |
| `Sequences.DropIndex` | src/pages/products/ProductForm.tsx:38 | the index filter shortens the sequence by one exactly when the index is in range, and otherwise keeps its length |
| `Sequences.DropIndexSpec` | src/pages/products/ProductForm.tsx:42 | an index in range removes exactly that element and keeps the rest in order; an index out of range leaves the sequence unchanged |
| `ProductFormLogic.InitialFormIsEmpty` | src/pages/products/ProductForm.tsx:14-24 | `INITIAL_PRODUCT` has a null id, empty name, description and thumbnail fields, zero price and stock, and no gallery or extra properties; the initial form is aligned and fails validation |
| `ProductFormLogic.Images` | src/pages/products/ProductForm.tsx:49 | a single object becomes a one-element list holding it; an array is taken as it is |
| `ProductFormLogic.Coerced` | src/pages/products/ProductForm.tsx:86 | the stored value is a number exactly for `price` and `stock`, and then it is `Number(value)`; for any other name it is the text unchanged |
| `ProductFormLogic.ValidationConditions` | src/pages/products/ProductForm.tsx:93 | a draft passes exactly when its name is non-empty, its price positive and its stock not negative; any one violation fails |
| `ProductFormLogic.EditModeFromRoute` | src/pages/products/ProductForm.tsx:31 | `isEdit` is false without a route id, and with one it is true exactly when the id is not the empty string |
| `ProductFormLogic.Upload` | src/pages/products/ProductForm.tsx:46-67 | k uploaded images (a single object counts as one) grow the previews, `productPhoto` and `photoName` by k each; the old contents stay as a prefix; entry j appended is `secure_url`, `{url: secure_url, filename: original_filename}` and `original_filename` respectively; no other field changes |
| `ProductFormLogic.RemoveImage` | src/pages/products/ProductForm.tsx:34-44 | the previews and `productPhoto` each lose element `index` when it is in range for them and are unchanged otherwise; `photoName`, every other draft field and the error are unchanged |
| `ProductFormLogic.UploadThumbnail` | src/pages/products/ProductForm.tsx:69-77 | a single result sets `thumbnail` and `thumbnailName` from it and changes nothing else; an array leaves the whole state unchanged |
| `ProductFormLogic.InputChange` | src/pages/products/ProductForm.tsx:79-88 | afterwards `product[name]` is `Number(value)` for `price` and `stock` and the text for any other name; every other property reads as before; extra properties change only under a name the record does not own; the gallery, the id, the previews and the error are untouched |
| `ProductFormLogic.SubmitCall` | src/pages/products/ProductForm.tsx:93-105 | no call exactly when the name is empty, the price is at most 0 or the stock is negative; otherwise exactly one call carrying the draft: an update of the route id in edit mode, a create otherwise |
| `ProductFormLogic.AfterSubmit` | src/pages/products/ProductForm.tsx:106-112 | a call that succeeded leaves the initial draft and no previews; no call, or a failed call, leaves the state as it was; the error is never touched |
| `ProductFormLogic.UploadKeepsLengthsInStep` | src/pages/products/ProductForm.tsx:55-66 | the three gallery sequences have equal lengths after an upload if and only if they had them before it |
| `ProductFormLogic.UploadPreservesAligned` | src/pages/products/ProductForm.tsx:50-66 | when every photo pairs preview i with photo name i, that still holds after an upload |
| `ProductFormLogic.RemoveLeavesPhotoNamesBehind` | src/pages/products/ProductForm.tsx:40-43 | removing from an aligned gallery leaves `photoName` one entry longer than the previews and the photos, because the removal does not filter it |
| `ProductFormLogic.RemoveKeepsUrlsPaired` | src/pages/products/ProductForm.tsx:35-43 | the previews and `productPhoto` drop the same index, so photo i still has preview i as its URL after any removal |
| `ProductFormLogic.UploadAllPreservesAligned` | src/pages/products/ProductForm.tsx:46-67 | any sequence of gallery uploads keeps an aligned gallery aligned |
| `ProductFormLogic.UploadAllGrows` | src/pages/products/ProductForm.tsx:55-66 | a sequence of uploads grows the previews, `productPhoto` and `photoName` each by the total number of images delivered, keeps the old contents of each as a prefix, and changes no non-gallery field |
| `ProductFormLogic.BlankNamePassesValidation` | src/pages/products/ProductForm.tsx:93 | with a valid price and stock, a name of one space passes validation and the empty name does not |
| `ProductFormComponent.ProductForm.constructor` | src/pages/products/ProductForm.tsx:14-31 | the form starts with `INITIAL_PRODUCT`, no previews, no error and `isSubmitting` false |
| `ProductFormComponent.ProductForm.HandleRemoveImage` | src/pages/products/ProductForm.tsx:34-44 | new state is `RemoveImage` of the old; exactly one revoke is logged, of `previewUrls[index]` when the index is in range and of `undefined` otherwise |
| `ProductFormComponent.ProductForm.HandleCloudinaryUpload` | src/pages/products/ProductForm.tsx:46-67 | new state is `Upload` of the old; equal gallery lengths and entry-wise alignment are preserved |
| `ProductFormComponent.ProductForm.HandleThumbnailUpload` | src/pages/products/ProductForm.tsx:69-77 | new state is `UploadThumbnail` of the old |
| `ProductFormComponent.ProductForm.HandleInputChange` | src/pages/products/ProductForm.tsx:79-88 | new state is `InputChange` of the old, using the form's `Number` coercion |
| `ProductFormComponent.ProductForm.HandleSubmit` | src/pages/products/ProductForm.tsx:90-113 | the call returned is `SubmitCall` of the route id and the old draft; the new state is `AfterSubmit`; navigation to `/products` happens exactly when a call was made and succeeded |
| `ProductFormComponent.ProductForm.HandleCancel` | src/pages/products/ProductForm.tsx:115-119 | from any state: the initial draft, no previews and an empty error |
| `ProductFormComponent.ProductForm.Hydrate` | src/pages/products/ProductForm.tsx:121-130 | in edit mode a fetched product replaces the draft wholesale and leaves the previews alone; a failed fetch changes nothing |
| `ProductFormComponent.HydrateThenSubmit` | src/pages/products/ProductForm.tsx:98-130 | in edit mode, hydrating from a valid fetched product and submitting sends one update of the route id whose body equals the fetched product; after a failed call the draft is still that product, after a successful one the form is reset |
| `ProductFormComponent.CancelIsIdempotent` | src/pages/products/ProductForm.tsx:115-119 | cancelling a second time leaves the state cancelling once produced |

## Left out

- Rendering (JSX, styling), `alert` and `console.error` are UI side effects and are not modelled. `navigate` and `URL.revokeObjectURL` appear only as ghost logs (`navigatedTo`, `revoked`).
- JavaScript's `Number()` is a constructor parameter `toNumber: string -> int`, left abstract. The model does not cover NaN, fractions, or the fact that `Number("")` is 0, because those are floating-point behaviour. One consequence: NaN slips past the `price <= 0` and `stock < 0` checks, and that path is not modelled.
- The remote API (`createProduct`, `updateProduct`, `getProductById`) is not modelled. Submit returns the call it would make, and the caller supplies how that call settles. The axios wrapper and its fallback message are not modelled. `src/api/products.ts` exports only `createProduct`; the `updateProduct` and `getProductById` that the form imports (lines 4 and 7) are not defined there.
- Hydration is the `Hydrate` method. It takes the fetch result as a parameter and, like the effect, requires edit mode. The effect leaves a rejected fetch unhandled, which the model treats as "nothing changes".
- `ProductForm.HandleInputChange`: excludes the names `productId`, `productPhoto` and `photoName`. No rendered input carries them, and a string stored there has no place in the typed record.
- Asynchrony is not modelled. The model treats the awaited call as settling at once, so edits made while a submit is pending, and React's batching of state updates, are outside it. Note that `handleSubmit` sends the draft it captured when the submit event fired.
- `productId` is read from the route at module scope (line 6), not inside the component. The model takes it as a constructor constant instead.
- The upload widget adapter (`src/components/CloudinaryUploadButton.tsx`) is not modelled. It always forwards a single object, and the handlers also accept an array, since their type allows one.
- `src/App.tsx` (routes and layout) and `src/pages/products/ProductList.tsx` (rendering only) are not modelled. The product list is never populated, and its delete button has no handler, so there is no delete flow in the code to model.
