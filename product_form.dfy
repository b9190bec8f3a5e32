/**
 * The product create/edit page: its validation, the way typed input becomes
 * form data, and the submit flow that dispatches a create or an update and
 * reports the outcome.
 *
 * The page is in edit mode exactly when the route carries a (non-empty) id.
 * Submission returns the request it dispatches; the awaited settlement of that
 * request is a parameter.
 */
module ProductForm {
  import opened Wrappers
  import opened Types
  import opened Text
  import opened MockApi
  import opened Thunks
  import opened PageKit

  const ProductsPath := "/products"
  const ProductUpdatedMessage := "Product updated successfully"
  const ProductCreatedMessage := "Product created successfully"

  /** One optional message per validated field; the status field is never validated. */
  datatype ProductErrors = ProductErrors(
    name: Option<string>,
    description: Option<string>,
    price: Option<string>,
    category: Option<string>,
    stock: Option<string>)

  const NoProductErrors := ProductErrors(None, None, None, None, None)

  /** `validateForm`'s error object. */
  function ValidateProduct(d: ProductFormData): ProductErrors {
    ProductErrors(
      if IsBlank(d.name) then Some("Name is required") else None,
      if IsBlank(d.description) then Some("Description is required") else None,
      if d.price <= 0.0 then Some("Price must be greater than 0") else None,
      if IsBlank(d.category) then Some("Category is required") else None,
      if d.stock < 0.0 then Some("Stock cannot be negative") else None)
  }

  /**
   * A form is accepted exactly when name, description and category each hold a
   * character other than whitespace, the price is positive and the stock is
   * not negative.
   */
  lemma ProductFormValidity(d: ProductFormData)
    ensures ValidateProduct(d) == NoProductErrors <==>
      HasVisibleChar(d.name) && HasVisibleChar(d.description) && HasVisibleChar(d.category) &&
      d.price > 0.0 && d.stock >= 0.0
  {
    BlankIffAllWhitespace(d.name);
    BlankIffAllWhitespace(d.description);
    BlankIffAllWhitespace(d.category);
  }

  /** The inputs wired to `handleChange`. */
  datatype TextInput = NameInput | DescriptionInput | PriceInput | StockInput

  /** The selects wired to `handleSelectChange`. */
  datatype Selection = CategorySelection(category: string) | StatusSelection(status: ProductStatus)

  /** The form data after typing `value` into an input; price and stock read as `parseFloat(value) || 0`. */
  function WithInput(d: ProductFormData, input: TextInput, value: string): ProductFormData {
    match input
    case NameInput => d.(name := value)
    case DescriptionInput => d.(description := value)
    case PriceInput => d.(price := ParseNumberOrZero(value))
    case StockInput => d.(stock := ParseNumberOrZero(value))
  }

  function WithSelection(d: ProductFormData, choice: Selection): ProductFormData {
    match choice
    case CategorySelection(c) => d.(category := c)
    case StatusSelection(s) => d.(status := s)
  }

  /** The error shown under an input. */
  function InputError(e: ProductErrors, input: TextInput): Option<string> {
    match input
    case NameInput => e.name
    case DescriptionInput => e.description
    case PriceInput => e.price
    case StockInput => e.stock
  }

  function ClearInputError(e: ProductErrors, input: TextInput): ProductErrors {
    match input
    case NameInput => e.(name := None)
    case DescriptionInput => e.(description := None)
    case PriceInput => e.(price := None)
    case StockInput => e.(stock := None)
  }

  /**
   * Typing into a numeric input stores the number it reads as: the decimal form
   * of `n` stores `n`, text without digits stores 0; every other field is kept.
   * Typing into a text input stores the text verbatim.
   */
  lemma NumericInputCoercion(d: ProductFormData, n: nat, junk: string)
    requires forall k :: 0 <= k < |junk| ==> !IsDigit(junk[k])
    ensures WithInput(d, PriceInput, NatToString(n)) == d.(price := n as real)
    ensures WithInput(d, StockInput, NatToString(n)) == d.(stock := n as real)
    ensures WithInput(d, PriceInput, junk).price == 0.0 && WithInput(d, StockInput, junk).stock == 0.0
    ensures WithInput(d, NameInput, junk).name == junk && WithInput(d, DescriptionInput, junk).description == junk
  {
    ParseDecimalRoundTrip(n);
    NoDigitsReadsAsZero(junk);
  }

  /** What the page dispatches on submit. */
  datatype ProductRequest = CreateProductRequest(data: ProductFormData) | UpdateProductRequest(id: string, data: ProductFormData)

  /** What the page dispatches when it mounts. */
  datatype ProductMount = FetchProductRequest(id: string) | ClearCurrentProductRequest

  class ProductFormPage {
    const id: Option<string>
    var formData: ProductFormData
    var formErrors: ProductErrors
    var toast: Toast
    var submitting: bool
    var navigation: Option<string>

    constructor (id: Option<string>)
      ensures this.id == id
      ensures formData == ProductFormData("", "", 0.0, "", 0.0, InStock)
      ensures formErrors == NoProductErrors && toast == ClosedToast && !submitting && navigation == None
    {
      this.id := id;
      formData := ProductFormData("", "", 0.0, "", 0.0, InStock);
      formErrors := NoProductErrors;
      toast := ClosedToast;
      submitting := false;
      navigation := None;
    }

    /** `isEditMode = !!id`. */
    predicate IsEditMode() {
      Truthy(id)
    }

    /** The mount effect: fetch the product in edit mode, otherwise clear the slice's current product. */
    method Mount() returns (request: ProductMount)
      ensures IsEditMode() ==> request == FetchProductRequest(id.value)
      ensures !IsEditMode() ==> request == ClearCurrentProductRequest
    {
      if IsEditMode() {
        request := FetchProductRequest(id.value);
      } else {
        request := ClearCurrentProductRequest;
      }
    }

    /** The sync effect: in edit mode a loaded product replaces the form data. */
    method OnCurrentProduct(current: Option<Product>)
      modifies this
      ensures formData == if current.Some? && IsEditMode() then ProductFormOf(current.value) else old(formData)
      ensures formErrors == old(formErrors) && toast == old(toast)
      ensures submitting == old(submitting) && navigation == old(navigation)
    {
      if current.Some? && IsEditMode() {
        formData := ProductFormOf(current.value);
      }
    }

    /** The error effect: a slice error opens an error notification with its text. */
    method OnSliceError(error: Option<string>)
      modifies this
      ensures toast == if Truthy(error) then Toast(true, error.value, ErrorToast) else old(toast)
      ensures formData == old(formData) && formErrors == old(formErrors)
      ensures submitting == old(submitting) && navigation == old(navigation)
    {
      if Truthy(error) {
        toast := Toast(true, error.value, ErrorToast);
      }
    }

    /** `handleChange`: the input's field takes the value and loses its error. */
    method HandleChange(input: TextInput, value: string)
      modifies this
      ensures formData == WithInput(old(formData), input, value)
      ensures InputError(formErrors, input) == None
      ensures formErrors == ClearInputError(old(formErrors), input)
      ensures toast == old(toast) && submitting == old(submitting) && navigation == old(navigation)
    {
      formData := WithInput(formData, input, value);
      if InputError(formErrors, input).Some? {
        formErrors := ClearInputError(formErrors, input);
      }
    }

    /** `handleSelectChange`: the selected category or status is stored; the category loses its error. */
    method HandleSelectChange(choice: Selection)
      modifies this
      ensures formData == WithSelection(old(formData), choice)
      ensures formErrors == if choice.CategorySelection? then old(formErrors).(category := None) else old(formErrors)
      ensures toast == old(toast) && submitting == old(submitting) && navigation == old(navigation)
    {
      formData := WithSelection(formData, choice);
      if choice.CategorySelection? && formErrors.category.Some? {
        formErrors := formErrors.(category := None);
      }
    }

    /**
     * `handleSubmit`: an invalid form only shows its errors. A valid one is sent
     * as an update in edit mode and as a create otherwise; success shows the
     * matching notification and returns to the list, failure shows the
     * rejection's text.
     */
    method HandleSubmit(outcome: Settlement<Product>) returns (request: Option<ProductRequest>)
      modifies this
      ensures formErrors == ValidateProduct(old(formData)) && formData == old(formData)
      ensures request.Some? <==> formErrors == NoProductErrors
      ensures request.None? ==> toast == old(toast) && submitting == old(submitting) && navigation == old(navigation)
      ensures request.Some? ==>
                request.value == (if IsEditMode() then UpdateProductRequest(id.value, formData)
                                  else CreateProductRequest(formData)) &&
                !submitting &&
                match outcome
                case Fulfilled(_) =>
                  toast == Toast(true, if IsEditMode() then ProductUpdatedMessage else ProductCreatedMessage, SuccessToast) &&
                  navigation == Some(ProductsPath)
                case Rejected(payload) =>
                  toast == Toast(true, payload, ErrorToast) && navigation == old(navigation)
    {
      formErrors := ValidateProduct(formData);
      if formErrors != NoProductErrors {
        return None;
      }
      submitting := true;
      if IsEditMode() {
        request := Some(UpdateProductRequest(id.value, formData));
      } else {
        request := Some(CreateProductRequest(formData));
      }
      match outcome {
        case Fulfilled(_) =>
          toast := Toast(true, if IsEditMode() then ProductUpdatedMessage else ProductCreatedMessage, SuccessToast);
          navigation := Some(ProductsPath);
        case Rejected(payload) =>
          toast := Toast(true, CaughtText(CaughtString(payload), GenericFailure), ErrorToast);
      }
      submitting := false;
    }

    /** The page shows only a loader while an edited product is still loading. */
    predicate ShowsLoader(loading: bool, current: Option<Product>) {
      loading && IsEditMode() && current.None?
    }
  }
}
