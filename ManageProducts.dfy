/** The seller's product catalogue page: the edit dialog with its validation,
    the optimistic local update, deletion, and the product count. */
module ManageProducts {
  import opened Common

  /** A product as the page lists it. */
  datatype SellerProduct = SellerProduct(
    id: string, productName: string, productDescription: string, productCategory: string,
    priceRange: string, minimumOrderQuantity: int, image: string)

  /** The edit dialog's fields; the quantity is edited as text. */
  datatype EditForm = EditForm(
    productName: string, productDescription: string, productCategory: string,
    priceRange: string, minimumOrderQuantity: string)

  const EmptyForm := EditForm("", "", "", "", "")

  /** The dialog's inputs, named after the product fields. */
  datatype Field = ProductName | ProductDescription | ProductCategory | PriceRange | MinimumOrderQuantity

  function FieldName(f: Field): string {
    match f
    case ProductName => "Product_Name"
    case ProductDescription => "Product_Description"
    case ProductCategory => "Product_Category"
    case PriceRange => "Price_Range"
    case MinimumOrderQuantity => "Minimum_Order_Quantity"
  }

  /** The keys the validation writes. */
  datatype ErrorKey = NameKey | DescriptionKey | CategoryKey | PriceRangeKey | MinOrderQuantityKey

  function KeyName(k: ErrorKey): string {
    match k
    case NameKey => "name"
    case DescriptionKey => "description"
    case CategoryKey => "category"
    case PriceRangeKey => "priceRange"
    case MinOrderQuantityKey => "minOrderQuantity"
  }

  /** `errors[name]`: the error key spelled `name`, if any. */
  function KeyNamed(name: string): (k: Option<ErrorKey>)
    ensures k.Some? ==> KeyName(k.value) == name
    ensures k.None? ==> forall e: ErrorKey :: KeyName(e) != name
  {
    if name == "name" then Some(NameKey)
    else if name == "description" then Some(DescriptionKey)
    else if name == "category" then Some(CategoryKey)
    else if name == "priceRange" then Some(PriceRangeKey)
    else if name == "minOrderQuantity" then Some(MinOrderQuantityKey)
    else None
  }

  /** No input is named like an error key, so typing finds no error to
      clear. */
  lemma NoFieldNamesAnErrorKey(f: Field)
    ensures KeyNamed(FieldName(f)) == None
  {
    var n := FieldName(f);
    assert n[0] != 'n' && n[0] != 'd' && n[0] != 'c' && n[0] != 'm';
    assert n != "priceRange" by {
      assert n[0] == 'P' || n[0] == 'M';
    }
  }

  function SetField(form: EditForm, f: Field, value: string): EditForm {
    match f
    case ProductName => form.(productName := value)
    case ProductDescription => form.(productDescription := value)
    case ProductCategory => form.(productCategory := value)
    case PriceRange => form.(priceRange := value)
    case MinimumOrderQuantity => form.(minimumOrderQuantity := value)
  }

  /** The edit dialog filled from a product; the quantity becomes its decimal
      text. */
  function FormOf(p: SellerProduct): EditForm {
    EditForm(p.productName, p.productDescription, p.productCategory, p.priceRange,
             IntToString(p.minimumOrderQuantity))
  }

  /** The five fields the update writes over a product, the quantity converted
      back to a number. */
  function ApplyEdit(p: SellerProduct, f: EditForm): (r: SellerProduct)
    requires ParseNumber(f.minimumOrderQuantity).Some?
    ensures r.id == p.id && r.image == p.image
    ensures r.productName == f.productName && r.productDescription == f.productDescription
    ensures r.productCategory == f.productCategory && r.priceRange == f.priceRange
    ensures r.minimumOrderQuantity == ParseNumber(f.minimumOrderQuantity).value
  {
    p.(productName := f.productName, productDescription := f.productDescription,
       productCategory := f.productCategory, priceRange := f.priceRange,
       minimumOrderQuantity := ParseNumber(f.minimumOrderQuantity).value)
  }

  /** Opening the dialog and saving it untouched gives the product back: the
      quantity goes from number to text and back unchanged. */
  lemma EditRoundTrip(p: SellerProduct)
    ensures ParseNumber(FormOf(p).minimumOrderQuantity).Some?
    ensures ApplyEdit(p, FormOf(p)) == p
  {
    ParseIntToString(p.minimumOrderQuantity);
  }

  /** A product's `id`; deleting is `WithoutId(products, ProductId, productId)`. */
  function ProductId(p: SellerProduct): string { p.id }

  /** "N products in catalog": the list length, or 0 when the fetched body was
      not an array. */
  function ProductCount(products: Option<seq<SellerProduct>>): nat {
    if products.Some? then |products.value| else 0
  }

  /** A successful delete lowers the catalogue count exactly when some listed
      product has that id, and never raises it. */
  lemma {:induction false} DeleteLowersCount(products: seq<SellerProduct>, productId: string)
    ensures ProductCount(Some(WithoutId(products, ProductId, productId))) <= ProductCount(Some(products))
    ensures ProductCount(Some(WithoutId(products, ProductId, productId))) < ProductCount(Some(products)) <==>
      exists k :: 0 <= k < |products| && products[k].id == productId
  {
    if products != [] {
      var tail := products[1..];
      DeleteLowersCount(tail, productId);
      assert forall k :: 1 <= k < |products| ==> products[k] == tail[k - 1];
      if products[0].id != productId {
        assert (exists k :: 0 <= k < |products| && products[k].id == productId) <==>
          (exists k :: 0 <= k < |tail| && tail[k].id == productId) by {
          forall k | 0 <= k < |tail| && tail[k].id == productId
            ensures products[k + 1].id == productId
          {
          }
        }
      }
    }
  }

  /** The body of `PUT /putProduct/:id`; the quantity is sent as typed. */
  datatype UpdateRequest = UpdateRequest(productId: string, name: string, description: string,
                                         category: string, priceRange: string, mod: string)

  const NameRequired := "Product name is required"
  const DescriptionRequired := "Description is required"
  const CategoryRequired := "Category is required"
  const PriceRangeRequired := "Price range is required"
  const MoqRequired := "Minimum order quantity is required"
  const MoqPositive := "Must be a valid positive number"

  /** The record after the name, description, category and price range
      checks. */
  function TextErrors(form: EditForm): map<ErrorKey, string> {
    var e1: map<ErrorKey, string> := if IsBlank(form.productName) then map[NameKey := NameRequired] else map[];
    var e2 := if IsBlank(form.productDescription) then e1[DescriptionKey := DescriptionRequired] else e1;
    var e3 := if form.productCategory == "" then e2[CategoryKey := CategoryRequired] else e2;
    if form.priceRange == "" then e3[PriceRangeKey := PriceRangeRequired] else e3
  }

  /** The record after the quantity check. */
  function QuantityErrors(errs: map<ErrorKey, string>, moq: string): map<ErrorKey, string> {
    if IsBlank(moq) then errs[MinOrderQuantityKey := MoqRequired]
    else if !PositiveNumber(moq) then errs[MinOrderQuantityKey := MoqPositive]
    else errs
  }

  /** The error record `validateForm` builds for a form. */
  function FormErrors(form: EditForm): map<ErrorKey, string> {
    QuantityErrors(TextErrors(form), form.minimumOrderQuantity)
  }

  /** Each key is recorded exactly when its check fails. */
  lemma FormErrorsKeys(form: EditForm)
    ensures var e := FormErrors(form);
      && (NameKey in e <==> IsBlank(form.productName))
      && (DescriptionKey in e <==> IsBlank(form.productDescription))
      && (CategoryKey in e <==> form.productCategory == "")
      && (PriceRangeKey in e <==> form.priceRange == "")
      && (MinOrderQuantityKey in e <==>
            IsBlank(form.minimumOrderQuantity) || !PositiveNumber(form.minimumOrderQuantity))
      && (MinOrderQuantityKey in e ==>
            e[MinOrderQuantityKey] == (if IsBlank(form.minimumOrderQuantity) then MoqRequired else MoqPositive))
  {
    var t := TextErrors(form);
    assert t.Keys <= {NameKey, DescriptionKey, CategoryKey, PriceRangeKey};
    assert NameKey in t <==> IsBlank(form.productName);
    assert DescriptionKey in t <==> IsBlank(form.productDescription);
    assert CategoryKey in t <==> form.productCategory == "";
    assert PriceRangeKey in t <==> form.priceRange == "";
    assert FormErrors(form) == QuantityErrors(t, form.minimumOrderQuantity);
  }

  /** The form passes exactly when every check passes. */
  lemma FormErrorsEmpty(form: EditForm)
    ensures FormErrors(form) == map[] <==>
      && !IsBlank(form.productName) && !IsBlank(form.productDescription)
      && form.productCategory != "" && form.priceRange != ""
      && PositiveNumber(form.minimumOrderQuantity)
  {
    FormErrorsKeys(form);
    var e := FormErrors(form);
    if e != map[] {
      var k :| k in e;
    }
  }

  /** The four text checks of `validateForm`. */
  method CheckText(form: EditForm) returns (r: map<ErrorKey, string>)
    ensures r == TextErrors(form)
  {
    r := map[];
    if IsBlank(form.productName) {
      r := r[NameKey := NameRequired];
    }
    if IsBlank(form.productDescription) {
      r := r[DescriptionKey := DescriptionRequired];
    }
    if form.productCategory == "" {
      r := r[CategoryKey := CategoryRequired];
    }
    if form.priceRange == "" {
      r := r[PriceRangeKey := PriceRangeRequired];
    }
  }

  /** The quantity check of `validateForm`. */
  method CheckQuantity(errs: map<ErrorKey, string>, moq: string) returns (r: map<ErrorKey, string>)
    ensures r == QuantityErrors(errs, moq)
  {
    if IsBlank(moq) {
      r := errs[MinOrderQuantityKey := MoqRequired];
    } else {
      var n := ParseNumber(moq);
      if n.None? || n.value <= 0 {
        assert !PositiveNumber(moq);
        r := errs[MinOrderQuantityKey := MoqPositive];
      } else {
        assert PositiveNumber(moq);
        r := errs;
      }
    }
  }


  class ManageProductsPage {
    var products: seq<SellerProduct>
    var editingProduct: Option<SellerProduct>
    var editForm: EditForm
    var errors: map<ErrorKey, string>
    var isDialogOpen: bool

    constructor ()
      ensures products == [] && editingProduct == None && editForm == EmptyForm
      ensures errors == map[] && !isDialogOpen
    {
      products := [];
      editingProduct := None;
      editForm := EmptyForm;
      errors := map[];
      isDialogOpen := false;
    }

    method Load(fetched: seq<SellerProduct>)
      modifies this
      ensures products == fetched
      ensures editingProduct == old(editingProduct) && editForm == old(editForm)
        && errors == old(errors) && isDialogOpen == old(isDialogOpen)
    {
      products := fetched;
    }

    method EditClick(p: SellerProduct)
      modifies this
      ensures editingProduct == Some(p) && editForm == FormOf(p) && errors == map[] && isDialogOpen
      ensures products == old(products)
    {
      var f := FormOf(p);
      editingProduct := Some(p);
      editForm := f;
      errors := map[];
      isDialogOpen := true;
    }

    method Cancel()
      modifies this
      ensures editingProduct == None && !isDialogOpen
      ensures products == old(products) && editForm == old(editForm) && errors == old(errors)
    {
      editingProduct := None;
      isDialogOpen := false;
    }

    /** Typing stores the value. The source then clears `errors[field]` if it
        is set, but `field` is the input's name, which is never an error key
        (`NoFieldNamesAnErrorKey`), so no error is ever cleared. */
    method InputChange(field: Field, value: string)
      modifies this
      ensures editForm == SetField(old(editForm), field, value)
      ensures errors == old(errors)
      ensures products == old(products) && editingProduct == old(editingProduct)
        && isDialogOpen == old(isDialogOpen)
    {
      editForm := SetField(editForm, field, value);
    }

    method Validate() returns (valid: bool)
      modifies this
      ensures products == old(products) && editingProduct == old(editingProduct)
        && editForm == old(editForm) && isDialogOpen == old(isDialogOpen)
      ensures errors == FormErrors(editForm)
      ensures NameKey in errors <==> IsBlank(editForm.productName)
      ensures DescriptionKey in errors <==> IsBlank(editForm.productDescription)
      ensures CategoryKey in errors <==> editForm.productCategory == ""
      ensures PriceRangeKey in errors <==> editForm.priceRange == ""
      ensures MinOrderQuantityKey in errors <==>
        IsBlank(editForm.minimumOrderQuantity) || !PositiveNumber(editForm.minimumOrderQuantity)
      ensures MinOrderQuantityKey in errors ==>
        errors[MinOrderQuantityKey] == (if IsBlank(editForm.minimumOrderQuantity) then MoqRequired else MoqPositive)
      ensures valid <==> errors == map[]
      ensures valid <==>
        && !IsBlank(editForm.productName) && !IsBlank(editForm.productDescription)
        && editForm.productCategory != "" && editForm.priceRange != ""
        && PositiveNumber(editForm.minimumOrderQuantity)
    {
      var f := editForm;
      var newErrors := CheckText(f);
      newErrors := CheckQuantity(newErrors, f.minimumOrderQuantity);
      errors := newErrors;
      FormErrorsKeys(f);
      FormErrorsEmpty(f);
      valid := newErrors == map[];
    }

    /** Save: a valid form is written into the list first, over every product
        with the edited id, and then sent; the local change is kept whatever
        the `outcome`. Without a product being edited nothing is written or
        sent (the request would fail on the missing id). Editing ends in every
        case after validation has passed. */
    method Update(outcome: Outcome) returns (request: Option<UpdateRequest>)
      modifies this
      ensures editForm == old(editForm) && isDialogOpen == old(isDialogOpen)
      ensures request.None? ==> products == old(products)
      ensures request.Some? ==>
        && old(editingProduct).Some? && PositiveNumber(editForm.minimumOrderQuantity)
        && request.value == UpdateRequest(old(editingProduct).value.id, editForm.productName,
             editForm.productDescription, editForm.productCategory, editForm.priceRange,
             editForm.minimumOrderQuantity)
        && |products| == |old(products)|
        && forall k :: 0 <= k < |products| ==>
             products[k] == (if old(products)[k].id == old(editingProduct).value.id
                             then ApplyEdit(old(products)[k], editForm) else old(products)[k])
      ensures errors == FormErrors(old(editForm))
      ensures request.Some? <==> old(editingProduct).Some? && errors == map[]
      ensures errors == map[] ==> editingProduct == None
      ensures errors != map[] ==> editingProduct == old(editingProduct)
    {
      var valid := Validate();
      if !valid {
        return None;
      }
      if editingProduct.None? {
        editingProduct := None;
        return None;
      }
      var editedId := editingProduct.value.id;
      var f := editForm;
      var prev := products;
      products := seq(|prev|, k requires 0 <= k < |prev| =>
        if prev[k].id == editedId then ApplyEdit(prev[k], f) else prev[k]);
      request := Some(UpdateRequest(editedId, f.productName, f.productDescription,
                                    f.productCategory, f.priceRange, f.minimumOrderQuantity));
      editingProduct := None;
    }

    /** Delete: on success exactly the products with that id are removed. */
    method Delete(productId: string, outcome: Outcome)
      modifies this
      ensures products == if outcome.Success? then WithoutId(old(products), ProductId, productId) else old(products)
      ensures editingProduct == old(editingProduct) && editForm == old(editForm)
        && errors == old(errors) && isDialogOpen == old(isDialogOpen)
    {
      if outcome.Success? {
        products := WithoutId(products, ProductId, productId);
      }
    }
  }
}
