/** The seller's product upload form: the tax-slab multi-select, the
    validation with its overwritten `priceRange` message, and what submit and
    reset do to the form. */
module UploadProducts {
  import opened Common

  // ---------------------------------------------------------------------------
  // Tax slabs

  /** `tax.filter(t => t !== slab)`. */
  function RemoveAll(tax: seq<string>, slab: string): (r: seq<string>)
    ensures |r| <= |tax|
  {
    if tax == [] then []
    else if tax[0] == slab then RemoveAll(tax[1..], slab)
    else [tax[0]] + RemoveAll(tax[1..], slab)
  }

  lemma {:induction false} RemoveAllMembers(tax: seq<string>, slab: string)
    ensures forall t :: t in RemoveAll(tax, slab) <==> t in tax && t != slab
  {
    if tax != [] {
      RemoveAllMembers(tax[1..], slab);
      assert forall t :: t in tax <==> t == tax[0] || t in tax[1..];
    }
  }

  lemma {:induction false} RemoveAllAbsent(tax: seq<string>, slab: string)
    requires slab !in tax
    ensures RemoveAll(tax, slab) == tax
  {
    if tax != [] {
      assert tax == [tax[0]] + tax[1..];
      RemoveAllAbsent(tax[1..], slab);
    }
  }

  lemma {:induction false} RemoveAllAppend(a: seq<string>, b: seq<string>, slab: string)
    ensures RemoveAll(a + b, slab) == RemoveAll(a, slab) + RemoveAll(b, slab)
  {
    if a == [] {
      assert a + b == b;
    } else {
      assert (a + b)[1..] == a[1..] + b;
      RemoveAllAppend(a[1..], b, slab);
    }
  }

  /** With no duplicates, removing an element that occurs drops exactly one
      copy of it. */
  lemma {:induction false} RemoveAllMultiset(tax: seq<string>, slab: string)
    requires NoDuplicates(tax) && slab in tax
    ensures multiset(RemoveAll(tax, slab)) + multiset{slab} == multiset(tax)
  {
    assert tax == [tax[0]] + tax[1..];
    if tax[0] == slab {
      assert slab !in tax[1..];
      RemoveAllAbsent(tax[1..], slab);
    } else {
      RemoveAllMultiset(tax[1..], slab);
    }
  }

  predicate NoDuplicates(s: seq<string>) {
    forall i, j :: 0 <= i < j < |s| ==> s[i] != s[j]
  }

  /** Clicking a slab in the dropdown: drop it if it is selected, otherwise
      append it. */
  function ToggleTax(tax: seq<string>, slab: string): (r: seq<string>)
    ensures slab in r <==> slab !in tax
    ensures forall t :: t != slab ==> (t in r <==> t in tax)
  {
    RemoveAllMembers(tax, slab);
    if slab in tax then RemoveAll(tax, slab) else tax + [slab]
  }

  /** The selection never gains duplicates. */
  lemma {:induction false} ToggleKeepsNoDuplicates(tax: seq<string>, slab: string)
    requires NoDuplicates(tax)
    ensures NoDuplicates(ToggleTax(tax, slab))
  {
    if slab in tax {
      RemoveAllNoDuplicates(tax, slab);
    }
  }

  lemma {:induction false} RemoveAllNoDuplicates(tax: seq<string>, slab: string)
    requires NoDuplicates(tax)
    ensures NoDuplicates(RemoveAll(tax, slab))
  {
    if tax != [] {
      RemoveAllNoDuplicates(tax[1..], slab);
      RemoveAllMembers(tax[1..], slab);
      assert tax[0] !in tax[1..];
    }
  }

  /** Toggling an unselected slab twice gives the same list back; toggling a
      selected one twice keeps the same selection, with that slab moved to the
      end. */
  lemma ToggleTwice(tax: seq<string>, slab: string)
    requires NoDuplicates(tax)
    ensures slab !in tax ==> ToggleTax(ToggleTax(tax, slab), slab) == tax
    ensures slab in tax ==>
      && ToggleTax(ToggleTax(tax, slab), slab) == RemoveAll(tax, slab) + [slab]
      && multiset(ToggleTax(ToggleTax(tax, slab), slab)) == multiset(tax)
  {
    if slab !in tax {
      RemoveAllAppend(tax, [slab], slab);
      RemoveAllAbsent(tax, slab);
      assert RemoveAll([slab], slab) == [];
    } else {
      RemoveAllMembers(tax, slab);
      RemoveAllMultiset(tax, slab);
    }
  }

  // ---------------------------------------------------------------------------
  // The form

  datatype ProductForm = ProductForm(
    productName: string, description: string, category: string,
    minPrice: string, maxPrice: string, minOrderQuantity: string,
    hsCode: string, itcHsCode: string, tax: seq<string>)

  const EmptyForm := ProductForm("", "", "", "", "", "", "", "", [])

  /** The text inputs of the form (the tax slabs have their own handler). */
  datatype Field = ProductName | Description | Category | MinPrice | MaxPrice
                 | MinOrderQuantity | HsCode | ItcHsCode

  /** The keys the validation writes. */
  datatype ErrorKey = ProductNameKey | DescriptionKey | CategoryKey | PriceRangeKey | MinOrderQuantityKey

  /** The error a field's name looks up when the user types in it. The price
      and code fields have no error of their own name, so typing in them
      never clears the `priceRange` message. */
  function ErrorKeyOf(f: Field): (k: Option<ErrorKey>)
    ensures k.None? <==> f in {MinPrice, MaxPrice, HsCode, ItcHsCode}
  {
    match f
    case ProductName => Some(ProductNameKey)
    case Description => Some(DescriptionKey)
    case Category => Some(CategoryKey)
    case MinOrderQuantity => Some(MinOrderQuantityKey)
    case _ => None
  }

  function SetField(form: ProductForm, f: Field, value: string): ProductForm {
    match f
    case ProductName => form.(productName := value)
    case Description => form.(description := value)
    case Category => form.(category := value)
    case MinPrice => form.(minPrice := value)
    case MaxPrice => form.(maxPrice := value)
    case MinOrderQuantity => form.(minOrderQuantity := value)
    case HsCode => form.(hsCode := value)
    case ItcHsCode => form.(itcHsCode := value)
  }

  const NameRequired := "Product name is required"
  const DescriptionRequired := "Product description is required"
  const CategoryRequired := "Product category is required"
  const MinPriceRequired := "Minimum price is required"
  const MaxPriceRequired := "Maximum price is required"
  const ItcHsRequired := "ITC-HS code is required"
  const HsRequired := "HS code is required"
  const SelectTax := "Select at least one tax slab."
  const MoqRequired := "Minimum order quantity is required"
  const MoqPositive := "Must be a valid positive number"

  /** Whether some check writes the `priceRange` key. */
  predicate PriceRangeFails(f: ProductForm) {
    f.minPrice == "" || f.maxPrice == "" || f.itcHsCode == "" || f.hsCode == "" || f.tax == []
  }

  /** The message left under `priceRange`: the last failing check's. */
  function PriceRangeMessage(f: ProductForm): string {
    if f.tax == [] then SelectTax
    else if f.hsCode == "" then HsRequired
    else if f.itcHsCode == "" then ItcHsRequired
    else if f.maxPrice == "" then MaxPriceRequired
    else MinPriceRequired
  }

  /** The body posted to `/postProduct` (the image URL is not modelled). */
  datatype ProductRequest = ProductRequest(form: ProductForm, vendorId: string)

  /** The five checks that all write `priceRange`, in source order, each
      overwriting the previous message. */
  method CheckPriceRange(errs: map<ErrorKey, string>, form: ProductForm) returns (r: map<ErrorKey, string>)
    ensures r == PriceRangeErrors(errs, form)
  {
    r := errs;
    if form.minPrice == "" {
      r := r[PriceRangeKey := MinPriceRequired];
    }
    if form.maxPrice == "" {
      r := r[PriceRangeKey := MaxPriceRequired];
    }
    if form.itcHsCode == "" {
      r := r[PriceRangeKey := ItcHsRequired];
    }
    if form.hsCode == "" {
      r := r[PriceRangeKey := HsRequired];
    }
    if |form.tax| == 0 {
      r := r[PriceRangeKey := SelectTax];
    }
  }

  /** The record after the name, description and category checks. */
  function TextErrors(errs: map<ErrorKey, string>, form: ProductForm): map<ErrorKey, string> {
    var e1 := if IsBlank(form.productName) then errs[ProductNameKey := NameRequired] else errs;
    var e2 := if IsBlank(form.description) then e1[DescriptionKey := DescriptionRequired] else e1;
    if form.category == "" then e2[CategoryKey := CategoryRequired] else e2
  }

  /** The record after the five `priceRange` checks. */
  function PriceRangeErrors(errs: map<ErrorKey, string>, form: ProductForm): map<ErrorKey, string> {
    if PriceRangeFails(form) then errs[PriceRangeKey := PriceRangeMessage(form)] else errs
  }

  /** The record after the minimum-order-quantity check. */
  function QuantityErrors(errs: map<ErrorKey, string>, form: ProductForm): map<ErrorKey, string> {
    if IsBlank(form.minOrderQuantity) then errs[MinOrderQuantityKey := MoqRequired]
    else if !PositiveNumber(form.minOrderQuantity) then errs[MinOrderQuantityKey := MoqPositive]
    else errs
  }

  /** The error record `validateForm` builds for a form. */
  function FormErrors(form: ProductForm): map<ErrorKey, string> {
    QuantityErrors(PriceRangeErrors(TextErrors(map[], form), form), form)
  }

  /** Each key is recorded exactly when its check fails, with the message of
      the last failing check. */
  lemma FormErrorsKeys(form: ProductForm)
    ensures var e := FormErrors(form);
      && (ProductNameKey in e <==> IsBlank(form.productName))
      && (DescriptionKey in e <==> IsBlank(form.description))
      && (CategoryKey in e <==> form.category == "")
      && (CategoryKey in e ==> e[CategoryKey] == CategoryRequired)
      && (PriceRangeKey in e <==> PriceRangeFails(form))
      && (PriceRangeKey in e ==> e[PriceRangeKey] == PriceRangeMessage(form))
      && (MinOrderQuantityKey in e <==> IsBlank(form.minOrderQuantity) || !PositiveNumber(form.minOrderQuantity))
      && (MinOrderQuantityKey in e ==>
            e[MinOrderQuantityKey] == (if IsBlank(form.minOrderQuantity) then MoqRequired else MoqPositive))
  {
  }

  /** The form passes exactly when every check passes. */
  lemma FormErrorsEmpty(form: ProductForm)
    ensures FormErrors(form) == map[] <==>
      && !IsBlank(form.productName) && !IsBlank(form.description) && form.category != ""
      && !PriceRangeFails(form) && !IsBlank(form.minOrderQuantity) && PositiveNumber(form.minOrderQuantity)
  {
    FormErrorsKeys(form);
    var e := FormErrors(form);
    if e != map[] {
      var k :| k in e;
    }
  }

  /** The name, description and category checks. */
  method CheckText(errs: map<ErrorKey, string>, form: ProductForm) returns (r: map<ErrorKey, string>)
    ensures r == TextErrors(errs, form)
  {
    r := errs;
    if IsBlank(form.productName) {
      r := r[ProductNameKey := NameRequired];
    }
    if IsBlank(form.description) {
      r := r[DescriptionKey := DescriptionRequired];
    }
    if form.category == "" {
      r := r[CategoryKey := CategoryRequired];
    }
  }

  /** The minimum-order-quantity check. In `minOrderQuantity || minPrice ||
      maxPrice` the first operand is not blank when the conversion is
      reached, so it is the one converted. */
  method CheckQuantity(errs: map<ErrorKey, string>, form: ProductForm) returns (r: map<ErrorKey, string>)
    ensures r == QuantityErrors(errs, form)
  {
    if IsBlank(form.minOrderQuantity) {
      r := errs[MinOrderQuantityKey := MoqRequired];
    } else {
      assert form.minOrderQuantity != "";
      var quantity := if form.minOrderQuantity != "" then form.minOrderQuantity
                      else if form.minPrice != "" then form.minPrice else form.maxPrice;
      var n := ParseNumber(quantity);
      assert quantity == form.minOrderQuantity;
      if n.None? || n.value <= 0 {
        r := errs[MinOrderQuantityKey := MoqPositive];
      } else {
        r := errs;
      }
    }
  }


  class UploadForm {
    var form: ProductForm
    var errors: map<ErrorKey, string>

    constructor ()
      ensures form == EmptyForm && errors == map[]
    {
      form := EmptyForm;
      errors := map[];
    }

    method InputChange(field: Field, value: string)
      modifies this
      ensures form == SetField(old(form), field, value)
      ensures match ErrorKeyOf(field)
        case Some(k) => errors == if k in old(errors) && old(errors)[k] != "" then old(errors)[k := ""] else old(errors)
        case None => errors == old(errors)
    {
      form := SetField(form, field, value);
      var key := ErrorKeyOf(field);
      if key.Some? && key.value in errors && errors[key.value] != "" {
        errors := errors[key.value := ""];
      }
    }

    method ToggleSlab(slab: string)
      modifies this
      ensures form == old(form).(tax := ToggleTax(old(form).tax, slab))
      ensures errors == old(errors)
    {
      form := form.(tax := ToggleTax(form.tax, slab));
    }

    /** The form's `validateForm`, with its checks in source order. The tax
        list is always an array, so its "Tax is required" check cannot fire
        and `category` only ever holds the category message. */
    method Validate() returns (valid: bool)
      modifies this
      ensures form == old(form) && errors == FormErrors(form)
      ensures ProductNameKey in errors <==> IsBlank(form.productName)
      ensures DescriptionKey in errors <==> IsBlank(form.description)
      ensures CategoryKey in errors <==> form.category == ""
      ensures CategoryKey in errors ==> errors[CategoryKey] == CategoryRequired
      ensures PriceRangeKey in errors <==> PriceRangeFails(form)
      ensures PriceRangeKey in errors ==> errors[PriceRangeKey] == PriceRangeMessage(form)
      ensures MinOrderQuantityKey in errors <==> IsBlank(form.minOrderQuantity) || !PositiveNumber(form.minOrderQuantity)
      ensures MinOrderQuantityKey in errors ==>
        errors[MinOrderQuantityKey] == (if IsBlank(form.minOrderQuantity) then MoqRequired else MoqPositive)
      ensures valid <==> errors == map[]
      ensures valid <==>
        && !IsBlank(form.productName) && !IsBlank(form.description) && form.category != ""
        && !PriceRangeFails(form) && !IsBlank(form.minOrderQuantity) && PositiveNumber(form.minOrderQuantity)
    {
      var f := form;
      var newErrors := CheckText(map[], f);
      newErrors := CheckPriceRange(newErrors, f);
      newErrors := CheckQuantity(newErrors, f);
      errors := newErrors;
      FormErrorsKeys(f);
      FormErrorsEmpty(f);
      valid := newErrors == map[];
    }

    /** Submit: a form whose error record is not empty stops before any upload
        or reset, keeping its values and showing that record. A valid one is
        posted and, whatever the `outcome`, the form is emptied; the error
        record (empty after a passing validation) is not touched again. */
    method Submit(vendorId: string, outcome: Outcome) returns (request: Option<ProductRequest>)
      modifies this
      ensures request.Some? <==> FormErrors(old(form)) == map[]
      ensures request.None? ==> form == old(form) && errors == FormErrors(old(form)) && errors != map[]
      ensures request.Some? ==> request.value == ProductRequest(old(form), vendorId) && form == EmptyForm && errors == map[]
      ensures request.Some? ==> old(form).tax != [] && PositiveNumber(old(form).minOrderQuantity)
    {
      var valid := Validate();
      if !valid {
        return None;
      }
      request := Some(ProductRequest(form, vendorId));
      form := EmptyForm;
    }

    /** "Reset Form" empties the form and also clears the errors. */
    method Reset()
      modifies this
      ensures form == EmptyForm && errors == map[]
    {
      form := EmptyForm;
      errors := map[];
    }
  }

  /** An empty tax selection always ends with the tax message, whatever else
      is missing. */
  lemma EmptyTaxMessageWins(f: ProductForm)
    requires f.tax == []
    ensures PriceRangeFails(f) && PriceRangeMessage(f) == SelectTax
  {
  }
}
