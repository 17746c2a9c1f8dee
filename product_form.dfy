/**
 * The product dialog (`ProductForm` in src/components/ProductForm.tsx): five text fields,
 * the three checks that gate the submit, and the call into the store.
 */
module ProductForm {
  import opened Wrappers
  import opened Text
  import opened Context

  /** The fields that can carry an error message. */
  datatype FormField = NameField | PriceField | QuantityField

  const NameError: string := "Укажите название товара"
  const PriceError: string := "Укажите корректную цену"
  const QuantityError: string := "Укажите корректное количество"

  /** The name is missing when nothing but whitespace was typed. */
  predicate NameInvalid(name: string) {
    Trim(name) == ""
  }

  /** The price is missing, is not a number, or is not positive. */
  predicate PriceInvalid(price: string) {
    price == "" || ParseNumber(price).None? || ParseNumber(price).value <= 0
  }

  /** The quantity is missing, is not a number, or is negative. */
  predicate QuantityInvalid(quantity: string) {
    quantity == "" || ParseNumber(quantity).None? || ParseNumber(quantity).value < 0
  }

  predicate FormValid(name: string, price: string, quantity: string) {
    !NameInvalid(name) && !PriceInvalid(price) && !QuantityInvalid(quantity)
  }

  /** The product a valid form submits: trimmed texts and the parsed numbers. */
  function SubmittedProduct(id: string, name: string, price: string, quantity: string,
                            description: string, image: Option<string>): (p: Product)
    requires FormValid(name, price, quantity)
    ensures p.price > 0 && p.quantity >= 0
    ensures p.name != [] && !IsWhitespace(p.name[0]) && !IsWhitespace(p.name[|p.name| - 1])
  {
    TrimEnds(name);
    Product(id, Trim(name), ParseNumber(price).value, ParseNumber(quantity).value, Trim(description), image)
  }

  /** The messages `validateForm` records, field by field. */
  function FormErrors(name: string, price: string, quantity: string): map<FormField, string> {
    var withName := if NameInvalid(name) then map[NameField := NameError] else map[];
    var withPrice := if PriceInvalid(price) then withName[PriceField := PriceError] else withName;
    if QuantityInvalid(quantity) then withPrice[QuantityField := QuantityError] else withPrice
  }

  /**
   * One message per failing check and nothing else, so there are no messages exactly when the
   * form is valid.
   */
  lemma FormErrorsSpec(name: string, price: string, quantity: string)
    ensures var e := FormErrors(name, price, quantity);
      && (NameField in e <==> NameInvalid(name))
      && (PriceField in e <==> PriceInvalid(price))
      && (QuantityField in e <==> QuantityInvalid(quantity))
      && (NameField in e ==> e[NameField] == NameError)
      && (PriceField in e ==> e[PriceField] == PriceError)
      && (QuantityField in e ==> e[QuantityField] == QuantityError)
      && (e == map[] <==> FormValid(name, price, quantity))
  {
    var e := FormErrors(name, price, quantity);
    if !FormValid(name, price, quantity) {
      assert NameField in e || PriceField in e || QuantityField in e;
    }
  }

  /** `initialData?.image || null`: an empty image string counts as no image. */
  function ImageOrNull(image: Option<string>): Option<string> {
    if image.Some? && image.value != "" then image else None
  }

  /**
   * A form opened on a product with a non-blank name, a positive price and a non-negative
   * quantity is valid as loaded, and submitting it unchanged gives back that product with its
   * name and description trimmed.
   */
  lemma UnchangedEditRoundTrip(p: Product)
    requires !IsBlank(p.name) && p.price > 0 && p.quantity >= 0
    ensures FormValid(p.name, IntToString(p.price), IntToString(p.quantity))
    ensures SubmittedProduct(p.id, p.name, IntToString(p.price), IntToString(p.quantity), p.description, p.image)
         == p.(name := Trim(p.name), description := Trim(p.description))
  {
    TrimEmptyIffBlank(p.name);
    ParseIntToString(p.price);
    ParseIntToString(p.quantity);
  }

  /** A zero price, and a field that holds no digit at all, are both refused. */
  lemma ZeroPriceAndNonNumbersRefused(text: string)
    requires forall i :: 0 <= i < |text| ==> !IsDigit(text[i])
    ensures PriceInvalid(IntToString(0))
    ensures PriceInvalid(text) && QuantityInvalid(text)
    ensures !QuantityInvalid(IntToString(0))
  {
    ParseIntToString(0);
    ParseWithoutDigits(text);
  }

  class ProductFormState {
    /** The product being edited; `None` when the form adds a new one. */
    const initialData: Option<Product>
    var name: string
    var price: string
    var quantity: string
    var description: string
    var image: Option<string>
    var isLoading: bool
    var errors: map<FormField, string>

    constructor (initialData: Option<Product>)
      ensures this.initialData == initialData
      ensures initialData.None? ==>
        name == "" && price == "" && quantity == "1" && description == "" && image.None?
      ensures initialData.Some? ==>
        && name == initialData.value.name
        && price == IntToString(initialData.value.price)
        && quantity == IntToString(initialData.value.quantity)
        && description == initialData.value.description
        && image == ImageOrNull(initialData.value.image)
      ensures !isLoading && errors == map[]
    {
      this.initialData := initialData;
      isLoading := false;
      errors := map[];
      match initialData
      case None =>
        name := "";
        price := "";
        quantity := "1";
        description := "";
        image := None;
      case Some(p) =>
        name := p.name;
        price := IntToString(p.price);
        quantity := IntToString(p.quantity);
        description := p.description;
        image := ImageOrNull(p.image);
    }

    /** `validateForm`: records the messages of the failing checks; ok when there is none. */
    method ValidateForm() returns (ok: bool)
      modifies this`errors
      ensures errors == FormErrors(name, price, quantity)
      ensures ok <==> errors == map[]
      ensures ok <==> FormValid(name, price, quantity)
    {
      var newErrors: map<FormField, string> := map[];
      if NameInvalid(name) {
        newErrors := newErrors[NameField := NameError];
      }
      if PriceInvalid(price) {
        newErrors := newErrors[PriceField := PriceError];
      }
      if QuantityInvalid(quantity) {
        newErrors := newErrors[QuantityField := QuantityError];
      }
      assert newErrors == FormErrors(name, price, quantity);
      FormErrorsSpec(name, price, quantity);
      errors := newErrors;
      ok := |newErrors.Keys| == 0;
      assert ok <==> newErrors == map[] by {
        if !ok {
          assert newErrors.Keys != {};
        }
      }
    }

    /** `resetForm`: only a form adding a product is cleared. */
    method ResetForm()
      modifies this`name, this`price, this`quantity, this`description, this`image
      ensures initialData.None? ==>
        name == "" && price == "" && quantity == "1" && description == "" && image.None?
      ensures initialData.Some? ==>
        name == old(name) && price == old(price) && quantity == old(quantity)
        && description == old(description) && image == old(image)
    {
      if initialData.None? {
        name := "";
        price := "";
        quantity := "1";
        description := "";
        image := None;
      }
    }

    /** The effect run when the dialog opens: load the edited product, or clear the form. */
    method Open()
      modifies this`name, this`price, this`quantity, this`description, this`image
      ensures initialData.None? ==>
        name == "" && price == "" && quantity == "1" && description == "" && image.None?
      ensures initialData.Some? ==>
        && name == initialData.value.name
        && price == IntToString(initialData.value.price)
        && quantity == IntToString(initialData.value.quantity)
        && description == initialData.value.description
        && image == initialData.value.image
    {
      match initialData
      case Some(p) =>
        name := p.name;
        price := IntToString(p.price);
        quantity := IntToString(p.quantity);
        description := p.description;
        image := p.image;
      case None =>
        ResetForm();
    }

    /** The part of `handleSubmit` after validation succeeded: the store call, then the reset. */
    method SubmitValidForm(store: AppStore, newId: string)
      requires FormValid(name, price, quantity)
      modifies this`isLoading, this`name, this`price, this`quantity, this`description, this`image
      modifies store`products
      ensures var submitted := SubmittedProduct(
          if initialData.Some? then initialData.value.id else "",
          old(name), old(price), old(quantity), old(description), old(image));
        && (initialData.Some? ==> store.products == ReplaceProduct(old(store.products), submitted))
        && (initialData.None? ==> store.products == AppendProduct(old(store.products), submitted, newId))
      ensures !isLoading
      ensures initialData.None? ==>
        name == "" && price == "" && quantity == "1" && description == "" && image.None?
      ensures initialData.Some? ==>
        name == old(name) && price == old(price) && quantity == old(quantity)
        && description == old(description) && image == old(image)
    {
      isLoading := true;
      var productData := SubmittedProduct("", name, price, quantity, description, image);
      if initialData.Some? {
        store.UpdateProduct(productData.(id := initialData.value.id));
      } else {
        store.AddProduct(productData, newId);
      }
      isLoading := false;
      ResetForm();
    }

    /**
     * `handleSubmit`: an invalid form only records its errors and the store is untouched; a valid
     * one is sent to `updateProduct` under the edited product's id, or to `addProduct` with the
     * fresh id, and the form is then reset.
     */
    method HandleSubmit(store: AppStore, newId: string)
      modifies this`errors, this`isLoading, this`name, this`price, this`quantity, this`description, this`image
      modifies store`products
      ensures errors == FormErrors(old(name), old(price), old(quantity))
      ensures !FormValid(old(name), old(price), old(quantity)) ==>
        && store.products == old(store.products)
        && name == old(name) && price == old(price) && quantity == old(quantity)
        && description == old(description) && image == old(image) && isLoading == old(isLoading)
      ensures FormValid(old(name), old(price), old(quantity)) ==>
        var submitted := SubmittedProduct(
          if initialData.Some? then initialData.value.id else "",
          old(name), old(price), old(quantity), old(description), old(image));
        && (initialData.Some? ==> store.products == ReplaceProduct(old(store.products), submitted))
        && (initialData.None? ==> store.products == AppendProduct(old(store.products), submitted, newId))
        && !isLoading
        && (initialData.None? ==>
              name == "" && price == "" && quantity == "1" && description == "" && image.None?)
        && (initialData.Some? ==>
              name == old(name) && price == old(price) && quantity == old(quantity)
              && description == old(description) && image == old(image))
    {
      var ok := ValidateForm();
      if ok {
        SubmitValidForm(store, newId);
      }
    }
  }
}
