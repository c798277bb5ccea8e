/** The admin create/edit product form (`src/components/ProductForm.tsx`):
    loading a product into string fields, field edits that clear their own
    error, the size toggles, the colour and tag lists, image removal, the nine
    validation rules and the conversion back to a payload. */
module ProductForm {
  import opened Wrappers
  import opened Text
  import opened Catalog
  import opened AdminTypes
  import Seqs

  const SizeOptions: seq<string> := ["XS", "S", "M", "L", "XL", "XXL", "XXXL", "Free Size"]

  /** The form's fields; numbers are held as the strings typed. */
  datatype FormData = FormData(
    name: string,
    description: string,
    price: string,
    discountPrice: string,
    category: string,
    gender: string,
    material: string,
    sizes: seq<string>,
    colors: seq<string>,
    images: seq<string>,
    stock: string,
    isFeatured: bool,
    tags: seq<string>)

  /** The keys of `FormData`. */
  datatype Field =
    | Name | Description | Price | DiscountPrice | Category | Gender | Material
    | Sizes | Colors | Images | Stock | IsFeatured | Tags

  datatype FieldValue = TextValue(s: string) | ListValue(items: seq<string>) | FlagValue(on: bool)

  /** The value `v` has the type of field `f`. */
  predicate Fits(f: Field, v: FieldValue) {
    match f
    case Sizes | Colors | Images | Tags => v.ListValue?
    case IsFeatured => v.FlagValue?
    case _ => v.TextValue?
  }

  /** `form[f]`. */
  function Get(form: FormData, f: Field): (v: FieldValue)
    ensures Fits(f, v)
  {
    match f
    case Name => TextValue(form.name)
    case Description => TextValue(form.description)
    case Price => TextValue(form.price)
    case DiscountPrice => TextValue(form.discountPrice)
    case Category => TextValue(form.category)
    case Gender => TextValue(form.gender)
    case Material => TextValue(form.material)
    case Sizes => ListValue(form.sizes)
    case Colors => ListValue(form.colors)
    case Images => ListValue(form.images)
    case Stock => TextValue(form.stock)
    case IsFeatured => FlagValue(form.isFeatured)
    case Tags => ListValue(form.tags)
  }

  /** `{ ...f, [key]: val }`: field `f` becomes `v`, every other field is
      kept. */
  function Put(form: FormData, f: Field, v: FieldValue): (r: FormData)
    requires Fits(f, v)
    ensures Get(r, f) == v
    ensures forall g | g != f :: Get(r, g) == Get(form, g)
  {
    match f
    case Name => form.(name := v.s)
    case Description => form.(description := v.s)
    case Price => form.(price := v.s)
    case DiscountPrice => form.(discountPrice := v.s)
    case Category => form.(category := v.s)
    case Gender => form.(gender := v.s)
    case Material => form.(material := v.s)
    case Sizes => form.(sizes := v.items)
    case Colors => form.(colors := v.items)
    case Images => form.(images := v.items)
    case Stock => form.(stock := v.s)
    case IsFeatured => form.(isFeatured := v.on)
    case Tags => form.(tags := v.items)
  }

  /** `toForm`: an absent product gives a blank form; a product's numbers are
      written out in decimal and a missing discount or material becomes
      `''`. */
  function ToForm(p: Option<Product>): (form: FormData)
    ensures p.None? ==> form == FormData("", "", "", "", "", "", "", [], [], [], "", false, [])
    ensures p.Some? ==> form.price != "" && form.stock != ""
    ensures p.Some? ==> (form.discountPrice == "" <==> p.value.discountPrice.None?)
  {
    match p
    case None => FormData("", "", "", "", "", "", "", [], [], [], "", false, [])
    case Some(p) =>
      FormData(
        p.name, p.description, IntToString(p.price),
        if p.discountPrice.Some? then IntToString(p.discountPrice.value) else "",
        p.category, p.gender, p.material.GetOr(""),
        p.sizes, p.colors, p.images, IntToString(p.stock), p.isFeatured, p.tags)
  }

  // ---------------------------------------------------------------------------
  // List edits

  /** `xs.filter((x) => x !== s)`: every copy of `s` is dropped and the other
      entries keep their order and their number of copies. */
  function Without(xs: seq<string>, s: string): (r: seq<string>)
    ensures r == Seqs.Filter(xs, x => x != s)
    ensures |r| <= |xs|
    ensures forall y :: y in r <==> y in xs && y != s
    ensures Seqs.SubseqOf(r, xs)
    ensures forall y | y != s :: multiset(r)[y] == multiset(xs)[y]
  {
    if xs == [] then []
    else if xs[0] == s then Without(xs[1..], s)
    else [xs[0]] + Without(xs[1..], s)
  }

  lemma {:induction false} WithoutAbsent(xs: seq<string>, s: string)
    requires s !in xs
    ensures Without(xs, s) == xs
  {
    if xs != [] {
      WithoutAbsent(xs[1..], s);
    }
  }

  lemma {:induction false} WithoutLast(xs: seq<string>, s: string)
    ensures Without(xs + [s], s) == Without(xs, s)
  {
    if xs == [] {
      assert [s][1..] == [];
    } else {
      assert (xs + [s])[1..] == xs[1..] + [s];
      WithoutLast(xs[1..], s);
    }
  }

  /** `toggleSize`: a chosen size is removed everywhere, any other is appended
      at the end. */
  function ToggleSize(sizes: seq<string>, s: string): (r: seq<string>)
    ensures s in sizes ==> s !in r && forall y :: y in r <==> y in sizes && y != s
    ensures s in sizes ==> Seqs.SubseqOf(r, sizes) && forall y | y != s :: multiset(r)[y] == multiset(sizes)[y]
    ensures s !in sizes ==> r == sizes + [s]
  {
    if s in sizes then Without(sizes, s) else sizes + [s]
  }

  /** Toggling a size that was not chosen on and off again restores the
      list. */
  lemma ToggleSizeTwice(sizes: seq<string>, s: string)
    requires s !in sizes
    ensures ToggleSize(ToggleSize(sizes, s), s) == sizes
  {
    assert s in sizes + [s];
    WithoutLast(sizes, s);
    WithoutAbsent(sizes, s);
  }

  /** `addColor`/`addTag`: the trimmed input is appended when it is non-empty
      and not in the list yet. */
  function AddEntry(list: seq<string>, input: string): (r: seq<string>)
    ensures var c := Trim(input); c != "" && c !in list ==> r == list + [c]
    ensures var c := Trim(input); c == "" || c in list ==> r == list
  {
    var c := Trim(input);
    if c != "" && c !in list then list + [c] else list
  }

  /** A colour or tag list as the form keeps it: no empty entry and no
      duplicate. */
  predicate Clean(list: seq<string>) {
    && (forall i | 0 <= i < |list| :: list[i] != "")
    && (forall i, j | 0 <= i < j < |list| :: list[i] != list[j])
  }

  lemma AddEntryKeepsClean(list: seq<string>, input: string)
    requires Clean(list)
    ensures Clean(AddEntry(list, input))
  {
  }

  /** Blank input or input already present leaves the list as it is. */
  lemma AddEntryBlank(list: seq<string>, input: string)
    requires IsBlank(input)
    ensures AddEntry(list, input) == list
  {
    TrimEmptyIffBlank(input);
  }

  /** `images.filter((_, idx) => idx !== i)`: the image at `i` is dropped and
      the others keep their order. */
  function RemoveAt(xs: seq<string>, i: int): (r: seq<string>)
    requires 0 <= i < |xs|
    ensures |r| == |xs| - 1
    ensures forall j | 0 <= j < i :: r[j] == xs[j]
    ensures forall j | i <= j < |r| :: r[j] == xs[j + 1]
    ensures multiset(r) + multiset{xs[i]} == multiset(xs)
  {
    assert xs == xs[..i] + [xs[i]] + xs[i + 1..];
    xs[..i] + xs[i + 1..]
  }

  // ---------------------------------------------------------------------------
  // Validation and payload

  /** `!s || isNaN(Number(s))` is false. */
  predicate Numeric(s: string): (r: bool)
    ensures s != "" && AllDigits(s) ==> r
    ensures r ==> s != "" && (IsDigit(s[0]) || s[0] == '-')
  {
    s != "" && ParseNumber(s) != NaN
  }

  /** The nine rules, as one predicate. */
  predicate Complete(form: FormData) {
    && !IsBlank(form.name) && !IsBlank(form.description)
    && Numeric(form.price)
    && form.category != "" && form.gender != ""
    && |form.sizes| > 0 && |form.colors| > 0 && |form.images| > 0
    && Numeric(form.stock)
  }

  /** The fields `validate` can flag. */
  const Checked: set<Field> := {Name, Description, Price, Category, Gender, Sizes, Colors, Images, Stock}

  /** The rule for field `f` fails, tested as `validate` tests it; fields
      without a rule never fail. */
  predicate Fails(form: FormData, f: Field) {
    match f
    case Name => Trim(form.name) == ""
    case Description => Trim(form.description) == ""
    case Price => !Numeric(form.price)
    case Category => form.category == ""
    case Gender => form.gender == ""
    case Sizes => |form.sizes| == 0
    case Colors => |form.colors| == 0
    case Images => |form.images| == 0
    case Stock => !Numeric(form.stock)
    case _ => false
  }

  /** The message shown under a failed field. */
  function Message(f: Field): (m: string)
    ensures m != "" <==> f in Checked
  {
    match f
    case Name => "Name is required"
    case Description => "Description is required"
    case Price => "Valid price required"
    case Category => "Category is required"
    case Gender => "Gender is required"
    case Sizes => "Select at least one size"
    case Colors => "Add at least one color"
    case Images => "Add at least one image"
    case Stock => "Valid stock required"
    case _ => ""
  }

  /** The rules flag exactly the incomplete parts: blank texts, non-numeric
      numbers, no category or gender, empty lists. */
  lemma FailsMeans(form: FormData)
    ensures Fails(form, Name) <==> IsBlank(form.name)
    ensures Fails(form, Description) <==> IsBlank(form.description)
    ensures Fails(form, Price) <==> !Numeric(form.price)
    ensures Fails(form, Stock) <==> !Numeric(form.stock)
    ensures (forall f :: !Fails(form, f)) <==> Complete(form)
  {
    TrimEmptyIffBlank(form.name);
    TrimEmptyIffBlank(form.description);
    if !Complete(form) {
      assert Fails(form, Name) || Fails(form, Description) || Fails(form, Price) || Fails(form, Category)
        || Fails(form, Gender) || Fails(form, Sizes) || Fails(form, Colors) || Fails(form, Images)
        || Fails(form, Stock);
    }
  }

  /** The error record: a message per field that has a rule. */
  datatype Errors = Errors(
    name: Option<string>,
    description: Option<string>,
    price: Option<string>,
    category: Option<string>,
    gender: Option<string>,
    sizes: Option<string>,
    colors: Option<string>,
    images: Option<string>,
    stock: Option<string>)

  const NoErrors := Errors(None, None, None, None, None, None, None, None, None)

  /** `errors[f]`. */
  function ErrorOf(e: Errors, f: Field): Option<string> {
    match f
    case Name => e.name
    case Description => e.description
    case Price => e.price
    case Category => e.category
    case Gender => e.gender
    case Sizes => e.sizes
    case Colors => e.colors
    case Images => e.images
    case Stock => e.stock
    case _ => None
  }

  /** `{ ...e, [key]: undefined }`: only field `f`'s message goes. */
  function Cleared(e: Errors, f: Field): (r: Errors)
    ensures ErrorOf(r, f) == None
    ensures forall g | g != f :: ErrorOf(r, g) == ErrorOf(e, g)
  {
    match f
    case Name => e.(name := None)
    case Description => e.(description := None)
    case Price => e.(price := None)
    case Category => e.(category := None)
    case Gender => e.(gender := None)
    case Sizes => e.(sizes := None)
    case Colors => e.(colors := None)
    case Images => e.(images := None)
    case Stock => e.(stock := None)
    case _ => e
  }

  /** The record `validate` fills in for `form`, one rule per field. */
  function Validation(form: FormData): Errors {
    Errors(
      if Trim(form.name) == "" then Some(Message(Name)) else None,
      if Trim(form.description) == "" then Some(Message(Description)) else None,
      if !Numeric(form.price) then Some(Message(Price)) else None,
      if form.category == "" then Some(Message(Category)) else None,
      if form.gender == "" then Some(Message(Gender)) else None,
      if |form.sizes| == 0 then Some(Message(Sizes)) else None,
      if |form.colors| == 0 then Some(Message(Colors)) else None,
      if |form.images| == 0 then Some(Message(Images)) else None,
      if !Numeric(form.stock) then Some(Message(Stock)) else None)
  }

  /** The record holds a message for each failed rule and for nothing
      else. */
  lemma ValidationFlags(form: FormData)
    ensures forall f :: ErrorOf(Validation(form), f) == if Fails(form, f) then Some(Message(f)) else None
  {
    forall f ensures ErrorOf(Validation(form), f) == if Fails(form, f) then Some(Message(f)) else None {
      match f
      case Name =>
      case Description =>
      case Price =>
      case Category =>
      case Gender =>
      case Sizes =>
      case Colors =>
      case Images =>
      case Stock =>
      case _ =>
    }
  }

  /** `validate`: the rules run one after another, each setting its field's
      message when it fails. */
  method Validate(form: FormData) returns (errors: Errors)
    ensures errors == Validation(form)
  {
    errors := NoErrors;
    errors := if Trim(form.name) == "" then errors.(name := Some(Message(Name))) else errors;
    errors := if Trim(form.description) == "" then errors.(description := Some(Message(Description))) else errors;
    errors := if !Numeric(form.price) then errors.(price := Some(Message(Price))) else errors;
    errors := if form.category == "" then errors.(category := Some(Message(Category))) else errors;
    errors := if form.gender == "" then errors.(gender := Some(Message(Gender))) else errors;
    errors := if |form.sizes| == 0 then errors.(sizes := Some(Message(Sizes))) else errors;
    errors := if |form.colors| == 0 then errors.(colors := Some(Message(Colors))) else errors;
    errors := if |form.images| == 0 then errors.(images := Some(Message(Images))) else errors;
    errors := if !Numeric(form.stock) then errors.(stock := Some(Message(Stock))) else errors;
  }

  /** `Object.keys(e).length === 0`, i.e. `validate()` returns true, exactly for
      a complete form. */
  lemma ValidatePasses(form: FormData)
    ensures Validation(form) == NoErrors <==> Complete(form)
  {
    FailsMeans(form);
    if Validation(form) == NoErrors {
      ValidationFlags(form);
      forall f ensures !Fails(form, f) {
        assert ErrorOf(Validation(form), f) == None;
      }
    }
  }

  /** The body sent to `createProduct`/`updateProduct`. */
  datatype ProductPayload = ProductPayload(
    name: string,
    description: string,
    price: JsNumber,
    discountPrice: Option<JsNumber>,
    category: string,
    gender: string,
    material: string,
    sizes: seq<string>,
    colors: seq<string>,
    images: seq<string>,
    stock: JsNumber,
    isFeatured: bool,
    tags: seq<string>)

  /** The payload: `price` and `stock` through `Number`, an empty discount left
      undefined, the rest as typed. */
  function ToPayload(form: FormData): (p: ProductPayload)
    ensures p.discountPrice.None? <==> form.discountPrice == ""
    ensures Numeric(form.price) ==> p.price.Num?
    ensures Numeric(form.stock) ==> p.stock.Num?
  {
    ProductPayload(
      form.name, form.description, ParseNumber(form.price),
      if form.discountPrice != "" then Some(ParseNumber(form.discountPrice)) else None,
      form.category, form.gender, form.material,
      form.sizes, form.colors, form.images, ParseNumber(form.stock), form.isFeatured, form.tags)
  }

  /** Saving a loaded product unchanged sends back its own values: the numbers
      survive the round trip through their decimal strings. */
  lemma LoadedRoundTrip(p: Product)
    ensures var pl := ToPayload(ToForm(Some(p)));
      && pl.price == Num(p.price) && pl.stock == Num(p.stock)
      && pl.discountPrice == (if p.discountPrice.Some? then Some(Num(p.discountPrice.value)) else None)
      && pl.name == p.name && pl.description == p.description
      && pl.category == p.category && pl.gender == p.gender && pl.material == p.material.GetOr("")
      && pl.sizes == p.sizes && pl.colors == p.colors && pl.images == p.images
      && pl.isFeatured == p.isFeatured && pl.tags == p.tags
  {
    IntToStringRoundTrip(p.price);
    IntToStringRoundTrip(p.stock);
    if p.discountPrice.Some? {
      IntToStringRoundTrip(p.discountPrice.value);
    }
  }

  /** A loaded product always has a valid price and stock; it passes
      validation exactly when its texts, category, gender and lists are
      filled. */
  lemma LoadedValidity(p: Product)
    ensures Complete(ToForm(Some(p))) <==>
      !IsBlank(p.name) && !IsBlank(p.description) && p.category != "" && p.gender != ""
      && |p.sizes| > 0 && |p.colors| > 0 && |p.images| > 0
  {
    IntToStringRoundTrip(p.price);
    IntToStringRoundTrip(p.stock);
  }

  /** The blank form fails all nine rules. */
  lemma BlankFormFailsAll()
    ensures var form := ToForm(None);
      IsBlank(form.name) && IsBlank(form.description) && !Numeric(form.price) && !Numeric(form.stock)
      && !Complete(form)
  {
  }

  /** What a submit did. */
  datatype SaveOutcome = Invalid | Saved | SaveFailed(message: string)

  /** A save request: the product id when editing, and the payload. */
  datatype SaveRequest = SaveRequest(productId: Option<string>, payload: ProductPayload)

  /** The form's state. */
  class ProductEditor {
    const product: Option<Product>
    var form: FormData
    var colorInput: string
    var tagInput: string
    var errors: Errors

    constructor(product: Option<Product>)
      ensures this.product == product && form == ToForm(product)
      ensures colorInput == "" && tagInput == "" && errors == NoErrors
    {
      this.product := product;
      form := ToForm(product);
      colorInput := "";
      tagInput := "";
      errors := NoErrors;
    }

    /** `set(key, val)`: the field changes and its error is cleared; a cleared
        error is modelled as an absent key. */
    method SetField(f: Field, v: FieldValue)
      requires Fits(f, v)
      modifies this
      ensures form == Put(old(form), f, v) && errors == Cleared(old(errors), f)
      ensures colorInput == old(colorInput) && tagInput == old(tagInput)
    {
      form := Put(form, f, v);
      errors := Cleared(errors, f);
    }

    method ToggleSizeOption(s: string)
      modifies this
      ensures form == old(form).(sizes := ToggleSize(old(form).sizes, s))
      ensures errors == Cleared(old(errors), Sizes)
      ensures colorInput == old(colorInput) && tagInput == old(tagInput)
    {
      SetField(Sizes, ListValue(ToggleSize(form.sizes, s)));
    }

    method TypeColor(s: string)
      modifies this
      ensures colorInput == s && form == old(form) && errors == old(errors)
      ensures tagInput == old(tagInput)
    {
      colorInput := s;
    }

    method TypeTag(s: string)
      modifies this
      ensures tagInput == s && form == old(form) && errors == old(errors)
      ensures colorInput == old(colorInput)
    {
      tagInput := s;
    }

    /** `addColor`: the list grows only by a new, non-blank colour; the input is
        cleared either way. */
    method AddColor()
      modifies this
      ensures form.colors == AddEntry(old(form).colors, old(colorInput)) && colorInput == ""
      ensures form == old(form).(colors := form.colors)
      ensures form.colors != old(form).colors ==> errors == Cleared(old(errors), Colors)
      ensures form.colors == old(form).colors ==> errors == old(errors)
      ensures tagInput == old(tagInput)
    {
      var c := Trim(colorInput);
      if c != "" && c !in form.colors {
        SetField(Colors, ListValue(form.colors + [c]));
      }
      colorInput := "";
    }

    /** `addTag`, the same for tags. */
    method AddTag()
      modifies this
      ensures form.tags == AddEntry(old(form).tags, old(tagInput)) && tagInput == ""
      ensures form == old(form).(tags := form.tags)
      ensures form.tags != old(form).tags ==> errors == Cleared(old(errors), Tags)
      ensures form.tags == old(form).tags ==> errors == old(errors)
      ensures colorInput == old(colorInput)
    {
      var t := Trim(tagInput);
      if t != "" && t !in form.tags {
        SetField(Tags, ListValue(form.tags + [t]));
      }
      tagInput := "";
    }

    method RemoveColor(c: string)
      modifies this
      ensures form == old(form).(colors := Without(old(form).colors, c))
      ensures errors == Cleared(old(errors), Colors)
      ensures colorInput == old(colorInput) && tagInput == old(tagInput)
    {
      SetField(Colors, ListValue(Without(form.colors, c)));
    }

    method RemoveTag(t: string)
      modifies this
      ensures form == old(form).(tags := Without(old(form).tags, t))
      ensures errors == Cleared(old(errors), Tags)
      ensures colorInput == old(colorInput) && tagInput == old(tagInput)
    {
      SetField(Tags, ListValue(Without(form.tags, t)));
    }

    /** The remove button on the thumbnail at index `i`. */
    method RemoveImage(i: int)
      requires 0 <= i < |form.images|
      modifies this
      ensures form == old(form).(images := RemoveAt(old(form).images, i))
      ensures errors == Cleared(old(errors), Images)
      ensures colorInput == old(colorInput) && tagInput == old(tagInput)
    {
      SetField(Images, ListValue(RemoveAt(form.images, i)));
    }

    /** Uploaded image URLs are appended in order; an empty selection returns
        before anything is set, so it changes nothing. */
    method AddUploaded(urls: seq<string>)
      modifies this
      ensures form == old(form).(images := old(form).images + urls)
      ensures errors == if urls == [] then old(errors) else Cleared(old(errors), Images)
      ensures urls == [] ==> form == old(form)
      ensures colorInput == old(colorInput) && tagInput == old(tagInput)
    {
      if urls == [] {
        assert form.images + urls == form.images;
        return;
      }
      SetField(Images, ListValue(form.images + urls));
    }

    /** `handleSubmit`: an incomplete form stores its errors and sends nothing;
        otherwise the payload is sent as an update of the loaded product or as
        a new product, and a refusal shows its message or `'Failed'`. */
    method HandleSubmit(server: SaveRequest -> Ack) returns (sent: Option<SaveRequest>, outcome: SaveOutcome)
      modifies this
      ensures form == old(form)
      ensures errors == Validation(form)
      ensures colorInput == old(colorInput) && tagInput == old(tagInput)
      ensures (errors == NoErrors) <==> Complete(form)
      ensures !Complete(form) ==> sent == None && outcome == Invalid
      ensures Complete(form) ==> sent == Some(SaveRequest(if product.Some? then Some(product.value.id) else None, ToPayload(form)))
      ensures sent.Some? && server(sent.value).success ==> outcome == Saved
      ensures sent.Some? && !server(sent.value).success ==> outcome == SaveFailed(OrElse(server(sent.value).message, "Failed"))
    {
      errors := Validate(form);
      ValidatePasses(form);
      if errors != NoErrors {
        return None, Invalid;
      }
      var request := SaveRequest(if product.Some? then Some(product.value.id) else None, ToPayload(form));
      sent := Some(request);
      var res := server(request);
      if res.success {
        outcome := Saved;
      } else {
        outcome := SaveFailed(OrElse(res.message, "Failed"));
      }
    }
  }
}
