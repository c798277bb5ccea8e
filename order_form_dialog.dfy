/** The checkout sheet (`src/components/OrderFormDialog.tsx`): customer details
    are validated field by field, the price summary is computed in whole taka,
    and a valid form becomes a one-item order request. */
module OrderFormDialog {
  import opened Wrappers
  import opened Text
  import opened Catalog
  import opened OrderTypes

  datatype FormState = FormState(name: string, phone: string, address: string, city: string, isInsideDhaka: bool)

  /** One message per field that failed; `None` where the field is fine. */
  datatype FormErrors = FormErrors(name: Option<string>, phone: Option<string>, address: Option<string>, city: Option<string>)

  const NoErrors := FormErrors(None, None, None, None)

  const NameMessage := "Full name is required"
  const PhoneMessage := "Enter a valid BD phone number"
  const AddressMessage := "Please enter a complete address"
  const CityMessage := "City is required"

  /** `^01[3-9]\d{8}$`: eleven ASCII digits, starting 01 and then 3 to 9. */
  predicate ValidBdPhone(s: string): (r: bool)
    ensures r ==> |s| == 11 && AllDigits(s) && s[..2] == "01"
    ensures r ==> forall i | 0 <= i < |s| :: !IsSpace(s[i])
  {
    |s| == 11 && s[0] == '0' && s[1] == '1' && '3' <= s[2] <= '9' && AllDigits(s[3..])
  }

  /** A typical mobile number is accepted. */
  lemma MobileAccepted()
    ensures ValidBdPhone("01712345678")
  {
    assert "01712345678"[3..] == "12345678";
  }

  /** A number one digit short, and a landline prefix, are rejected. */
  lemma OthersRejected()
    ensures !ValidBdPhone("0171234567")
    ensures !ValidBdPhone("02123456789")
  {
    assert |"0171234567"| == 10;
    assert "02123456789"[1] == '2';
  }

  /** A space typed inside a number does not matter to validation. */
  lemma SpaceIgnored(a: string, b: string)
    requires forall i | 0 <= i < |a| :: !IsSpace(a[i])
    requires forall i | 0 <= i < |b| :: !IsSpace(b[i])
    ensures RemoveSpaces(a + " " + b) == a + b
  {
    SpaceDropped(a, b);
    RemoveSpacesKeeps(a);
    RemoveSpacesKeeps(b);
  }

  lemma SpaceDropped(a: string, b: string)
    ensures RemoveSpaces(a + " " + b) == RemoveSpaces(a) + RemoveSpaces(b)
  {
    RemoveSpacesAppend(a + " ", b);
    RemoveSpacesAppend(a, " ");
    assert RemoveSpaces(" ") == [];
  }

  /** The errors `validate` reports for `form`. */
  function Validation(form: FormState): FormErrors {
    FormErrors(
      if Trim(form.name) == "" || Utf16Length(Trim(form.name)) < 2 then Some(NameMessage) else None,
      if !ValidBdPhone(RemoveSpaces(form.phone)) then Some(PhoneMessage) else None,
      if Trim(form.address) == "" || Utf16Length(Trim(form.address)) < 10 then Some(AddressMessage) else None,
      if Trim(form.city) == "" then Some(CityMessage) else None)
  }

  /** A field is flagged exactly when its rule fails: a name under two
      characters, a phone number that is not a Bangladeshi mobile number once
      whitespace is removed, an address under ten characters, a blank city;
      each with its own message. */
  lemma ValidationMeans(form: FormState)
    ensures Validation(form).name.Some? <==> Utf16Length(Trim(form.name)) < 2
    ensures Validation(form).phone.Some? <==> !ValidBdPhone(RemoveSpaces(form.phone))
    ensures Validation(form).address.Some? <==> Utf16Length(Trim(form.address)) < 10
    ensures Validation(form).city.Some? <==> IsBlank(form.city)
    ensures Validation(form).name.Some? ==> Validation(form).name.value == NameMessage
    ensures Validation(form).phone.Some? ==> Validation(form).phone.value == PhoneMessage
    ensures Validation(form).address.Some? ==> Validation(form).address.value == AddressMessage
    ensures Validation(form).city.Some? ==> Validation(form).city.value == CityMessage
  {
    TrimEmptyIffBlank(form.city);
  }

  /** Lengths are counted as JavaScript does, in UTF-16 code units: a name
      made of one emoji is two units long and passes the name rule. */
  lemma EmojiNameAccepted(form: FormState)
    requires form.name == "\U{1F600}"
    ensures Validation(form).name == None
  {
    Utf16LengthOfEmoji();
    assert TrimStart(form.name) == form.name;
    assert TrimEnd(form.name) == form.name;
  }

  /** `validate`, filling the errors object one rule at a time. */
  method Validate(form: FormState) returns (errors: FormErrors)
    ensures errors == Validation(form)
  {
    errors := NoErrors;
    if Trim(form.name) == "" || Utf16Length(Trim(form.name)) < 2 {
      errors := errors.(name := Some(NameMessage));
    }
    if !ValidBdPhone(RemoveSpaces(form.phone)) {
      errors := errors.(phone := Some(PhoneMessage));
    }
    if Trim(form.address) == "" || Utf16Length(Trim(form.address)) < 10 {
      errors := errors.(address := Some(AddressMessage));
    }
    if Trim(form.city) == "" {
      errors := errors.(city := Some(CityMessage));
    }
  }


  /** `discountPrice ?? price`: a discount of zero is still a discount. */
  function DisplayPrice(p: Product): (price: int)
    ensures p.discountPrice.Some? ==> price == p.discountPrice.value
    ensures p.discountPrice.None? ==> price == p.price
  {
    p.discountPrice.GetOr(p.price)
  }

  /** The delivery fee for the chosen zone. */
  function ShippingCost(isInsideDhaka: bool): (fee: int)
    ensures fee == (if isInsideDhaka then 70 else 120)
    ensures InsideDhakaFee <= fee <= OutsideDhakaFee
  {
    if isInsideDhaka then InsideDhakaFee else OutsideDhakaFee
  }

  /** The summary shown in the sheet. */
  datatype Summary = Summary(subtotal: int, shipping: int, total: int)

  function PriceSummary(p: Product, quantity: int, isInsideDhaka: bool): (s: Summary)
    ensures s.subtotal == DisplayPrice(p) * quantity
    ensures s.total - s.subtotal == s.shipping == ShippingCost(isInsideDhaka)
  {
    var subtotal := DisplayPrice(p) * quantity;
    Summary(subtotal, ShippingCost(isInsideDhaka), subtotal + ShippingCost(isInsideDhaka))
  }

  /** Ordering outside Dhaka costs exactly fifty taka more, whatever the
      product and quantity. */
  lemma ZoneDifference(p: Product, quantity: int)
    ensures PriceSummary(p, quantity, false).total == PriceSummary(p, quantity, true).total + 50
  {
  }

  /** The request sent for a valid form: the text fields trimmed and a single
      item for the chosen product, size, colour and quantity. */
  function Payload(form: FormState, p: Product, size: string, color: string, quantity: int): CreateOrderPayload {
    CreateOrderPayload(
      ShippingInfo(Trim(form.name), Trim(form.phone), Trim(form.address), Trim(form.city), form.isInsideDhaka),
      [OrderItem(p.id, size, color, quantity)])
  }

  /** A form that passes validation yields a request whose name is at least two
      characters, whose address at least ten and whose city is not empty, none
      of them starting or ending with white space, and which orders the chosen
      product once. */
  lemma ValidPayloadFields(form: FormState, p: Product, size: string, color: string, quantity: int)
    requires Utf16Length(Trim(form.name)) >= 2 && Utf16Length(Trim(form.address)) >= 10 && !IsBlank(form.city)
    ensures var info := Payload(form, p, size, color, quantity).shippingInfo;
      Utf16Length(info.name) >= 2 && Utf16Length(info.address) >= 10 && info.city != ""
    ensures var info := Payload(form, p, size, color, quantity).shippingInfo;
      !IsSpace(info.name[0]) && !IsSpace(info.name[|info.name| - 1])
      && !IsSpace(info.address[0]) && !IsSpace(info.address[|info.address| - 1])
      && !IsSpace(info.city[0]) && !IsSpace(info.city[|info.city| - 1])
      && info.isInsideDhaka == form.isInsideDhaka
    ensures Payload(form, p, size, color, quantity).items == [OrderItem(p.id, size, color, quantity)]
  {
    TrimEmptyIffBlank(form.city);
    TrimSpec(form.name);
    TrimSpec(form.address);
    TrimSpec(form.city);
  }

  /** Validation ignores whitespace inside the phone number, but the request
      only trims it: any valid number typed with one inner space, such as
      "0171 2345678", passes validation and is sent with the space, in a form
      the validator itself would reject. */
  lemma PhoneSentAsTyped(a: string, b: string)
    requires a != [] && b != []
    requires forall i | 0 <= i < |a| :: !IsSpace(a[i])
    requires forall i | 0 <= i < |b| :: !IsSpace(b[i])
    requires ValidBdPhone(a + b)
    ensures ValidBdPhone(RemoveSpaces(a + " " + b))
    ensures Trim(a + " " + b) == a + " " + b
    ensures !ValidBdPhone(Trim(a + " " + b))
  {
    SpaceIgnored(a, b);
    var phone := a + " " + b;
    assert phone[0] == a[0] && phone[|phone| - 1] == b[|b| - 1];
    assert TrimStart(phone) == phone;
    assert TrimEnd(phone) == phone;
  }

  /** The example above: "0171 2345678" passes validation, is sent as typed,
      and the text sent is not a valid number. */
  lemma SpacedExample()
    ensures ValidBdPhone(RemoveSpaces("0171 2345678"))
    ensures Trim("0171 2345678") == "0171 2345678"
    ensures !ValidBdPhone(Trim("0171 2345678"))
  {
    MobileAccepted();
    assert "0171" + "2345678" == "01712345678";
    PhoneSentAsTyped("0171", "2345678");
    assert "0171" + " " + "2345678" == "0171 2345678";
  }

  /** The fields `set` can change. */
  datatype Edit = Name(s: string) | Phone(s: string) | Address(s: string) | City(s: string) | InsideDhaka(b: bool)

  /** `form` with one field replaced. */
  function Apply(form: FormState, e: Edit): FormState {
    match e
    case Name(s) => form.(name := s)
    case Phone(s) => form.(phone := s)
    case Address(s) => form.(address := s)
    case City(s) => form.(city := s)
    case InsideDhaka(b) => form.(isInsideDhaka := b)
  }

  /** `errors` with the error of the edited field cleared. */
  function ClearFor(errors: FormErrors, e: Edit): FormErrors {
    match e
    case Name(_) => errors.(name := None)
    case Phone(_) => errors.(phone := None)
    case Address(_) => errors.(address := None)
    case City(_) => errors.(city := None)
    case InsideDhaka(_) => errors
  }

  /** What happened to a submission. */
  datatype Submission =
    | Rejected(errors: FormErrors)
    | Placed(order: Option<PlacedOrder>, isInsideDhaka: bool)
    | Failed(message: string)

  /** The answer to a sent order: the placed order with the zone it was placed
      for, or the error's message. */
  function Resolve(res: OrderResponse, isInsideDhaka: bool): (s: Submission)
    ensures s.Placed? <==> res.ok && res.success
    ensures s.Placed? ==> s == Placed(res.order, isInsideDhaka)
    ensures s.Failed? ==> CreateOrder(res) == Failure(s.message)
    ensures !s.Rejected?
  {
    match CreateOrder(res)
    case Success(order) => Placed(order, isInsideDhaka)
    case Failure(message) => Failed(message)
  }

  /** The sheet's state. */
  class OrderForm {
    var form: FormState
    var errors: FormErrors
    /** The last error notification shown, if any. */
    var toast: Option<string>

    constructor()
      ensures form == FormState("", "", "", "", true)
      ensures errors == NoErrors && toast == None
    {
      form := FormState("", "", "", "", true);
      errors := NoErrors;
      toast := None;
    }

    /** `set(key, value)`: only that field changes and only its error is
        cleared. */
    method Set(e: Edit)
      modifies this
      ensures form == Apply(old(form), e)
      ensures errors == ClearFor(old(errors), e)
      ensures toast == old(toast)
    {
      form := Apply(form, e);
      errors := ClearFor(errors, e);
    }

    /** `handleSubmit`. A form with errors stores them, shows a notice and
        sends nothing; a valid form is sent through `createOrder`, whose answer
        `server` gives; success hands the order and the zone on, failure shows
        the error's message. */
    method HandleSubmit(p: Product, size: string, color: string, quantity: int, server: CreateOrderPayload -> OrderResponse)
      returns (sent: Option<CreateOrderPayload>, outcome: Submission)
      modifies this
      ensures form == old(form)
      ensures outcome.Rejected? <==> sent.None?
      ensures sent.None? <==> Validation(form) != NoErrors
      ensures sent.None? ==> errors == outcome.errors == Validation(form) && toast == Some("Please fill in all required fields correctly.")
      ensures sent.Some? ==> sent.value == Payload(form, p, size, color, quantity) && errors == old(errors)
      ensures sent.Some? ==> outcome == Resolve(server(sent.value), form.isInsideDhaka)
      ensures sent.Some? ==> toast == if outcome.Failed? then Some(outcome.message) else old(toast)
    {
      var found := Validate(form);
      if found != NoErrors {
        errors := found;
        toast := Some("Please fill in all required fields correctly.");
        return None, Rejected(found);
      }
      var payload := Payload(form, p, size, color, quantity);
      sent := Some(payload);
      outcome := Resolve(server(payload), form.isInsideDhaka);
      if outcome.Failed? {
        toast := Some(outcome.message);
      }
    }
  }
}
