/** The new-shipment dialog (components/customer/new-shipment-dialog.tsx): the form and its
    field updates, the required-fields rule, the payload sent to `createParcelBooking`, and the
    submit flow. JavaScript's `Number(...)` and `new Date(...).toISOString()` are parameters. */
module NewShipment {
  import opened Common
  import opened ApiClient
  import Toast

  /** One address of the form, as `defaultAddress` lays it out. */
  datatype Address = Address(addressLabel: string, fullAddress: string, city: string, area: string, postalCode: string)

  datatype AddressField = LabelField | FullAddressField | CityField | AreaField | PostalCodeField
  datatype Target = PickupTarget | DeliveryTarget

  /** The top-level text fields `handleFieldChange` may set. */
  datatype FormField = ParcelTypeField | ParcelSizeField | PaymentTypeField | CodAmountField | WeightField | ScheduledPickupAtField

  datatype ShipmentForm = ShipmentForm(
    pickupAddress: Address, deliveryAddress: Address,
    parcelType: string, parcelSize: string, paymentType: string,
    codAmount: string, weight: string, scheduledPickupAt: string)

  const DefaultAddress := Address("", "", "", "", "")

  /** `createDefaultForm()`. */
  function DefaultForm(): (f: ShipmentForm)
    ensures f.pickupAddress == DefaultAddress && f.deliveryAddress == DefaultAddress
    ensures f.parcelType == "Documents" && f.parcelSize == "Small" && f.paymentType == "COD"
    ensures f.codAmount == "0" && f.weight == "" && f.scheduledPickupAt == ""
  {
    ShipmentForm(DefaultAddress, DefaultAddress, "Documents", "Small", "COD", "0", "", "")
  }

  function Get(a: Address, f: AddressField): string {
    match f
    case LabelField => a.addressLabel
    case FullAddressField => a.fullAddress
    case CityField => a.city
    case AreaField => a.area
    case PostalCodeField => a.postalCode
  }

  function AddressOf(form: ShipmentForm, t: Target): Address {
    if t == PickupTarget then form.pickupAddress else form.deliveryAddress
  }

  function FieldGet(form: ShipmentForm, f: FormField): string {
    match f
    case ParcelTypeField => form.parcelType
    case ParcelSizeField => form.parcelSize
    case PaymentTypeField => form.paymentType
    case CodAmountField => form.codAmount
    case WeightField => form.weight
    case ScheduledPickupAtField => form.scheduledPickupAt
  }

  /** `handleAddressChange(target, field, value)`: exactly that field of that address changes. */
  function SetAddressField(form: ShipmentForm, target: Target, field: AddressField, value: string): (r: ShipmentForm)
    ensures Get(AddressOf(r, target), field) == value
    ensures forall t, f | t != target || f != field :: Get(AddressOf(r, t), f) == Get(AddressOf(form, t), f)
    ensures forall g :: FieldGet(r, g) == FieldGet(form, g)
  {
    var a := AddressOf(form, target);
    var a' := match field
      case LabelField => a.(addressLabel := value)
      case FullAddressField => a.(fullAddress := value)
      case CityField => a.(city := value)
      case AreaField => a.(area := value)
      case PostalCodeField => a.(postalCode := value);
    if target == PickupTarget then form.(pickupAddress := a') else form.(deliveryAddress := a')
  }

  /** `handleFieldChange(field, value)`: exactly that top-level field changes. */
  function SetField(form: ShipmentForm, field: FormField, value: string): (r: ShipmentForm)
    ensures FieldGet(r, field) == value
    ensures forall g | g != field :: FieldGet(r, g) == FieldGet(form, g)
    ensures r.pickupAddress == form.pickupAddress && r.deliveryAddress == form.deliveryAddress
  {
    match field
    case ParcelTypeField => form.(parcelType := value)
    case ParcelSizeField => form.(parcelSize := value)
    case PaymentTypeField => form.(paymentType := value)
    case CodAmountField => form.(codAmount := value)
    case WeightField => form.(weight := value)
    case ScheduledPickupAtField => form.(scheduledPickupAt := value)
  }

  /** Two forms agreeing on every field are the same form. */
  lemma FormExtensionality(a: ShipmentForm, b: ShipmentForm)
    requires forall t, f :: Get(AddressOf(a, t), f) == Get(AddressOf(b, t), f)
    requires forall g :: FieldGet(a, g) == FieldGet(b, g)
    ensures a == b
  {
    assert forall f :: Get(a.pickupAddress, f) == Get(b.pickupAddress, f) by {
      forall f ensures Get(a.pickupAddress, f) == Get(b.pickupAddress, f) {
        assert AddressOf(a, PickupTarget) == a.pickupAddress;
        assert AddressOf(b, PickupTarget) == b.pickupAddress;
      }
    }
    assert forall f :: Get(a.deliveryAddress, f) == Get(b.deliveryAddress, f) by {
      forall f ensures Get(a.deliveryAddress, f) == Get(b.deliveryAddress, f) {
        assert AddressOf(a, DeliveryTarget) == a.deliveryAddress;
        assert AddressOf(b, DeliveryTarget) == b.deliveryAddress;
      }
    }
    AddressExtensionality(a.pickupAddress, b.pickupAddress);
    AddressExtensionality(a.deliveryAddress, b.deliveryAddress);
    assert FieldGet(a, ParcelTypeField) == FieldGet(b, ParcelTypeField);
    assert FieldGet(a, ParcelSizeField) == FieldGet(b, ParcelSizeField);
    assert FieldGet(a, PaymentTypeField) == FieldGet(b, PaymentTypeField);
    assert FieldGet(a, CodAmountField) == FieldGet(b, CodAmountField);
    assert FieldGet(a, WeightField) == FieldGet(b, WeightField);
    assert FieldGet(a, ScheduledPickupAtField) == FieldGet(b, ScheduledPickupAtField);
  }

  lemma AddressExtensionality(a: Address, b: Address)
    requires forall f :: Get(a, f) == Get(b, f)
    ensures a == b
  {
    assert Get(a, LabelField) == Get(b, LabelField);
    assert Get(a, FullAddressField) == Get(b, FullAddressField);
    assert Get(a, CityField) == Get(b, CityField);
    assert Get(a, AreaField) == Get(b, AreaField);
    assert Get(a, PostalCodeField) == Get(b, PostalCodeField);
  }

  /** Field updates behave like a store: the last write to a field wins, writing the value a
      field already has changes nothing, and writes to different fields commute. */
  lemma AddressUpdateLaws(form: ShipmentForm, t: Target, f: AddressField, u: Target, g: AddressField, v: string, w: string)
    ensures SetAddressField(SetAddressField(form, t, f, v), t, f, w) == SetAddressField(form, t, f, w)
    ensures SetAddressField(form, t, f, Get(AddressOf(form, t), f)) == form
    ensures t != u || f != g ==>
      SetAddressField(SetAddressField(form, t, f, v), u, g, w) == SetAddressField(SetAddressField(form, u, g, w), t, f, v)
  {
    FormExtensionality(SetAddressField(SetAddressField(form, t, f, v), t, f, w), SetAddressField(form, t, f, w));
    FormExtensionality(SetAddressField(form, t, f, Get(AddressOf(form, t), f)), form);
    if t != u || f != g {
      FormExtensionality(SetAddressField(SetAddressField(form, t, f, v), u, g, w),
                         SetAddressField(SetAddressField(form, u, g, w), t, f, v));
    }
  }

  lemma FieldUpdateLaws(form: ShipmentForm, f: FormField, g: FormField, v: string, w: string)
    ensures SetField(SetField(form, f, v), f, w) == SetField(form, f, w)
    ensures SetField(form, f, FieldGet(form, f)) == form
    ensures f != g ==> SetField(SetField(form, f, v), g, w) == SetField(SetField(form, g, w), f, v)
  {
    FormExtensionality(SetField(SetField(form, f, v), f, w), SetField(form, f, w));
    FormExtensionality(SetField(form, f, FieldGet(form, f)), form);
    if f != g {
      FormExtensionality(SetField(SetField(form, f, v), g, w), SetField(SetField(form, g, w), f, v));
    }
  }

  /** `requiredFieldsFilled`, written as the chain of `&&` the source uses. */
  predicate RequiredFieldsFilled(form: ShipmentForm) {
    && form.pickupAddress.fullAddress != ""
    && form.pickupAddress.city != ""
    && form.pickupAddress.area != ""
    && form.pickupAddress.postalCode != ""
    && form.deliveryAddress.fullAddress != ""
    && form.deliveryAddress.city != ""
    && form.deliveryAddress.area != ""
    && form.deliveryAddress.postalCode != ""
  }

  /** Every address field but the label is required, on both addresses. */
  lemma RequiredFieldsFilledSpec(form: ShipmentForm)
    ensures RequiredFieldsFilled(form) <==>
      forall t, f | f != LabelField :: Get(AddressOf(form, t), f) != ""
  {
    if forall t, f | f != LabelField :: Get(AddressOf(form, t), f) != "" {
      assert Get(AddressOf(form, PickupTarget), FullAddressField) != "";
      assert Get(AddressOf(form, PickupTarget), CityField) != "";
      assert Get(AddressOf(form, PickupTarget), AreaField) != "";
      assert Get(AddressOf(form, PickupTarget), PostalCodeField) != "";
      assert Get(AddressOf(form, DeliveryTarget), FullAddressField) != "";
      assert Get(AddressOf(form, DeliveryTarget), CityField) != "";
      assert Get(AddressOf(form, DeliveryTarget), AreaField) != "";
      assert Get(AddressOf(form, DeliveryTarget), PostalCodeField) != "";
    }
  }

  /** The fresh form cannot be submitted; the labels and the top-level fields never decide
      whether it can. */
  lemma RequiredFieldsOnlyAddresses(form: ShipmentForm, t: Target, g: FormField, v: string)
    ensures !RequiredFieldsFilled(DefaultForm())
    ensures RequiredFieldsFilled(SetAddressField(form, t, LabelField, v)) == RequiredFieldsFilled(form)
    ensures RequiredFieldsFilled(SetField(form, g, v)) == RequiredFieldsFilled(form)
  {
    RequiredFieldsFilledSpec(form);
    RequiredFieldsFilledSpec(SetAddressField(form, t, LabelField, v));
  }

  /** The body `createParcelBooking` posts; `None` is a key left `undefined`. */
  datatype CreatePayload = CreatePayload(
    pickupAddress: Address, deliveryAddress: Address,
    parcelType: string, parcelSize: string, paymentType: string,
    codAmount: Number, weight: Option<Number>, scheduledPickupAt: Option<string>)

  /** The payload of `form`. `toNumber` is JavaScript's `Number(text)` and `toIso` is
      `new Date(text).toISOString()`, whose `Err` is the exception an invalid date throws. */
  function Payload(form: ShipmentForm, toNumber: string -> Number, toIso: string -> Result<string>): (r: Result<CreatePayload>)
    ensures r.Err? <==> form.scheduledPickupAt != "" && toIso(form.scheduledPickupAt).Err?
    ensures r.Err? ==> r.message == toIso(form.scheduledPickupAt).message
    ensures r.Ok? ==> r.value.pickupAddress == form.pickupAddress && r.value.deliveryAddress == form.deliveryAddress
    ensures r.Ok? ==> r.value.parcelType == form.parcelType && r.value.parcelSize == form.parcelSize
    ensures r.Ok? ==> r.value.paymentType == form.paymentType
  {
    var scheduled := if form.scheduledPickupAt == "" then Ok(None)
      else match toIso(form.scheduledPickupAt)
        case Ok(iso) => Ok(Some(iso))
        case Err(m) => Err(m);
    match scheduled
    case Err(m) => Err(m)
    case Ok(at) =>
      Ok(CreatePayload(
        form.pickupAddress, form.deliveryAddress, form.parcelType, form.parcelSize, form.paymentType,
        if form.paymentType == "COD" then (if form.codAmount == "" then Zero() else toNumber(form.codAmount)) else Zero(),
        if form.weight == "" then None else Some(toNumber(form.weight)),
        at))
  }

  /** Only a COD shipment carries an amount, and an empty amount is zero; the optional keys are
      sent exactly when their inputs are non-empty. */
  lemma PayloadSpec(form: ShipmentForm, toNumber: string -> Number, toIso: string -> Result<string>)
    requires Payload(form, toNumber, toIso).Ok?
    ensures var p := Payload(form, toNumber, toIso).value;
      && (form.paymentType != "COD" ==> p.codAmount == Zero())
      && (form.paymentType == "COD" && form.codAmount == "" ==> p.codAmount == Zero())
      && (form.paymentType == "COD" && form.codAmount != "" ==> p.codAmount == toNumber(form.codAmount))
      && (p.weight.None? <==> form.weight == "")
      && (p.weight.Some? ==> p.weight.value == toNumber(form.weight))
      && (p.scheduledPickupAt.None? <==> form.scheduledPickupAt == "")
      && (p.scheduledPickupAt.Some? ==> Ok(p.scheduledPickupAt.value) == toIso(form.scheduledPickupAt))
  {
  }

  /** `codDisabled`: the amount input is disabled for a prepaid shipment. */
  predicate CodDisabled(form: ShipmentForm) {
    form.paymentType == "PREPAID"
  }

  /** Whatever the disabled amount input holds, a prepaid shipment is sent with amount zero. */
  lemma CodDisabledSendsZero(form: ShipmentForm, amount: string, toNumber: string -> Number, toIso: string -> Result<string>)
    requires CodDisabled(form)
    ensures Payload(SetField(form, CodAmountField, amount), toNumber, toIso)
         == Payload(form, toNumber, toIso)
    ensures Payload(form, toNumber, toIso).Ok? ==> Payload(form, toNumber, toIso).value.codAmount == Zero()
  {
  }

  datatype SubmitButton = SubmitButton(disabled: bool, caption: string)

  /** The submit button: disabled until the required fields are filled and while submitting. */
  function SubmitButtonOf(form: ShipmentForm, submitting: bool): (b: SubmitButton)
    ensures b.disabled <==> !RequiredFieldsFilled(form) || submitting
    ensures b.caption == (if submitting then "Creating..." else "Create shipment")
  {
    SubmitButton(!RequiredFieldsFilled(form) || submitting, if submitting then "Creating..." else "Create shipment")
  }

  function AuthRequiredToast(): Toast.ToastInput {
    Toast.ToastInput(Some("Authentication required"), Some("Please log in again."), Some(Toast.Destructive), None)
  }

  function CreatedToast(trackingCode: string): Toast.ToastInput {
    Toast.ToastInput(Some("Shipment created"), Some("Tracking code " + trackingCode + " is ready."), None, None)
  }

  function FailedToast(message: string): Toast.ToastInput {
    Toast.ToastInput(Some("Failed to create shipment"), Some(message), Some(Toast.Destructive), None)
  }

  class NewShipmentDialog {
    const hasOnCreated: bool                 // whether `onCreated` was passed
    var open: bool
    var form: ShipmentForm
    var submitting: bool
    var requests: seq<(string, CreatePayload)>   // (access token, payload) of each booking request
    var toasts: seq<Toast.ToastInput>
    var created: seq<ParcelSummary>              // the arguments of each `onCreated` call

    constructor(hasOnCreated: bool)
      ensures this.hasOnCreated == hasOnCreated
      ensures !open && form == DefaultForm() && !submitting
      ensures requests == [] && toasts == [] && created == []
    {
      this.hasOnCreated := hasOnCreated;
      open, form, submitting := false, DefaultForm(), false;
      requests, toasts, created := [], [], [];
    }

    /** `onOpenChange`: ignored while a submission is running. */
    method OnOpenChange(value: bool)
      modifies this
      ensures open == (if old(submitting) then old(open) else value)
      ensures form == old(form) && submitting == old(submitting)
      ensures requests == old(requests) && toasts == old(toasts) && created == old(created)
    {
      if !submitting {
        open := value;
      }
    }

    method ChangeAddress(target: Target, field: AddressField, value: string)
      modifies this
      ensures form == SetAddressField(old(form), target, field, value)
      ensures open == old(open) && submitting == old(submitting)
      ensures requests == old(requests) && toasts == old(toasts) && created == old(created)
    {
      form := SetAddressField(form, target, field, value);
    }

    method ChangeField(field: FormField, value: string)
      modifies this
      ensures form == SetField(old(form), field, value)
      ensures open == old(open) && submitting == old(submitting)
      ensures requests == old(requests) && toasts == old(toasts) && created == old(created)
    {
      form := SetField(form, field, value);
    }

    /** The Reset button, which is disabled while submitting. */
    method ResetClicked()
      modifies this
      ensures form == (if old(submitting) then old(form) else DefaultForm())
      ensures open == old(open) && submitting == old(submitting)
      ensures requests == old(requests) && toasts == old(toasts) && created == old(created)
    {
      if !submitting {
        form := DefaultForm();
      }
    }

    /** `handleSubmit` up to the request. Without an access token only a toast appears; a
        payload that cannot be built fails at once; otherwise the request is sent and the
        dialog is submitting. */
    method BeginSubmit(tokens: Option<AuthTokens>, toNumber: string -> Number, toIso: string -> Result<string>)
      modifies this
      ensures !(tokens.Some? && tokens.value.accessToken != "") ==>
        && toasts == old(toasts) + [AuthRequiredToast()]
        && requests == old(requests) && submitting == old(submitting)
      ensures tokens.Some? && tokens.value.accessToken != "" ==>
        match Payload(old(form), toNumber, toIso)
        case Ok(p) =>
          && submitting && requests == old(requests) + [(tokens.value.accessToken, p)]
          && toasts == old(toasts)
        case Err(m) =>
          && !submitting && requests == old(requests)
          && toasts == old(toasts) + [FailedToast(m)]
      ensures open == old(open) && form == old(form) && created == old(created)
    {
      if !(tokens.Some? && tokens.value.accessToken != "") {
        toasts := toasts + [AuthRequiredToast()];
        return;
      }
      match Payload(form, toNumber, toIso) {
        case Ok(p) =>
          submitting := true;
          requests := requests + [(tokens.value.accessToken, p)];
        case Err(m) =>
          toasts := toasts + [FailedToast(m)];
          submitting := false;
      }
    }

    /** The booking request settled. On success a toast names the tracking code, `onCreated`
        gets the parcel, the form is reset and the dialog closes; on failure a toast carries the
        message and the form is kept. Either way `submitting` ends. */
    method FinishSubmit(outcome: Result<ParcelSummary>)
      modifies this
      ensures !submitting
      ensures outcome.Ok? ==>
        && toasts == old(toasts) + [CreatedToast(outcome.value.trackingCode)]
        && created == (if hasOnCreated then old(created) + [outcome.value] else old(created))
        && form == DefaultForm() && !open
      ensures outcome.Err? ==>
        && toasts == old(toasts) + [FailedToast(outcome.message)]
        && created == old(created) && form == old(form) && open == old(open)
      ensures requests == old(requests)
    {
      match outcome {
        case Ok(parcel) =>
          toasts := toasts + [CreatedToast(parcel.trackingCode)];
          if hasOnCreated {
            created := created + [parcel];
          }
          form := DefaultForm();
          open := false;
        case Err(m) =>
          toasts := toasts + [FailedToast(m)];
      }
      submitting := false;
    }

    /** What the submit button shows now. */
    function Button(): (b: SubmitButton)
      reads this
      ensures b.disabled <==> !RequiredFieldsFilled(form) || submitting
    {
      SubmitButtonOf(form, submitting)
    }
  }
}
