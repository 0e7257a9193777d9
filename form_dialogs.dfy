/** The onboarding dialogs for bikes, riders, customers and report orders:
    their schemas, the request bodies built from them, the place picker and
    the wizard steps. */
module FormDialogs {
  import opened Common

  // ---------------------------------------------------------------- schemas

  datatype BikeForm = BikeForm(serialNumber: string, plateNumber: string, generationType: string)

  datatype RiderForm = RiderForm(
    fname: string, lname: string, nationalId: string,
    phone: string, location: string, email: string)

  datatype OrderDraft = OrderDraft(orderName: string, deliveryAddress: string)

  datatype CustomerForm = CustomerForm(
    fname: string, lname: string, businessName: string, businessLine: string,
    email: string, phone: string, location: GeoPoint)

  /** The values `generationType` may take. */
  const Generations: seq<string> := ["gen1", "gen2"]

  /** The values `businessLine` may take. */
  const BusinessLines: seq<string> :=
    ["transportation", "logistic", "food", "warehouse", "retail_store", "beverage", "electronics", "agriculture"]

  /** The class `\d` of a JavaScript regular expression without the `u` flag. */
  predicate IsDigit(c: char)
  {
    '0' <= c <= '9'
  }

  /** Every character is a digit. */
  predicate AllDigits(s: string)
  {
    s == [] || (IsDigit(s[0]) && AllDigits(s[1..]))
  }

  lemma {:induction false} AllDigitsIff(s: string)
    ensures AllDigits(s) <==> forall i :: 0 <= i < |s| ==> IsDigit(s[i])
  {
    if s != [] {
      AllDigitsIff(s[1..]);
      assert forall i :: 1 <= i < |s| ==> s[i] == s[1..][i - 1];
    }
  }

  /** The pattern `^0\d{9}$`: a '0' followed by exactly nine digits. */
  predicate MatchesPhonePattern(s: string)
  {
    |s| >= 1 && s[0] == '0' && |s[1..]| == 9 && AllDigits(s[1..])
  }

  /** `.length(10)` together with `.regex(/^0\d{9}$/)`. */
  predicate PhoneValid(phone: string)
  {
    |phone| == 10 && MatchesPhonePattern(phone)
  }

  /** A phone number is accepted iff it has exactly 10 characters, the first is
      '0' and the other nine are ASCII digits. */
  lemma PhoneValidIff(phone: string)
    ensures PhoneValid(phone) <==>
      |phone| == 10 && phone[0] == '0' && forall i :: 1 <= i < 10 ==> IsDigit(phone[i])
  {
    if |phone| == 10 {
      AllDigitsIff(phone[1..]);
      assert forall i :: 1 <= i < 10 ==> phone[i] == phone[1..][i - 1];
    }
  }

  predicate BikeValid(f: BikeForm)
  {
    |f.serialNumber| >= 3 && |f.plateNumber| >= 3 && f.generationType in Generations
  }

  /** `riderSchema`; the email format check is the foreign `isEmail`. */
  predicate RiderValid(f: RiderForm, isEmail: string -> bool)
  {
    && |f.fname| >= 2 && |f.lname| >= 2
    && |f.nationalId| == 20
    && PhoneValid(f.phone)
    && |f.location| >= 3
    && isEmail(f.email)
  }

  /** The rider schema's length rules: exactly 20 characters of national id,
      at least 2 for each name and at least 3 for the location. */
  lemma RiderValidBounds(f: RiderForm, isEmail: string -> bool)
    ensures RiderValid(f, isEmail) ==>
      |f.nationalId| == 20 && |f.fname| >= 2 && |f.lname| >= 2 && |f.location| >= 3 && |f.phone| == 10
    ensures |f.nationalId| != 20 ==> !RiderValid(f, isEmail)
  {
  }

  /** Serial and plate need at least 3 characters, and the generation must be
      one of the two listed. */
  lemma BikeValidBounds(f: BikeForm)
    ensures BikeValid(f) <==>
      |f.serialNumber| >= 3 && |f.plateNumber| >= 3 && (f.generationType == "gen1" || f.generationType == "gen2")
  {
  }

  predicate OrderDraftValid(f: OrderDraft)
  {
    |f.orderName| >= 3 && |f.deliveryAddress| >= 5
  }

  /** `customerSchema`; the email format check is the foreign `isEmail`. */
  predicate CustomerValid(f: CustomerForm, isEmail: string -> bool)
  {
    && |f.fname| >= 2 && |f.lname| >= 2 && |f.businessName| >= 2
    && f.businessLine in BusinessLines
    && isEmail(f.email)
    && PhoneValid(f.phone)
    && |f.location.name| >= 2
    && InRange(f.location)
  }

  /** A customer is accepted only at a place inside the coordinate ranges and
      with a listed business line. */
  lemma CustomerValidBounds(f: CustomerForm, isEmail: string -> bool)
    requires CustomerValid(f, isEmail)
    ensures -180.0 <= f.location.longitude <= 180.0
    ensures -90.0 <= f.location.latitude <= 90.0
    ensures exists i :: 0 <= i < 8 && BusinessLines[i] == f.businessLine
  {
  }

  // ---------------------------------------------------------- request bodies

  datatype BikeBody = BikeBody(plateNo: string, serialNo: string, generation: int)

  datatype RiderBody = RiderBody(
    fname: string, lname: string, nationalId: string,
    phone: string, location: string, email: Option<string>)

  datatype CustomerBody = CustomerBody(
    businessLine: string, businessName: string,
    longitude: real, latitude: real, location: string,
    fname: string, lname: string, email: string, phone: string)

  /** The bike body: plate and serial copied, "gen1" sent as 1 and anything
      else as 2. */
  function BikeBodyOf(f: BikeForm): (b: BikeBody)
    ensures b.plateNo == f.plateNumber && b.serialNo == f.serialNumber
    ensures b.generation == 1 <==> f.generationType == "gen1"
    ensures b.generation == 1 || b.generation == 2
  {
    BikeBody(f.plateNumber, f.serialNumber, if f.generationType == "gen1" then 1 else 2)
  }

  /** The form a bike body was built from. */
  function BikeFormOf(b: BikeBody): BikeForm
  {
    BikeForm(b.serialNo, b.plateNo, if b.generation == 1 then "gen1" else "gen2")
  }

  /** On every form the schema accepts, the bike body loses nothing. */
  lemma BikeBodyRoundTrip(f: BikeForm)
    requires BikeValid(f)
    ensures BikeFormOf(BikeBodyOf(f)) == f
  {
  }

  /** `{ ...data, email: data.email === '' ? null : data.email }`. */
  function RiderBodyOf(f: RiderForm): (b: RiderBody)
    ensures b.fname == f.fname && b.lname == f.lname && b.nationalId == f.nationalId
    ensures b.phone == f.phone && b.location == f.location
    ensures b.email.None? <==> f.email == ""
    ensures b.email.Some? ==> b.email.value == f.email
  {
    RiderBody(f.fname, f.lname, f.nationalId, f.phone, f.location,
      if f.email == "" then None else Some(f.email))
  }

  function RiderFormOf(b: RiderBody): RiderForm
  {
    RiderForm(b.fname, b.lname, b.nationalId, b.phone, b.location,
      match b.email case None => "" case Some(e) => e)
  }

  /** The rider body loses nothing: a null email stands for an empty one. */
  lemma RiderBodyRoundTrip(f: RiderForm)
    ensures RiderFormOf(RiderBodyOf(f)) == f
  {
  }

  /** The customer body: the location is flattened into name, longitude and
      latitude, the business fields are renamed, the rest is copied. */
  function CustomerBodyOf(f: CustomerForm): (b: CustomerBody)
    ensures b.location == f.location.name
    ensures b.longitude == f.location.longitude && b.latitude == f.location.latitude
    ensures b.businessLine == f.businessLine && b.businessName == f.businessName
    ensures b.fname == f.fname && b.lname == f.lname && b.email == f.email && b.phone == f.phone
  {
    CustomerBody(f.businessLine, f.businessName, f.location.longitude, f.location.latitude,
      f.location.name, f.fname, f.lname, f.email, f.phone)
  }

  function CustomerFormOf(b: CustomerBody): CustomerForm
  {
    CustomerForm(b.fname, b.lname, b.businessName, b.businessLine, b.email, b.phone,
      GeoPoint(b.location, b.longitude, b.latitude))
  }

  /** Flattening the customer loses nothing. */
  lemma CustomerBodyRoundTrip(f: CustomerForm)
    ensures CustomerFormOf(CustomerBodyOf(f)) == f
  {
  }

  // ------------------------------------------------------------ place picker

  /** The customer location after `SelectPlace(place)`: a null place, or one
      without a location or a name, leaves it as it was. */
  function SelectedLocation(current: GeoPoint, place: Option<PlaceResult>): (p: GeoPoint)
    ensures place.Some? && Usable(place.value) ==>
      && p.name == place.value.name.value
      && p.latitude == place.value.location.value.lat
      && p.longitude == place.value.location.value.lng
    ensures !(place.Some? && Usable(place.value)) ==> p == current
  {
    if place.Some? && Usable(place.value) then PointOf(place.value) else current
  }

  /** `SelectPlace` notifies "No location passed." for a present but unusable place. */
  predicate SelectPlaceWarns(place: Option<PlaceResult>)
  {
    place.Some? && !Usable(place.value)
  }

  // ------------------------------------------------------------------ wizard

  /** The form `activeTab` selects. */
  datatype Dialog = RiderDialog | BikeDialog | CustomerDialog | ReportDialog | NoDialog

  function DialogFor(activeTab: string): (d: Dialog)
    ensures d == RiderDialog <==> activeTab == "Riders"
    ensures d == BikeDialog <==> activeTab == "Bikes"
    ensures d == CustomerDialog <==> activeTab == "Customers"
    ensures d == ReportDialog <==> activeTab == "Reports"
  {
    match activeTab
    case "Riders" => RiderDialog
    case "Bikes" => BikeDialog
    case "Customers" => CustomerDialog
    case "Reports" => ReportDialog
    case _ => NoDialog
  }

  datatype StepButton = Next | Previous

  /** The step a wizard button leads to, or None when the dialog shows no such
      button at that step. The rider form has steps 1 and 2, the customer form
      steps 1, 2 and 3; the other forms have no steps. */
  function StepTarget(d: Dialog, step: int, button: StepButton): Option<int>
  {
    match (d, step, button)
    case (RiderDialog, 1, Next) => Some(2)
    case (RiderDialog, 2, Previous) => Some(1)
    case (CustomerDialog, 1, Next) => Some(2)
    case (CustomerDialog, 2, Previous) => Some(1)
    case (CustomerDialog, 2, Next) => Some(3)
    case (CustomerDialog, 3, Previous) => Some(2)
    case _ => None
  }

  /** Wizard buttons move one step at a time, only within the form's own steps:
      the rider form toggles between 1 and 2, the customer form stays in 1..3. */
  lemma StepTargetMovesByOne(d: Dialog, step: int, button: StepButton)
    requires StepTarget(d, step, button).Some?
    ensures button == Next ==> StepTarget(d, step, button).value == step + 1
    ensures button == Previous ==> StepTarget(d, step, button).value == step - 1
    ensures d == RiderDialog ==> step in {1, 2} && StepTarget(d, step, button).value in {1, 2}
    ensures d == CustomerDialog ==> 1 <= StepTarget(d, step, button).value <= 3
    ensures d == RiderDialog || d == CustomerDialog
  {
  }

  /** The empty forms the dialogs start with and are reset to. */
  const DefaultBike: BikeForm := BikeForm("", "", "gen1")
  const DefaultRider: RiderForm := RiderForm("", "", "", "", "", "")
  const DefaultCustomer: CustomerForm :=
    CustomerForm("", "", "", "transportation", "", "", GeoPoint("", 0.0, 0.0))

  class FormDialogContent {
    var activeTab: string
    var step: int
    var isSubmitting: bool
    /** The parent's dialog-open flag, closed by `setDialogOpen(false)`. */
    var dialogOpen: bool
    var bike: BikeForm
    var rider: RiderForm
    var customer: CustomerForm
    var errorToasts: nat

    constructor (activeTab: string)
      ensures this.activeTab == activeTab && step == 1 && !isSubmitting && dialogOpen
      ensures bike == DefaultBike && rider == DefaultRider && customer == DefaultCustomer
      ensures errorToasts == 0
    {
      this.activeTab := activeTab;
      step := 1;
      isSubmitting := false;
      dialogOpen := true;
      bike, rider, customer := DefaultBike, DefaultRider, DefaultCustomer;
      errorToasts := 0;
    }

    /** A click on a wizard button; a button the current view does not show
        cannot be clicked and changes nothing. */
    method Press(button: StepButton)
      modifies this
      ensures StepTarget(DialogFor(activeTab), old(step), button).Some? ==>
        step == StepTarget(DialogFor(activeTab), old(step), button).value
      ensures StepTarget(DialogFor(activeTab), old(step), button).None? ==> step == old(step)
      ensures activeTab == old(activeTab) && isSubmitting == old(isSubmitting)
      ensures dialogOpen == old(dialogOpen) && errorToasts == old(errorToasts)
      ensures bike == old(bike) && rider == old(rider) && customer == old(customer)
    {
      var target := StepTarget(DialogFor(activeTab), step, button);
      if target.Some? {
        step := target.value;
      }
    }

    /** `SelectPlace(place)` from the customer form's place search. */
    method SelectPlace(place: Option<PlaceResult>)
      modifies this
      ensures customer == old(customer).(location := SelectedLocation(old(customer).location, place))
      ensures errorToasts == old(errorToasts) + (if SelectPlaceWarns(place) then 1 else 0)
      ensures activeTab == old(activeTab) && step == old(step) && isSubmitting == old(isSubmitting)
      ensures dialogOpen == old(dialogOpen) && bike == old(bike) && rider == old(rider)
    {
      if place.None? {
        return;
      }
      if Usable(place.value) {
        customer := customer.(location := PointOf(place.value));
      } else {
        errorToasts := errorToasts + 1;
      }
    }

    /** Submitting the bike form: data failing the schema is never sent; sent
        data resets the form and closes the dialog only on `success`. The
        submitting flag is down again on every path. */
    method SubmitBike(reply: Reply) returns (request: Option<BikeBody>)
      requires !isSubmitting
      modifies this
      ensures !isSubmitting
      ensures activeTab == old(activeTab) && step == old(step)
      ensures rider == old(rider) && customer == old(customer)
      ensures !BikeValid(old(bike)) ==>
        request == None && bike == old(bike) && dialogOpen == old(dialogOpen) && errorToasts == old(errorToasts)
      ensures BikeValid(old(bike)) ==> request == Some(BikeBodyOf(old(bike)))
      ensures BikeValid(old(bike)) && reply.Received? && reply.success ==>
        bike == DefaultBike && !dialogOpen && errorToasts == old(errorToasts)
      ensures BikeValid(old(bike)) && !(reply.Received? && reply.success) ==>
        bike == old(bike) && dialogOpen == old(dialogOpen) && errorToasts == old(errorToasts) + 1
    {
      if !BikeValid(bike) {
        return None;
      }
      isSubmitting := true;
      request := Some(BikeBodyOf(bike));
      if reply.Received? && reply.success {
        bike := DefaultBike;
        dialogOpen := false;
      } else {
        errorToasts := errorToasts + 1;
      }
      isSubmitting := false;
    }

    /** Submitting the rider form; as for bikes. The wizard step is not reset. */
    method SubmitRider(reply: Reply, isEmail: string -> bool) returns (request: Option<RiderBody>)
      requires !isSubmitting
      modifies this
      ensures !isSubmitting
      ensures activeTab == old(activeTab) && step == old(step)
      ensures bike == old(bike) && customer == old(customer)
      ensures !RiderValid(old(rider), isEmail) ==>
        request == None && rider == old(rider) && dialogOpen == old(dialogOpen) && errorToasts == old(errorToasts)
      ensures RiderValid(old(rider), isEmail) ==> request == Some(RiderBodyOf(old(rider)))
      ensures RiderValid(old(rider), isEmail) && reply.Received? && reply.success ==>
        rider == DefaultRider && !dialogOpen && errorToasts == old(errorToasts)
      ensures RiderValid(old(rider), isEmail) && !(reply.Received? && reply.success) ==>
        rider == old(rider) && dialogOpen == old(dialogOpen) && errorToasts == old(errorToasts) + 1
    {
      if !RiderValid(rider, isEmail) {
        return None;
      }
      isSubmitting := true;
      request := Some(RiderBodyOf(rider));
      if reply.Received? && reply.success {
        rider := DefaultRider;
        dialogOpen := false;
      } else {
        errorToasts := errorToasts + 1;
      }
      isSubmitting := false;
    }

    /** Submitting the customer form; as for bikes. The wizard step is not reset. */
    method SubmitCustomer(reply: Reply, isEmail: string -> bool) returns (request: Option<CustomerBody>)
      requires !isSubmitting
      modifies this
      ensures !isSubmitting
      ensures activeTab == old(activeTab) && step == old(step)
      ensures bike == old(bike) && rider == old(rider)
      ensures !CustomerValid(old(customer), isEmail) ==>
        request == None && customer == old(customer) && dialogOpen == old(dialogOpen) && errorToasts == old(errorToasts)
      ensures CustomerValid(old(customer), isEmail) ==> request == Some(CustomerBodyOf(old(customer)))
      ensures CustomerValid(old(customer), isEmail) && reply.Received? && reply.success ==>
        customer == DefaultCustomer && !dialogOpen && errorToasts == old(errorToasts)
      ensures CustomerValid(old(customer), isEmail) && !(reply.Received? && reply.success) ==>
        customer == old(customer) && dialogOpen == old(dialogOpen) && errorToasts == old(errorToasts) + 1
    {
      if !CustomerValid(customer, isEmail) {
        return None;
      }
      isSubmitting := true;
      request := Some(CustomerBodyOf(customer));
      if reply.Received? && reply.success {
        customer := DefaultCustomer;
        dialogOpen := false;
      } else {
        errorToasts := errorToasts + 1;
      }
      isSubmitting := false;
    }
  }
}
