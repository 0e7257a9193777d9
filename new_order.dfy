/** The three-step "Create New Order" dialog. */
module NewOrder {
  import opened Common
  import opened TabActives

  datatype DeliveryType = Asap | Scheduled

  /** The order form. The scheduled date is kept opaque: its check against
      the clock is supplied by the caller. */
  datatype OrderForm = OrderForm(
    businessId: string,
    pickupPlace: GeoPoint,
    dropPoint: GeoPoint,
    deliveryType: DeliveryType,
    scheduledDateTime: Option<string>)

  const DefaultOrder: OrderForm :=
    OrderForm("", GeoPoint("", 0.0, 0.0), GeoPoint("", 0.0, 0.0), Asap, None)

  /** The fields `form.trigger` can be asked to validate. */
  datatype Field = BusinessId | PickupPlace | DropPoint

  /** `.min(2)` on the name and the coordinate bounds on a place. */
  predicate PlaceValid(p: GeoPoint)
  {
    |p.name| >= 2 && InRange(p)
  }

  predicate FieldValid(f: OrderForm, field: Field)
  {
    match field
    case BusinessId => |f.businessId| >= 1
    case PickupPlace => PlaceValid(f.pickupPlace)
    case DropPoint => PlaceValid(f.dropPoint)
  }

  /** The whole schema; `withinThreeWeeks` is the clock-dependent verdict on a
      present scheduled date. */
  predicate OrderValid(f: OrderForm, withinThreeWeeks: bool)
  {
    && FieldValid(f, BusinessId) && FieldValid(f, PickupPlace) && FieldValid(f, DropPoint)
    && (f.scheduledDateTime.Some? ==> withinThreeWeeks)
  }

  /** The fields `handleNext` validates at a step. */
  function StepFields(step: int): (fields: seq<Field>)
    ensures step == 1 ==> fields == [BusinessId]
    ensures step != 1 ==> fields == [PickupPlace, DropPoint]
  {
    if step == 1 then [BusinessId] else [PickupPlace, DropPoint]
  }

  /** `form.trigger(fields)`: every listed field is valid. */
  predicate FieldsValid(f: OrderForm, fields: seq<Field>)
  {
    forall i :: 0 <= i < |fields| ==> FieldValid(f, fields[i])
  }

  /** Step 1 depends only on the business, later steps only on the two places. */
  lemma StepFieldsValid(f: OrderForm, step: int)
    ensures step == 1 ==> (FieldsValid(f, StepFields(step)) <==> |f.businessId| >= 1)
    ensures step != 1 ==> (FieldsValid(f, StepFields(step)) <==>
      PlaceValid(f.pickupPlace) && PlaceValid(f.dropPoint))
  {
    if step == 1 {
      assert StepFields(step)[0] == BusinessId;
    } else {
      assert StepFields(step)[0] == PickupPlace && StepFields(step)[1] == DropPoint;
    }
  }

  /** The dialog is open exactly while "order" is the active button. */
  predicate DialogOpen(activeButtonName: Option<string>)
  {
    activeButtonName == Some("order")
  }

  /** The wizard shows Previous above step 1, Next below step 3 and the
      submit button from step 3 on. */
  predicate ShowsPrevious(step: int) { step > 1 }
  predicate ShowsNext(step: int) { step < 3 }
  predicate ShowsSubmit(step: int) { !ShowsNext(step) }

  /** Within 1..3, Next and Previous keep the step within 1..3. */
  lemma GuardsKeepRange(step: int)
    requires 1 <= step <= 3
    ensures ShowsNext(step) ==> 1 <= step + 1 <= 3
    ensures ShowsPrevious(step) ==> 1 <= step - 1 <= 3
    ensures ShowsSubmit(step) <==> step == 3
  {
  }

  /** The field `handlePlaceSelect` writes. */
  datatype PlaceField = Pickup | Drop

  /** The form after `handlePlaceSelect(place, field)`: only the named place
      changes, and only for a place with a location and a name. */
  function WithPlace(f: OrderForm, place: Option<PlaceResult>, field: PlaceField): (g: OrderForm)
    ensures g.businessId == f.businessId && g.deliveryType == f.deliveryType
    ensures g.scheduledDateTime == f.scheduledDateTime
    ensures field == Pickup ==> g.dropPoint == f.dropPoint
    ensures field == Drop ==> g.pickupPlace == f.pickupPlace
    ensures !(place.Some? && Usable(place.value)) ==> g == f
    ensures place.Some? && Usable(place.value) ==>
      (if field == Pickup then g.pickupPlace else g.dropPoint) == PointOf(place.value)
  {
    if place.Some? && Usable(place.value) then
      match field
      case Pickup => f.(pickupPlace := PointOf(place.value))
      case Drop => f.(dropPoint := PointOf(place.value))
    else f
  }

  class NewOrderDialog {
    const buttons: ButtonRegister
    var currentStep: int
    var isSubmitting: bool
    var form: OrderForm

    /** The step stays within the wizard's three steps. */
    ghost predicate Valid()
      reads this
    {
      1 <= currentStep <= 3
    }

    constructor (buttons: ButtonRegister)
      ensures Valid()
      ensures this.buttons == buttons && currentStep == 1 && !isSubmitting && form == DefaultOrder
    {
      this.buttons := buttons;
      currentStep := 1;
      isSubmitting := false;
      form := DefaultOrder;
    }

    /** `handleNext`: validates the current step's fields and advances by one
        exactly when they are valid. It is offered only below step 3. */
    method HandleNext()
      requires Valid() && ShowsNext(currentStep)
      modifies this
      ensures Valid()
      ensures FieldsValid(form, StepFields(old(currentStep))) ==> currentStep == old(currentStep) + 1
      ensures !FieldsValid(form, StepFields(old(currentStep))) ==> currentStep == old(currentStep)
      ensures form == old(form) && isSubmitting == old(isSubmitting)
    {
      var fields := StepFields(currentStep);
      var isStepValid := FieldsValid(form, fields);
      if isStepValid {
        currentStep := currentStep + 1;
      }
    }

    /** `handlePrevious`: back one step. It is offered only above step 1. */
    method HandlePrevious()
      requires Valid() && ShowsPrevious(currentStep)
      modifies this
      ensures Valid()
      ensures currentStep == old(currentStep) - 1
      ensures form == old(form) && isSubmitting == old(isSubmitting)
    {
      currentStep := currentStep - 1;
    }

    /** `handlePlaceSelect(place, field)`. */
    method HandlePlaceSelect(place: Option<PlaceResult>, field: PlaceField)
      modifies this
      ensures form == WithPlace(old(form), place, field)
      ensures currentStep == old(currentStep) && isSubmitting == old(isSubmitting)
    {
      form := WithPlace(form, place, field);
    }

    /** Closing the dialog (`onOpenChange`) clears the active button. */
    method Close()
      modifies buttons
      ensures buttons.activeButtonName == None
      ensures !DialogOpen(buttons.activeButtonName)
    {
      buttons.Deactivate();
    }

    /** `handleSubmit(onSubmit)`: data failing the schema is never submitted;
        the simulated request always succeeds, after which the form is reset,
        the wizard goes back to step 1 and the dialog closes. */
    method Submit(withinThreeWeeks: bool) returns (submitted: Option<OrderForm>)
      requires Valid() && !isSubmitting
      modifies this, buttons
      ensures Valid() && !isSubmitting
      ensures !OrderValid(old(form), withinThreeWeeks) ==>
        && submitted == None && form == old(form) && currentStep == old(currentStep)
        && buttons.activeButtonName == old(buttons.activeButtonName)
      ensures OrderValid(old(form), withinThreeWeeks) ==>
        && submitted == Some(old(form)) && form == DefaultOrder && currentStep == 1
        && buttons.activeButtonName == None
    {
      if !OrderValid(form, withinThreeWeeks) {
        return None;
      }
      isSubmitting := true;
      submitted := Some(form);
      form := DefaultOrder;
      currentStep := 1;
      buttons.Deactivate();
      isSubmitting := false;
    }
  }
}
