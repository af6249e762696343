/** The form that opens a new service for a vehicle: a start date and a
    description, posted to the vehicle's services. */
module NewServiceForm {
  import opened Common
  import Api

  const AddFailed: string := "Servis eklenirken bir hata oluştu"

  /** The body posted: the start date (present or null; its text format is
      not modelled) and the description, and nothing else. */
  datatype Body = Body(hasStartedAt: bool, description: string)

  datatype FormState = FormState(error: Option<string>, isLoading: bool)

  /** The state a submission leaves, given how the request settled; a resolved
      request carries the HTTP status. */
  function Submitted(s: FormState, reply: Outcome<int>): (r: FormState)
    ensures !r.isLoading
    ensures r.error == None <==> reply.Ok? && reply.data == 201
    ensures reply.Ok? && reply.data != 201 ==> r.error == Some(AddFailed)
    ensures !reply.Ok? ==> r.error == Some(ServerMessageOr(reply, AddFailed))
  {
    if reply.Ok? && reply.data == 201 then FormState(None, false)
    else if reply.Ok? then FormState(Some(AddFailed), false)
    else FormState(Some(ServerMessageOr(reply, AddFailed)), false)
  }

  /** Only a 201 counts as created: another success status (200, 204) reads
      as a failure, with the same text as a failure without a server message. */
  lemma OnlyCreatedSucceeds(s: FormState, status: int, err: Outcome<int>)
    requires status != 201 && !err.Ok? && !HasServerMessage(err)
    ensures Submitted(s, Ok(status)) == Submitted(s, err)
    ensures Submitted(s, Ok(201)).error.None?
  {
  }

  class Form {
    var error: Option<string>
    var isLoading: bool
    var hasDate: bool
    var description: string
    const vehicleLicensePlate: string

    function State(): FormState
      reads this
    {
      FormState(error, isLoading)
    }

    /** The date starts as today, the description empty. */
    constructor (vehicleLicensePlate: string)
      ensures State() == FormState(None, false) && hasDate && description == ""
      ensures this.vehicleLicensePlate == vehicleLicensePlate
    {
      error, isLoading := None, false;
      hasDate, description := true, "";
      this.vehicleLicensePlate := vehicleLicensePlate;
    }

    /** The calendar's `onSelect`: picking a day sets the date, clicking the
        selected day again clears it. */
    method SetDate(picked: bool)
      modifies this
      ensures hasDate == picked
      ensures description == old(description) && State() == old(State())
    {
      hasDate := picked;
    }

    /** The description box's `onChange`. */
    method SetDescription(text: string)
      modifies this
      ensures description == text
      ensures hasDate == old(hasDate) && State() == old(State())
    {
      description := text;
    }

    /** `handleSubmit`; returns the request, its body, and whether `onSuccess` ran. */
    method HandleSubmit(reply: Outcome<int>) returns (call: Api.ApiCall, body: Body, succeeded: bool)
      modifies this
      ensures State() == Submitted(old(State()), reply)
      ensures call == Api.VehiclesAddService(vehicleLicensePlate)
      ensures body == Body(hasDate, description)
      ensures succeeded <==> reply.Ok? && reply.data == 201
      ensures hasDate == old(hasDate) && description == old(description)
    {
      isLoading := true;
      error := None;
      call := Api.VehiclesAddService(vehicleLicensePlate);
      body := Body(hasDate, description);
      succeeded := false;
      if reply.Ok? {
        if reply.data == 201 {
          succeeded := true;
        } else {
          error := Some(AddFailed);
        }
      } else {
        error := Some(ServerMessageOr(reply, AddFailed));
      }
      isLoading := false;
    }
  }
}
