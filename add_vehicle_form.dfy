/** The dialog form that creates or edits a vehicle: the owner choices, the
    defaults, the schema and the submit handler. */
module AddVehicleForm {
  import opened Common
  import Api
  import Session

  /** An owner as `owners.getAll` returns it, and the two fields the form keeps. */
  datatype OwnerRecord = OwnerRecord(id: int, name: string, phone: string, email: Option<string>)
  datatype OwnerOption = OwnerOption(id: int, name: string)

  /** The vehicle being edited. */
  datatype InitialData = InitialData(id: int, licensePlate: string, brand: string, model: string, ownerId: int)

  datatype Values = Values(licensePlate: string, brand: string, model: string, ownerId: string)

  const OwnersLoadError: string := "Müşteri bilgileri yüklenirken bir hata oluştu."
  const NoCompany: string := "Şirket bilgisi bulunamadı."
  const SaveFailed: string := "Araç kaydedilirken bir hata oluştu."

  /** The owner list projected to id and name, in the server's order. */
  function OwnerOptions(owners: seq<OwnerRecord>): (r: seq<OwnerOption>)
    ensures |r| == |owners|
    ensures forall i :: 0 <= i < |owners| ==> r[i] == OwnerOption(owners[i].id, owners[i].name)
  {
    seq(|owners|, i requires 0 <= i < |owners| => OwnerOption(owners[i].id, owners[i].name))
  }

  /** Every owner offered is one of the fetched owners, and owners with the
      same id and name (whatever their contact data) are offered alike. */
  lemma OptionsComeFromOwners(owners: seq<OwnerRecord>, o: OwnerOption)
    ensures o in OwnerOptions(owners) <==> exists i :: 0 <= i < |owners| && owners[i].id == o.id && owners[i].name == o.name
  {
    var r := OwnerOptions(owners);
    if o in r {
      var i :| 0 <= i < |r| && r[i] == o;
      assert owners[i].id == o.id && owners[i].name == o.name;
    }
  }

  /** The default values: the edited vehicle's fields, its owner id as text
      (an owner id of 0 reads as ""), or all empty for a new vehicle. */
  function Defaults(initialData: Option<InitialData>): (v: Values)
    ensures initialData.None? ==> v == Values("", "", "", "")
    ensures initialData.Some? ==> v.licensePlate == initialData.value.licensePlate &&
                                  v.brand == initialData.value.brand && v.model == initialData.value.model
    ensures initialData.Some? && initialData.value.ownerId != 0 ==> v.ownerId == IntToString(initialData.value.ownerId)
    ensures initialData.Some? && initialData.value.ownerId == 0 ==> v.ownerId == ""
  {
    match initialData
    case None => Values("", "", "", "")
    case Some(d) =>
      Values(if d.licensePlate != "" then d.licensePlate else "",
             if d.brand != "" then d.brand else "",
             if d.model != "" then d.model else "",
             if d.ownerId != 0 then IntToString(d.ownerId) else "")
  }

  /** The schema: plate of five or more characters, brand and model of two or
      more, and an owner chosen. */
  predicate ValuesValid(v: Values)
  {
    JsLength(v.licensePlate) >= 5 && JsLength(v.brand) >= 2 && JsLength(v.model) >= 2 && JsLength(v.ownerId) >= 1
  }

  /** The body posted: the company, the fields, and the owner id through `parseInt`. */
  datatype VehicleBody = VehicleBody(companyId: int, licensePlate: string, brand: string, model: string, ownerId: Option<int>)

  function BodyOf(companyId: int, v: Values): VehicleBody
  {
    VehicleBody(companyId, v.licensePlate, v.brand, v.model, ParseInt(v.ownerId))
  }

  /** Saving an edit without touching the fields sends the vehicle back as it
      was, owner included; an owner id of 0 must be chosen again before the
      schema lets the form through. */
  lemma UntouchedEditRoundTrip(companyId: int, d: InitialData)
    ensures d.ownerId != 0 ==>
              BodyOf(companyId, Defaults(Some(d))) == VehicleBody(companyId, d.licensePlate, d.brand, d.model, Some(d.ownerId))
    ensures d.ownerId == 0 ==> !ValuesValid(Defaults(Some(d)))
  {
    if d.ownerId != 0 {
      ParseIntOfIntToString(d.ownerId);
    }
  }

  /** The save the form intends: update of the edited vehicle, or create. */
  datatype VehicleSave = UpdateVehicle(id: int) | CreateVehicle

  function SaveFor(initialData: Option<InitialData>): (c: VehicleSave)
    ensures c.UpdateVehicle? <==> initialData.Some?
    ensures c.UpdateVehicle? ==> c.id == initialData.value.id
  {
    if initialData.Some? then UpdateVehicle(initialData.value.id) else CreateVehicle
  }

  /** The `apiService.vehicles` action each save names. */
  function ActionName(c: VehicleSave): string
  {
    if c.UpdateVehicle? then "update" else "create"
  }

  datatype FormState = FormState(owners: seq<OwnerOption>, error: Option<string>, isLoading: bool)

  /** The owners effect. */
  function OwnersFetched(s: FormState, reply: Outcome<seq<OwnerRecord>>): (r: FormState)
    ensures reply.Ok? ==> r == s.(owners := OwnerOptions(reply.data))
    ensures !reply.Ok? ==> r == s.(error := Some(OwnersLoadError))
  {
    if reply.Ok? then s.(owners := OwnerOptions(reply.data)) else s.(error := Some(OwnersLoadError))
  }

  /** The state a submission leaves, given how the save settled. */
  function Submitted<T>(s: FormState, user: Option<Session.User>, settled: Outcome<T>): (r: FormState)
    ensures r.owners == s.owners
    ensures Session.CompanyId(user).None? ==> r == s.(error := Some(NoCompany))
    ensures Session.CompanyId(user).Some? ==> !r.isLoading
    ensures Session.CompanyId(user).Some? && settled.Ok? ==> r.error == None
    ensures Session.CompanyId(user).Some? && !settled.Ok? ==> r.error == Some(ServerMessageOr(settled, SaveFailed))
  {
    if Session.CompanyId(user).None? then s.(error := Some(NoCompany))
    else if settled.Ok? then s.(error := None, isLoading := false)
    else s.(error := Some(ServerMessageOr(settled, SaveFailed)), isLoading := false)
  }

  datatype Submission<T> = Submission(save: Option<VehicleSave>, body: Option<VehicleBody>, reported: Option<T>)

  function SubmissionOf<T>(user: Option<Session.User>, initialData: Option<InitialData>, values: Values,
                           settled: Outcome<T>, hasOnSuccess: bool): (r: Submission<T>)
    ensures Session.CompanyId(user).None? ==> r == Submission(None, None, None)
    ensures Session.CompanyId(user).Some? ==>
              r.save == Some(SaveFor(initialData)) && r.body == Some(BodyOf(Session.CompanyId(user).value, values))
    ensures r.reported.Some? <==> Session.CompanyId(user).Some? && settled.Ok? && hasOnSuccess
    ensures r.reported.Some? ==> r.reported.value == settled.data
  {
    match Session.CompanyId(user)
    case None => Submission(None, None, None)
    case Some(c) =>
      Submission(Some(SaveFor(initialData)), Some(BodyOf(c, values)),
                 if settled.Ok? && hasOnSuccess then Some(settled.data) else None)
  }

  /** As written, the form calls `apiService.vehicles.update` and
      `apiService.vehicles.create`, neither of which the client defines: every
      save with a company throws before any request, shows the fallback
      message and never reaches `onSuccess`. */
  lemma SaveAsWrittenAlwaysFails<T>(s: FormState, user: Option<Session.User>, initialData: Option<InitialData>,
                                    values: Values, reply: Outcome<T>, hasOnSuccess: bool)
    requires Session.CompanyId(user).Some?
    ensures var settled := Api.CallAsWritten("vehicles", ActionName(SaveFor(initialData)), reply);
            Submitted(s, user, settled).error == Some(SaveFailed) &&
            SubmissionOf(user, initialData, values, settled, hasOnSuccess).reported.None?
  {
    assert ("vehicles", "update") !in Api.ApiServiceMembers;
    assert ("vehicles", "create") !in Api.ApiServiceMembers;
  }

  class Form<T> {
    var owners: seq<OwnerOption>
    var error: Option<string>
    var isLoading: bool
    var values: Values
    const initialData: Option<InitialData>

    function State(): FormState
      reads this
    {
      FormState(owners, error, isLoading)
    }

    constructor (initialData: Option<InitialData>)
      ensures State() == FormState([], None, false) && values == Defaults(initialData)
      ensures this.initialData == initialData
    {
      owners, error, isLoading := [], None, false;
      this.initialData := initialData;
      values := Defaults(initialData);
    }

    /** The owners effect on mount. */
    method FetchOwners(reply: Outcome<seq<OwnerRecord>>)
      modifies this
      ensures State() == OwnersFetched(old(State()), reply)
      ensures values == old(values)
    {
      if reply.Ok? {
        owners := OwnerOptions(reply.data);
      } else {
        error := Some(OwnersLoadError);
      }
    }

    /** `onSubmit` with validated values, given how the save settled. */
    method OnSubmit(user: Option<Session.User>, submitted: Values, settled: Outcome<T>, hasOnSuccess: bool)
      returns (r: Submission<T>)
      modifies this
      ensures State() == Submitted(old(State()), user, settled)
      ensures r == SubmissionOf(user, initialData, submitted, settled, hasOnSuccess)
      ensures values == old(values)
    {
      var company := Session.CompanyId(user);
      if company.None? {
        error := Some(NoCompany);
        return Submission(None, None, None);
      }
      isLoading := true;
      error := None;
      var body := BodyOf(company.value, submitted);
      var save := if initialData.Some? then UpdateVehicle(initialData.value.id) else CreateVehicle;
      if settled.Ok? {
        r := Submission(Some(save), Some(body), if hasOnSuccess then Some(settled.data) else None);
      } else {
        error := Some(ServerMessageOr(settled, SaveFailed));
        r := Submission(Some(save), Some(body), None);
      }
      isLoading := false;
    }
  }
}
