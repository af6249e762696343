/** The new-service form: the status list it loads (with its defaults), the
    plate search that fills the vehicle picker, and the submit handler. */
module AddServiceForm {
  import opened Common
  import Api

  /** A status id as the server sends it (a number) or as the built-in
      defaults write it (a word). */
  datatype StatusId = NumId(n: int) | TextId(t: string)

  /** `status.id.toString()`, the value the status toggle carries. */
  function IdText(id: StatusId): (t: string)
    ensures id.TextId? ==> t == id.t
    ensures id.NumId? ==> NumberValue(t) == Some(id.n)
  {
    match id
    case NumId(n) => NumberValueOfIntToString(n); IntToString(n)
    case TextId(t) => t
  }

  datatype ServiceStatus = ServiceStatus(id: StatusId, name: string, color: string)

  /** A vehicle in the picker: its id and plate. */
  datatype VehicleRef = VehicleRef(id: int, licensePlate: string)

  /** A decoded reply body, as far as status extraction looks into it: an
      array, an object whose `data` field may be absent, or any other value. */
  datatype Value = Arr(items: seq<ServiceStatus>) | Obj(data: Option<Value>) | Scalar

  /** `v.data`, absent on anything but an object that has the field. */
  function DataField(v: Value): (r: Option<Value>)
    ensures r.Some? ==> v.Obj? && r == v.data
  {
    if v.Obj? then v.data else None
  }

  predicate IsArr(v: Option<Value>)
  {
    v.Some? && v.value.Arr?
  }

  /** `extractStatusData`: the first array among `response.data`,
      `response.data.data` and `response` itself, else the empty list. */
  function ExtractStatusData(response: Value): (r: seq<ServiceStatus>)
    ensures IsArr(DataField(response)) ==> r == DataField(response).value.items
    ensures !IsArr(DataField(response)) && DataField(response).Some? && IsArr(DataField(DataField(response).value)) ==>
              r == DataField(DataField(response).value).value.items
    ensures response.Arr? ==> r == response.items
    ensures !IsArr(DataField(response)) && !(DataField(response).Some? && IsArr(DataField(DataField(response).value))) &&
              !response.Arr? ==>
              r == []
  {
    var d := DataField(response);
    if IsArr(d) then d.value.items
    else if d.Some? && IsArr(DataField(d.value)) then DataField(d.value).value.items
    else if response.Arr? then response.items
    else []
  }

  /** Every envelope the server may wrap the list in gives the list back. */
  lemma ExtractUnwrapsEveryEnvelope(xs: seq<ServiceStatus>)
    ensures ExtractStatusData(Arr(xs)) == xs
    ensures ExtractStatusData(Obj(Some(Arr(xs)))) == xs
    ensures ExtractStatusData(Obj(Some(Obj(Some(Arr(xs)))))) == xs
    ensures ExtractStatusData(Obj(None)) == [] && ExtractStatusData(Scalar) == []
  {
  }

  const MaxStatuses: nat := 7

  /** `slice(0, 7)`. */
  function Capped(xs: seq<ServiceStatus>): (r: seq<ServiceStatus>)
    ensures |r| <= MaxStatuses && |r| <= |xs| && r == xs[..|r|]
    ensures |xs| <= MaxStatuses ==> r == xs
    ensures |xs| >= MaxStatuses ==> |r| == MaxStatuses
  {
    if |xs| <= MaxStatuses then xs else xs[..MaxStatuses]
  }

  /** `setDefaultStatuses`. */
  const DefaultStatuses: seq<ServiceStatus> := [
    ServiceStatus(TextId("pending"), "Beklemede", "amber"),
    ServiceStatus(TextId("in-progress"), "İşlemde", "blue"),
    ServiceStatus(TextId("completed"), "Tamamlandı", "green"),
    ServiceStatus(TextId("part-waiting"), "Parça Bekliyor", "red"),
    ServiceStatus(TextId("external-service"), "Dış Servis", "purple"),
    ServiceStatus(TextId("approval-waiting"), "Onay Bekliyor", "amber"),
    ServiceStatus(TextId("cancelled"), "İptal Edildi", "red")
  ]

  /** The statuses `fetchStatuses` leaves, given how its request settled: the
      first seven extracted ones on success, the defaults on any failure. */
  function StatusesAfter(settled: Outcome<Value>): (r: seq<ServiceStatus>)
    ensures settled.Ok? ==> r == Capped(ExtractStatusData(settled.data))
    ensures !settled.Ok? ==> r == DefaultStatuses
    ensures |r| <= MaxStatuses
  {
    if settled.Ok? then Capped(ExtractStatusData(settled.data)) else DefaultStatuses
  }

  /** As written, `fetchStatuses` calls `apiService.servicesStatuses.getAll`,
      which the client does not define: the call throws before any request,
      so the form always shows the seven defaults, whatever the server holds. */
  lemma StatusesAsWritten(reply: Outcome<Value>)
    ensures StatusesAfter(Api.CallAsWritten("servicesStatuses", "getAll", reply)) == DefaultStatuses
    ensures |DefaultStatuses| == MaxStatuses
  {
    assert ("servicesStatuses", "getAll") !in Api.ApiServiceMembers;
  }

  /** With a status helper that exists, a server list within the cap is shown
      as sent, and a longer one is cut to its first seven. */
  lemma StatusesFromServer(xs: seq<ServiceStatus>)
    ensures |xs| <= MaxStatuses ==> StatusesAfter(Ok(Obj(Some(Obj(Some(Arr(xs))))))) == xs
    ensures |xs| > MaxStatuses ==> StatusesAfter(Ok(Obj(Some(Obj(Some(Arr(xs))))))) == xs[..MaxStatuses]
  {
    ExtractUnwrapsEveryEnvelope(xs);
  }

  // ---------------------------------------------------------------------------
  // Plate search

  /** The vehicles the picker offers after typing `search`, given how the
      search request settled; `reply.data` is `res.data.data`, `None` when
      falsy. Fewer than three characters clear the list with no request. */
  function PickerAfter(search: string, reply: Outcome<Option<seq<VehicleRef>>>): (r: seq<VehicleRef>)
    ensures JsLength(search) < 3 ==> r == []
    ensures JsLength(search) >= 3 && reply.Ok? && reply.data.Some? ==> r == reply.data.value
    ensures r != [] ==> JsLength(search) >= 3 && reply.Ok? && reply.data == Some(r)
  {
    if JsLength(search) >= 3 && reply.Ok? && reply.data.Some? then reply.data.value else []
  }

  /** The request the search box sends, if any. */
  function PlateSearchCall(search: string): (c: Option<Api.ApiCall>)
    ensures c.Some? <==> JsLength(search) >= 3
    ensures c.Some? ==> Api.RouteOf(c.value) == Api.Route(Api.Get, "/vehicles/" + search)
  {
    if JsLength(search) >= 3 then Some(Api.VehiclesSearch(search)) else None
  }

  // ---------------------------------------------------------------------------
  // Submit

  /** The validated form values; dates are only present or absent here. */
  datatype FormValues = FormValues(vehicleId: string, userId: string, hasFinishedAt: bool, status: Option<string>)

  /** The default values: no vehicle, no user, and the status "pending". */
  const DefaultValues: FormValues := FormValues("", "", false, Some("pending"))

  /** The posted body, numbers as `Number(...)` reads them (`None` is NaN). */
  datatype Payload = Payload(vehicleId: Option<int>, hasFinishedAt: bool, statusId: Option<int>)

  datatype Toast = Done | Error(description: string)

  const VehicleMissing: string := "Seçili araç bulunamadı."
  const CreateFailed: string := "Servis kaydı oluşturulurken bir hata oluştu."

  /** `vehicle_id` and `status_id` through `Number`; an absent status is
      `Number(undefined)`, NaN. */
  function PayloadOf(values: FormValues): Payload
  {
    Payload(NumberValue(values.vehicleId), values.hasFinishedAt,
            if values.status.Some? then NumberValue(values.status.value) else None)
  }

  /** The picker entry the submission refers to: the first whose id text is
      the chosen value. */
  function SelectedVehicle(filteredVehicles: seq<VehicleRef>, vehicleId: string): (r: Option<VehicleRef>)
    ensures r.Some? ==> r.value in filteredVehicles && IntToString(r.value.id) == vehicleId
    ensures r.None? ==> forall i :: 0 <= i < |filteredVehicles| ==> IntToString(filteredVehicles[i].id) != vehicleId
  {
    Find(filteredVehicles, (v: VehicleRef) => IntToString(v.id) == vehicleId)
  }

  /** What one submission does: the request it sends (none when the chosen
      vehicle is not in the picker) and the toast it ends with. */
  datatype Submission = Submission(call: Option<Api.ApiCall>, payload: Payload, toast: Toast)

  function Submit(filteredVehicles: seq<VehicleRef>, values: FormValues, reply: Outcome<()>): (s: Submission)
    ensures s.payload == PayloadOf(values)
    ensures SelectedVehicle(filteredVehicles, values.vehicleId).None? ==>
              s.call.None? && s.toast == Error(VehicleMissing)
    ensures SelectedVehicle(filteredVehicles, values.vehicleId).Some? ==>
              s.call == Some(Api.VehiclesAddService(SelectedVehicle(filteredVehicles, values.vehicleId).value.licensePlate))
    ensures s.call.Some? && reply.Ok? ==> s.toast == Done
    ensures s.call.Some? && !reply.Ok? ==>
              s.toast == Error(if reply.message != "" then reply.message else CreateFailed)
    ensures s.toast.Error? ==> s.toast.description != ""
  {
    var payload := PayloadOf(values);
    match SelectedVehicle(filteredVehicles, values.vehicleId)
    case None => Submission(None, payload, Error(VehicleMissing))
    case Some(v) =>
      Submission(Some(Api.VehiclesAddService(v.licensePlate)), payload,
                 if reply.Ok? then Done
                 else Error(if reply.message != "" then reply.message else CreateFailed))
  }

  /** The vehicle posted to is the one whose id is sent: the payload's
      `vehicle_id` is the selected vehicle's id. */
  lemma PostedVehicleMatchesPayload(filteredVehicles: seq<VehicleRef>, values: FormValues, reply: Outcome<()>)
    requires SelectedVehicle(filteredVehicles, values.vehicleId).Some?
    ensures Submit(filteredVehicles, values, reply).payload.vehicleId ==
            Some(SelectedVehicle(filteredVehicles, values.vehicleId).value.id)
  {
    var v := SelectedVehicle(filteredVehicles, values.vehicleId).value;
    NumberValueOfIntToString(v.id);
  }

  /** The default status "pending" is not a number: a form submitted with it
      posts `status_id` as NaN. */
  lemma DefaultStatusIsNaN(filteredVehicles: seq<VehicleRef>, vehicleId: string, reply: Outcome<()>)
    ensures Submit(filteredVehicles, DefaultValues.(vehicleId := vehicleId), reply).payload.statusId.None?
  {
    NonNumericStartIsNaN("pending");
  }

  /** An empty picker refuses every submission without a request. */
  lemma EmptyPickerRefuses(values: FormValues, reply: Outcome<()>)
    ensures Submit([], values, reply) == Submission(None, PayloadOf(values), Error(VehicleMissing))
  {
  }

  // ---------------------------------------------------------------------------
  // Status toggle colours

  const ColorMap: map<string, string> := map[
    "amber" := "bg-amber-100 text-amber-700 border-amber-300",
    "green" := "bg-green-100 text-green-700 border-green-300",
    "blue" := "bg-blue-100 text-blue-700 border-blue-300",
    "red" := "bg-red-100 text-red-700 border-red-300",
    "purple" := "bg-purple-100 text-purple-700 border-purple-300"
  ]
  const UnknownColorClass: string := "bg-gray-100 text-gray-700 border-gray-300"
  const UnselectedClass: string := "bg-white hover:bg-gray-50"

  /** The colour classes of a status toggle. */
  function ColorClass(isSelected: bool, color: string): (c: string)
    ensures !isSelected ==> c == UnselectedClass
    ensures isSelected && color in ColorMap ==> c == ColorMap[color]
    ensures isSelected && color !in ColorMap ==> c == UnknownColorClass
  {
    if !isSelected then UnselectedClass
    else if color in ColorMap then ColorMap[color]
    else UnknownColorClass
  }

  /** Every default status has a colour of its own: none falls back to gray. */
  lemma DefaultsHaveColors(i: int)
    requires 0 <= i < |DefaultStatuses|
    ensures DefaultStatuses[i].color in ColorMap
    ensures ColorClass(true, DefaultStatuses[i].color) != UnknownColorClass
  {
  }

  // ---------------------------------------------------------------------------
  // The form

  class Form {
    var statuses: seq<ServiceStatus>
    var filteredVehicles: seq<VehicleRef>
    var isLoading: bool
    var values: FormValues

    constructor ()
      ensures statuses == [] && filteredVehicles == [] && !isLoading && values == DefaultValues
    {
      statuses, filteredVehicles, isLoading, values := [], [], false, DefaultValues;
    }

    /** `fetchStatuses`, given how the status request settled. */
    method FetchStatuses(settled: Outcome<Value>)
      modifies this
      ensures statuses == StatusesAfter(settled) && !isLoading
      ensures filteredVehicles == old(filteredVehicles) && values == old(values)
    {
      isLoading := true;
      if settled.Ok? {
        var statusData := ExtractStatusData(settled.data);
        statuses := Capped(statusData);
      } else {
        statuses := DefaultStatuses;
      }
      isLoading := false;
    }

    /** The search box's change handler; returns the request it sends. */
    method OnSearchChange(search: string, reply: Outcome<Option<seq<VehicleRef>>>) returns (call: Option<Api.ApiCall>)
      modifies this
      ensures call == PlateSearchCall(search)
      ensures filteredVehicles == PickerAfter(search, reply)
      ensures call.Some? ==> !isLoading
      ensures call.None? ==> isLoading == old(isLoading)
      ensures statuses == old(statuses) && values == old(values)
    {
      if JsLength(search) >= 3 {
        isLoading := true;
        call := Some(Api.VehiclesSearch(search));
        if reply.Ok? {
          filteredVehicles := if reply.data.Some? then reply.data.value else [];
        } else {
          filteredVehicles := [];
        }
        isLoading := false;
      } else {
        call := None;
        filteredVehicles := [];
      }
    }

    /** `handleCreateService` with validated values; the form resets after a
        successful request. */
    method HandleCreateService(submitted: FormValues, reply: Outcome<()>) returns (s: Submission)
      modifies this
      ensures s == Submit(old(filteredVehicles), submitted, reply)
      ensures !isLoading
      ensures s.toast == Done ==> values == DefaultValues
      ensures s.toast != Done ==> values == old(values)
      ensures statuses == old(statuses) && filteredVehicles == old(filteredVehicles)
    {
      isLoading := true;
      var payload := PayloadOf(submitted);
      var selected := SelectedVehicle(filteredVehicles, submitted.vehicleId);
      if selected.None? {
        s := Submission(None, payload, Error(VehicleMissing));
      } else {
        var call := Api.VehiclesAddService(selected.value.licensePlate);
        if reply.Ok? {
          s := Submission(Some(call), payload, Done);
          values := DefaultValues;
        } else {
          var description := if reply.message != "" then reply.message else CreateFailed;
          s := Submission(Some(call), payload, Error(description));
        }
      }
      isLoading := false;
    }
  }
}
