/** The vehicle registration page's form: its schema, the brand picker that
    decides the model choices, and the submit handler, which creates the
    owner and then leads to the vehicle's page. */
module VehicleRegistrationForm {
  import opened Common
  import Api

  datatype Model = Model(id: int, name: string, year: Option<int>)
  datatype Brand = Brand(id: int, name: string, models: seq<Model>)

  /** The form fields; the email may be left out. */
  datatype Values = Values(
    licensePlate: string, brand: string, model: string, mileage: string, fuelType: string, vin: string,
    ownerName: string, ownerPhone: string, ownerEmail: Option<string>)

  const Registered: string := "Araç başarıyla kaydedildi!"
  const RegisterFailed: string := "Araç kaydı sırasında bir hata oluştu."

  function DefaultValues(initialLicensePlate: string): Values
  {
    Values(initialLicensePlate, "", "", "", "", "", "", "", Some(""))
  }

  /** The schema; `isEmail` is the validation library's email check, taken as
      given. An empty or absent email passes. */
  predicate ValuesValid(v: Values, isEmail: string -> bool)
  {
    JsLength(v.licensePlate) >= 5 && JsLength(v.mileage) >= 1 && JsLength(v.vin) >= 1 &&
    JsLength(v.ownerName) >= 2 && JsLength(v.ownerPhone) >= 10 &&
    (v.ownerEmail.None? || v.ownerEmail == Some("") || isEmail(v.ownerEmail.value))
  }

  /** Leaving the email empty never blocks the form, whatever the email check says. */
  lemma EmptyEmailAccepted(v: Values, isEmail: string -> bool)
    requires ValuesValid(v, isEmail)
    ensures ValuesValid(v.(ownerEmail := Some("")), isEmail) && ValuesValid(v.(ownerEmail := None), isEmail)
  {
  }

  /** The model choices effect: none without a selected brand; otherwise the
      models of the first brand whose id text is the selection, or none. */
  function ModelsFor(brands: seq<Brand>, selectedBrand: string): (r: seq<Model>)
    ensures selectedBrand == "" ==> r == []
    ensures r != [] ==> exists i :: 0 <= i < |brands| && IntToString(brands[i].id) == selectedBrand && brands[i].models == r
  {
    if selectedBrand == "" then []
    else match Find(brands, (b: Brand) => IntToString(b.id) == selectedBrand)
      case Some(b) => b.models
      case None => []
  }

  predicate DistinctIds(brands: seq<Brand>)
  {
    forall i, j :: 0 <= i < |brands| && 0 <= j < |brands| && brands[i].id == brands[j].id ==> i == j
  }

  /** Picking a brand offers exactly that brand's models, when brand ids are
      distinct; a selection no brand carries offers none. */
  lemma PickedBrandOffersItsModels(brands: seq<Brand>, k: int)
    requires DistinctIds(brands) && 0 <= k < |brands|
    ensures ModelsFor(brands, IntToString(brands[k].id)) == brands[k].models
  {
    var p := (b: Brand) => IntToString(b.id) == IntToString(brands[k].id);
    var found := Find(brands, p);
    assert p(brands[k]);
    assert found.Some?;
    var i :| 0 <= i < |brands| && brands[i] == found.value;
    IntToStringInjective(brands[i].id, brands[k].id);
  }

  lemma UnknownBrandOffersNothing(brands: seq<Brand>, selectedBrand: string)
    requires forall i :: 0 <= i < |brands| ==> IntToString(brands[i].id) != selectedBrand
    ensures ModelsFor(brands, selectedBrand) == []
  {
  }

  /** The owner body: an empty email is sent as null. */
  datatype OwnerBody = OwnerBody(name: string, phone: string, email: Option<string>)

  function OwnerBodyOf(v: Values): (b: OwnerBody)
    ensures b.name == v.ownerName && b.phone == v.ownerPhone
    ensures b.email.None? <==> v.ownerEmail.None? || v.ownerEmail == Some("")
    ensures b.email.Some? ==> b.email == v.ownerEmail
  {
    OwnerBody(v.ownerName, v.ownerPhone, if v.ownerEmail.Some? && v.ownerEmail.value != "" then v.ownerEmail else None)
  }

  /** What a submission does: the owner it creates, and the page it then opens. */
  datatype Submission = Submission(call: Api.ApiCall, owner: OwnerBody, redirect: Option<string>)

  datatype FormState = FormState(
    brands: seq<Brand>, selectedBrand: string, models: seq<Model>,
    error: Option<string>, success: Option<string>, isLoading: bool)

  /** `onSubmit` with validated values, given how the owner creation settled
      (its reply carries the new owner's id, which nothing uses: no vehicle is
      created). A resolved reply without `data.data` throws on reading `.id`
      and lands in the catch with no response, so it is passed here as a
      `SetupError`: that gives the `RegisterFailed` message, as in the source. */
  function Submitted(s: FormState, v: Values, reply: Outcome<int>): (r: FormState)
    ensures !r.isLoading && r.brands == s.brands && r.selectedBrand == s.selectedBrand && r.models == s.models
    ensures reply.Ok? ==> r.error == None && r.success == Some(Registered)
    ensures !reply.Ok? ==> r.error == Some(ServerMessageOr(reply, RegisterFailed)) && r.success == None
  {
    if reply.Ok? then s.(error := None, success := Some(Registered), isLoading := false)
    else s.(error := Some(ServerMessageOr(reply, RegisterFailed)), success := None, isLoading := false)
  }

  function SubmissionOf(v: Values, reply: Outcome<int>): (r: Submission)
    ensures r.call == Api.OwnersCreate && r.owner == OwnerBodyOf(v)
    ensures r.redirect.Some? <==> reply.Ok?
    ensures r.redirect.Some? ==> r.redirect.value == "/vehicles/" + v.licensePlate
  {
    Submission(Api.OwnersCreate, OwnerBodyOf(v), if reply.Ok? then Some("/vehicles/" + v.licensePlate) else None)
  }

  /** The page opened after a success is the vehicle page the search page's
      lookup requests for the same plate. */
  lemma RedirectMatchesLookup(v: Values, reply: Outcome<int>)
    requires reply.Ok?
    ensures SubmissionOf(v, reply).redirect.value == Api.RouteOf(Api.VehiclesGetById(v.licensePlate)).path
  {
  }

  class Form {
    var brands: seq<Brand>
    var selectedBrand: string
    var models: seq<Model>
    var error: Option<string>
    var success: Option<string>
    var isLoading: bool

    function State(): FormState
      reads this
    {
      FormState(brands, selectedBrand, models, error, success, isLoading)
    }

    /** The model choices effect has run on the current brands and selection. */
    predicate Valid()
      reads this
    {
      models == ModelsFor(brands, selectedBrand)
    }

    constructor ()
      ensures Valid() && State() == FormState([], "", [], None, None, false)
    {
      brands, selectedBrand, models := [], "", [];
      error, success, isLoading := None, None, false;
    }

    /** The brands effect; a failure is only logged. */
    method FetchBrands(reply: Outcome<seq<Brand>>)
      requires Valid()
      modifies this
      ensures Valid()
      ensures reply.Ok? ==> brands == reply.data
      ensures !reply.Ok? ==> State() == old(State())
      ensures selectedBrand == old(selectedBrand) && error == old(error) && success == old(success) &&
              isLoading == old(isLoading)
    {
      if reply.Ok? {
        brands := reply.data;
        models := ModelsFor(brands, selectedBrand);
      }
    }

    /** The brand picker's change handler. */
    method SelectBrand(value: string)
      requires Valid()
      modifies this
      ensures Valid()
      ensures selectedBrand == value && brands == old(brands)
      ensures error == old(error) && success == old(success) && isLoading == old(isLoading)
    {
      selectedBrand := value;
      models := ModelsFor(brands, selectedBrand);
    }

    method OnSubmit(v: Values, reply: Outcome<int>) returns (r: Submission)
      requires Valid()
      modifies this
      ensures Valid()
      ensures State() == Submitted(old(State()), v, reply)
      ensures r == SubmissionOf(v, reply)
    {
      isLoading, error, success := true, None, None;
      var owner := OwnerBodyOf(v);
      if reply.Ok? {
        success := Some(Registered);
        r := Submission(Api.OwnersCreate, owner, Some("/vehicles/" + v.licensePlate));
      } else {
        error := Some(ServerMessageOr(reply, RegisterFailed));
        r := Submission(Api.OwnersCreate, owner, None);
      }
      isLoading := false;
    }
  }
}
