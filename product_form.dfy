/** The dialog form that creates or edits a catalogue item: its defaults, its
    schema, and the submit handler that picks create or update. */
module ProductForm {
  import opened Common
  import Api
  import Session
  import ProductsPage

  /** The item being edited, as the products page passes it. */
  datatype InitialData = InitialData(id: int, name: string, description: Option<string>, price: string, defaultPrice: string)

  /** The form fields; `description` may be left out. */
  datatype Values = Values(name: string, description: Option<string>, price: string, kind: string)

  const NoCompany: string := "Şirket bilgisi bulunamadı."
  const SaveFailed: string := "Ürün/hizmet kaydedilirken bir hata oluştu."
  const ServiceKind: string := "service"
  const ProductKind: string := "product"

  /** The default values: the edited item's name, description (an absent one
      reads as "") and price text, and the "service" type exactly when its
      description mentions "Hizmet"; all empty for a new item. */
  function Defaults(initialData: Option<InitialData>): (v: Values)
    ensures initialData.None? ==> v == Values("", Some(""), "", ProductKind)
    ensures initialData.Some? ==> v.name == initialData.value.name && v.price == initialData.value.defaultPrice
    ensures initialData.Some? && initialData.value.description.Some? ==> v.description == initialData.value.description
    ensures initialData.Some? && initialData.value.description.None? ==> v.description == Some("")
    ensures v.kind == ServiceKind <==>
              initialData.Some? && initialData.value.description.Some? && Includes(initialData.value.description.value, "Hizmet")
  {
    match initialData
    case None => Values("", Some(""), "", ProductKind)
    case Some(d) =>
      Values(
        if d.name != "" then d.name else "",
        Some(if d.description.Some? && d.description.value != "" then d.description.value else ""),
        if d.defaultPrice != "" then d.defaultPrice else "",
        if d.description.Some? && Includes(d.description.value, "Hizmet") then ServiceKind else ProductKind)
  }

  /** The schema: a name of at least two characters and a price. */
  predicate ValuesValid(v: Values)
  {
    JsLength(v.name) >= 2 && JsLength(v.price) >= 1
  }

  /** A new item's form cannot be sent before it is filled in. */
  lemma NewFormIsIncomplete()
    ensures !ValuesValid(Defaults(None))
  {
  }

  /** The body posted; the price is a float and not modelled, and the type
      field is never sent. */
  datatype ItemBody = ItemBody(companyId: int, name: string, description: Option<string>)

  function BodyOf(companyId: int, v: Values): (b: ItemBody)
    ensures b.companyId == companyId && b.name == v.name
    ensures b.description.None? <==> v.description.None? || v.description == Some("")
    ensures b.description.Some? ==> b.description == v.description
  {
    ItemBody(companyId, v.name, if v.description.Some? && v.description.value != "" then v.description else None)
  }

  /** The chosen type never reaches the server. */
  lemma KindIsNeverSent(companyId: int, v: Values, kind: string)
    ensures BodyOf(companyId, v.(kind := kind)) == BodyOf(companyId, v)
  {
  }

  /** Saving an edit without touching the fields sends the item's name and
      description back as they were, an empty description as null. */
  lemma UntouchedEditRoundTrip(companyId: int, d: InitialData)
    ensures BodyOf(companyId, Defaults(Some(d))).name == d.name
    ensures BodyOf(companyId, Defaults(Some(d))).description ==
            (if d.description == Some("") then None else d.description)
  {
  }

  /** The request a submission sends for a company: an update of the edited
      item, or a create. */
  function SaveCall(companyId: int, initialData: Option<InitialData>): (c: Api.ApiCall)
    ensures initialData.Some? <==> c.CompaniesUpdateItem?
    ensures initialData.Some? ==> c == Api.CompaniesUpdateItem(companyId, initialData.value.id)
    ensures initialData.None? ==> c == Api.CompaniesCreateItem(companyId)
  {
    if initialData.Some? then Api.CompaniesUpdateItem(companyId, initialData.value.id)
    else Api.CompaniesCreateItem(companyId)
  }

  /** Both requests go to the company's item collection, the update to the item's own path in it. */
  lemma SaveCallPaths(companyId: int, d: InitialData)
    ensures Api.RouteOf(SaveCall(companyId, None)) == Api.Route(Api.Post, "/companies/" + IntToString(companyId) + "/items")
    ensures Api.RouteOf(SaveCall(companyId, Some(d))) ==
            Api.Route(Api.Put, "/companies/" + IntToString(companyId) + "/items/" + IntToString(d.id))
  {
  }

  datatype FormState = FormState(error: Option<string>, isLoading: bool)

  /** What one submission does. */
  datatype Submission = Submission(call: Option<Api.ApiCall>, body: Option<ItemBody>, reported: Option<ProductsPage.Item>)

  /** The state a submission leaves. */
  function Submitted(s: FormState, user: Option<Session.User>, reply: Outcome<ProductsPage.Item>): (r: FormState)
    ensures Session.CompanyId(user).None? ==> r == s.(error := Some(NoCompany))
    ensures Session.CompanyId(user).Some? ==> !r.isLoading
    ensures Session.CompanyId(user).Some? && reply.Ok? ==> r.error == None
    ensures Session.CompanyId(user).Some? && !reply.Ok? ==> r.error == Some(ServerMessageOr(reply, SaveFailed))
  {
    if Session.CompanyId(user).None? then s.(error := Some(NoCompany))
    else if reply.Ok? then FormState(None, false)
    else FormState(Some(ServerMessageOr(reply, SaveFailed)), false)
  }

  /** What the submission sends and reports. */
  function SubmissionOf(user: Option<Session.User>, initialData: Option<InitialData>, values: Values,
                        reply: Outcome<ProductsPage.Item>, hasOnSuccess: bool): (r: Submission)
    ensures Session.CompanyId(user).None? ==> r == Submission(None, None, None)
    ensures Session.CompanyId(user).Some? ==>
              r.call == Some(SaveCall(Session.CompanyId(user).value, initialData)) &&
              r.body == Some(BodyOf(Session.CompanyId(user).value, values))
    ensures r.reported.Some? <==> Session.CompanyId(user).Some? && reply.Ok? && hasOnSuccess
    ensures r.reported.Some? ==> r.reported.value == reply.data
  {
    match Session.CompanyId(user)
    case None => Submission(None, None, None)
    case Some(c) =>
      Submission(Some(SaveCall(c, initialData)), Some(BodyOf(c, values)),
                 if reply.Ok? && hasOnSuccess then Some(reply.data) else None)
  }

  class Form {
    var error: Option<string>
    var isLoading: bool
    const initialData: Option<InitialData>
    var values: Values

    function State(): FormState
      reads this
    {
      FormState(error, isLoading)
    }

    constructor (initialData: Option<InitialData>)
      ensures State() == FormState(None, false) && values == Defaults(initialData)
      ensures this.initialData == initialData
    {
      error, isLoading := None, false;
      this.initialData := initialData;
      values := Defaults(initialData);
    }

    /** `onSubmit` with validated values. */
    method OnSubmit(user: Option<Session.User>, submitted: Values, reply: Outcome<ProductsPage.Item>, hasOnSuccess: bool)
      returns (r: Submission)
      modifies this
      ensures State() == Submitted(old(State()), user, reply)
      ensures r == SubmissionOf(user, initialData, submitted, reply, hasOnSuccess)
      ensures values == old(values)
    {
      var company := Session.CompanyId(user);
      if company.None? {
        error := Some(NoCompany);
        return Submission(None, None, None);
      }
      isLoading := true;
      error := None;
      var body := BodyOf(company.value, submitted);
      var call := if initialData.Some? then Api.CompaniesUpdateItem(company.value, initialData.value.id)
                  else Api.CompaniesCreateItem(company.value);
      if reply.Ok? {
        r := Submission(Some(call), Some(body), if hasOnSuccess then Some(reply.data) else None);
      } else {
        error := Some(ServerMessageOr(reply, SaveFailed));
        r := Submission(Some(call), Some(body), None);
      }
      isLoading := false;
    }
  }
}
