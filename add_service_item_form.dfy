/** The form that adds a catalogue item to a service: the company's items, the
    item picker with its price sync, and the submit handler. */
module AddServiceItemForm {
  import opened Common
  import Api
  import Session

  datatype ItemOption = ItemOption(id: int, name: string, description: Option<string>, defaultPrice: string)

  /** The form fields, all text. */
  datatype Values = Values(itemId: string, quantity: string, price: string)

  const DefaultValues: Values := Values("", "1", "")

  const LoadError: string := "Ürün ve hizmetleri yüklerken bir hata oluştu."
  const AddFailed: string := "Ürün/hizmet eklenirken bir hata oluştu."

  /** The schema: quantity and price must not be empty; any item id text passes. */
  predicate ValuesValid(v: Values)
  {
    JsLength(v.quantity) >= 1 && JsLength(v.price) >= 1
  }

  lemma DefaultsNeedAPrice()
    ensures !ValuesValid(DefaultValues)
    ensures ValuesValid(DefaultValues.(price := "0"))
  {
  }

  /** The form's state. */
  datatype FormState = FormState(
    items: seq<ItemOption>, selectedItem: Option<ItemOption>,
    error: Option<string>, isLoading: bool, values: Values)

  const Initial: FormState := FormState([], None, None, false, DefaultValues)

  /** The items effect, given the signed-in user and how the request settled. */
  function Fetched(s: FormState, user: Option<Session.User>, reply: Outcome<seq<ItemOption>>): (r: FormState)
    ensures Session.CompanyId(user).None? ==> r == s
    ensures Session.CompanyId(user).Some? && reply.Ok? ==> r == s.(items := reply.data)
    ensures Session.CompanyId(user).Some? && !reply.Ok? ==> r == s.(error := Some(LoadError))
  {
    if Session.CompanyId(user).None? then s
    else if reply.Ok? then s.(items := reply.data)
    else s.(error := Some(LoadError))
  }

  /** The request the items effect sends, if any. */
  function FetchCall(user: Option<Session.User>): (c: Option<Api.ApiCall>)
    ensures c.Some? <==> Session.CompanyId(user).Some?
    ensures c.Some? ==> c == Some(Api.CompaniesGetItems(Session.CompanyId(user).value))
  {
    if Session.CompanyId(user).Some? then Some(Api.CompaniesGetItems(Session.CompanyId(user).value)) else None
  }

  /** `items.find(i => i.id.toString() === itemId) || null`. */
  function ItemFor(items: seq<ItemOption>, itemId: string): (r: Option<ItemOption>)
    ensures r.Some? ==> r.value in items && IntToString(r.value.id) == itemId
    ensures r.None? ==> forall i :: 0 <= i < |items| ==> IntToString(items[i].id) != itemId
  {
    Find(items, (i: ItemOption) => IntToString(i.id) == itemId)
  }

  /** Picking `value`: the field takes it, `handleItemChange` selects the item,
      and the price effect, which runs only when the selection changed to an
      item, copies its default price. */
  function Picked(s: FormState, value: string): (r: FormState)
    ensures r.values.itemId == value && r.values.quantity == s.values.quantity
    ensures r.selectedItem == ItemFor(s.items, value)
    ensures r.selectedItem.Some? && r.selectedItem != s.selectedItem ==> r.values.price == r.selectedItem.value.defaultPrice
    ensures r.selectedItem.None? || r.selectedItem == s.selectedItem ==> r.values.price == s.values.price
    ensures r.items == s.items && r.error == s.error && r.isLoading == s.isLoading
  {
    var item := ItemFor(s.items, value);
    var values := s.values.(itemId := value);
    var synced := if item.Some? && item != s.selectedItem then values.(price := item.value.defaultPrice) else values;
    s.(selectedItem := item, values := synced)
  }

  /** Picking an item the list holds selects an item of that id and shows its
      price, coming from no selection or from another item. */
  lemma PickingShowsPrice(s: FormState, value: string)
    requires ItemFor(s.items, value).Some? && s.selectedItem != ItemFor(s.items, value)
    ensures Picked(s, value).values.price == ItemFor(s.items, value).value.defaultPrice
    ensures IntToString(Picked(s, value).selectedItem.value.id) == value
  {
  }

  /** What `onSuccess` receives: the selected item with the submitted text. */
  datatype AddedItem = AddedItem(id: int, name: string, description: Option<string>, quantity: string, price: string)

  /** The body posted: `parseInt` of the id and quantity (the price is a float
      and not modelled). */
  datatype ItemData = ItemData(itemId: Option<int>, quantity: Option<int>)

  function ItemDataOf(v: Values): ItemData
  {
    ItemData(ParseInt(v.itemId), ParseInt(v.quantity))
  }

  /** `onSubmit` with validated values: the state it leaves. */
  function Submitted(s: FormState, values: Values, reply: Outcome<()>): (r: FormState)
    ensures !r.isLoading && r.items == s.items && r.selectedItem == s.selectedItem
    ensures reply.Ok? ==> r.error == None && r.values == DefaultValues
    ensures !reply.Ok? ==> r.error == Some(ServerMessageOr(reply, AddFailed)) && r.values == s.values
  {
    if reply.Ok? then s.(error := None, isLoading := false, values := DefaultValues)
    else s.(error := Some(ServerMessageOr(reply, AddFailed)), isLoading := false)
  }

  /** The call `onSuccess` receives, if any: only after a successful request,
      only when the caller passed a callback and an item is selected. */
  function Reported(s: FormState, values: Values, reply: Outcome<()>, hasOnSuccess: bool): (a: Option<AddedItem>)
    ensures a.Some? <==> reply.Ok? && hasOnSuccess && s.selectedItem.Some?
    ensures a.Some? ==> a.value.id == s.selectedItem.value.id && a.value.name == s.selectedItem.value.name &&
                        a.value.description == s.selectedItem.value.description &&
                        a.value.quantity == values.quantity && a.value.price == values.price
  {
    if reply.Ok? && hasOnSuccess && s.selectedItem.Some? then
      var item := s.selectedItem.value;
      Some(AddedItem(item.id, item.name, item.description, values.quantity, values.price))
    else None
  }

  /** The reset after a success clears the fields but not the selection: once
      the user types a price again, the second submission passes validation
      without an item picked, posts `parseInt("")`, which is NaN, and reports
      the earlier item to `onSuccess`. */
  lemma ResetKeepsStaleSelection(s: FormState, values: Values, reply: Outcome<()>, again: Outcome<()>, p: string)
    requires reply.Ok? && again.Ok? && s.selectedItem.Some? && p != ""
    ensures var r := Submitted(s, values, reply);
            var second := r.values.(price := p);
            ValuesValid(second) && ItemDataOf(second).itemId.None? &&
            Reported(r, second, again, true) == Some(AddedItem(s.selectedItem.value.id, s.selectedItem.value.name,
                                                               s.selectedItem.value.description, "1", p))
  {
    JsLengthBounds(p);
    JsLengthBounds("1");
  }

  /** After the reset, picking the same item again does not re-run the price
      effect: the price field stays empty. */
  lemma SamePickAfterResetKeepsEmptyPrice(s: FormState, values: Values, reply: Outcome<()>)
    requires reply.Ok? && s.selectedItem.Some? && ItemFor(s.items, values.itemId) == s.selectedItem
    ensures var r := Submitted(s, values, reply);
            Picked(r, values.itemId).values.price == ""
  {
  }

  class Form {
    var items: seq<ItemOption>
    var selectedItem: Option<ItemOption>
    var error: Option<string>
    var isLoading: bool
    var values: Values
    const vehicleLicensePlate: string
    const serviceId: int

    function State(): FormState
      reads this
    {
      FormState(items, selectedItem, error, isLoading, values)
    }

    constructor (vehicleLicensePlate: string, serviceId: int)
      ensures State() == Initial
      ensures this.vehicleLicensePlate == vehicleLicensePlate && this.serviceId == serviceId
    {
      items, selectedItem, error, isLoading, values := [], None, None, false, DefaultValues;
      this.vehicleLicensePlate := vehicleLicensePlate;
      this.serviceId := serviceId;
    }

    /** The items effect; returns the request it sends. */
    method FetchItems(user: Option<Session.User>, reply: Outcome<seq<ItemOption>>) returns (call: Option<Api.ApiCall>)
      modifies this
      ensures State() == Fetched(old(State()), user, reply)
      ensures call == FetchCall(user)
    {
      var company := Session.CompanyId(user);
      if company.None? {
        return None;
      }
      call := Some(Api.CompaniesGetItems(company.value));
      if reply.Ok? {
        items := reply.data;
      } else {
        error := Some(LoadError);
      }
    }

    /** The picker's change handler, followed by the price effect. */
    method OnItemChange(value: string)
      modifies this
      ensures State() == Picked(old(State()), value)
    {
      values := values.(itemId := value);
      var previous := selectedItem;
      var item := ItemFor(items, value);
      selectedItem := item;
      if selectedItem.Some? && selectedItem != previous {
        values := values.(price := selectedItem.value.defaultPrice);
      }
    }

    /** `onSubmit` with validated values; returns the request sent, its body,
        and what `onSuccess` received. */
    method OnSubmit(submitted: Values, reply: Outcome<()>, hasOnSuccess: bool)
      returns (call: Api.ApiCall, body: ItemData, added: Option<AddedItem>)
      modifies this
      ensures State() == Submitted(old(State()), submitted, reply)
      ensures added == Reported(old(State()), submitted, reply, hasOnSuccess)
      ensures call == Api.ServicesAddItem(vehicleLicensePlate, serviceId)
      ensures body == ItemDataOf(submitted)
    {
      isLoading := true;
      error := None;
      body := ItemDataOf(submitted);
      call := Api.ServicesAddItem(vehicleLicensePlate, serviceId);
      added := None;
      if reply.Ok? {
        if hasOnSuccess && selectedItem.Some? {
          var item := selectedItem.value;
          added := Some(AddedItem(item.id, item.name, item.description, submitted.quantity, submitted.price));
        }
        values := DefaultValues;
      } else {
        error := Some(ServerMessageOr(reply, AddFailed));
      }
      isLoading := false;
    }
  }
}
