/** The products-and-services page: the company's catalogue items, their
    search, and the list edits made after the dialog form or a delete. */
module ProductsPage {
  import opened Common
  import opened ListSearch
  import Api

  /** A catalogue item; the price is kept as the text the server sends. */
  datatype Item = Item(id: int, name: string, description: Option<string>, defaultPrice: string)

  const LoadError: string := "Ürün ve hizmetleri yüklerken bir hata oluştu."
  const DeleteError: string := "Ürün silinirken bir hata oluştu."
  const NoRecords: string := "Henüz ürün veya hizmet bulunmamaktadır."

  /** The search predicate, for a query already lower-cased: the lower-cased
      name, or the lower-cased description when there is a non-empty one. */
  predicate ItemMatches(item: Item, query: string)
  {
    Includes(ToLower(item.name), query) ||
    (Truthy(item.description) && Includes(ToLower(item.description.value), query))
  }

  /** A non-blank query keeps an item exactly when its name or its description
      contains the lower-cased query; an item without a description is found
      by its name alone. */
  lemma ShownIff(items: seq<Item>, searchQuery: string, x: Item)
    requires !IsBlank(searchQuery)
    ensures x in SearchResult(items, searchQuery, ItemMatches) <==>
            x in items && (Includes(ToLower(x.name), ToLower(searchQuery)) ||
                           (x.description.Some? && Includes(ToLower(x.description.value), ToLower(searchQuery))))
  {
    SearchMembership(items, searchQuery, ItemMatches, x);
    if x.description == Some("") {
      assert ToLower("") == "";
      LongerNeverIncluded("", ToLower(searchQuery));
    }
  }

  // ---------------------------------------------------------------------------
  // List edits

  /** `items.map(item => item.id === u.id ? u : item)`. */
  function Replaced(items: seq<Item>, u: Item): (r: seq<Item>)
    ensures |r| == |items|
  {
    seq(|items|, i requires 0 <= i < |items| => if items[i].id == u.id then u else items[i])
  }

  /** `items.filter(item => item.id !== id)`. */
  function Removed(items: seq<Item>, id: int): (r: seq<Item>)
    ensures |r| <= |items|
  {
    Filter(items, (x: Item) => x.id != id)
  }

  predicate HasId(items: seq<Item>, id: int)
  {
    exists i :: 0 <= i < |items| && items[i].id == id
  }

  /** Replacing keeps every position's id, puts `u` at every position with its
      id, and leaves every other element where and what it was. */
  lemma ReplacedKeepsOthers(items: seq<Item>, u: Item, i: int)
    requires 0 <= i < |items|
    ensures Replaced(items, u)[i].id == items[i].id
    ensures items[i].id != u.id ==> Replaced(items, u)[i] == items[i]
    ensures items[i].id == u.id ==> Replaced(items, u)[i] == u
  {
  }

  /** Replacing twice is replacing once. */
  lemma ReplacedIdempotent(items: seq<Item>, u: Item)
    ensures Replaced(Replaced(items, u), u) == Replaced(items, u)
  {
  }

  /** An update for an id the list does not hold changes nothing. */
  lemma ReplacedAbsentIsNoop(items: seq<Item>, u: Item)
    requires !HasId(items, u.id)
    ensures Replaced(items, u) == items
  {
  }

  /** After a removal no element carries the id, and every other element keeps
      its number of occurrences. */
  lemma RemovedExactly(items: seq<Item>, id: int, x: Item)
    ensures !HasId(Removed(items, id), id)
    ensures x.id != id ==> multiset(Removed(items, id))[x] == multiset(items)[x]
    ensures IsSubsequence(Removed(items, id), items)
  {
    var r := Removed(items, id);
    forall i | 0 <= i < |r| ensures r[i].id != id {
      FilterMembership(items, (y: Item) => y.id != id, r[i]);
    }
    FilterCount(items, (y: Item) => y.id != id, x);
    FilterIsSubsequence(items, (y: Item) => y.id != id);
  }

  /** Removing the id of an item just appended, which no earlier item had,
      gives back the list as it was. */
  lemma RemoveUndoesAdd(items: seq<Item>, x: Item)
    requires !HasId(items, x.id)
    ensures Removed(items + [x], x.id) == items
  {
    var p := (y: Item) => y.id != x.id;
    FilterConcat(items, [x], p);
    FilterKeepsAll(items, p);
    assert Filter([x], p) == [];
  }

  /** An update touches only the elements of its own id: removing that id
      afterwards leaves what removing it from the original list leaves. */
  lemma {:induction false} UpdateThenRemove(items: seq<Item>, u: Item)
    ensures Removed(Replaced(items, u), u.id) == Removed(items, u.id)
  {
    if items != [] {
      UpdateThenRemove(items[1..], u);
      assert Replaced(items, u)[1..] == Replaced(items[1..], u);
      assert Replaced(items, u) == [Replaced(items, u)[0]] + Replaced(items, u)[1..];
    }
  }

  /** The form callback the dialog is given: update when an item is selected. */
  datatype FormCallback = UpdateItem | AddItem

  function CallbackFor(selectedItem: Option<Item>): (c: FormCallback)
    ensures c == UpdateItem <==> selectedItem.Some?
  {
    if selectedItem.Some? then UpdateItem else AddItem
  }

  /** The delete request `companies.deleteItem` sends, before the interceptors. */
  function DeleteRequest(company: int, itemId: int): Api.Request
  {
    Api.Request(Api.RouteOf(Api.CompaniesDeleteItem(company, itemId)), None, false)
  }

  // ---------------------------------------------------------------------------
  // The page

  class Page {
    var items: seq<Item>
    var filteredItems: seq<Item>
    var isLoading: bool
    var error: Option<string>
    var searchQuery: string
    var selectedItem: Option<Item>
    var isDialogOpen: bool

    /** The filter effect has run on the current list and query. */
    ghost predicate Valid()
      reads this
    {
      filteredItems == SearchResult(items, searchQuery, ItemMatches)
    }

    constructor ()
      ensures Valid()
      ensures items == [] && isLoading && error == None && searchQuery == ""
      ensures selectedItem == None && !isDialogOpen
    {
      items, filteredItems := [], [];
      isLoading, error, searchQuery := true, None, "";
      selectedItem, isDialogOpen := None, false;
    }

    /** `fetchItems`, for the signed-in user's company id: without one it
        returns before touching anything, so loading never ends. */
    method FetchItems(company: Option<int>, reply: Outcome<seq<Item>>)
      requires Valid()
      modifies this
      ensures Valid()
      ensures company.None? ==> items == old(items) && isLoading == old(isLoading) && error == old(error)
      ensures company.Some? ==> !isLoading
      ensures company.Some? && reply.Ok? ==> items == reply.data && error == old(error)
      ensures company.Some? && !reply.Ok? ==> items == old(items) && error == Some(LoadError)
      ensures searchQuery == old(searchQuery) && selectedItem == old(selectedItem) && isDialogOpen == old(isDialogOpen)
    {
      if company.None? {
        return;
      }
      isLoading := true;
      if reply.Ok? {
        var shown := SearchResult(reply.data, searchQuery, ItemMatches);
        items, filteredItems, isLoading := reply.data, shown, false;
      } else {
        error, isLoading := Some(LoadError), false;
      }
    }

    method Search(q: string)
      requires Valid()
      modifies this
      ensures Valid() && searchQuery == q && items == old(items)
      ensures error == old(error) && isLoading == old(isLoading)
      ensures selectedItem == old(selectedItem) && isDialogOpen == old(isDialogOpen)
    {
      var shown := SearchResult(items, q, ItemMatches);
      searchQuery, filteredItems := q, shown;
    }

    /** `handleAddItem`: append, close the dialog. */
    method HandleAddItem(newItem: Item)
      requires Valid()
      modifies this
      ensures Valid()
      ensures items == old(items) + [newItem] && !isDialogOpen
      ensures selectedItem == old(selectedItem) && error == old(error) && searchQuery == old(searchQuery)
      ensures isLoading == old(isLoading)
    {
      var next := items + [newItem];
      var shown := SearchResult(next, searchQuery, ItemMatches);
      items, filteredItems, isDialogOpen := next, shown, false;
    }

    /** `handleEditItem`: select the item and open the dialog. */
    method HandleEditItem(item: Item)
      requires Valid()
      modifies this
      ensures Valid()
      ensures selectedItem == Some(item) && isDialogOpen
      ensures items == old(items) && filteredItems == old(filteredItems) && error == old(error)
      ensures searchQuery == old(searchQuery) && isLoading == old(isLoading)
    {
      selectedItem, isDialogOpen := Some(item), true;
    }

    /** `handleUpdateItem`: replace by id, clear the selection, close the dialog. */
    method HandleUpdateItem(updated: Item)
      requires Valid()
      modifies this
      ensures Valid()
      ensures items == Replaced(old(items), updated)
      ensures selectedItem == None && !isDialogOpen && error == old(error) && searchQuery == old(searchQuery)
      ensures isLoading == old(isLoading)
    {
      var next := Replaced(items, updated);
      var shown := SearchResult(next, searchQuery, ItemMatches);
      items, filteredItems, selectedItem, isDialogOpen := next, shown, None, false;
    }

    /** `handleDeleteItem`: nothing without a company id or without the user's
        confirmation; otherwise the delete request, then removal on success or
        the error on failure. */
    method HandleDeleteItem(company: Option<int>, itemId: int, confirmed: bool, reply: Outcome<()>)
      requires Valid()
      modifies this
      ensures Valid()
      ensures company.None? || !confirmed ==> items == old(items) && error == old(error)
      ensures company.Some? && confirmed && reply.Ok? ==> items == Removed(old(items), itemId) && error == old(error)
      ensures company.Some? && confirmed && !reply.Ok? ==> items == old(items) && error == Some(DeleteError)
      ensures selectedItem == old(selectedItem) && isDialogOpen == old(isDialogOpen) && searchQuery == old(searchQuery)
      ensures isLoading == old(isLoading)
    {
      if company.None? || !confirmed {
        return;
      }
      if reply.Ok? {
        var next := Removed(items, itemId);
        var shown := SearchResult(next, searchQuery, ItemMatches);
        items, filteredItems := next, shown;
      } else {
        error := Some(DeleteError);
      }
    }

    /** `handleDeleteItem` with its request taken through the shared client:
        the delete goes out with the interceptors' header, and a 401 on it
        both sets the page's error and ends the browser's session. */
    method DeleteThroughClient(browser: Api.Browser, company: Option<int>, itemId: int, confirmed: bool,
                               reply: Outcome<()>)
      requires Valid()
      modifies this, browser
      ensures Valid()
      ensures company.None? || !confirmed ==>
                browser.State() == old(browser.State()) && items == old(items) && error == old(error)
      ensures company.Some? && confirmed ==>
                browser.State() == Api.Dispatch(old(browser.State()), DeleteRequest(company.value, itemId), reply)
      ensures company.Some? && confirmed && reply.Ok? ==> items == Removed(old(items), itemId) && error == old(error)
      ensures company.Some? && confirmed && !reply.Ok? ==> items == old(items) && error == Some(DeleteError)
      ensures company.Some? && confirmed && reply.HttpError? && reply.status == 401 ==>
                error == Some(DeleteError) && browser.stored == None && browser.cookie == None &&
                browser.location == "/login" && browser.reloadPending
      ensures selectedItem == old(selectedItem) && isDialogOpen == old(isDialogOpen) && searchQuery == old(searchQuery)
      ensures isLoading == old(isLoading)
    {
      if company.None? || !confirmed {
        return;
      }
      var settled, _ := browser.Send(DeleteRequest(company.value, itemId), reply);
      HandleDeleteItem(company, itemId, confirmed, settled);
    }

    /** The dialog form's success callback. */
    method OnFormSuccess(item: Item)
      requires Valid()
      modifies this
      ensures Valid()
      ensures old(selectedItem).Some? ==> items == Replaced(old(items), item) && selectedItem == None
      ensures old(selectedItem).None? ==> items == old(items) + [item] && selectedItem == None
      ensures !isDialogOpen
      ensures error == old(error) && searchQuery == old(searchQuery) && isLoading == old(isLoading)
    {
      if CallbackFor(selectedItem) == UpdateItem {
        HandleUpdateItem(item);
      } else {
        HandleAddItem(item);
      }
    }
  }

  /** The empty table's text. */
  lemma EmptyState(items: seq<Item>, searchQuery: string)
    requires SearchResult(items, searchQuery, ItemMatches) == []
    ensures EmptyStateText(SearchResult(items, searchQuery, ItemMatches), searchQuery, NoRecords) ==
            Some(if searchQuery != "" then NoSearchResults else NoRecords)
  {
  }
}
