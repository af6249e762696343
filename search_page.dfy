/** The plate search page: the plate box, the lookup and the switch between
    the results tab and the registration tab. */
module SearchPage {
  import opened Common
  import Api

  datatype Tab = Results | Register

  const EmptyPlate: string := "Lütfen bir plaka giriniz"
  const NotFound: string := "Araç bulunamadı. Yeni kayıt oluşturabilirsiniz."
  const SearchFailed: string := "Arama sırasında bir hata oluştu. Lütfen tekrar deneyin."

  /** The page's state; `V` is the vehicle record the server returns. */
  datatype PageState<V> = PageState(
    licensePlate: string,
    searchResults: Option<V>,
    isLoading: bool,
    error: Option<string>,
    activeTab: Tab)

  function Initial<V>(): PageState<V>
  {
    PageState("", None, false, None, Results)
  }

  /** The plate box upper-cases every change. */
  function Typed<V>(s: PageState<V>, text: string): (r: PageState<V>)
    ensures r.licensePlate == ToUpper(text)
    ensures forall i :: 0 <= i < |r.licensePlate| ==> !('a' <= r.licensePlate[i] <= 'z')
    ensures r == s.(licensePlate := r.licensePlate)
  {
    ToUpperHasNoLowerAscii(text);
    s.(licensePlate := ToUpper(text))
  }

  /** The lookup the search makes, if any: the plate as typed, untrimmed. */
  function Lookup(licensePlate: string): (r: Option<Api.Route>)
    ensures r.None? <==> IsBlank(licensePlate)
    ensures r.Some? ==> r.value == Api.Route(Api.Get, "/vehicles/" + licensePlate)
  {
    if IsBlank(licensePlate) then None else Some(Api.RouteOf(Api.VehiclesGetById(licensePlate)))
  }

  /** `handleSearch`, with `reply` how the lookup settles. */
  function Searched<V>(s: PageState<V>, reply: Outcome<V>): PageState<V>
  {
    if IsBlank(s.licensePlate) then s.(error := Some(EmptyPlate))
    else
      match reply
      case Ok(v) => s.(isLoading := false, error := None, searchResults := Some(v), activeTab := Results)
      case _ =>
        if reply.HttpError? && reply.status == 404 then
          s.(isLoading := false, error := Some(NotFound), searchResults := None, activeTab := Register)
        else
          s.(isLoading := false, error := Some(SearchFailed), searchResults := None)
  }

  /** A blank plate only sets the prompt: no lookup, nothing else changes. */
  lemma BlankPlate<V>(s: PageState<V>, reply: Outcome<V>)
    requires IsBlank(s.licensePlate)
    ensures Searched(s, reply) == s.(error := Some(EmptyPlate))
    ensures Lookup(s.licensePlate).None?
  {
  }

  /** A found vehicle is shown on the results tab with no error. */
  lemma Found<V>(s: PageState<V>, reply: Outcome<V>)
    requires !IsBlank(s.licensePlate) && reply.Ok?
    ensures var r := Searched(s, reply);
            r.searchResults == Some(reply.data) && r.activeTab == Results && r.error == None && !r.isLoading
  {
  }

  /** A 404 offers registration; any other failure keeps the tab. Either way
      the previous results are cleared and loading is over. */
  lemma Failed<V>(s: PageState<V>, reply: Outcome<V>)
    requires !IsBlank(s.licensePlate) && !reply.Ok?
    ensures var r := Searched(s, reply);
            r.searchResults == None && !r.isLoading && r.licensePlate == s.licensePlate &&
            (reply.HttpError? && reply.status == 404 ==> r.error == Some(NotFound) && r.activeTab == Register) &&
            (!(reply.HttpError? && reply.status == 404) ==> r.error == Some(SearchFailed) && r.activeTab == s.activeTab)
  {
  }

  /** Once a plate was not found, a later successful lookup brings the results
      tab back. */
  lemma RegisterThenFound<V>(s: PageState<V>, miss: Outcome<V>, hit: Outcome<V>)
    requires !IsBlank(s.licensePlate) && miss.HttpError? && miss.status == 404 && hit.Ok?
    ensures Searched(s, miss).activeTab == Register
    ensures Searched(Searched(s, miss), hit).activeTab == Results
  {
  }

  class Page<V> {
    var licensePlate: string
    var searchResults: Option<V>
    var isLoading: bool
    var error: Option<string>
    var activeTab: Tab

    function State(): PageState<V>
      reads this
    {
      PageState(licensePlate, searchResults, isLoading, error, activeTab)
    }

    constructor ()
      ensures State() == Initial()
    {
      licensePlate, searchResults, isLoading, error, activeTab := "", None, false, None, Results;
    }

    method OnChange(text: string)
      modifies this
      ensures State() == Typed(old(State()), text)
    {
      licensePlate := ToUpper(text);
    }

    /** `handleSearch`; returns the lookup it made. */
    method HandleSearch(reply: Outcome<V>) returns (lookup: Option<Api.Route>)
      modifies this
      ensures State() == Searched(old(State()), reply)
      ensures lookup == Lookup(old(licensePlate))
    {
      if IsBlank(licensePlate) {
        error := Some(EmptyPlate);
        return None;
      }
      isLoading := true;
      error := None;
      lookup := Some(Api.RouteOf(Api.VehiclesGetById(licensePlate)));
      if reply.Ok? {
        searchResults := Some(reply.data);
        activeTab := Results;
      } else {
        if reply.HttpError? && reply.status == 404 {
          error := Some(NotFound);
          activeTab := Register;
        } else {
          error := Some(SearchFailed);
        }
        searchResults := None;
      }
      isLoading := false;
    }
  }
}
