/** The services list page: the fetched service records and their search. */
module ServicesPage {
  import opened Common
  import opened ListSearch
  import Api

  datatype Vehicle = Vehicle(licensePlate: string, vehicleModel: string, brand: string)
  datatype Status = Status(name: string, color: string)

  /** A service record as the list shows it (its dates are display only). */
  datatype Service = Service(id: int, vehicle: Vehicle, userName: string, status: Status)

  const LoadError: string := "Servisleri yüklerken bir hata oluştu."
  const NoRecords: string := "Henüz servis kaydı bulunmamaktadır."
  const StatusesLoadError: string := "Durumları yüklerken bir hata oluştu."

  /** The search predicate, for a query already lower-cased: the decimal id,
      the lower-cased plate, brand, model and mechanic name, and the status
      name exactly as stored. */
  predicate ServiceMatches(s: Service, query: string)
  {
    Includes(IntToString(s.id), query) ||
    Includes(ToLower(s.vehicle.licensePlate), query) ||
    Includes(ToLower(s.vehicle.brand), query) ||
    Includes(ToLower(s.vehicle.vehicleModel), query) ||
    Includes(s.status.name, query) ||
    Includes(ToLower(s.userName), query)
  }

  /** The services shown for a query. */
  function Shown(services: seq<Service>, searchQuery: string): (r: seq<Service>)
    ensures IsBlank(searchQuery) ==> r == services
    ensures forall x :: x in r ==> x in services
  {
    var r := SearchResult(services, searchQuery, ServiceMatches);
    assert forall x :: x in r ==> x in services by {
      forall x | x in r ensures x in services {
        if !IsBlank(searchQuery) {
          SearchMembership(services, searchQuery, ServiceMatches, x);
        }
      }
    }
    r
  }

  /** A non-blank query keeps a service exactly when one of its searched
      fields contains the lower-cased query. */
  lemma ShownIff(services: seq<Service>, searchQuery: string, s: Service)
    requires !IsBlank(searchQuery)
    ensures s in Shown(services, searchQuery) <==> s in services && ServiceMatches(s, ToLower(searchQuery))
  {
    SearchMembership(services, searchQuery, ServiceMatches, s);
  }

  /** The status name is not lower-cased: a status spelled in capitals is never
      found through its name by a query with a letter in it, though the same
      text in any lower-cased field would be. */
  lemma StatusNameIsCaseSensitive(name: string, query: string, j: int)
    requires 0 <= j < |query| && 'A' <= query[j] <= 'Z'
    requires forall i :: 0 <= i < |name| ==> !('a' <= name[i] <= 'z')
    ensures !Includes(name, ToLower(query))
    ensures name == query ==> Includes(ToLower(name), ToLower(query))
  {
    var lq := ToLower(query);
    assert 'a' <= lq[j] <= 'z';
    MissingCharNotIncluded(name, lq, j);
    IncludesSelf(lq);
  }

  /** The query is lower-cased but not trimmed: a space in it must occur in a
      field, so a service with no space in any searched field is dropped by a
      query that only adds a space. */
  lemma QueryIsNotTrimmed(s: Service, searchQuery: string, j: int)
    requires !IsBlank(searchQuery) && 0 <= j < |searchQuery| && searchQuery[j] == ' '
    requires NoSpace(s.vehicle.licensePlate) && NoSpace(s.vehicle.brand) && NoSpace(s.vehicle.vehicleModel)
    requires NoSpace(s.status.name) && NoSpace(s.userName)
    ensures Shown([s], searchQuery) == []
  {
    var lq := ToLower(searchQuery);
    assert lq[j] == ' ';
    MissingCharNotIncluded(IntToString(s.id), lq, j);
    MissingCharNotIncluded(s.status.name, lq, j);
    LowerKeepsNoSpace(s.vehicle.licensePlate);
    LowerKeepsNoSpace(s.vehicle.brand);
    LowerKeepsNoSpace(s.vehicle.vehicleModel);
    LowerKeepsNoSpace(s.userName);
    MissingCharNotIncluded(ToLower(s.vehicle.licensePlate), lq, j);
    MissingCharNotIncluded(ToLower(s.vehicle.brand), lq, j);
    MissingCharNotIncluded(ToLower(s.vehicle.vehicleModel), lq, j);
    MissingCharNotIncluded(ToLower(s.userName), lq, j);
    ShownIff([s], searchQuery, s);
  }

  predicate NoSpace(t: string)
  {
    forall i :: 0 <= i < |t| ==> t[i] != ' '
  }

  lemma LowerKeepsNoSpace(t: string)
    requires NoSpace(t)
    ensures NoSpace(ToLower(t))
  {
  }

  /** The empty table says "no search results" exactly when the search box is
      not empty, and the no-records text otherwise. */
  lemma EmptyState(services: seq<Service>, searchQuery: string)
    requires Shown(services, searchQuery) == []
    ensures EmptyStateText(Shown(services, searchQuery), searchQuery, NoRecords) ==
            Some(if searchQuery != "" then NoSearchResults else NoRecords)
  {
  }

  /** The page as mounted. */
  method NewServicesPage() returns (page: ListPage<Service>)
    ensures fresh(page) && page.Valid()
    ensures page.matches == ServiceMatches && page.loadError == LoadError
    ensures page.list == [] && page.isLoading && page.searchQuery == "" && page.error == None
  {
    page := new ListPage(ServiceMatches, LoadError);
  }

  /** `fetchStatuses`, given how the status request settled: it raises the
      loading flag and never lowers it; a success yields the statuses (they
      only feed the status badges), a failure sets the page's error. */
  method FetchStatuses(page: ListPage<Service>, settled: Outcome<seq<Status>>) returns (statuses: Option<seq<Status>>)
    requires page.Valid()
    modifies page
    ensures page.Valid() && page.isLoading
    ensures settled.Ok? ==> statuses == Some(settled.data) && page.error == old(page.error)
    ensures !settled.Ok? ==> statuses == None && page.error == Some(StatusesLoadError)
    ensures page.list == old(page.list) && page.searchQuery == old(page.searchQuery)
  {
    page.isLoading := true;
    if settled.Ok? {
      statuses := Some(settled.data);
    } else {
      statuses := None;
      page.error := Some(StatusesLoadError);
    }
  }

  /** The mount effect with both requests settled, the statuses first: the
      page shows no error exactly when neither request failed. */
  method Mount(servicesReply: Outcome<seq<Service>>, statusesReply: Outcome<seq<Status>>)
    returns (page: ListPage<Service>, statuses: Option<seq<Status>>)
    ensures fresh(page) && page.Valid() && !page.isLoading && page.searchQuery == ""
    ensures page.matches == ServiceMatches && page.loadError == LoadError
    ensures servicesReply.Ok? ==> page.list == servicesReply.data && page.filtered == servicesReply.data
    ensures page.error == None <==> servicesReply.Ok? && statusesReply.Ok?
    ensures !servicesReply.Ok? ==> page.error == Some(LoadError)
    ensures servicesReply.Ok? && !statusesReply.Ok? ==> page.error == Some(StatusesLoadError)
    ensures statuses == if statusesReply.Ok? then Some(statusesReply.data) else None
  {
    page := NewServicesPage();
    statuses := FetchStatuses(page, statusesReply);
    page.Fetch(servicesReply);
  }

  /** The mount as written: `apiService.servicesStatuses` is not defined, so
      the status fetch throws before any request and every mount ends with the
      statuses error shown, above a list that loaded fine. */
  method MountAsWritten(servicesReply: Outcome<seq<Service>>, statusesReply: Outcome<seq<Status>>)
    returns (page: ListPage<Service>, statuses: Option<seq<Status>>)
    ensures fresh(page) && page.Valid() && !page.isLoading
    ensures statuses == None && page.error.Some?
    ensures servicesReply.Ok? ==> page.list == servicesReply.data && page.error == Some(StatusesLoadError)
  {
    assert ("servicesStatuses", "getAll") !in Api.ApiServiceMembers;
    page, statuses := Mount(servicesReply, Api.CallAsWritten("servicesStatuses", "getAll", statusesReply));
  }
}
