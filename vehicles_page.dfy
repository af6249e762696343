/** The vehicles page: a fixed demonstration list and its search. */
module VehiclesPage {
  import opened Common
  import opened ListSearch

  datatype Vehicle = Vehicle(id: int, licensePlate: string, brand: string, model: string, ownerName: string)

  const LoadError: string := "Araçlar yüklenirken bir hata oluştu."
  const NoRecords: string := "Henüz araç kaydı bulunmamaktadır."

  /** The list the page loads instead of asking the server. */
  const DummyVehicles: seq<Vehicle> := [
    Vehicle(1, "34ABC123", "Toyota", "Corolla", "John Doe"),
    Vehicle(2, "06DEF456", "Honda", "Civic", "Jane Smith")
  ]

  /** The search predicate, for a query already lower-cased: the decimal id or
      the lower-cased plate. */
  predicate VehicleMatches(v: Vehicle, query: string)
  {
    Includes(IntToString(v.id), query) || Includes(ToLower(v.licensePlate), query)
  }

  /** A non-blank query keeps a vehicle exactly when its id or plate contains
      the lower-cased query; brand, model and owner are never searched. */
  lemma ShownIff(vehicles: seq<Vehicle>, searchQuery: string, v: Vehicle, brand: string, model: string, owner: string)
    requires !IsBlank(searchQuery)
    ensures v in SearchResult(vehicles, searchQuery, VehicleMatches) <==>
            v in vehicles && (Includes(IntToString(v.id), ToLower(searchQuery)) ||
                              Includes(ToLower(v.licensePlate), ToLower(searchQuery)))
    ensures VehicleMatches(v.(brand := brand, model := model, ownerName := owner), ToLower(searchQuery)) ==
            VehicleMatches(v, ToLower(searchQuery))
  {
    SearchMembership(vehicles, searchQuery, VehicleMatches, v);
  }

  /** The search never adds a vehicle and keeps their order. */
  lemma ShownIsSubsequence(vehicles: seq<Vehicle>, searchQuery: string)
    ensures IsSubsequence(SearchResult(vehicles, searchQuery, VehicleMatches), vehicles)
    ensures |SearchResult(vehicles, searchQuery, VehicleMatches)| <= |vehicles|
  {
    SearchIsSubsequence(vehicles, searchQuery, VehicleMatches, Vehicle(0, "", "", "", ""));
  }

  /** The load effect: both lists become the fixed two vehicles (the query is
      still empty at mount) and loading ends; it cannot fail. */
  method LoadVehicles(page: ListPage<Vehicle>)
    requires page.Valid() && page.matches == VehicleMatches && page.searchQuery == ""
    modifies page
    ensures page.Valid()
    ensures page.list == DummyVehicles && page.filtered == DummyVehicles && |page.list| == 2
    ensures !page.isLoading && page.error == old(page.error)
  {
    page.Fetch(Ok(DummyVehicles));
  }

  /** The page as mounted. */
  method NewVehiclesPage() returns (page: ListPage<Vehicle>)
    ensures fresh(page) && page.Valid()
    ensures page.matches == VehicleMatches && page.loadError == LoadError
    ensures page.list == [] && page.isLoading && page.searchQuery == ""
  {
    page := new ListPage(VehicleMatches, LoadError);
  }
}
