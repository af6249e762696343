/** The customers (vehicle owners) page: the fetched owners and their search. */
module CustomersPage {
  import opened Common
  import opened ListSearch

  datatype Customer = Customer(id: int, name: string, phone: string)

  const LoadError: string := "Müşterileri yüklerken bir hata oluştu."
  const NoRecords: string := "Henüz müşteri kaydı yok."

  /** The search predicate, for a query already lower-cased: the decimal id or
      the lower-cased name. */
  predicate CustomerMatches(c: Customer, query: string)
  {
    Includes(IntToString(c.id), query) || Includes(ToLower(c.name), query)
  }

  /** A non-blank query keeps a customer exactly when the id or the name
      contains the lower-cased query; the phone number is never searched. */
  lemma ShownIff(customers: seq<Customer>, searchQuery: string, c: Customer, phone: string)
    requires !IsBlank(searchQuery)
    ensures c in SearchResult(customers, searchQuery, CustomerMatches) <==>
            c in customers && (Includes(IntToString(c.id), ToLower(searchQuery)) ||
                               Includes(ToLower(c.name), ToLower(searchQuery)))
    ensures CustomerMatches(c.(phone := phone), ToLower(searchQuery)) == CustomerMatches(c, ToLower(searchQuery))
  {
    SearchMembership(customers, searchQuery, CustomerMatches, c);
  }

  /** A digit-only query finds customers by id, never by a name without digits. */
  lemma DigitQueryFindsIdsOnly(c: Customer, query: string, j: int)
    requires 0 <= j < |query| && '0' <= query[j] <= '9'
    requires forall i :: 0 <= i < |c.name| ==> !('0' <= c.name[i] <= '9')
    ensures CustomerMatches(c, ToLower(query)) <==> Includes(IntToString(c.id), ToLower(query))
  {
    var lq := ToLower(query);
    assert lq[j] == query[j];
    assert forall i :: 0 <= i < |ToLower(c.name)| ==> ToLower(c.name)[i] != lq[j];
    MissingCharNotIncluded(ToLower(c.name), lq, j);
  }

  lemma EmptyState(customers: seq<Customer>, searchQuery: string)
    requires SearchResult(customers, searchQuery, CustomerMatches) == []
    ensures EmptyStateText(SearchResult(customers, searchQuery, CustomerMatches), searchQuery, NoRecords) ==
            Some(if searchQuery != "" then NoSearchResults else NoRecords)
  {
  }

  /** The page as mounted. */
  method NewCustomersPage() returns (page: ListPage<Customer>)
    ensures fresh(page) && page.Valid()
    ensures page.matches == CustomerMatches && page.loadError == LoadError
    ensures page.list == [] && page.isLoading && page.searchQuery == ""
  {
    page := new ListPage(CustomerMatches, LoadError);
  }
}
