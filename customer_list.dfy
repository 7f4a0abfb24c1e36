/**
 * The customer list of the back office: the search box and the four
 * selectors (status, department, province, district) that narrow the list,
 * and the status badge of each row. Customers are values; the list page
 * holds the loaded list and the shown list.
 */
module CustomerList {
  import opened Text
  import opened Collections

  datatype Customer = Customer(
    clientCode: string, documentNumber: string, name: string, surname: string, email: string,
    status: string, department: string, province: string, district: string)

  /** The four selectors; an empty one is not applied. The status starts on active customers. */
  datatype CustomerFilters = CustomerFilters(status: string, department: string, province: string, district: string)

  /** Some searched field, lower-cased, contains the lower-cased term. */
  predicate SearchHits(term: string, c: Customer)
  {
    Contains(Lower(c.name), term) || Contains(Lower(c.surname), term) || Contains(Lower(c.clientCode), term)
    || Contains(Lower(c.documentNumber), term) || Contains(Lower(c.email), term)
  }

  /**
   * The search box: a blank box lets everything through; otherwise the term
   * is lower-cased, but its surrounding spaces are kept.
   */
  predicate MatchesSearch(searchTerm: string, c: Customer)
  {
    Trim(searchTerm) == "" || SearchHits(Lower(searchTerm), c)
  }

  /** A selector: empty lets everything through, otherwise the value must be the selected one. */
  predicate MatchesField(selected: string, value: string)
  {
    selected == "" || value == selected
  }

  predicate KeptCustomer(searchTerm: string, filters: CustomerFilters, c: Customer)
  {
    && MatchesSearch(searchTerm, c)
    && MatchesField(filters.status, c.status)
    && MatchesField(filters.department, c.department)
    && MatchesField(filters.province, c.province)
    && MatchesField(filters.district, c.district)
  }

  /** The customers the page shows, in list order. */
  function Shown(customers: seq<Customer>, searchTerm: string, filters: CustomerFilters): seq<Customer>
  {
    Filter(customers, c => KeptCustomer(searchTerm, filters, c))
  }

  /** The shown list keeps the loaded list's order and repeats nothing it does not hold. */
  lemma ShownIsSubsequence(customers: seq<Customer>, searchTerm: string, filters: CustomerFilters)
    ensures Subsequence(Shown(customers, searchTerm, filters), customers)
  {
    FilterSubsequence(customers, c => KeptCustomer(searchTerm, filters, c));
  }

  /**
   * A customer is shown exactly when it is loaded, passes the search and
   * has the selected value of every selector that is not empty.
   */
  lemma ShownKeepsExactly(customers: seq<Customer>, searchTerm: string, filters: CustomerFilters, c: Customer)
    ensures c in Shown(customers, searchTerm, filters) <==>
      && c in customers
      && (Trim(searchTerm) != "" ==> SearchHits(Lower(searchTerm), c))
      && (filters.status != "" ==> c.status == filters.status)
      && (filters.department != "" ==> c.department == filters.department)
      && (filters.province != "" ==> c.province == filters.province)
      && (filters.district != "" ==> c.district == filters.district)
  {
    FilterMembership(customers, x => KeptCustomer(searchTerm, filters, x), c);
  }

  /** A blank search and four empty selectors show the whole list. */
  lemma NoFilterShowsAll(customers: seq<Customer>, searchTerm: string)
    requires Trim(searchTerm) == ""
    ensures Shown(customers, searchTerm, CustomerFilters("", "", "", "")) == customers
  {
    FilterAll(customers, c => KeptCustomer(searchTerm, CustomerFilters("", "", "", ""), c));
  }

  /** A needle longer than the text is never found in it. */
  lemma {:induction false} LongerNeedleMisses(hay: string, needle: string)
    requires |needle| > |hay|
    ensures !Contains(hay, needle)
    decreases |hay|
  {
    if |hay| > 0 {
      LongerNeedleMisses(hay[1..], needle);
    }
  }

  /** A field without spaces keeps none when lower-cased. */
  lemma LowerKeepsNoSpace(s: string)
    requires ' ' !in s
    ensures ' ' !in Lower(s)
  {
  }

  /**
   * The term is not trimmed: a search holding a space, such as a word
   * followed by a space, misses every customer whose searched fields have
   * no space, even when the word alone would find them.
   */
  lemma UntrimmedSpaceMisses(searchTerm: string, c: Customer, k: int)
    requires Trim(searchTerm) != "" && 0 <= k < |searchTerm| && searchTerm[k] == ' '
    requires ' ' !in c.name && ' ' !in c.surname && ' ' !in c.clientCode
    requires ' ' !in c.documentNumber && ' ' !in c.email
    ensures !MatchesSearch(searchTerm, c)
  {
    var term := Lower(searchTerm);
    assert term[k] == ' ';
    forall field | field in [c.name, c.surname, c.clientCode, c.documentNumber, c.email]
      ensures !Contains(Lower(field), term)
    {
      LowerKeepsNoSpace(field);
      if Contains(Lower(field), term) {
        FoundCharsOccur(Lower(field), term, k);
      }
    }
  }

  /** `getStatusLabel`: "A" is active, every other status inactive. */
  function StatusLabel(status: string): (r: string)
    ensures r == "Activo" <==> status == "A"
    ensures r == "Activo" || r == "Inactivo"
  {
    if status == "A" then "Activo" else "Inactivo"
  }

  /** `getStatusClass`. */
  function StatusClass(status: string): (r: string)
    ensures r == "status-active" <==> status == "A"
    ensures r == "status-active" || r == "status-inactive"
  {
    if status == "A" then "status-active" else "status-inactive"
  }

  /** The badge's style and text always name the same status. */
  lemma LabelAgreesWithClass(status: string)
    ensures StatusClass(status) == "status-active" <==> StatusLabel(status) == "Activo"
  {
  }

  /** What the first `steps` narrowing steps of `applyFilters` keep. */
  predicate KeptSoFar(steps: nat, searchTerm: string, filters: CustomerFilters, c: Customer)
  {
    && (steps >= 1 ==> MatchesSearch(searchTerm, c))
    && (steps >= 2 ==> MatchesField(filters.status, c.status))
    && (steps >= 3 ==> MatchesField(filters.department, c.department))
    && (steps >= 4 ==> MatchesField(filters.province, c.province))
    && (steps >= 5 ==> MatchesField(filters.district, c.district))
  }

  /** What the first `steps` narrowing steps of `applyFilters` leave of the loaded list. */
  function Stage(customers: seq<Customer>, steps: nat, searchTerm: string, filters: CustomerFilters): seq<Customer>
  {
    Filter(customers, c => KeptSoFar(steps, searchTerm, filters, c))
  }

  /** No step yet leaves the whole list, and all five leave the shown list. */
  lemma StageEnds(customers: seq<Customer>, searchTerm: string, filters: CustomerFilters)
    ensures Stage(customers, 0, searchTerm, filters) == customers
    ensures Stage(customers, 5, searchTerm, filters) == Shown(customers, searchTerm, filters)
  {
    FilterAll(customers, c => KeptSoFar(0, searchTerm, filters, c));
    FilterCongruent(customers, c => KeptSoFar(5, searchTerm, filters, c), c => KeptCustomer(searchTerm, filters, c));
  }

  /** One more step, applied or skipped, narrows what the earlier steps kept to what one more step keeps. */
  lemma NarrowStep(customers: seq<Customer>, steps: nat, next: nat, searchTerm: string, filters: CustomerFilters,
                   applied: bool, step: Customer -> bool)
    requires next == steps + 1
    requires forall c :: KeptSoFar(next, searchTerm, filters, c) <==>
      KeptSoFar(steps, searchTerm, filters, c) && (applied ==> step(c))
    ensures var before := Stage(customers, steps, searchTerm, filters);
      (if applied then Filter(before, step) else before) == Stage(customers, next, searchTerm, filters)
  {
    if applied {
      FilterTwice(customers, c => KeptSoFar(steps, searchTerm, filters, c), step,
        c => KeptSoFar(next, searchTerm, filters, c));
    } else {
      FilterCongruent(customers, c => KeptSoFar(steps, searchTerm, filters, c),
        c => KeptSoFar(next, searchTerm, filters, c));
    }
  }

  class CustomerListPage {
    var customers: seq<Customer>
    var filteredCustomers: seq<Customer>
    var searchTerm: string
    var filters: CustomerFilters

    constructor ()
      ensures customers == [] && filteredCustomers == [] && searchTerm == ""
      ensures filters == CustomerFilters("A", "", "", "")
    {
      customers, filteredCustomers, searchTerm := [], [], "";
      filters := CustomerFilters("A", "", "", "");
    }

    /**
     * `applyFilters`: a copy of the list narrowed by the search, then by
     * each selector that is not empty, in turn.
     */
    method ApplyFilters()
      modifies this`filteredCustomers
      ensures filteredCustomers == Shown(customers, searchTerm, filters)
    {
      var term, f := searchTerm, filters;
      var filtered := customers;
      StageEnds(customers, term, f);
      var lowered := Lower(term);
      var hits := (c: Customer) => SearchHits(lowered, c);
      if Trim(term) != "" {
        filtered := Filter(filtered, hits);
      }
      NarrowStep(customers, 0, 1, term, f, Trim(term) != "", hits);
      var selected := (c: Customer) => c.status == f.status;
      if f.status != "" {
        filtered := Filter(filtered, selected);
      }
      NarrowStep(customers, 1, 2, term, f, f.status != "", selected);
      selected := (c: Customer) => c.department == f.department;
      if f.department != "" {
        filtered := Filter(filtered, selected);
      }
      NarrowStep(customers, 2, 3, term, f, f.department != "", selected);
      selected := (c: Customer) => c.province == f.province;
      if f.province != "" {
        filtered := Filter(filtered, selected);
      }
      NarrowStep(customers, 3, 4, term, f, f.province != "", selected);
      selected := (c: Customer) => c.district == f.district;
      if f.district != "" {
        filtered := Filter(filtered, selected);
      }
      NarrowStep(customers, 4, 5, term, f, f.district != "", selected);
      filteredCustomers := filtered;
    }
  }
}
