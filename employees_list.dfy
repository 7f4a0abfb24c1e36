/**
 * The employee list of the back office: the search box that narrows the
 * list and the initials shown in each employee's avatar. Employees are
 * values; the list the page holds may be missing (`null`).
 */
module EmployeesList {
  import opened Wrappers
  import opened Text
  import opened Collections

  datatype Employee = Employee(
    name: string, surname: string, email: string, employeeCode: string, documentNumber: string, positionName: string)

  /**
   * Some searched field contains the term: the name, the surname, the
   * e-mail, the code and the position lower-cased, the document number as
   * it is written.
   */
  predicate EmployeeHits(term: string, e: Employee)
  {
    Contains(Lower(e.name), term) || Contains(Lower(e.surname), term) || Contains(Lower(e.email), term)
    || Contains(Lower(e.employeeCode), term) || Contains(e.documentNumber, term)
    || Contains(Lower(e.positionName), term)
  }

  /** The term searched: the box lower-cased and trimmed. */
  function SearchedTerm(searchTerm: string): string
  {
    Trim(Lower(searchTerm))
  }

  /** The employees the page shows: none without a list, all of them for a blank box, else those the term hits. */
  function ShownEmployees(employees: Option<seq<Employee>>, searchTerm: string): seq<Employee>
  {
    match employees
    case None => []
    case Some(all) =>
      if Trim(searchTerm) == "" then all
      else Filter(all, e => EmployeeHits(SearchedTerm(searchTerm), e))
  }

  /** The shown list keeps the loaded list's order and repeats nothing it does not hold. */
  lemma ShownIsSubsequence(employees: seq<Employee>, searchTerm: string)
    ensures Subsequence(ShownEmployees(Some(employees), searchTerm), employees)
  {
    if Trim(searchTerm) == "" {
      SubsequenceReflexive(employees);
    } else {
      FilterSubsequence(employees, e => EmployeeHits(SearchedTerm(searchTerm), e));
    }
  }

  /** An employee is shown exactly when listed and, for a box that is not blank, hit by the trimmed lower-cased term. */
  lemma ShownKeepsExactly(employees: seq<Employee>, searchTerm: string, e: Employee)
    ensures e in ShownEmployees(Some(employees), searchTerm) <==>
      e in employees && (Trim(searchTerm) != "" ==> EmployeeHits(SearchedTerm(searchTerm), e))
  {
    if Trim(searchTerm) != "" {
      FilterMembership(employees, x => EmployeeHits(SearchedTerm(searchTerm), x), e);
    }
  }

  /** Upper-casing changes no space into a letter or back. */
  lemma UpperKeepsSpaces(s: string)
    ensures forall i :: 0 <= i < |s| ==> (IsSpace(Upper(s)[i]) <==> IsSpace(s[i]))
  {
    forall i | 0 <= i < |s| ensures IsSpace(Upper(s)[i]) <==> IsSpace(s[i]) {
      assert Upper(s)[i] == UpperChar(s[i]);
    }
  }

  /** Typing the search in capitals shows the same employees. */
  lemma SearchIgnoresTermCase(employees: Option<seq<Employee>>, searchTerm: string)
    ensures ShownEmployees(employees, Upper(searchTerm)) == ShownEmployees(employees, searchTerm)
  {
    LowerIgnoresCase(searchTerm);
    UpperKeepsSpaces(searchTerm);
    TrimEmptyIffAllSpace(searchTerm);
    TrimEmptyIffAllSpace(Upper(searchTerm));
    assert SearchedTerm(Upper(searchTerm)) == SearchedTerm(searchTerm);
  }

  /**
   * The document number is the one field not lower-cased: a term holding
   * a lower-case letter never finds a document number written without
   * one, such as one in capitals.
   */
  lemma DocumentNumberIsCaseSensitive(e: Employee, searchTerm: string, k: int)
    requires 0 <= k < |SearchedTerm(searchTerm)| && IsLower(SearchedTerm(searchTerm)[k])
    requires forall i :: 0 <= i < |e.documentNumber| ==> !IsLower(e.documentNumber[i])
    ensures !Contains(e.documentNumber, SearchedTerm(searchTerm))
  {
    if Contains(e.documentNumber, SearchedTerm(searchTerm)) {
      FoundCharsOccur(e.documentNumber, SearchedTerm(searchTerm), k);
    }
  }

  /** The first character of a string, upper-cased; nothing for an empty string (`charAt(0).toUpperCase()`). */
  function Initial(s: string): (r: string)
    ensures |r| == (if s == "" then 0 else 1)
    ensures s != "" ==> r[0] == UpperChar(s[0])
  {
    if s == "" then "" else Upper(s[..1])
  }

  /** `getEmployeeInitials`: the initial of the name followed by that of the surname. */
  function EmployeeInitials(e: Employee): (r: string)
    ensures |r| == (if e.name == "" then 0 else 1) + (if e.surname == "" then 0 else 1)
    ensures e.name != "" ==> r[0] == UpperChar(e.name[0])
    ensures e.surname != "" ==> r[|r| - 1] == UpperChar(e.surname[0])
    ensures forall i :: 0 <= i < |r| ==> !IsLower(r[i])
  {
    Initial(e.name) + Initial(e.surname)
  }

  /** The initials do not depend on how the names are capitalised. */
  lemma InitialsIgnoreCase(e: Employee)
    ensures EmployeeInitials(e.(name := Lower(e.name), surname := Lower(e.surname))) == EmployeeInitials(e)
  {
    var lowered := e.(name := Lower(e.name), surname := Lower(e.surname));
    if e.name != "" {
      assert UpperChar(LowerChar(e.name[0])) == UpperChar(e.name[0]);
    }
    if e.surname != "" {
      assert UpperChar(LowerChar(e.surname[0])) == UpperChar(e.surname[0]);
    }
    assert |EmployeeInitials(lowered)| == |EmployeeInitials(e)|;
  }

  class EmployeesListPage {
    var employees: Option<seq<Employee>>
    var filteredEmployees: seq<Employee>
    var searchTerm: string

    constructor ()
      ensures employees == Some([]) && filteredEmployees == [] && searchTerm == ""
    {
      employees, filteredEmployees, searchTerm := Some([]), [], "";
    }

    /** `applyFilters`: nothing without a list, else a copy of it narrowed by the search. */
    method ApplyFilters()
      modifies this`filteredEmployees
      ensures filteredEmployees == ShownEmployees(employees, searchTerm)
    {
      if employees.None? {
        filteredEmployees := [];
        return;
      }
      var filtered := employees.value;
      if Trim(searchTerm) != "" {
        var term := Trim(Lower(searchTerm));
        filtered := Filter(filtered, e => EmployeeHits(term, e));
      }
      filteredEmployees := filtered;
    }
  }
}
