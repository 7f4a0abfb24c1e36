/**
 * The generic list filter of the front end: a map of named filters and a
 * search term, applied to a list of records. Records and filter values are
 * JavaScript values, modelled as a small value type; a property path such
 * as "location.department" is followed one dot-separated segment at a time.
 */
module Filtering {
  import opened Text
  import opened Collections

  /** A JavaScript value. Numbers are integers; object and array identity is not modelled. */
  datatype JsValue =
    | Undefined
    | Null
    | Bool(b: bool)
    | Num(n: int)
    | Str(s: string)
    | Arr(elems: seq<JsValue>)
    | Obj(fields: map<string, JsValue>)

  /** The falsy values: undefined, null, false, 0 and the empty string. */
  predicate Truthy(v: JsValue)
  {
    !(v.Undefined? || v.Null? || v == Bool(false) || v == Num(0) || v == Str(""))
  }

  /** `String(v)`, for the values a search reaches. */
  function ToJsString(v: JsValue): string
  {
    match v
    case Undefined => "undefined"
    case Null => "null"
    case Bool(b) => if b then "true" else "false"
    case Num(n) => IntToString(n)
    case Str(s) => s
    case Arr(elems) => JoinElements(elems)
    case Obj(_) => "[object Object]"
  }

  /** `Array.prototype.toString`: elements joined by commas, null and undefined printing as nothing. */
  function JoinElements(elems: seq<JsValue>): string
    decreases elems
  {
    if elems == [] then ""
    else
      var first := if elems[0].Undefined? || elems[0].Null? then "" else ToJsString(elems[0]);
      if |elems| == 1 then first else first + "," + JoinElements(elems[1..])
  }

  /** A canonical array index: decimal digits without a superfluous leading zero. */
  predicate IsIndex(s: string)
  {
    |s| > 0 && AllDigits(s) && (s[0] != '0' || |s| == 1)
  }

  /** `current?.[prop]`: undefined on null or undefined, an object's own field, an array element or a length. */
  function Member(current: JsValue, prop: string): JsValue
  {
    match current
    case Obj(fields) => if prop in fields then fields[prop] else Undefined
    case Arr(elems) =>
      if prop == "length" then Num(|elems|)
      else if IsIndex(prop) && DigitsValue(prop) < |elems| then elems[DigitsValue(prop)]
      else Undefined
    case Str(s) => if prop == "length" then Num(|s|) else if IsIndex(prop) && DigitsValue(prop) < |s| then Str([s[DigitsValue(prop)]]) else Undefined
    case _ => Undefined
  }

  /** `path.split('.')`. */
  function Split(path: string): (r: seq<string>)
    ensures |r| >= 1
    ensures forall i :: 0 <= i < |r| ==> '.' !in r[i]
    decreases |path|
  {
    if path == [] then [""]
    else
      var rest := Split(path[1..]);
      if path[0] == '.' then [""] + rest else [[path[0]] + rest[0]] + rest[1..]
  }

  /** The value reached by following the segments in order (the `reduce` over the split path). */
  function Walk(v: JsValue, segments: seq<string>): JsValue
    decreases |segments|
  {
    if segments == [] then v else Walk(Member(v, segments[0]), segments[1..])
  }

  function NestedProperty(item: JsValue, path: string): JsValue
  {
    Walk(item, Split(path))
  }

  /** Walking two paths one after the other is walking their concatenation. */
  lemma {:induction false} WalkAppend(v: JsValue, a: seq<string>, b: seq<string>)
    ensures Walk(v, a + b) == Walk(Walk(v, a), b)
    decreases |a|
  {
    if a == [] {
      assert a + b == b;
    } else {
      assert (a + b)[1..] == a[1..] + b;
      WalkAppend(Member(v, a[0]), a[1..], b);
    }
  }

  /** Once a segment leads to null or undefined, the rest of the path yields undefined. */
  lemma {:induction false} MissingSegmentIsUndefined(v: JsValue, segments: seq<string>, i: int)
    requires 0 <= i < |segments|
    requires Walk(v, segments[..i]).Undefined? || Walk(v, segments[..i]).Null?
    ensures Walk(v, segments) == Undefined
  {
    assert segments == segments[..i] + segments[i..];
    WalkAppend(v, segments[..i], segments[i..]);
    UndefinedStays(Member(Walk(v, segments[..i]), segments[i]), segments[i + 1..]);
    assert segments[i..][1..] == segments[i + 1..];
  }

  lemma {:induction false} UndefinedStays(v: JsValue, segments: seq<string>)
    requires v.Undefined?
    ensures Walk(v, segments) == Undefined
    decreases |segments|
  {
    if segments != [] {
      UndefinedStays(Member(v, segments[0]), segments[1..]);
    }
  }

  /** `===` on the values a filter compares: primitives by value; objects and arrays are never the same reference here. */
  predicate StrictEquals(a: JsValue, b: JsValue)
  {
    match a
    case Undefined => b.Undefined?
    case Null => b.Null?
    case Bool(x) => b == Bool(x)
    case Num(x) => b == Num(x)
    case Str(x) => b == Str(x)
    case _ => false
  }

  /** A filter takes part unless it is null, undefined or the empty string. */
  predicate Active(value: JsValue)
  {
    !(value.Null? || value.Undefined? || value == Str(""))
  }

  /** An object with a truthy `start` and a truthy `end`: the date-range filter, which this model does not cover. */
  predicate DateRange(value: JsValue)
  {
    value.Obj? && "start" in value.fields && "end" in value.fields
    && Truthy(value.fields["start"]) && Truthy(value.fields["end"])
  }

  /** An array filter tests membership; any other filter strict equality of the item's property. */
  predicate Matches(item: JsValue, key: string, value: JsValue)
  {
    var itemValue := NestedProperty(item, key);
    if value.Arr? then exists i | 0 <= i < |value.elems| :: StrictEquals(value.elems[i], itemValue)
    else StrictEquals(itemValue, value)
  }

  /** Some search field holds a truthy value whose lower-cased text contains the lower-cased term. */
  predicate SearchHit(item: JsValue, fields: seq<string>, term: string)
  {
    exists i | 0 <= i < |fields| ::
      var v := NestedProperty(item, fields[i]);
      Truthy(v) && Contains(Lower(ToJsString(v)), Lower(term))
  }

  /** The item passes every active filter among `keys`. */
  predicate PassesAll(filters: map<string, JsValue>, keys: set<string>, item: JsValue)
  {
    forall k | k in keys && k in filters && Active(filters[k]) :: Matches(item, k, filters[k])
  }

  /** An item survives the search (when a term and search fields are given) and every active filter. */
  predicate Kept(filters: map<string, JsValue>, term: string, fields: seq<string>, item: JsValue)
  {
    (term == "" || fields == [] || SearchHit(item, fields, term)) && PassesAll(filters, filters.Keys, item)
  }

  /** The records `applyFilters` returns, in their input order. */
  function Applied(data: seq<JsValue>, filters: map<string, JsValue>, term: string, fields: seq<string>): seq<JsValue>
  {
    Filter(data, (item: JsValue) => Kept(filters, term, fields, item))
  }

  class FilterService {
    var filters: map<string, JsValue>
    var searchTerm: string

    constructor ()
      ensures filters == map[] && searchTerm == ""
    {
      filters := map[];
      searchTerm := "";
    }

    /** Sets one filter; the others keep their values. */
    method SetFilter(key: string, value: JsValue)
      modifies this
      ensures filters == old(filters)[key := value] && searchTerm == old(searchTerm)
      ensures GetFilter(key) == value
      ensures forall k :: k != key ==> GetFilter(k) == old(GetFilter(k))
    {
      filters := filters[key := value];
    }

    /** The filter under `key`, undefined when none is set. */
    function GetFilter(key: string): JsValue
      reads this
    {
      if key in filters then filters[key] else Undefined
    }

    method SetFilters(all: map<string, JsValue>)
      modifies this
      ensures filters == all && searchTerm == old(searchTerm)
    {
      filters := all;
    }

    method SetSearchTerm(term: string)
      modifies this
      ensures searchTerm == term && filters == old(filters)
    {
      searchTerm := term;
    }

    /** Removes every filter and the search term. */
    method ClearFilters()
      modifies this
      ensures filters == map[] && searchTerm == ""
    {
      filters := map[];
      searchTerm := "";
    }

    /** Removes one filter; the others keep their values. */
    method ClearFilter(key: string)
      modifies this
      ensures filters == old(filters) - {key} && searchTerm == old(searchTerm)
      ensures GetFilter(key) == Undefined
      ensures forall k :: k != key ==> GetFilter(k) == old(GetFilter(k))
    {
      filters := filters - {key};
    }

    /**
     * The search first, then each active filter in turn, every step keeping
     * the surviving records in their order. Date-range filters are outside
     * this model.
     */
    method ApplyFilters(data: seq<JsValue>, searchFields: seq<string>) returns (r: seq<JsValue>)
      requires forall k :: k in filters ==> !DateRange(filters[k])
      ensures r == Applied(data, filters, searchTerm, searchFields)
      ensures Subsequence(r, data)
    {
      var searched := Search(data, searchFields, searchTerm);
      r := FilterEach(searched, filters);
      SearchThenFilters(data, filters, searchTerm, searchFields);
      AppliedIsSubsequence(data, filters, searchTerm, searchFields);
    }

    /** The text search, skipped when the term or the field list is empty. */
    static method Search(data: seq<JsValue>, fields: seq<string>, term: string) returns (r: seq<JsValue>)
      ensures r == if term != "" && |fields| > 0 then Filter(data, (item: JsValue) => SearchHit(item, fields, term)) else data
    {
      r := data;
      if term != "" && |fields| > 0 {
        r := Filter(data, (item: JsValue) => SearchHit(item, fields, term));
      }
    }

    /** Each active filter in turn, in any key order. */
    static method FilterEach(searched: seq<JsValue>, fs: map<string, JsValue>) returns (r: seq<JsValue>)
      ensures r == Filter(searched, (item: JsValue) => PassesAll(fs, fs.Keys, item))
    {
      r := searched;
      var pending := fs.Keys;
      ghost var done: set<string> := {};
      FilterAll(searched, (item: JsValue) => PassesAll(fs, done, item));
      while pending != {}
        invariant pending + done == fs.Keys && pending !! done
        invariant r == Filter(searched, (item: JsValue) => PassesAll(fs, done, item))
        decreases pending
      {
        var key :| key in pending;
        var value := fs[key];
        FilterStep(searched, fs, done, key);
        if Active(value) {
          r := Filter(r, (item: JsValue) => Matches(item, key, value));
        }
        done := done + {key};
        pending := pending - {key};
      }
    }
  }

  /** One more key: an active filter narrows the records, an inactive one leaves them as they are. */
  lemma FilterStep(searched: seq<JsValue>, fs: map<string, JsValue>, done: set<string>, key: string)
    requires key in fs
    ensures Active(fs[key]) ==>
      Filter(Filter(searched, (item: JsValue) => PassesAll(fs, done, item)), (item: JsValue) => Matches(item, key, fs[key]))
      == Filter(searched, (item: JsValue) => PassesAll(fs, done + {key}, item))
    ensures !Active(fs[key]) ==>
      Filter(searched, (item: JsValue) => PassesAll(fs, done, item))
      == Filter(searched, (item: JsValue) => PassesAll(fs, done + {key}, item))
  {
    if Active(fs[key]) {
      FilterTwice(searched, (item: JsValue) => PassesAll(fs, done, item), (item: JsValue) => Matches(item, key, fs[key]),
                  (item: JsValue) => PassesAll(fs, done + {key}, item));
    } else {
      FilterCongruent(searched, (item: JsValue) => PassesAll(fs, done, item), (item: JsValue) => PassesAll(fs, done + {key}, item));
    }
  }

  /** The search followed by all filters keeps exactly the records `Kept` describes. */
  lemma SearchThenFilters(data: seq<JsValue>, fs: map<string, JsValue>, term: string, fields: seq<string>)
    ensures Filter(if term != "" && |fields| > 0 then Filter(data, (item: JsValue) => SearchHit(item, fields, term)) else data,
                   (item: JsValue) => PassesAll(fs, fs.Keys, item))
         == Applied(data, fs, term, fields)
  {
    if term != "" && |fields| > 0 {
      FilterTwice(data, (item: JsValue) => SearchHit(item, fields, term), (item: JsValue) => PassesAll(fs, fs.Keys, item),
                  (item: JsValue) => Kept(fs, term, fields, item));
    } else {
      FilterCongruent(data, (item: JsValue) => PassesAll(fs, fs.Keys, item), (item: JsValue) => Kept(fs, term, fields, item));
    }
  }

  /** The result keeps records of the input, in their order. */
  lemma AppliedIsSubsequence(data: seq<JsValue>, fs: map<string, JsValue>, term: string, fields: seq<string>)
    ensures Subsequence(Applied(data, fs, term, fields), data)
  {
    FilterSubsequence(data, (item: JsValue) => Kept(fs, term, fields, item));
  }

  /** Without a search term and without active filters nothing is dropped. */
  lemma NothingToApply(data: seq<JsValue>, fs: map<string, JsValue>, fields: seq<string>)
    requires forall k :: k in fs ==> !Active(fs[k])
    ensures Applied(data, fs, "", fields) == data
  {
    FilterAll(data, (item: JsValue) => Kept(fs, "", fields, item));
  }

  /** Every kept record satisfies every active filter. */
  lemma KeptSatisfiesFilters(data: seq<JsValue>, fs: map<string, JsValue>, term: string, fields: seq<string>, i: int, key: string)
    requires 0 <= i < |Applied(data, fs, term, fields)|
    requires key in fs && Active(fs[key])
    ensures Matches(Applied(data, fs, term, fields)[i], key, fs[key])
  {
  }
}
