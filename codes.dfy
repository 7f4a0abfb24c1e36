/**
 * Business codes such as "V001", "C042", "P007" or "A013": one prefix letter
 * followed by a number formatted with `%03d`. Two generators exist in the
 * back end: one continues from the most recently inserted code (sales,
 * customers), the other numbers from the row count (products, store items).
 * Java's `Integer.parseInt`, `String.format("%03d")` and `int` overflow are
 * written out here.
 */
module Codes {
  import opened Wrappers
  import opened Text

  const IntMin: int := -0x8000_0000
  const IntMax: int := 0x7FFF_FFFF

  predicate InIntRange(n: int) { IntMin <= n <= IntMax }

  /** Java `int` arithmetic result: two's-complement wrap-around into 32 bits. */
  function WrapInt(n: int): (r: int)
    ensures InIntRange(r)
    ensures (r - n) % 0x1_0000_0000 == 0
    ensures InIntRange(n) ==> r == n
  {
    (n - IntMin) % 0x1_0000_0000 + IntMin
  }

  /**
   * `Integer.parseInt`: an optional `+` or `-`, then at least one digit, and a
   * value that fits in an `int`; anything else is a NumberFormatException (None).
   */
  function ParseInt(s: string): (r: Option<int>)
    ensures r.Some? ==> InIntRange(r.value)
    ensures r.Some? ==> |s| > 0 && (IsDigit(s[0]) || (|s| > 1 && (s[0] == '-' || s[0] == '+')))
  {
    if |s| > 1 && (s[0] == '-' || s[0] == '+') && AllDigits(s[1..]) then
      var magnitude: int := DigitsValue(s[1..]);
      var v := if s[0] == '-' then -magnitude else magnitude;
      if InIntRange(v) then Some(v) else None
    else if |s| > 0 && AllDigits(s) && InIntRange(DigitsValue(s)) then
      Some(DigitsValue(s))
    else
      None
  }

  /** `String.format("%03d", n)`: zero-padded to width 3, the sign counting towards the width. */
  function Format03(n: int): string
  {
    if n >= 0 then PadLeft(NatToString(n), 3, '0') else "-" + PadLeft(NatToString(-n), 2, '0')
  }

  lemma Format03OfNat(n: nat)
    ensures |Format03(n)| >= 3
    ensures AllDigits(Format03(n)) && DigitsValue(Format03(n)) == n
  {
    var s := NatToString(n);
    LeadingZerosKeepValue(|PadLeft(s, 3, '0')| - |s|, s);
    DigitsValueOfNatToString(n);
  }

  /** Parsing what `%03d` printed gives the number back, for every `int`. */
  lemma Format03RoundTrip(n: int)
    requires InIntRange(n)
    ensures ParseInt(Format03(n)) == Some(n)
  {
    if n >= 0 {
      Format03OfNat(n);
    } else {
      var s := NatToString(-n);
      var padded := PadLeft(s, 2, '0');
      LeadingZerosKeepValue(|padded| - |s|, s);
      DigitsValueOfNatToString(-n);
      assert Format03(n)[1..] == padded;
    }
  }

  /** Distinct numbers print as distinct codes. */
  lemma Format03Injective(m: int, n: int)
    requires InIntRange(m) && InIntRange(n) && m != n
    ensures Format03(m) != Format03(n)
  {
    Format03RoundTrip(m);
    Format03RoundTrip(n);
  }

  datatype CodeError =
    | CodeTooShort     // `substring(1)` on an empty code
    | MalformedNumber  // `Integer.parseInt` rejects the rest of the code
    | NonUniqueResult  // a single-result query matched more than one row

  /**
   * The code following `latest`, the code of the most recently inserted row
   * (None when the table is empty): the first character is dropped, the rest
   * parsed as an `int`, incremented with `int` overflow and printed with `%03d`.
   */
  function NextCodeAfter(prefix: char, latest: Option<string>): (r: Result<string, CodeError>)
    ensures latest.None? ==> r == Success([prefix] + "001")
    ensures r.Success? ==> |r.value| >= 4 && r.value[0] == prefix
    ensures r.Failure? <==> latest.Some? && (|latest.value| == 0 || ParseInt(latest.value[1..]).None?)
  {
    match latest
    case None => Success([prefix] + "001")
    case Some(code) =>
      if |code| == 0 then Failure(CodeTooShort)
      else
        match ParseInt(code[1..])
        case None => Failure(MalformedNumber)
        case Some(n) =>
          var next := WrapInt(n + 1);
          assert |Format03(next)| >= 3 by {
            if next >= 0 { Format03OfNat(next); }
          }
          Success([prefix] + Format03(next))
  }

  /** A code issued with number n is followed by the code with number n + 1, whatever its first letter. */
  lemma {:induction false} NextCodeFollowsIssued(prefix: char, first: char, n: int)
    requires IntMin <= n < IntMax
    ensures NextCodeAfter(prefix, Some([first] + Format03(n))) == Success([prefix] + Format03(n + 1))
  {
    var code := [first] + Format03(n);
    assert code[1..] == Format03(n);
    Format03RoundTrip(n);
    assert ParseInt(code[1..]) == Some(n);
    assert WrapInt(n + 1) == n + 1;
  }

  /** "C007" is followed by "C008". */
  lemma NextAfterC007()
    ensures NextCodeAfter('C', Some("C007")) == Success("C008")
  {
    assert Format03(7) == "007" && Format03(8) == "008" by {
      assert NatToString(7) == "7" && NatToString(8) == "8";
      assert Repeat('0', 2) == "00" by { assert Repeat('0', 1) == "0"; }
    }
    NextCodeFollowsIssued('C', 'C', 7);
    assert ['C'] + Format03(7) == "C007";
    assert ['C'] + Format03(8) == "C008";
  }

  /**
   * The latest issued code: the codes are listed in insertion (id) order,
   * so the query sorted by descending id yields the last one first.
   */
  function LatestCode(codes: seq<string>): (r: Option<string>)
    ensures r.None? <==> codes == []
    ensures r.Some? ==> r.value in codes
  {
    if codes == [] then None else Some(codes[|codes| - 1])
  }

  /**
   * Code generation as written: the latest-code query has no row limit but
   * a single-value return type, so it fails as soon as two rows exist.
   */
  function NextCodeAsWritten(prefix: char, codes: seq<string>): (r: Result<string, CodeError>)
    ensures |codes| >= 2 <==> r == Failure(NonUniqueResult)
    ensures codes == [] ==> r == Success([prefix] + "001")
  {
    if |codes| >= 2 then Failure(NonUniqueResult)
    else NextCodeAfter(prefix, LatestCode(codes))
  }

  /** Codes issued one after another by the corrected query keep counting up. */
  lemma {:induction false} IssuedCodesContinue(prefix: char, codes: seq<string>, n: int)
    requires IntMin <= n < IntMax && codes != []
    requires |codes[|codes| - 1]| > 0 && codes[|codes| - 1][1..] == Format03(n)
    ensures NextCodeAfter(prefix, LatestCode(codes)) == Success([prefix] + Format03(n + 1))
  {
    var last := codes[|codes| - 1];
    assert last == [last[0]] + Format03(n);
    NextCodeFollowsIssued(prefix, last[0], n);
  }

  /** The second sale or customer already breaks the as-written generator, where the corrected one continues. */
  lemma SecondCodeBreaksGeneration()
    ensures NextCodeAsWritten('V', ["V001", "V002"]) == Failure(NonUniqueResult)
    ensures NextCodeAfter('V', LatestCode(["V001", "V002"])) == Success("V003")
  {
    assert Format03(2) == "002" && Format03(3) == "003" by {
      assert NatToString(2) == "2" && NatToString(3) == "3";
      assert Repeat('0', 2) == "00" by { assert Repeat('0', 1) == "0"; }
    }
    assert "V002"[1..] == Format03(2);
    IssuedCodesContinue('V', ["V001", "V002"], 2);
    assert ['V'] + Format03(3) == "V003";
  }

  /** The code numbered from a row count: prefix followed by `%03d` of count + 1. */
  function CodeForCount(prefix: char, count: nat): (r: string)
    ensures |r| >= 4 && r[0] == prefix
    ensures AllDigits(r[1..]) && DigitsValue(r[1..]) == count + 1
  {
    Format03OfNat(count + 1);
    assert ([prefix] + Format03(count + 1))[1..] == Format03(count + 1);
    [prefix] + Format03(count + 1)
  }

  /** Different row counts give different codes. */
  lemma CodeForCountInjective(prefix: char, m: nat, n: nat)
    requires m != n
    ensures CodeForCount(prefix, m) != CodeForCount(prefix, n)
  {
  }
}
