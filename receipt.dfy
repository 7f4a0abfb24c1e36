/**
 * The printed sales receipt: the subtotal recomputed from the sale's lines
 * and the amount written out in Spanish words ("CIENTO UNO CON 00/100 SOLES").
 * Only the integer part of the amount is modelled; its two-digit fraction is
 * then always "00".
 */
module SalesReceipt {
  import opened Wrappers
  import opened Text
  import Collections
  import SaleModel

  const Units: seq<string> := ["", "UNO", "DOS", "TRES", "CUATRO", "CINCO", "SEIS", "SIETE", "OCHO", "NUEVE"]
  const Tens: seq<string> := ["", "", "VEINTE", "TREINTA", "CUARENTA", "CINCUENTA", "SESENTA", "SETENTA", "OCHENTA", "NOVENTA"]
  const Teens: seq<string> := ["DIEZ", "ONCE", "DOCE", "TRECE", "CATORCE", "QUINCE", "DIECIS\U{00C9}IS", "DIECISIETE", "DIECIOCHO", "DIECINUEVE"]
  const Hundreds: seq<string> := ["", "CIENTO", "DOSCIENTOS", "TRESCIENTOS", "CUATROCIENTOS", "QUINIENTOS", "SEISCIENTOS", "SETECIENTOS", "OCHOCIENTOS", "NOVECIENTOS"]

  /** The fraction and currency appended to an integral amount. */
  const Suffix: string := " CON 00/100 SOLES"

  predicate IsLetter(c: char) { IsUpper(c) || c == '\U{00C9}' }

  /** Letters and spaces only: no digit, no fraction bar. */
  predicate Spelled(s: string)
  {
    forall i :: 0 <= i < |s| ==> IsLetter(s[i]) || s[i] == ' '
  }

  /** A word of the tables: letters only. */
  predicate Word(s: string)
  {
    |s| > 0 && forall i :: 0 <= i < |s| ==> IsLetter(s[i])
  }

  lemma UnitIsWord(d: nat)
    requires 1 <= d < 10
    ensures Word(Units[d])
  {
  }

  lemma TensIsWord(d: nat)
    requires 2 <= d < 10
    ensures Word(Tens[d])
  {
  }

  lemma TeenIsWord(d: nat)
    requires d < 10
    ensures Word(Teens[d])
  {
  }

  lemma HundredIsWord(d: nat)
    requires 1 <= d < 10
    ensures Word(Hundreds[d])
  {
  }

  /**
   * Trimming a string that opens with a letter only drops trailing
   * whitespace: the result is a non-empty prefix, ending in a non-space.
   */
  lemma TrimFromLetter(s: string)
    requires |s| > 0 && IsLetter(s[0])
    ensures var t := Trim(s);
      0 < |t| <= |s| && t == s[..|t|] && !IsSpace(t[|t| - 1])
      && forall i :: |t| <= i < |s| ==> IsSpace(s[i])
  {
    assert TrimStart(s) == s;
    assert !IsSpace(s[0]);
  }

  /** Trimming keeps every character that is not whitespace. */
  lemma TrimKeepsNonSpace(s: string, p: int)
    requires |s| > 0 && IsLetter(s[0])
    requires 0 <= p < |s| && !IsSpace(s[p])
    ensures s[p] in Trim(s)
  {
    TrimFromLetter(s);
    assert Trim(s)[p] == s[p];
  }

  /** A spelled string that opens with a letter stays spelled when trimmed. */
  lemma TrimSpelled(s: string)
    requires Spelled(s) && |s| > 0 && IsLetter(s[0])
    ensures Spelled(Trim(s)) && |Trim(s)| > 0 && IsLetter(Trim(s)[0])
  {
    TrimFromLetter(s);
  }

  /** A word has nothing to trim. */
  lemma TrimWord(s: string)
    requires Word(s)
    ensures Trim(s) == s
  {
    assert TrimStart(s) == s;
    assert !IsSpace(s[|s| - 1]);
  }

  /** The tens, teens and units of a number below one hundred (empty for zero). */
  function TwoDigitWords(m: nat): (r: string)
    requires m < 100
    ensures m == 0 <==> r == ""
    ensures Spelled(r)
    ensures r != "" ==> IsLetter(r[0]) && IsLetter(r[|r| - 1])
  {
    if m >= 20 then
      TensIsWord(m / 10);
      var words := Tens[m / 10];
      if m % 10 > 0 then
        UnitIsWord(m % 10);
        words + " Y " + Units[m % 10]
      else words
    else if m >= 10 then
      TeenIsWord(m - 10);
      Teens[m - 10]
    else if m > 0 then
      UnitIsWord(m);
      Units[m]
    else Units[m]
  }

  /** The words a number below one thousand accumulates: the hundreds word and a space, then the rest. */
  function SmallWords(n: nat): (r: string)
    requires 0 < n < 1000
    ensures Spelled(r) && |r| > 0 && IsLetter(r[0])
  {
    var words := if n >= 100 then HundredIsWord(n / 100); Hundreds[n / 100] + " " else "";
    words + TwoDigitWords(n % 100)
  }

  /**
   * The words of an amount from one thousand on: "MIL " alone for one
   * thousand, else the thousands' words and " MIL ", then the remainder's
   * words when the remainder is not zero.
   */
  function ThousandsWords(thousands: nat, thousandsWords: string, remainder: nat, remainderWords: string): (r: string)
    requires thousands == 1 || (|thousandsWords| > 0 && IsLetter(thousandsWords[0]))
    ensures |r| > 0 && IsLetter(r[0])
    ensures (thousands == 1 || Spelled(thousandsWords)) && (remainder == 0 || Spelled(remainderWords)) ==> Spelled(r)
  {
    var head := if thousands == 1 then "MIL " else thousandsWords + " MIL ";
    if remainder > 0 then head + remainderWords else head
  }

  /**
   * `convertNumberToWords` as written, for an integral amount. Zero and one
   * hundred are answered directly; every other amount gets the fraction and
   * currency suffix, and so do the recursive calls for the thousands and the
   * remainder, whose suffixes end up inside the words.
   */
  function ConvertNumberToWords(num: nat): (r: string)
    ensures |r| > 0 && IsLetter(r[0])
    ensures EndsWith(r, Suffix) <==> num != 0 && num != 100
    decreases num
  {
    if num == 0 then "CERO"
    else if num == 100 then "CIEN"
    else
      var words :=
        if num >= 1000 then
          ThousandsWords(num / 1000, ConvertNumberToWords(num / 1000), num % 1000, ConvertNumberToWords(num % 1000))
        else SmallWords(num);
      TrimFromLetter(words);
      Suffixed(Trim(words));
      Trim(words) + Suffix
  }

  /** The words in front of the final suffix. */
  function WordsPart(r: string): string
  {
    if |r| >= |Suffix| then r[..|r| - |Suffix|] else r
  }

  /** From one thousand on, the words are the trimmed thousands words and the suffix. */
  lemma ThousandsAmount(n: nat)
    requires n >= 1000
    ensures ConvertNumberToWords(n)
      == Trim(ThousandsWords(n / 1000, ConvertNumberToWords(n / 1000), n % 1000, ConvertNumberToWords(n % 1000))) + Suffix
  {
  }

  /** A suffixed piece inside words that open with a letter leaves its fraction bar in the trimmed words. */
  lemma BarSurvivesTrim(words: string, w: string, k: nat)
    requires |words| > 0 && IsLetter(words[0])
    requires k + |w| <= |words| && words[k..k + |w|] == w && EndsWith(w, Suffix)
    ensures '/' in Trim(words)
  {
    var p := k + |w| - |Suffix| + 7;
    assert w[p - k] == Suffix[7];
    assert words[p] == w[p - k];
    TrimKeepsNonSpace(words, p);
  }

  /**
   * From one thousand on, the written-out amount repeats the fraction:
   * whenever the thousands or the remainder are spelled by a recursive call
   * that adds its own suffix, a "/" shows up among the words.
   */
  lemma ThousandsRepeatTheFraction(n: nat)
    requires n >= 1000
    requires (n / 1000 != 1 && n / 1000 != 100) || (n % 1000 != 0 && n % 1000 != 100)
    ensures '/' in WordsPart(ConvertNumberToWords(n))
  {
    var thousands, remainder := n / 1000, n % 1000;
    var tw, rw := ConvertNumberToWords(thousands), ConvertNumberToWords(remainder);
    ThousandsAmount(n);
    Suffixed(Trim(ThousandsWords(thousands, tw, remainder, rw)));
    SuffixedPartLeavesBar(thousands, tw, remainder, rw);
  }

  /** If the thousands' or the remainder's words carry the suffix, the joined words keep its fraction bar. */
  lemma SuffixedPartLeavesBar(thousands: nat, tw: string, remainder: nat, rw: string)
    requires thousands == 1 || (|tw| > 0 && IsLetter(tw[0]))
    requires (thousands != 1 && EndsWith(tw, Suffix)) || (remainder != 0 && EndsWith(rw, Suffix))
    ensures '/' in Trim(ThousandsWords(thousands, tw, remainder, rw))
  {
    var words := ThousandsWords(thousands, tw, remainder, rw);
    var head := if thousands == 1 then "MIL " else tw + " MIL ";
    var tail := if remainder > 0 then rw else "";
    assert words == head + tail;
    if thousands != 1 && EndsWith(tw, Suffix) {
      assert words[0..|tw|] == tw;
      BarSurvivesTrim(words, tw, 0);
    } else {
      assert words[|head|..|head| + |rw|] == rw;
      BarSurvivesTrim(words, rw, |head|);
    }
  }

  /** 2000 reads "DOS CON 00/100 SOLES MIL CON 00/100 SOLES": the amount carries two fractions. */
  lemma TwoThousandRepeatsTheFraction()
    ensures ConvertNumberToWords(2000) == "DOS" + Suffix + " MIL" + Suffix
    ensures '/' in WordsPart(ConvertNumberToWords(2000))
  {
    var n := 2000;
    TwoThousandInWords(n);
    ThousandsRepeatTheFraction(n);
  }

  /** Two thousand is the words of two, " MIL" and the suffix once more. */
  lemma TwoThousandInWords(n: nat)
    requires n == 2000
    ensures ConvertNumberToWords(n) == "DOS" + Suffix + " MIL" + Suffix
  {
    assert Units[2] == "DOS";
    UnitsFromTable(2);
    WholeThousands(2);
    assert n == 1000 * 2;
  }

  /** A whole number of thousands, other than one, reads as the thousands' own words, " MIL" and the suffix. */
  lemma WholeThousands(t: nat)
    requires t >= 2
    ensures ConvertNumberToWords(1000 * t) == ConvertNumberToWords(t) + " MIL" + Suffix
  {
    var n := 1000 * t;
    assert n / 1000 == t && n % 1000 == 0;
    var tw := ConvertNumberToWords(t);
    ThousandsAmount(n);
    ThousandsWithoutRemainder(t, tw, ConvertNumberToWords(0));
    TrimDropsFinalSpace(tw + " MIL");
  }

  /** With no remainder the words end in " MIL ", the space the trim removes. */
  lemma ThousandsWithoutRemainder(thousands: nat, thousandsWords: string, remainderWords: string)
    requires thousands != 1 && |thousandsWords| > 0 && IsLetter(thousandsWords[0])
    ensures ThousandsWords(thousands, thousandsWords, 0, remainderWords) == (thousandsWords + " MIL") + " "
  {
  }

  /** Words that open with a letter and end in a non-space lose exactly one appended space when trimmed. */
  lemma TrimDropsFinalSpace(s: string)
    requires |s| > 0 && IsLetter(s[0]) && !IsSpace(s[|s| - 1])
    ensures Trim(s + " ") == s
  {
    var w := s + " ";
    TrimFromLetter(w);
    var t := Trim(w);
    assert w[|s| - 1] == s[|s| - 1];
    assert IsSpace(w[|s|]);
    assert |t| == |s|;
    assert t == w[..|s|] == s;
  }

  /** The words of an integral amount, without any fraction or currency. */
  function AmountWords(num: nat): (r: string)
    ensures Spelled(r) && |r| > 0 && IsLetter(r[0])
    decreases num
  {
    if num == 0 then "CERO"
    else if num == 100 then "CIEN"
    else
      var words :=
        if num >= 1000 then
          ThousandsWords(num / 1000, AmountWords(num / 1000), num % 1000, AmountWords(num % 1000))
        else SmallWords(num);
      TrimSpelled(words);
      Trim(words)
  }

  /** Appending the suffix: the result ends with it, and the words in front are given back. */
  lemma Suffixed(w: string)
    ensures EndsWith(w + Suffix, Suffix) && WordsPart(w + Suffix) == w
  {
    assert (w + Suffix)[|w|..] == Suffix;
  }

  /** The amount with the suffix added once, after all the words. */
  function ConvertNumberToWordsCorrected(num: nat): (r: string)
    ensures EndsWith(r, Suffix) <==> num != 0 && num != 100
    ensures num != 0 && num != 100 ==> |WordsPart(r)| > 0 && Spelled(WordsPart(r))
  {
    if num == 0 then "CERO"
    else if num == 100 then "CIEN"
    else
      Suffixed(AmountWords(num));
      AmountWords(num) + Suffix
  }

  /** Below one thousand there is no recursion, and the written and corrected forms agree. */
  lemma CorrectedAgreesBelowThousand(num: nat)
    requires num < 1000
    ensures ConvertNumberToWordsCorrected(num) == ConvertNumberToWords(num)
  {
  }

  /** Zero and one hundred are answered without the fraction and currency. */
  lemma ZeroAndHundred()
    ensures ConvertNumberToWords(0) == "CERO" && ConvertNumberToWords(100) == "CIEN"
    ensures !EndsWith(ConvertNumberToWords(0), Suffix) && !EndsWith(ConvertNumberToWords(100), Suffix)
  {
  }

  /** Below one thousand, other than zero and one hundred, the words are the trimmed table words and the suffix. */
  lemma SmallAmount(n: nat)
    requires 0 < n < 1000 && n != 100
    ensures ConvertNumberToWords(n) == Trim(SmallWords(n)) + Suffix
  {
  }


  /** Ten to nineteen spell as the teens word. */
  lemma TeenWords(n: nat)
    requires 10 <= n < 20
    ensures SmallWords(n) == Teens[n - 10] && Trim(Teens[n - 10]) == Teens[n - 10]
  {
    assert n % 100 == n;
    TeenIsWord(n - 10);
    TrimWord(Teens[n - 10]);
  }

  /** One to nine spell as the units word. */
  lemma UnitWords(n: nat)
    requires 1 <= n < 10
    ensures SmallWords(n) == Units[n] && Trim(Units[n]) == Units[n]
  {
    assert n % 100 == n;
    assert TwoDigitWords(n) == Units[n];
    UnitIsWord(n);
    TrimWord(Units[n]);
  }

  /** One to nine come from the units table. */
  lemma UnitsFromTable(n: nat)
    requires 1 <= n < 10
    ensures ConvertNumberToWords(n) == Units[n] + Suffix
  {
    SmallAmount(n);
    UnitWords(n);
  }

  /** Ten to nineteen come from the teens table. */
  lemma TeensFromTable(n: nat)
    requires 10 <= n < 20
    ensures ConvertNumberToWords(n) == Teens[n - 10] + Suffix
  {
    SmallAmount(n);
    TeenWords(n);
  }

  /** Twenty to ninety-nine with a unit spell as the tens word, " Y " and the unit word. */
  lemma TensAndUnitWords(n: nat)
    requires 20 <= n < 100 && n % 10 != 0
    ensures var words := Tens[n / 10] + " Y " + Units[n % 10];
      SmallWords(n) == words && Trim(words) == words
  {
    var words := Tens[n / 10] + " Y " + Units[n % 10];
    assert n % 100 == n;
    TrimFromLetter(words);
    UnitIsWord(n % 10);
    assert !IsSpace(words[|words| - 1]);
  }

  /** Twenty to ninety-nine with a non-zero unit read "<tens> Y <unit>". */
  lemma TensAndUnit(n: nat)
    requires 20 <= n < 100 && n % 10 != 0
    ensures ConvertNumberToWords(n) == Tens[n / 10] + " Y " + Units[n % 10] + Suffix
  {
    SmallAmount(n);
    TensAndUnitWords(n);
  }

  /** Above one hundred the hundreds word comes first, then the rest of the number, if any. */
  lemma HundredsFromTable(n: nat)
    requires 100 < n < 1000
    ensures n % 100 == 0 ==> ConvertNumberToWords(n) == Hundreds[n / 100] + Suffix
    ensures n % 100 != 0 ==> ConvertNumberToWords(n) == Hundreds[n / 100] + " " + TwoDigitWords(n % 100) + Suffix
  {
    SmallAmount(n);
    HundredWords(n);
  }

  lemma HundredWords(n: nat)
    requires 100 < n < 1000
    ensures n % 100 == 0 ==> Trim(SmallWords(n)) == Hundreds[n / 100]
    ensures n % 100 != 0 ==> Trim(SmallWords(n)) == Hundreds[n / 100] + " " + TwoDigitWords(n % 100)
  {
    var h, two := Hundreds[n / 100], TwoDigitWords(n % 100);
    HundredIsWord(n / 100);
    var words := SmallWords(n);
    assert words == h + " " + two;
    if n % 100 == 0 {
      assert words == h + " ";
      TrimDropsFinalSpace(h);
    } else {
      assert words[|words| - 1] == two[|two| - 1];
      TrimLetterEnds(words);
    }
  }

  /** Words that open and close with a letter have nothing to trim. */
  lemma TrimLetterEnds(s: string)
    requires |s| > 0 && IsLetter(s[0]) && IsLetter(s[|s| - 1])
    ensures Trim(s) == s
  {
    TrimFromLetter(s);
  }

  lemma HundredAndOneParts()
    ensures Hundreds[1] + " " + TwoDigitWords(1) + Suffix == "CIENTO UNO CON 00/100 SOLES"
  {
    assert TwoDigitWords(1) == "UNO";
  }

  /** One hundred and one reads "CIENTO UNO CON 00/100 SOLES". */
  lemma HundredAndOne(n: nat)
    requires n == 101
    ensures ConvertNumberToWords(n) == "CIENTO UNO CON 00/100 SOLES"
  {
    HundredsFromTable(n);
    HundredAndOneParts();
  }
  /** A line of the sale as the receipt shows it: quantity and unit price (cents). */
  datatype ReceiptLine = ReceiptLine(quantity: int, unitPrice: int)

  function LineAmount(line: ReceiptLine): int { line.quantity * line.unitPrice }

  /** `calculateSubtotal`: nothing to add up without a sale or its details, else the sum of quantity times price. */
  function CalculateSubtotal(details: Option<seq<ReceiptLine>>): int
  {
    match details
    case None => 0
    case Some(lines) => Collections.Sum(lines, LineAmount)
  }

  /** With no negative quantity or price the subtotal is not negative; without details it is zero. */
  lemma SubtotalNonNegative(details: Option<seq<ReceiptLine>>)
    requires details.Some? ==> forall i :: 0 <= i < |details.value| ==>
               details.value[i].quantity >= 0 && details.value[i].unitPrice >= 0
    ensures CalculateSubtotal(details) >= 0
    ensures details.None? ==> CalculateSubtotal(details) == 0
  {
    if details.Some? {
      var lines := details.value;
      forall i | 0 <= i < |lines| ensures LineAmount(lines[i]) >= 0 {
        assert lines[i].quantity >= 0 && lines[i].unitPrice >= 0;
      }
      Collections.SumNonNegative(lines, LineAmount);
    }
  }

  /** The subtotal of two runs of lines is the sum of their subtotals. */
  lemma SubtotalOfConcatenation(a: seq<ReceiptLine>, b: seq<ReceiptLine>)
    ensures CalculateSubtotal(Some(a + b)) == CalculateSubtotal(Some(a)) + CalculateSubtotal(Some(b))
  {
    Collections.SumAppend(a, b, LineAmount);
  }

  /** The receipt's view of a sale detail. */
  function Views(details: seq<SaleModel.SaleDetail>): (r: seq<ReceiptLine>)
    reads details
    ensures |r| == |details|
    ensures forall i :: 0 <= i < |details| ==>
      r[i] == ReceiptLine(details[i].quantity.GetOr(0), details[i].unitPrice.GetOr(0))
  {
    seq(|details|, i reads details requires 0 <= i < |details| =>
      ReceiptLine(details[i].quantity.GetOr(0), details[i].unitPrice.GetOr(0)))
  }

  lemma {:induction false} ViewsAddUp(details: seq<SaleModel.SaleDetail>)
    ensures Collections.Sum(Views(details), LineAmount) == SaleModel.Amount(details)
    decreases |details|
  {
    if details != [] {
      var init := details[..|details| - 1];
      var last := details[|details| - 1];
      assert Views(details) == Views(init) + [Views(details)[|details| - 1]];
      ViewsAddUp(init);
      Collections.SumAppend(Views(init), [Views(details)[|details| - 1]], LineAmount);
      assert Collections.Sum([Views(details)[|details| - 1]], LineAmount) == last.quantity.GetOr(0) * last.unitPrice.GetOr(0);
    }
  }

  /** Once every line is priced, the receipt recomputes exactly the total the sale stores. */
  lemma ReceiptMatchesSaleTotal(details: seq<SaleModel.SaleDetail>)
    requires SaleModel.Priced(details)
    ensures CalculateSubtotal(Some(Views(details))) == SaleModel.SubtotalSum(details)
  {
    SaleModel.PricedTotalIsAmount(details);
    ViewsAddUp(details);
  }
}
