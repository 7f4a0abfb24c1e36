/**
 * The form validators of the front end. Each takes the control's value and
 * answers None (valid) or the error it reports: a key and a message. String
 * validators take the value as a string, the empty string standing for every
 * falsy value (empty, null, undefined), which they all let through. Numeric
 * validators take Option<real>, None standing for null or undefined; a number
 * is the decimal its shortest printed form denotes. Regular expressions are
 * written out as character classes and split points.
 */
module Validators {
  import opened Wrappers
  import opened Text

  datatype ValidationError = ValidationError(key: string, message: string)

  /** The accented letters and eñes the name patterns admit: á é í ó ú Á É Í Ó Ú ñ Ñ. */
  predicate IsAccented(c: char)
  {
    c == '\U{E1}' || c == '\U{E9}' || c == '\U{ED}' || c == '\U{F3}' || c == '\U{FA}'
    || c == '\U{C1}' || c == '\U{C9}' || c == '\U{CD}' || c == '\U{D3}' || c == '\U{DA}'
    || c == '\U{F1}' || c == '\U{D1}'
  }

  predicate IsAlnum(c: char) { IsAsciiLetter(c) || IsDigit(c) }

  /** `[a-zA-ZáéíóúÁÉÍÓÚñÑ\s]` */
  predicate IsNameChar(c: char) { IsAsciiLetter(c) || IsAccented(c) || IsSpace(c) }

  /** `[a-zA-Z0-9áéíóúÁÉÍÓÚñÑ\s\.\-&,]` */
  predicate IsBusinessNameChar(c: char)
  {
    IsNameChar(c) || IsDigit(c) || c == '.' || c == '-' || c == '&' || c == ','
  }

  /** `[a-zA-Z0-9._%+-]`, the local part of an email address. */
  predicate IsLocalChar(c: char)
  {
    IsAlnum(c) || c == '.' || c == '_' || c == '%' || c == '+' || c == '-'
  }

  /** `[a-zA-Z0-9.-]`, the domain of an email address before its last label. */
  predicate IsDomainChar(c: char) { IsAlnum(c) || c == '.' || c == '-' }

  /** `[\da-z\.-]`, the host of a URL. */
  predicate IsHostChar(c: char) { IsDigit(c) || IsLower(c) || c == '.' || c == '-' }

  /** `[a-z\.]`, the top-level part of a URL host. */
  predicate IsTldChar(c: char) { IsLower(c) || c == '.' }

  /** `[\/\w \.-]`, the path of a URL. */
  predicate IsPathChar(c: char) { c == '/' || IsWordChar(c) || c == ' ' || c == '.' || c == '-' }

  predicate IsAscii(c: char) { c as int < 128 }

  /** The value consists of exactly `n` ASCII digits (`^[0-9]{n}$`). */
  predicate DigitsOfLength(s: string, n: nat) { |s| == n && AllDigits(s) }

  /** Two whitespace characters in a row (`\s{2,}`). */
  predicate HasDoubleSpace(s: string)
  {
    exists i | 0 <= i < |s| - 1 :: IsSpace(s[i]) && IsSpace(s[i + 1])
  }

  /** `trim()` would change the value: it starts or ends with whitespace. */
  predicate Padded(s: string) { |s| > 0 && (IsSpace(s[0]) || IsSpace(s[|s| - 1])) }

  // ---- name, spaces and codes ----

  function Name(value: string): (r: Option<ValidationError>)
    ensures r.None? <==> value == "" || (AllChars(value, IsNameChar) && !Padded(value))
    ensures r.Some? && value != "" && AllChars(value, IsNameChar) ==> r.value.message == "No puede empezar o terminar con espacios"
    ensures r.Some? ==> r.value.key == "invalidName"
  {
    if value == "" then None
    else if !AllChars(value, IsNameChar) then Some(ValidationError("invalidName", "Solo se permiten letras y espacios"))
    else if Trim(value) != value then
      TrimChangesPadded(value);
      Some(ValidationError("invalidName", "No puede empezar o terminar con espacios"))
    else
      TrimChangesPadded(value);
      None
  }

  /** `trim()` changes a string exactly when it starts or ends with whitespace. */
  lemma TrimChangesPadded(s: string)
    ensures Trim(s) != s <==> Padded(s)
  {
    if |s| > 0 && IsSpace(s[0]) {
      assert |Trim(s)| <= |TrimStart(s)| < |s|;
    } else {
      assert TrimStart(s) == s;
      if |s| > 0 && IsSpace(s[|s| - 1]) {
        assert |TrimEnd(s)| < |s|;
      } else {
        assert TrimEnd(s) == s;
      }
    }
  }

  function NoMultipleSpaces(value: string): (r: Option<ValidationError>)
    ensures r.None? <==> !HasDoubleSpace(value)
    ensures r.Some? ==> r.value.key == "multipleSpaces"
  {
    if value == "" then None
    else if HasDoubleSpace(value) then Some(ValidationError("multipleSpaces", "No se permiten espacios m\U{FA}ltiples"))
    else None
  }

  function Dni(value: string): (r: Option<ValidationError>)
    ensures r.None? <==> value == "" || DigitsOfLength(value, 8)
    ensures r.Some? ==> r.value.key == "invalidDni"
  {
    if value == "" then None
    else if !DigitsOfLength(value, 8) then Some(ValidationError("invalidDni", "El DNI debe tener 8 d\U{ED}gitos"))
    else None
  }

  const RucLengthMessage := "El RUC debe tener 11 d\U{ED}gitos"
  const RucPrefixMessage := "El RUC debe empezar con 10 o 20"

  /** Eleven digits are checked first; only then the "10" or "20" prefix, with its own message. */
  function Ruc(value: string): (r: Option<ValidationError>)
    ensures r.None? <==> value == "" || (DigitsOfLength(value, 11) && (value[..2] == "10" || value[..2] == "20"))
    ensures r == Some(ValidationError("invalidRuc", RucLengthMessage)) <==> value != "" && !DigitsOfLength(value, 11)
    ensures r == Some(ValidationError("invalidRuc", RucPrefixMessage)) <==>
      (value != "" && DigitsOfLength(value, 11) && value[..2] != "10" && value[..2] != "20")
  {
    if value == "" then None
    else if !DigitsOfLength(value, 11) then Some(ValidationError("invalidRuc", RucLengthMessage))
    else if !StartsWith(value, "10") && !StartsWith(value, "20") then Some(ValidationError("invalidRuc", RucPrefixMessage))
    else None
  }

  /** `^9[0-9]{8}$` */
  predicate MobileNumber(s: string) { |s| == 9 && s[0] == '9' && AllDigits(s) }

  function Phone(value: string): (r: Option<ValidationError>)
    ensures r.None? <==> value == "" || MobileNumber(value)
    ensures r.Some? ==> r.value.key == "invalidPhone"
  {
    if value == "" then None
    else if !MobileNumber(value) then Some(ValidationError("invalidPhone", "El tel\U{E9}fono debe tener 9 d\U{ED}gitos y empezar con 9"))
    else None
  }

  function PeruvianPhone(value: string): (r: Option<ValidationError>)
    ensures r.None? <==> value == "" || MobileNumber(value)
    ensures r.Some? ==> r.value.key == "peruvianPhone"
  {
    if value == "" then None
    else if !MobileNumber(value) then Some(ValidationError("peruvianPhone", "Debe comenzar con 9 y tener 9 d\U{ED}gitos"))
    else None
  }

  function Alphanumeric(value: string): (r: Option<ValidationError>)
    ensures r.None? <==> forall i :: 0 <= i < |value| ==> IsAlnum(value[i])
    ensures r.Some? ==> r.value.key == "invalidCode"
  {
    if value == "" then None
    else if !AllChars(value, IsAlnum) then Some(ValidationError("invalidCode", "Solo se permiten letras y n\U{FA}meros"))
    else None
  }

  function NoOnlySpaces(value: string): (r: Option<ValidationError>)
    ensures r.Some? <==> value != "" && forall i :: 0 <= i < |value| ==> IsSpace(value[i])
  {
    TrimEmptyIffAllSpace(value);
    if value == "" then None
    else if |Trim(value)| == 0 then Some(ValidationError("noOnlySpaces", "No puede contener solo espacios"))
    else None
  }

  function NoSpecialCharactersStart(value: string): (r: Option<ValidationError>)
    ensures r.Some? <==> value != "" && !IsAlnum(value[0])
  {
    if value == "" then None
    else if !IsAlnum(value[0]) then Some(ValidationError("noSpecialCharactersStart", "No puede comenzar con caracteres especiales"))
    else None
  }

  function BusinessName(value: string): (r: Option<ValidationError>)
    ensures r.None? <==> forall i :: 0 <= i < |value| ==> IsBusinessNameChar(value[i])
  {
    if value == "" then None
    else if !AllChars(value, IsBusinessNameChar) then Some(ValidationError("businessName", "Nombre de empresa inv\U{E1}lido"))
    else None
  }

  function AlphabeticWithSpaces(value: string): (r: Option<ValidationError>)
    ensures r.None? <==> forall i :: 0 <= i < |value| ==> IsNameChar(value[i])
  {
    if value == "" then None
    else if !AllChars(value, IsNameChar) then Some(ValidationError("alphabeticWithSpaces", "Solo se permiten letras y espacios"))
    else None
  }

  function ValidAddress(value: string): (r: Option<ValidationError>)
    ensures r.None? <==> value == "" || ((exists i :: 0 <= i < |value| && IsAsciiLetter(value[i])) && (exists i :: 0 <= i < |value| && IsDigit(value[i])))
  {
    var hasLetter := exists i | 0 <= i < |value| :: IsAsciiLetter(value[i]);
    var hasNumber := exists i | 0 <= i < |value| :: IsDigit(value[i]);
    if value == "" then None
    else if !hasLetter || !hasNumber then Some(ValidationError("validAddress", "La direcci\U{F3}n debe contener letras y n\U{FA}meros"))
    else None
  }

  // ---- numbers ----

  predicate Integral(x: real) { x.Floor as real == x }

  /** At most two decimals: the value is a whole number of hundredths. */
  predicate TwoDecimals(x: real) { Integral(x * 100.0) }

  const PriceMax: real := 999999.99

  /**
   * Zero is falsy and therefore accepted; otherwise positive, at most two
   * decimals and at most 999999.99, checked in that order.
   */
  function Price(value: real): (r: Option<ValidationError>)
    ensures r.None? <==> value == 0.0 || (0.0 < value <= PriceMax && TwoDecimals(value))
    ensures r.Some? ==> r.value.key == "invalidPrice"
    ensures value < 0.0 ==> r == Some(ValidationError("invalidPrice", "El precio debe ser mayor a 0"))
  {
    if value == 0.0 then None
    else if value <= 0.0 then Some(ValidationError("invalidPrice", "El precio debe ser mayor a 0"))
    else if !TwoDecimals(value) then Some(ValidationError("invalidPrice", "M\U{E1}ximo 2 decimales"))
    else if value > PriceMax then Some(ValidationError("invalidPrice", "Precio demasiado alto"))
    else None
  }

  const StockMax: real := 999999.0

  /** A whole number from 0 to 999999; the integer check comes first, then the sign, then the bound. */
  function Stock(value: Option<real>): (r: Option<ValidationError>)
    ensures r.None? <==> value.None? || (Integral(value.value) && 0.0 <= value.value <= StockMax)
    ensures r.Some? ==> r.value.key == "invalidStock"
    ensures value.Some? && !Integral(value.value) ==> r == Some(ValidationError("invalidStock", "El stock debe ser un n\U{FA}mero entero"))
    ensures value.Some? && Integral(value.value) && value.value < 0.0 ==> r == Some(ValidationError("invalidStock", "El stock no puede ser negativo"))
  {
    match value
    case None => None
    case Some(v) =>
      if !Integral(v) then Some(ValidationError("invalidStock", "El stock debe ser un n\U{FA}mero entero"))
      else if v < 0.0 then Some(ValidationError("invalidStock", "El stock no puede ser negativo"))
      else if v > StockMax then Some(ValidationError("invalidStock", "Stock demasiado alto"))
      else None
  }

  /** Unlike the falsy-tolerant validators, zero is rejected here. */
  function PositiveNumber(value: Option<real>): (r: Option<ValidationError>)
    ensures r.None? <==> value.None? || value.value > 0.0
  {
    if value.Some? && value.value <= 0.0 then Some(ValidationError("invalidNumber", "Debe ser un n\U{FA}mero positivo")) else None
  }

  function NumberRange(min: real, max: real, value: Option<real>): (r: Option<ValidationError>)
    ensures r.None? <==> value.None? || min <= value.value <= max
  {
    if value.Some? && (value.value < min || value.value > max) then
      Some(ValidationError("outOfRange", "El valor debe estar entre " + RealText(min) + " y " + RealText(max)))
    else None
  }

  /** The bounds as they appear in the out-of-range message: whole bounds print as integers. */
  function RealText(x: real): string
  {
    if Integral(x) then IntToString(x.Floor) else "<" + IntToString(x.Floor) + "+>"
  }

  /** Despite its name, zero passes: only non-integers and negatives are rejected. None also stands for the empty string. */
  function PositiveInteger(value: Option<real>): (r: Option<ValidationError>)
    ensures r.None? <==> value.None? || (Integral(value.value) && value.value >= 0.0)
    ensures value.Some? && !Integral(value.value) ==> r == Some(ValidationError("positiveInteger", "Debe ser un n\U{FA}mero entero"))
  {
    match value
    case None => None
    case Some(v) =>
      if !Integral(v) then Some(ValidationError("positiveInteger", "Debe ser un n\U{FA}mero entero"))
      else if v < 0.0 then Some(ValidationError("positiveInteger", "Debe ser un n\U{FA}mero positivo"))
      else None
  }

  // ---- URLs ----

  /**
   * `^(https?:\/\/)?([\da-z\.-]+)\.([a-z\.]{2,6})([\/\w \.-]*)*\/?$`: an
   * optional scheme, a non-empty host, a dot, two to six top-level
   * characters and a path; the final optional slash is a path character.
   */
  predicate UrlShape(s: string)
  {
    exists k, d, e | 0 <= k <= d < e <= |s| :: UrlSplit(s, k, d, e)
  }

  /** The pattern's split points: scheme up to `k`, host up to the dot at `d`, top-level part up to `e`, path after it. */
  predicate UrlSplit(s: string, k: int, d: int, e: int)
  {
    && 0 <= k < d < e <= |s|
    && (s[..k] == "" || s[..k] == "http://" || s[..k] == "https://")
    && AllChars(s[k..d], IsHostChar) && s[d] == '.'
    && 2 <= e - d - 1 <= 6 && AllChars(s[d + 1..e], IsTldChar)
    && AllChars(s[e..], IsPathChar)
  }

  const ImageExtensions: seq<string> := [".jpg", ".jpeg", ".png", ".gif", ".webp", ".svg"]

  predicate HasImageExtension(s: string)
  {
    exists i | 0 <= i < |ImageExtensions| :: Contains(Lower(s), ImageExtensions[i])
  }

  predicate DataImage(s: string) { StartsWith(s, "data:image/") }

  /** A data URI for an image passes unchecked; any other value must be a URL that mentions an image extension. */
  function ImageUrl(value: string): (r: Option<ValidationError>)
    ensures r.None? <==> value == "" || DataImage(value) || (UrlShape(value) && HasImageExtension(value))
    ensures r.Some? ==> r.value.key == "invalidUrl"
    ensures r == Some(ValidationError("invalidUrl", "URL inv\U{E1}lida")) <==> value != "" && !DataImage(value) && !UrlShape(value)
  {
    if value == "" then None
    else if DataImage(value) then None
    else if !UrlShape(value) then Some(ValidationError("invalidUrl", "URL inv\U{E1}lida"))
    else if !HasImageExtension(value) then Some(ValidationError("invalidUrl", "La URL debe ser de una imagen"))
    else None
  }

  /** The three accepted scheme prefixes are ASCII. */
  lemma SchemeIsAscii(scheme: string)
    requires scheme == "" || scheme == "http://" || scheme == "https://"
    ensures forall i :: 0 <= i < |scheme| ==> IsAscii(scheme[i])
  {
  }

  /** A URL that passes the pattern is plain ASCII, so lower-casing its ASCII letters is all `toLowerCase` does to it. */
  lemma UrlShapeIsAscii(s: string)
    requires UrlShape(s)
    ensures forall i :: 0 <= i < |s| ==> IsAscii(s[i])
  {
    var k, d, e :| 0 <= k <= d < e <= |s| && UrlSplit(s, k, d, e);
    SchemeIsAscii(s[..k]);
    forall i | 0 <= i < k ensures IsAscii(s[i]) {
      assert s[i] == s[..k][i];
    }
    forall i | k <= i < d ensures IsAscii(s[i]) {
      assert s[i] == s[k..d][i - k];
    }
    forall i | d < i < e ensures IsAscii(s[i]) {
      assert s[i] == s[d + 1..e][i - d - 1];
    }
    forall i | e <= i < |s| ensures IsAscii(s[i]) {
      assert s[i] == s[e..][i - e];
    }
  }

  // ---- email ----

  /** `^[a-zA-Z0-9._%+-]+@[a-zA-Z0-9.-]+\.[a-zA-Z]{2,}$`, with `a` the at sign and `d` the dot before the last label. */
  predicate EmailSplit(s: string, a: int, d: int)
  {
    && 0 < a && a + 1 < d && d + 2 < |s|
    && s[a] == '@' && AllChars(s[..a], IsLocalChar)
    && AllChars(s[a + 1..d], IsDomainChar) && s[d] == '.'
    && AllChars(s[d + 1..], IsAsciiLetter)
  }

  predicate EmailShape(s: string)
  {
    exists a, d | 0 <= a < d < |s| :: EmailSplit(s, a, d)
  }

  /** The first index of `c` in `s`, if any. */
  function IndexOf(s: string, c: char): (r: Option<nat>)
    ensures r.Some? ==> r.value < |s| && s[r.value] == c && forall j :: 0 <= j < r.value ==> s[j] != c
    ensures r.None? ==> forall j :: 0 <= j < |s| ==> s[j] != c
    decreases |s|
  {
    if s == [] then None
    else if s[0] == c then Some(0)
    else match IndexOf(s[1..], c)
      case None => None
      case Some(i) => Some(i + 1)
  }

  /** `value.split('@')[1]`: the text between the first at sign and the next one, undefined without an at sign. */
  function SecondPiece(s: string): Option<string>
  {
    match IndexOf(s, '@')
    case None => None
    case Some(i) =>
      var rest := s[i + 1..];
      match IndexOf(rest, '@')
      case None => Some(rest)
      case Some(j) => Some(rest[..j])
  }

  /** In an address of the accepted shape the at sign is the only one, so the domain is everything after it. */
  lemma DomainAfterAt(s: string, a: int, d: int)
    requires EmailSplit(s, a, d)
    ensures SecondPiece(s) == Some(s[a + 1..])
  {
    OnlyAt(s, a, d);
    var rest := s[a + 1..];
    assert IndexOf(s, '@') == Some(a);
    assert forall j :: 0 <= j < |rest| ==> rest[j] == s[a + 1 + j];
    assert IndexOf(rest, '@') == None;
  }

  /** The accepted shape holds no at sign but the one at `a`. */
  lemma OnlyAt(s: string, a: int, d: int)
    requires EmailSplit(s, a, d)
    ensures forall j :: 0 <= j < |s| && j != a ==> s[j] != '@'
  {
    forall j | 0 <= j < |s| && j != a ensures s[j] != '@' {
      if j < a {
        assert s[j] == s[..a][j];
      } else if j < d {
        assert s[j] == s[a + 1..d][j - a - 1];
      } else if j > d {
        assert s[j] == s[d + 1..][j - d - 1];
      }
    }
  }

  /** The lower-cased domain is in `domains` (`domains.includes(value.split('@')[1]?.toLowerCase())`). */
  predicate DomainListed(s: string, domains: seq<string>)
  {
    SecondPiece(s).Some? && Lower(SecondPiece(s).value) in domains
  }

  const TempDomains: seq<string> := ["tempmail.com", "10minutemail.com", "guerrillamail.com", "mailinator.com"]
  const FreeDomains: seq<string> := ["gmail.com", "hotmail.com", "yahoo.com", "outlook.com"]

  /** The address shape first, then the domain must not be a known throw-away mail service. */
  function Email(value: string): (r: Option<ValidationError>)
    ensures r.None? <==> value == "" || (EmailShape(value) && !DomainListed(value, TempDomains))
    ensures r == Some(ValidationError("invalidEmail", "Email inv\U{E1}lido")) <==> value != "" && !EmailShape(value)
    ensures r.Some? ==> r.value.key == "invalidEmail"
  {
    if value == "" then None
    else if !EmailShape(value) then Some(ValidationError("invalidEmail", "Email inv\U{E1}lido"))
    else if DomainListed(value, TempDomains) then Some(ValidationError("invalidEmail", "No se permiten emails temporales"))
    else None
  }

  /** The address shape first, then the domain must not be a free mail provider. */
  function BusinessEmail(value: string): (r: Option<ValidationError>)
    ensures r.None? <==> value == "" || (EmailShape(value) && !DomainListed(value, FreeDomains))
    ensures r == Some(ValidationError("businessEmail", "Email inv\U{E1}lido")) <==> value != "" && !EmailShape(value)
    ensures r.Some? ==> r.value.key == "businessEmail"
  {
    if value == "" then None
    else if !EmailShape(value) then Some(ValidationError("businessEmail", "Email inv\U{E1}lido"))
    else if DomainListed(value, FreeDomains) then Some(ValidationError("businessEmail", "Use un email corporativo"))
    else None
  }

  // ---- how the validators relate ----

  /** Every falsy value passes the string validators; zero passes `price` but not `positiveNumber`. */
  lemma FalsyValuesPass()
    ensures Name("").None? && NoMultipleSpaces("").None? && Dni("").None? && Ruc("").None?
    ensures Phone("").None? && ImageUrl("").None? && Email("").None? && BusinessEmail("").None?
    ensures ValidAddress("").None? && BusinessName("").None? && NoOnlySpaces("").None?
    ensures Price(0.0).None? && PositiveNumber(Some(0.0)).Some? && Stock(Some(0.0)).None?
  {
  }

  /** The two phone validators accept the same values. */
  lemma PhoneValidatorsAgree(value: string)
    ensures Phone(value).None? <==> PeruvianPhone(value).None?
  {
  }

  /** A mobile number without its leading 9 is an eight-digit DNI. */
  lemma MobileWithoutNineIsDni(value: string)
    requires value != "" && Phone(value).None?
    ensures Dni(value[1..]).None? && value[1..] != ""
  {
    assert forall i :: 0 <= i < 8 ==> value[1..][i] == value[i + 1];
  }

  /** A valid name also passes the alphabet-only, the only-spaces and the business-name validators. */
  lemma NameIsStricter(value: string)
    requires Name(value).None?
    ensures AlphabeticWithSpaces(value).None? && NoOnlySpaces(value).None? && BusinessName(value).None?
  {
  }

  /** " Ana" has a valid alphabet but leading whitespace: `name` rejects it where `alphabeticWithSpaces` does not. */
  lemma NameRejectsPadding()
    ensures Name(" Ana") == Some(ValidationError("invalidName", "No puede empezar o terminar con espacios"))
    ensures AlphabeticWithSpaces(" Ana").None?
  {
    assert Padded(" Ana");
  }

  /** A value made of ASCII letters and digits only never starts with a special character. */
  lemma AlphanumericStartsPlain(value: string)
    requires Alphanumeric(value).None?
    ensures NoSpecialCharactersStart(value).None?
  {
  }

  /** A RUC has 11 digits and a DNI 8, so no value passes both unless it is empty. */
  lemma RucIsNoDni(value: string)
    requires value != "" && Ruc(value).None?
    ensures Dni(value).Some?
  {
  }

  /**
   * For an address of the accepted shape, both validators judge only the
   * lower-cased text after its single at sign.
   */
  lemma EmailByDomain(s: string, a: int, d: int)
    requires EmailSplit(s, a, d)
    ensures Email(s).None? <==> Lower(s[a + 1..]) !in TempDomains
    ensures BusinessEmail(s).None? <==> Lower(s[a + 1..]) !in FreeDomains
  {
    DomainAfterAt(s, a, d);
  }

  /** No free-mail domain is a throw-away one: their lengths already differ. */
  lemma DomainListsDisjoint(domain: string)
    ensures domain in FreeDomains ==> domain !in TempDomains
  {
    if domain in FreeDomains {
      assert |domain| == 9 || |domain| == 11;
    }
  }

  /** The two domain lists share no entry: every well-formed free-mail address passes `email` and fails `businessEmail`. */
  lemma FreeDomainIsNoBusinessEmail(s: string, a: int, d: int)
    requires EmailSplit(s, a, d) && Lower(s[a + 1..]) in FreeDomains
    ensures Email(s).None?
    ensures BusinessEmail(s) == Some(ValidationError("businessEmail", "Use un email corporativo"))
  {
    DomainListsDisjoint(Lower(s[a + 1..]));
    EmailByDomain(s, a, d);
    DomainAfterAt(s, a, d);
  }

  /** Every well-formed throw-away address fails `email` and passes `businessEmail`. */
  lemma TempDomainIsNoEmail(s: string, a: int, d: int)
    requires EmailSplit(s, a, d) && Lower(s[a + 1..]) in TempDomains
    ensures Email(s) == Some(ValidationError("invalidEmail", "No se permiten emails temporales"))
    ensures BusinessEmail(s).None?
  {
    DomainListsDisjoint(Lower(s[a + 1..]));
    EmailByDomain(s, a, d);
    DomainAfterAt(s, a, d);
  }
}
