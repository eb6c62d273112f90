/** The form validators and the South African phone formatter. */
module Validation {
  import opened Wrappers
  import opened JsText

  // ---------------------------------------------------------------- phone numbers

  const PhoneLengthMessage: string := "Phone number must be 9 digits (excluding country code)"
  const PhonePrefixMessage: string := "Please enter a valid South African mobile number starting with +27"

  /** `s.replace(/\D/g, '')`: the ASCII digits of `s`, in order. */
  function DigitsOf(s: string): (d: string)
    ensures AllDigits(d) && |d| <= |s|
  {
    if s == [] then [] else (if IsDigit(s[0]) then [s[0]] else []) + DigitsOf(s[1..])
  }

  lemma {:induction false} DigitsOfConcat(a: string, b: string)
    ensures DigitsOf(a + b) == DigitsOf(a) + DigitsOf(b)
  {
    if a != [] {
      assert (a + b)[1..] == a[1..] + b;
      DigitsOfConcat(a[1..], b);
    } else {
      assert a + b == b;
    }
  }

  /** Text made of digits only is its own digit string. */
  lemma {:induction false} DigitsOfDigits(s: string)
    requires AllDigits(s)
    ensures DigitsOf(s) == s
  {
    if s != [] {
      DigitsOfDigits(s[1..]);
    }
  }

  /** The two country-code rules: a leading `0` becomes `27`, and nine digits not starting with `27` get it prepended. */
  function CountryCoded(cleaned: string): string {
    var national := if StartsWith(cleaned, "0") then "27" + cleaned[1..] else cleaned;
    if !StartsWith(national, "27") && |national| == 9 then "27" + national else national
  }

  /**
   * A leading `0` is replaced by `27` and nothing else happens; nine digits starting
   * with neither get `27` in front; every other digit string is kept.
   */
  lemma {:induction false} CountryCodeRules(cleaned: string)
    ensures StartsWith(cleaned, "0") ==> CountryCoded(cleaned) == "27" + cleaned[1..]
    ensures !StartsWith(cleaned, "0") && !StartsWith(cleaned, "27") && |cleaned| == 9 ==>
      CountryCoded(cleaned) == "27" + cleaned
    ensures !StartsWith(cleaned, "0") && (StartsWith(cleaned, "27") || |cleaned| != 9) ==>
      CountryCoded(cleaned) == cleaned
  {
    if StartsWith(cleaned, "0") {
      assert ("27" + cleaned[1..])[..2] == "27";
    }
  }

  /** The regular-expression class `.`: anything but a line terminator. */
  predicate IsLineTerminator(c: char) {
    c == '\n' || c == '\r' || c == '\U{2028}' || c == '\U{2029}'
  }

  /** `(\+\d{2})(\d{2})(\d{3})(\d{4})` matches at `i`. */
  predicate GroupsAt(c: string, i: nat) {
    i + 12 <= |c| && c[i] == '+' && AllDigits(c[i + 1..i + 12])
  }

  /** The leftmost position at or after `from` where the groups match. */
  function FirstGroups(c: string, from: nat): (r: Option<nat>)
    ensures r.Some? ==> from <= r.value && GroupsAt(c, r.value)
    ensures r.Some? ==> forall k | from <= k < r.value :: !GroupsAt(c, k)
    ensures r.None? ==> forall k | from <= k <= |c| :: !GroupsAt(c, k)
    decreases |c| - from
  {
    if from + 12 > |c| then None
    else if GroupsAt(c, from) then Some(from)
    else FirstGroups(c, from + 1)
  }

  /** Where `.*` stops: the first line terminator at or after `k`, or the end. */
  function LineEnd(c: string, k: nat): (e: nat)
    requires k <= |c|
    ensures k <= e <= |c|
    decreases |c| - k
  {
    if k == |c| || IsLineTerminator(c[k]) then k else LineEnd(c, k + 1)
  }

  /**
   * `c.replace` with the pattern `(\+\d{2})(\d{2})(\d{3})(\d{4})` followed by `.*` and the
   * replacement `'$1 $2 $3 $4'`: only the first match is replaced, up to the end of its line.
   */
  function SpaceGroups(c: string): string {
    match FirstGroups(c, 0)
    case None => c
    case Some(i) =>
      c[..i] + c[i..i + 3] + " " + c[i + 3..i + 5] + " " + c[i + 5..i + 8] + " " + c[i + 8..i + 12]
        + c[LineEnd(c, i + 12)..]
  }

  /** `formatPhoneNumber(phone)`. */
  function FormatPhoneNumber(phone: string): string {
    var coded := CountryCoded(DigitsOf(phone));
    var plus := if !StartsWith(coded, "+") then "+" + coded else coded;
    if |plus| >= 11 then SpaceGroups(plus) else plus
  }

  /** `+DD DD DDD DDDD` from the first eleven digits of `d`. */
  function Grouped(d: string): string
    requires |d| >= 11
  {
    "+" + d[..2] + " " + d[2..4] + " " + d[4..7] + " " + d[7..11]
  }

  /** On `+` and digits the pattern can only match at 0, and does exactly when eleven digits follow. */
  lemma {:induction false} FirstGroupsOfDigits(d: string)
    requires AllDigits(d)
    ensures FirstGroups("+" + d, 0) == if |d| >= 11 then Some(0) else None
  {
    var c := "+" + d;
    if |d| >= 11 {
      assert forall k | 1 <= k < 12 :: c[k] == d[k - 1];
      assert GroupsAt(c, 0);
    }
  }

  /** The four groups of `+` followed by at least eleven digits. */
  lemma {:induction false} PlusDigitsSlices(d: string)
    requires |d| >= 11
    ensures var c := "+" + d;
      c[0..3] == "+" + d[..2] && c[3..5] == d[2..4] && c[5..8] == d[4..7] && c[8..12] == d[7..11]
  {
  }

  /** The replacement on `+` followed by digits. */
  lemma {:induction false} SpaceGroupsOfDigits(d: string)
    requires AllDigits(d)
    ensures |d| >= 11 ==> SpaceGroups("+" + d) == Grouped(d)
    ensures |d| < 11 ==> SpaceGroups("+" + d) == "+" + d
  {
    var c := "+" + d;
    FirstGroupsOfDigits(d);
    if |d| >= 11 {
      LineEndOfDigits(c, 12);
      PlusDigitsSlices(d);
      var g := c[0..3] + " " + c[3..5] + " " + c[5..8] + " " + c[8..12];
      assert SpaceGroups(c) == c[..0] + g + c[|c|..];
      assert c[..0] + g + c[|c|..] == g;
    }
  }

  lemma {:induction false} LineEndOfDigits(c: string, k: nat)
    requires k <= |c|
    requires forall i | k <= i < |c| :: IsDigit(c[i])
    ensures LineEnd(c, k) == |c|
    decreases |c| - k
  {
    if k < |c| {
      LineEndOfDigits(c, k + 1);
    }
  }

  /** What the country-code rules leave unchanged. */
  predicate CountryCodedForm(d: string) {
    !StartsWith(d, "0") && (StartsWith(d, "27") || |d| != 9)
  }

  /** The country-code rules reach their fixed form in one pass, and eleven-digit truncation keeps it. */
  lemma {:induction false} CountryCodedIsStable(d: string)
    ensures CountryCodedForm(CountryCoded(d))
    ensures CountryCodedForm(d) ==> CountryCoded(d) == d
    ensures CountryCodedForm(d) && |d| >= 11 ==> CountryCodedForm(d[..11])
  {
    var c := CountryCoded(d);
    var national := if StartsWith(d, "0") then "27" + d[1..] else d;
    if StartsWith(d, "0") {
      assert national[..2] == "27" && national[0] == '2';
    }
    if !StartsWith(national, "27") && |national| == 9 {
      assert c[..2] == "27" && c[0] == '2';
    }
    if CountryCodedForm(d) && |d| >= 11 {
      assert d[..11][..1] == d[..1];
      assert d[..11][..2] == d[..2];
    }
  }

  /** The intended result for country-coded digits `d`: grouped when there are at least eleven, unspaced otherwise. */
  function Formatted(d: string): string {
    if |d| >= 11 then Grouped(d) else "+" + d
  }

  /**
   * The result of `formatPhoneNumber`: `+` and the country-coded digits, grouped as
   * `+DD DD DDD DDDD` (extra digits dropped) when there are at least eleven, unspaced
   * otherwise.
   */
  lemma {:induction false} FormatPhoneNumberShape(phone: string)
    ensures AllDigits(CountryCoded(DigitsOf(phone)))
    ensures FormatPhoneNumber(phone) == Formatted(CountryCoded(DigitsOf(phone)))
  {
    var cleaned := DigitsOf(phone);
    var d := CountryCoded(cleaned);
    assert AllDigits(d) by {
      if StartsWith(cleaned, "0") {
        assert forall i | 0 <= i < |cleaned[1..]| :: cleaned[1..][i] == cleaned[i + 1];
      }
    }
    if d != [] {
      assert d[0] != '+';
    }
    SpaceGroupsOfDigits(d);
  }

  /** A space between two pieces contributes no digit. */
  lemma {:induction false} DigitsOfSpaced(a: string, b: string)
    requires AllDigits(b)
    ensures DigitsOf(a + " " + b) == DigitsOf(a) + b
  {
    DigitsOfConcat(a + " ", b);
    DigitsOfConcat(a, " ");
    DigitsOfDigits(b);
    assert DigitsOf(" ") == "";
  }

  /** The digits of `+` followed by digits. */
  lemma {:induction false} DigitsOfPlus(d: string)
    requires AllDigits(d)
    ensures DigitsOf("+" + d) == d
  {
    DigitsOfConcat("+", d);
    DigitsOfDigits(d);
    assert DigitsOf("+") == "";
  }

  /** The digits the grouped text carries: the first eleven. */
  lemma {:induction false} DigitsOfGrouped(d: string)
    requires AllDigits(d) && |d| >= 11
    ensures DigitsOf(Grouped(d)) == d[..11]
  {
    var p1, p2, p3, p4 := d[..2], d[2..4], d[4..7], d[7..11];
    var a1 := "+" + p1;
    var a2 := a1 + " " + p2;
    var a3 := a2 + " " + p3;
    assert Grouped(d) == a3 + " " + p4;
    DigitsOfPlus(p1);
    DigitsOfSpaced(a1, p2);
    DigitsOfSpaced(a2, p3);
    DigitsOfSpaced(a3, p4);
    assert p1 + p2 + p3 + p4 == d[..11];
  }

  /** Only the first eleven digits are ever grouped. */
  lemma {:induction false} GroupedOfFirstEleven(d: string)
    requires |d| >= 11
    ensures Grouped(d[..11]) == Grouped(d)
  {
    var e := d[..11];
    assert e[..2] == d[..2] && e[2..4] == d[2..4] && e[4..7] == d[4..7] && e[7..11] == d[7..11];
  }

  /** Formatted text carries its digits cut to eleven, and formatting it again changes nothing. */
  lemma {:induction false} FormattedIsFixed(d: string)
    requires AllDigits(d) && CountryCodedForm(d)
    ensures FormatPhoneNumber(Formatted(d)) == Formatted(d)
  {
    var f := Formatted(d);
    var d' := if |d| >= 11 then d[..11] else d;
    if |d| >= 11 {
      DigitsOfGrouped(d);
      GroupedOfFirstEleven(d);
      assert AllDigits(d') by {
        assert forall k | 0 <= k < 11 :: d'[k] == d[k];
      }
    } else {
      DigitsOfPlus(d);
    }
    assert DigitsOf(f) == d';
    CountryCodedIsStable(d);
    CountryCodedIsStable(d');
    assert CountryCoded(DigitsOf(f)) == d';
    FormatPhoneNumberShape(f);
    assert Formatted(d') == f;
  }

  /** Formatting an already formatted number returns it unchanged. */
  lemma {:induction false} FormatPhoneNumberIdempotent(phone: string)
    ensures FormatPhoneNumber(FormatPhoneNumber(phone)) == FormatPhoneNumber(phone)
  {
    var d := CountryCoded(DigitsOf(phone));
    FormatPhoneNumberShape(phone);
    CountryCodedIsStable(DigitsOf(phone));
    FormattedIsFixed(d);
  }

  /** `/^27[6-8]/`: a South African mobile prefix. */
  predicate MobilePrefix(d: string) {
    |d| >= 3 && d[..2] == "27" && '6' <= d[2] <= '8'
  }

  /** `validatePhone(phone)`: the length rule is reported before the prefix rule. */
  function ValidatePhone(phone: string): string {
    if phone == "" then ""
    else
      var cleaned := DigitsOf(phone);
      if |cleaned| != 11 then PhoneLengthMessage
      else if !StartsWith(cleaned, "27") || !MobilePrefix(cleaned) then PhonePrefixMessage
      else ""
  }

  /**
   * An accepted phone number is one with eleven digits starting `276`, `277` or `278`;
   * formatting it yields `+27 DD DDD DDDD`-style text that is accepted again.
   */
  lemma {:induction false} ValidPhoneIsFormattedAndStaysValid(phone: string)
    requires phone != "" && ValidatePhone(phone) == ""
    ensures var d := DigitsOf(phone);
      && |d| == 11 && MobilePrefix(d)
      && FormatPhoneNumber(phone) == Grouped(d)
      && FormatPhoneNumber(phone)[..4] == "+27 "
      && ValidatePhone(FormatPhoneNumber(phone)) == ""
  {
    var d := DigitsOf(phone);
    assert d[..2] == "27" && d[0] == '2';
    assert CountryCodedForm(d);
    CountryCodedIsStable(d);
    FormatPhoneNumberShape(phone);
    DigitsOfGrouped(d);
    assert d[..11] == d;
  }

  // ---------------------------------------------------------------- passwords

  const MinPasswordLength: nat := 8
  const PasswordLengthMessage: string := "Password must be at least 8 characters"
  const PasswordNumberMessage: string := "Password must contain at least one number"
  const PasswordSpecialMessage: string := "Password must contain at least one special character"
  const PasswordUppercaseMessage: string := "Password must contain at least one uppercase letter"

  /** The class `[!@#$%^&*(),.?":{}|<>]`. */
  const SpecialCharacters: string := "!@#$%^&*(),.?\":{}|<>"

  predicate HasDigit(s: string) {
    exists i | 0 <= i < |s| :: IsDigit(s[i])
  }

  predicate HasSpecial(s: string) {
    exists i | 0 <= i < |s| :: s[i] in SpecialCharacters
  }

  predicate HasUppercase(s: string) {
    exists i | 0 <= i < |s| :: 'A' <= s[i] <= 'Z'
  }

  /** All four password rules hold. */
  predicate StrongPassword(password: string) {
    Utf16Length(password) >= MinPasswordLength && HasDigit(password) && HasSpecial(password) && HasUppercase(password)
  }

  /** The `errors` list, each failing rule appended in the fixed order. */
  function PasswordErrors(password: string): (errors: seq<string>)
    ensures |errors| <= 4
    ensures PasswordLengthMessage in errors <==> Utf16Length(password) < MinPasswordLength
    ensures PasswordNumberMessage in errors <==> !HasDigit(password)
    ensures PasswordSpecialMessage in errors <==> !HasSpecial(password)
    ensures PasswordUppercaseMessage in errors <==> !HasUppercase(password)
  {
    (if Utf16Length(password) < MinPasswordLength then [PasswordLengthMessage] else [])
    + (if !HasDigit(password) then [PasswordNumberMessage] else [])
    + (if !HasSpecial(password) then [PasswordSpecialMessage] else [])
    + (if !HasUppercase(password) then [PasswordUppercaseMessage] else [])
  }

  /** `parts.join(separator)`. */
  function Join(parts: seq<string>, separator: string): string {
    if parts == [] then "" else if |parts| == 1 then parts[0] else parts[0] + separator + Join(parts[1..], separator)
  }

  /** Joining a non-empty list whose first part is non-empty gives a non-empty text. */
  lemma {:induction false} JoinNonEmpty(parts: seq<string>, separator: string)
    requires parts != [] && parts[0] != ""
    ensures Join(parts, separator) != ""
  {
    assert |Join(parts, separator)| >= |parts[0]|;
  }

  /** `validatePassword(password)`. */
  function ValidatePassword(password: string): string {
    if password == "" then ""
    else
      var errors := PasswordErrors(password);
      if |errors| > 0 then Join(errors, ". ") else ""
  }

  /** A password is accepted exactly when it is empty or meets all four rules. */
  lemma {:induction false} PasswordAcceptedIff(password: string)
    ensures ValidatePassword(password) == "" <==> password == "" || StrongPassword(password)
  {
    var errors := PasswordErrors(password);
    if password != "" && |errors| > 0 {
      assert errors[0] in errors;
      assert errors[0] != "";
      JoinNonEmpty(errors, ". ");
    }
    if password != "" && !StrongPassword(password) {
      assert |errors| > 0;
    }
  }

  /** Whichever rule fails alone is reported as its own message, with no separator. */
  lemma {:induction false} SingleFailureMessage(password: string)
    requires password != "" && |PasswordErrors(password)| == 1
    ensures ValidatePassword(password) == PasswordErrors(password)[0]
  {
  }

  // ---------------------------------------------------------------- e-mail addresses

  const EmailMessage: string := "Please enter a valid email address"

  /** The class `[^\s@]`, repeated. */
  predicate NoSpaceOrAt(s: string) {
    forall k | 0 <= k < |s| :: !IsWhitespace(s[k]) && s[k] != '@'
  }

  /** The meaning of `/^[^\s@]+@[^\s@]+\.[^\s@]+$/`: some split of the whole text into those four pieces. */
  ghost predicate MatchesEmailPattern(s: string) {
    exists i, j | 0 < i && i + 1 < j && j + 1 < |s| ::
      s[i] == '@' && s[j] == '.' && NoSpaceOrAt(s[..i]) && NoSpaceOrAt(s[i + 1..j]) && NoSpaceOrAt(s[j + 1..])
  }

  /** The first position of `c` in `s`, or -1. */
  function IndexOfChar(s: string, c: char): (i: int)
    ensures -1 <= i < |s|
    ensures 0 <= i ==> s[i] == c && forall k | 0 <= k < i :: s[k] != c
    ensures i == -1 ==> forall k | 0 <= k < |s| :: s[k] != c
  {
    if s == [] then -1
    else if s[0] == c then 0
    else
      var k := IndexOfChar(s[1..], c);
      if k == -1 then -1 else k + 1
  }

  /** The same test read directly: no white space, one `@` not first, and a `.` strictly inside what follows it. */
  predicate EmailShaped(s: string) {
    var at := IndexOfChar(s, '@');
    && (forall k | 0 <= k < |s| :: !IsWhitespace(s[k]))
    && 0 < at
    && (forall k | at < k < |s| :: s[k] != '@')
    && (exists j | at + 1 < j < |s| - 1 :: s[j] == '.')
  }

  /** The direct reading finds the split the pattern asks for. */
  lemma {:induction false} EmailShapedMatches(s: string)
    requires EmailShaped(s)
    ensures MatchesEmailPattern(s)
  {
    var at := IndexOfChar(s, '@');
    var j :| at + 1 < j < |s| - 1 && s[j] == '.';
    assert NoSpaceOrAt(s[..at]);
    assert NoSpaceOrAt(s[at + 1..j]);
    assert NoSpaceOrAt(s[j + 1..]);
  }

  /** Three pieces free of white space and `@`, joined by an `@` and a `.`, leave that `@` the only one. */
  lemma {:induction false} PiecesHaveOneAt(s: string, i: int, j: int)
    requires 0 < i && i + 1 < j && j + 1 < |s| && s[i] == '@' && s[j] == '.'
    requires NoSpaceOrAt(s[..i]) && NoSpaceOrAt(s[i + 1..j]) && NoSpaceOrAt(s[j + 1..])
    ensures forall k | 0 <= k < |s| :: !IsWhitespace(s[k]) && (k != i ==> s[k] != '@')
  {
    forall k | 0 <= k < |s|
      ensures !IsWhitespace(s[k]) && (k != i ==> s[k] != '@')
    {
      if k < i {
        assert s[k] == s[..i][k];
      } else if i < k < j {
        assert s[k] == s[i + 1..j][k - i - 1];
      } else if j < k {
        assert s[k] == s[j + 1..][k - j - 1];
      }
    }
  }

  /** Any split the pattern accepts has its `@` where the direct reading looks. */
  lemma {:induction false} MatchesAreEmailShaped(s: string)
    requires MatchesEmailPattern(s)
    ensures EmailShaped(s)
  {
    var i, j :| 0 < i && i + 1 < j && j + 1 < |s| && s[i] == '@' && s[j] == '.'
      && NoSpaceOrAt(s[..i]) && NoSpaceOrAt(s[i + 1..j]) && NoSpaceOrAt(s[j + 1..]);
    PiecesHaveOneAt(s, i, j);
    assert IndexOfChar(s, '@') == i;
  }

  /** The direct reading agrees with the pattern on every text. */
  lemma {:induction false} EmailShapedIff(s: string)
    ensures EmailShaped(s) <==> MatchesEmailPattern(s)
  {
    if EmailShaped(s) {
      EmailShapedMatches(s);
    }
    if MatchesEmailPattern(s) {
      MatchesAreEmailShaped(s);
    }
  }

  /** `validateEmail(email)`. */
  function ValidateEmail(email: string): string {
    if email == "" then "" else if EmailShaped(email) then "" else EmailMessage
  }

  /** An address is accepted exactly when it is empty or matches the pattern. */
  lemma {:induction false} EmailAcceptedIff(email: string)
    ensures ValidateEmail(email) == "" <==> email == "" || MatchesEmailPattern(email)
  {
    EmailShapedIff(email);
  }
}
