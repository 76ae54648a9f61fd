/** Phone number normalisation: what people type, turned into E.164. */
module Phone {
  import opened Common

  datatype Result = Ok(number: string) | Invalid

  const COUNTRY_CODE: string := "98"
  const ZERO_WIDTH_NON_JOINER: char := '\U{200C}'

  predicate IsAsciiDigit(c: char) {
    '0' <= c <= '9'
  }

  predicate IsPersianDigit(c: char) {
    '\U{06F0}' <= c <= '\U{06F9}'
  }

  predicate IsArabicDigit(c: char) {
    '\U{0660}' <= c <= '\U{0669}'
  }

  predicate IsDigit(c: char) {
    IsAsciiDigit(c) || IsPersianDigit(c) || IsArabicDigit(c)
  }

  predicate IsSeparator(c: char) {
    c in {' ', '-', '(', ')', '.', ZERO_WIDTH_NON_JOINER}
  }

  /** The ASCII digit a Persian or Arabic-Indic digit stands for; any other rune is itself. */
  function Fold(c: char): (d: char)
    ensures IsDigit(c) <==> IsAsciiDigit(d)
    ensures !IsDigit(c) ==> d == c
  {
    if IsPersianDigit(c) then (c as int - 0x06F0 + '0' as int) as char
    else if IsArabicDigit(c) then (c as int - 0x0660 + '0' as int) as char
    else c
  }

  function TrimLeft(s: string): string {
    if s != "" && IsSpace(s[0]) then TrimLeft(s[1..]) else s
  }

  function TrimRight(s: string): string {
    if s != "" && IsSpace(s[|s| - 1]) then TrimRight(s[..|s| - 1]) else s
  }

  function Trim(s: string): string {
    TrimRight(TrimLeft(s))
  }

  /** The folded digits of a run of digits and separators; None when anything else occurs. */
  function Digits(s: string): Option<string> {
    if s == "" then Some("")
    else match Digits(s[1..])
      case None => None
      case Some(rest) =>
        if IsDigit(s[0]) then Some([Fold(s[0])] + rest)
        else if IsSeparator(s[0]) then Some(rest)
        else None
  }

  predicate StartsWithZero(digits: string) {
    |digits| >= 1 && digits[0] == '0'
  }

  predicate StartsWithTwoZeros(digits: string) {
    |digits| >= 2 && digits[0] == '0' && digits[1] == '0'
  }

  predicate StartsWithCountry(digits: string) {
    |digits| >= 2 && digits[0] == '9' && digits[1] == '8'
  }

  function WithCountry(hasPlus: bool, digits: string): string {
    if hasPlus then digits
    else if StartsWithTwoZeros(digits) then digits[2..]
    else if StartsWithZero(digits) then COUNTRY_CODE + digits[1..]
    else if 0 < |digits| <= 10 && !StartsWithCountry(digits) then COUNTRY_CODE + digits
    else digits
  }

  function Checked(digits: string): Result {
    if |digits| < 8 || |digits| > 15 || StartsWithZero(digits) then Invalid else Ok("+" + digits)
  }

  predicate HasPlus(t: string) {
    t != "" && t[0] == '+'
  }

  function NormalizeTrimmed(t: string): Result {
    match Digits(if HasPlus(t) then t[1..] else t)
    case None => Invalid
    case Some(digits) => Checked(WithCountry(HasPlus(t), digits))
  }

  /** What NormalizePhone computes, rune by rune, stated on whole strings. */
  function Normalize(input: string): Result {
    NormalizeTrimmed(Trim(input))
  }

  /** E.164, section 6.1: a plus, at most fifteen digits, a country code that is not zero. */
  predicate IsE164(s: string) {
    && 9 <= |s| <= 16
    && s[0] == '+'
    && s[1] != '0'
    && forall i :: 1 <= i < |s| ==> IsAsciiDigit(s[i])
  }

  /** The loop over runes, with its builder and its flag. */
  method NormalizePhone(input: string) returns (r: Result)
    ensures r == Normalize(input)
  {
    var t := Trim(input);
    if t == "" {
      return Invalid;
    }
    var built := "";
    var hasPlus := false;
    var start := if HasPlus(t) then 1 else 0;
    for i := 0 to |t|
      invariant hasPlus == (i > 0 && HasPlus(t))
      invariant if i < start then built == "" else Digits(t[start..i]) == Some(built)
    {
      var c := t[i];
      if IsDigit(c) {
        built := built + [Fold(c)];
      } else if c == '+' && i == 0 {
        hasPlus := true;
      } else if !IsSeparator(c) {
        DigitsRejects(t[start..], i - start);
        assert t[start..] == (if HasPlus(t) then t[1..] else t);
        return Invalid;
      }
      if i >= start {
        DigitsSnoc(t, start, i);
      }
    }
    assert t[start..|t|] == (if HasPlus(t) then t[1..] else t);

    var digits := built;
    if hasPlus {
    } else if StartsWithTwoZeros(digits) {
      digits := digits[2..];
    } else if StartsWithZero(digits) {
      digits := COUNTRY_CODE + digits[1..];
    } else if |digits| > 0 && !StartsWithCountry(digits) {
      if |digits| <= 10 {
        digits := COUNTRY_CODE + digits;
      }
    }
    if |digits| < 8 || |digits| > 15 {
      return Invalid;
    }
    if StartsWithZero(digits) {
      return Invalid;
    }
    return Ok("+" + digits);
  }

  // ---------------------------------------------------------------- digits

  lemma {:induction false} DigitsAppend(a: string, b: string)
    ensures Digits(a + b) == if Digits(a).None? || Digits(b).None? then None
                             else Some(Digits(a).value + Digits(b).value)
  {
    if a == "" {
      assert a + b == b;
      assert Digits(b).Some? ==> "" + Digits(b).value == Digits(b).value;
    } else {
      DigitsAppend(a[1..], b);
      assert (a + b)[1..] == a[1..] + b;
      if Digits(a[1..]).Some? && Digits(b).Some? {
        var x, y := Digits(a[1..]).value, Digits(b).value;
        assert [Fold(a[0])] + (x + y) == ([Fold(a[0])] + x) + y;
      }
    }
  }

  lemma DigitsSnoc(t: string, start: nat, i: nat)
    requires start <= i < |t|
    requires Digits(t[start..i]).Some? && (IsDigit(t[i]) || IsSeparator(t[i]))
    ensures Digits(t[start..i + 1])
         == if IsDigit(t[i]) then Some(Digits(t[start..i]).value + [Fold(t[i])]) else Digits(t[start..i])
  {
    var last := [t[i]];
    assert t[start..i + 1] == t[start..i] + last;
    DigitsAppend(t[start..i], last);
    assert last[1..] == "" && Digits("") == Some("");
    assert [Fold(t[i])] + "" == [Fold(t[i])];
    assert Digits(t[start..i]).value + "" == Digits(t[start..i]).value;
  }

  lemma {:induction false} DigitsRejects(s: string, i: nat)
    requires i < |s| && !IsDigit(s[i]) && !IsSeparator(s[i])
    ensures Digits(s) == None
  {
    if i > 0 {
      DigitsRejects(s[1..], i - 1);
    }
  }

  lemma {:induction false} DigitsAreAscii(s: string)
    requires Digits(s).Some?
    ensures forall c :: c in Digits(s).value ==> IsAsciiDigit(c)
  {
    if s != "" {
      DigitsAreAscii(s[1..]);
    }
  }

  lemma {:induction false} DigitsOfDigits(s: string)
    requires forall c :: c in s ==> IsAsciiDigit(c)
    ensures Digits(s) == Some(s)
  {
    if s != "" {
      DigitsOfDigits(s[1..]);
      assert s[0] in s;
      assert [s[0]] + s[1..] == s;
    }
  }

  lemma {:induction false} DigitsFolded(a: string, b: string)
    requires |a| == |b| && forall i :: 0 <= i < |a| ==> Fold(a[i]) == Fold(b[i])
    ensures Digits(a) == Digits(b)
  {
    if a != "" {
      assert Fold(a[0]) == Fold(b[0]);
      forall i | 0 <= i < |a[1..]| ensures Fold(a[1..][i]) == Fold(b[1..][i]) {
        assert Fold(a[i + 1]) == Fold(b[i + 1]);
      }
      DigitsFolded(a[1..], b[1..]);
    }
  }

  // -------------------------------------------------------------- trimming

  lemma {:induction false} TrimRightIsPrefix(s: string)
    ensures TrimRight(s) <= s
    ensures TrimRight(s) != "" ==> !IsSpace(TrimRight(s)[|TrimRight(s)| - 1])
  {
    if s != "" && IsSpace(s[|s| - 1]) {
      TrimRightIsPrefix(s[..|s| - 1]);
    }
  }

  /** Trimming leaves a string that starts and ends with something else than white space. */
  lemma {:induction false} TrimEnds(s: string)
    ensures Trim(s) != "" ==> !IsSpace(Trim(s)[0]) && !IsSpace(Trim(s)[|Trim(s)| - 1])
    decreases |s|
  {
    if s != "" && IsSpace(s[0]) {
      TrimEnds(s[1..]);
    } else {
      TrimRightIsPrefix(s);
    }
  }

  lemma TrimNothing(s: string)
    requires s != "" && !IsSpace(s[0]) && !IsSpace(s[|s| - 1])
    ensures Trim(s) == s
  {
  }

  lemma {:induction false} TrimFolded(a: string, b: string)
    requires |a| == |b| && forall i :: 0 <= i < |a| ==> Fold(a[i]) == Fold(b[i])
    ensures |Trim(a)| == |Trim(b)|
    ensures forall i :: 0 <= i < |Trim(a)| ==> Fold(Trim(a)[i]) == Fold(Trim(b)[i])
    decreases |a|
  {
    if a != "" && IsSpace(a[0]) {
      assert Fold(a[0]) == Fold(b[0]);
      forall i | 0 <= i < |a[1..]| ensures Fold(a[1..][i]) == Fold(b[1..][i]) {
        assert Fold(a[i + 1]) == Fold(b[i + 1]);
      }
      TrimFolded(a[1..], b[1..]);
    } else {
      if a != "" { assert Fold(a[0]) == Fold(b[0]); }
      TrimRightFolded(a, b);
    }
  }

  lemma {:induction false} TrimRightFolded(a: string, b: string)
    requires |a| == |b| && forall i :: 0 <= i < |a| ==> Fold(a[i]) == Fold(b[i])
    ensures |TrimRight(a)| == |TrimRight(b)|
    ensures forall i :: 0 <= i < |TrimRight(a)| ==> Fold(TrimRight(a)[i]) == Fold(TrimRight(b)[i])
  {
    if a != "" {
      assert Fold(a[|a| - 1]) == Fold(b[|a| - 1]);
      if IsSpace(a[|a| - 1]) {
        TrimRightFolded(a[..|a| - 1], b[..|a| - 1]);
      }
    }
  }

  // ------------------------------------------------------------ properties

  /** Every accepted number is in E.164 form. */
  lemma AcceptedIsE164(input: string)
    requires Normalize(input).Ok?
    ensures IsE164(Normalize(input).number)
  {
    var t := Trim(input);
    var body := if HasPlus(t) then t[1..] else t;
    DigitsAreAscii(body);
    var digits := WithCountry(HasPlus(t), Digits(body).value);
    assert forall c :: c in digits ==> IsAsciiDigit(c);
  }

  /** Normalising twice is normalising once: exactly the E.164 strings are fixed points. */
  lemma FixedPoints(s: string)
    ensures Normalize(s) == Ok(s) <==> IsE164(s)
  {
    if IsE164(s) {
      TrimNothing(s);
      forall c | c in s[1..] ensures IsAsciiDigit(c) {
        var i :| 0 <= i < |s[1..]| && s[1..][i] == c;
        assert IsAsciiDigit(s[i + 1]);
      }
      DigitsOfDigits(s[1..]);
      assert s == "+" + s[1..];
    } else if Normalize(s) == Ok(s) {
      AcceptedIsE164(s);
    }
  }

  lemma Idempotent(input: string)
    requires Normalize(input).Ok?
    ensures Normalize(Normalize(input).number) == Normalize(input)
  {
    AcceptedIsE164(input);
    FixedPoints(Normalize(input).number);
  }

  /** The i-th Persian and the i-th Arabic-Indic digit are the i-th ASCII one, wherever they are typed. */
  lemma DigitsAgree(a: string, at: nat, i: nat)
    requires at < |a| && i < 10
    ensures var ascii, persian, arabic := (0x30 + i) as char, (0x06F0 + i) as char, (0x0660 + i) as char;
            && Normalize(a[at := persian]) == Normalize(a[at := ascii])
            && Normalize(a[at := arabic]) == Normalize(a[at := ascii])
  {
    var ascii, persian, arabic := (0x30 + i) as char, (0x06F0 + i) as char, (0x0660 + i) as char;
    assert Fold(persian) == ascii && Fold(arabic) == ascii && Fold(ascii) == ascii;
    ScriptDoesNotMatter(a[at := persian], a[at := ascii]);
    ScriptDoesNotMatter(a[at := arabic], a[at := ascii]);
  }

  /** Which script the digits are typed in makes no difference, accepted or not. */
  lemma ScriptDoesNotMatter(a: string, b: string)
    requires |a| == |b| && forall i :: 0 <= i < |a| ==> Fold(a[i]) == Fold(b[i])
    ensures Normalize(a) == Normalize(b)
  {
    TrimFolded(a, b);
    var s, t := Trim(a), Trim(b);
    if s != "" { assert Fold(s[0]) == Fold(t[0]); }
    assert HasPlus(s) == HasPlus(t);
    if HasPlus(s) {
      forall i | 0 <= i < |s[1..]| ensures Fold(s[1..][i]) == Fold(t[1..][i]) {
        assert Fold(s[i + 1]) == Fold(t[i + 1]);
      }
      DigitsFolded(s[1..], t[1..]);
    } else {
      DigitsFolded(s, t);
    }
  }

  /** Nothing but digits of the three scripts, those separators, and a plus at the very start is ever accepted. */
  lemma {:induction false} OnlyDigitsAndSeparators(input: string, i: nat)
    requires Normalize(input).Ok? && i < |Trim(input)|
    ensures var c := Trim(input)[i];
            || '0' <= c <= '9' || '\U{06F0}' <= c <= '\U{06F9}' || '\U{0660}' <= c <= '\U{0669}'
            || c in {' ', '-', '(', ')', '.', '\U{200C}'} || (c == '+' && i == 0)
  {
    var t := Trim(input);
    var c := t[i];
    if !IsDigit(c) && !IsSeparator(c) && !(c == '+' && i == 0) {
      if HasPlus(t) {
        assert t[1..][i - 1] == c;
        DigitsRejects(t[1..], i - 1);
      } else {
        DigitsRejects(t, i);
      }
    }
  }

  /** A separator typed anywhere after the first character makes no difference, accepted or not. */
  lemma SeparatorsDoNotMatter(input: string, i: nat, c: char)
    requires 1 <= i <= |Trim(input)| && c in {' ', '-', '(', ')', '.', '\U{200C}'}
    ensures Normalize(Trim(input)[..i] + [c] + Trim(input)[i..]) == Normalize(input)
  {
    var t := Trim(input);
    TrimEnds(input);
    var u := t[..i] + [c] + t[i..];
    if i == |t| && c == ' ' {
      assert u[..|u| - 1] == t;
      assert TrimLeft(u) == u && TrimRight(u) == TrimRight(t) == t;
    } else {
      assert i == |t| ==> u[|u| - 1] == c && !IsSpace(c);
      assert i < |t| ==> u[|u| - 1] == t[|t| - 1];
      TrimNothing(u);
      var start := if HasPlus(t) then 1 else 0;
      SeparatorSkipped(t[start..i], t[i..], c);
      assert t[start..] == t[start..i] + t[i..];
      assert u[start..] == t[start..i] + ([c] + t[i..]);
      assert t[0..] == t && u[0..] == u;
    }
  }

  lemma SeparatorSkipped(a: string, b: string, c: char)
    requires IsSeparator(c)
    ensures Digits(a + ([c] + b)) == Digits(a + b)
  {
    DigitsAppend(a, b);
    DigitsAppend(a, [c] + b);
    assert ([c] + b)[1..] == b;
  }

  predicate IsSubscriber(x: string) {
    6 <= |x| <= 10 && x[0] != '0' && forall c :: c in x ==> IsAsciiDigit(c)
  }

  lemma PlainDigits(s: string)
    requires s != "" && forall i :: 0 <= i < |s| ==> IsAsciiDigit(s[i])
    ensures Normalize(s) == Checked(WithCountry(false, s))
  {
    TrimNothing(s);
    DigitsOfDigits(s);
  }

  function National(x: string): (n: string)
    requires IsSubscriber(x)
    ensures |n| == |x| + 2 && n[0] == '9' && n[1] == '8'
    ensures forall i :: 0 <= i < |n| ==> IsAsciiDigit(n[i])
    ensures forall i :: 0 <= i < |x| ==> IsAsciiDigit(x[i])
  {
    assert forall i :: 0 <= i < |x| ==> x[i] in x;
    COUNTRY_CODE + x
  }

  /** The four written forms of one subscriber number agree. */
  lemma FormsAgree(x: string)
    requires IsSubscriber(x)
    ensures Normalize("+" + National(x)) == Ok("+" + National(x))
    ensures Normalize(National(x)) == Ok("+" + National(x))
    ensures Normalize("00" + National(x)) == Ok("+" + National(x))
    ensures Normalize("0" + x) == Ok("+" + National(x))
  {
    var n := National(x);
    FixedPoints("+" + n);
    PlainDigits(n);
    DialledForm(x);
    LocalForm(x);
  }

  predicate IsForeign(x: string) {
    11 <= |x| <= 15 && x[0] != '0' && forall i :: 0 <= i < |x| ==> IsAsciiDigit(x[i])
  }

  /** A number too long for a local one is taken as dialled, whatever it begins with; two zeros stand for the plus. */
  lemma LongFormsAgree(x: string)
    requires IsForeign(x)
    ensures Normalize(x) == Normalize("+" + x) == Normalize("00" + x) == Ok("+" + x)
  {
    LongBareForm(x);
    LongDialledForm(x);
    var plus := "+" + x;
    assert plus[0] == '+' && plus[1] == x[0];
    FixedPoints(plus);
  }

  lemma LongBareForm(x: string)
    requires IsForeign(x)
    ensures Normalize(x) == Ok("+" + x)
  {
    PlainDigits(x);
    assert !StartsWithTwoZeros(x) && !StartsWithZero(x);
  }

  lemma LongDialledForm(x: string)
    requires IsForeign(x)
    ensures Normalize("00" + x) == Ok("+" + x)
  {
    var dialled := "00" + x;
    PlainDigits(dialled);
    assert dialled[2..] == x && StartsWithTwoZeros(dialled);
  }

  lemma DialledForm(x: string)
    requires IsSubscriber(x)
    ensures Normalize("00" + National(x)) == Ok("+" + National(x))
  {
    var n, dialled := National(x), "00" + National(x);
    PlainDigits(dialled);
    assert dialled[2..] == n;
  }

  lemma LocalForm(x: string)
    requires IsSubscriber(x)
    ensures Normalize("0" + x) == Ok("+" + National(x))
  {
    var n, local := National(x), "0" + x;
    PlainDigits(local);
    assert local[1..] == x;
  }

  /**
   * The bare form is a guess. For a number without a leading zero it agrees with the
   * international form exactly when the number does not itself begin with the country code.
   */
  lemma BareFormAgrees(x: string)
    requires IsSubscriber(x)
    ensures Normalize(x) == Normalize("+" + National(x)) <==> !StartsWithCountry(x)
  {
    var n := National(x);
    FixedPoints("+" + n);
    PlainDigits(x);
    assert |"+" + x| != |"+" + n|;
  }
}
