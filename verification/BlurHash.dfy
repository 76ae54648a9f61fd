/** BlurHash packing: from quantised cosine coefficients to a base-83 string, and back. */
module BlurHash {
  import opened Common

  const DIGITS: string := "0123456789"
  const UPPER: string := "ABCDEFGHIJKLMNOPQRSTUVWXYZ"
  const LOWER: string := "abcdefghijklmnopqrstuvwxyz"
  const PUNCTUATION: string := "#$%*+,-.:;=?@[]^_{|}~"
  const ALPHABET: string := DIGITS + UPPER + LOWER + PUNCTUATION

  // --------------------------------------------------------------- base 83

  /** What a decoder reads a letter as. */
  function LetterValue(c: char): nat {
    if '0' <= c <= '9' then c as int - '0' as int
    else if 'A' <= c <= 'Z' then c as int - 'A' as int + 10
    else if 'a' <= c <= 'z' then c as int - 'a' as int + 36
    else match c
      case '#' => 62 case '$' => 63 case '%' => 64 case '*' => 65 case '+' => 66
      case ',' => 67 case '-' => 68 case '.' => 69 case ':' => 70 case ';' => 71
      case '=' => 72 case '?' => 73 case '@' => 74 case '[' => 75 case ']' => 76
      case '^' => 77 case '_' => 78 case '{' => 79 case '|' => 80 case '}' => 81
      case _ => 82
  }

  lemma AlphabetReads(d: nat)
    requires d < 83
    ensures |ALPHABET| == 83 && LetterValue(ALPHABET[d]) == d
  {
    if d >= 62 {
      PunctuationReads(d - 62);
      assert ALPHABET[d] == PUNCTUATION[d - 62];
    } else if d >= 36 {
      LowerRead(d - 36);
      assert ALPHABET[d] == LOWER[d - 36];
    } else if d >= 10 {
      UpperRead(d - 10);
      assert ALPHABET[d] == UPPER[d - 10];
    } else {
      DigitsRead(d);
      assert ALPHABET[d] == DIGITS[d];
    }
  }

  lemma DigitsRead(i: nat)
    requires i < 10
    ensures LetterValue(DIGITS[i]) == i
  {
  }

  lemma UpperRead(i: nat)
    requires i < 26
    ensures LetterValue(UPPER[i]) == i + 10
  {
  }

  lemma LowerRead(i: nat)
    requires i < 26
    ensures LetterValue(LOWER[i]) == i + 36
  {
  }

  lemma PunctuationReads(i: nat)
    requires i < 21
    ensures LetterValue(PUNCTUATION[i]) == i + 62
  {
  }

  function Power83(n: nat): (p: nat)
    ensures p > 0
  {
    if n == 0 then 1 else 83 * Power83(n - 1)
  }

  type Digit = d: nat | d < 83

  function Spelled(digits: seq<Digit>): (s: string)
    ensures |s| == |digits|
  {
    seq(|digits|, i requires 0 <= i < |digits| => AlphabetReads(digits[i]); ALPHABET[digits[i]])
  }

  function Read(s: string): seq<nat> {
    seq(|s|, i requires 0 <= i < |s| => LetterValue(s[i]))
  }

  lemma ReadSpelled(digits: seq<Digit>)
    ensures Read(Spelled(digits)) == digits
  {
    forall i | 0 <= i < |digits| ensures Read(Spelled(digits))[i] == digits[i] {
      AlphabetReads(digits[i]);
    }
  }

  /** The last `length` base-83 digits of a value, by repeated division, most significant first. */
  function Packed(value: nat, length: nat): (s: seq<Digit>)
    ensures |s| == length
    decreases length
  {
    if length == 0 then [] else Packed(value / 83, length - 1) + [value % 83]
  }

  function Unpacked(s: seq<nat>): nat {
    if s == [] then 0 else Unpacked(s[..|s| - 1]) * 83 + s[|s| - 1]
  }

  /** Reading a packed field gives the value back whenever the field is wide enough for it. */
  lemma {:induction false} FieldRoundTrip(value: nat, length: nat)
    requires value < Power83(length)
    ensures Unpacked(Packed(value, length)) == value
    decreases length
  {
    if length > 0 {
      FieldRoundTrip(value / 83, length - 1);
      var s := Packed(value, length);
      assert s[..length - 1] == Packed(value / 83, length - 1);
    }
  }

  /** Dividing by a power and then by 83 is dividing by the next power. */
  lemma NextPower(value: nat, p: nat)
    requires p > 0
    ensures value / p / 83 == value / (83 * p)
  {
    var q, r := value / p, value % p;
    Scaled(q % 83, 82, p);
    assert q * p == (q / 83) * (83 * p) + (q % 83) * p by {
      assert q == 83 * (q / 83) + q % 83;
    }
    assert value == q * p + r;
    DivisionUnique(value, 83 * p, q / 83, (q % 83) * p + r);
  }

  // ------------------------------------------------------------ components

  datatype Triple = Triple(r: int, g: int, b: int)

  /** The number of components, counted row by row. */
  function Cells(x: nat, y: nat): (n: nat)
    ensures x > 0 && y > 0 ==> n > 0
  {
    if y == 0 then 0 else Cells(x, y - 1) + x
  }

  lemma {:induction false} CellsIsProduct(x: nat, y: nat)
    ensures Cells(x, y) == x * y
  {
    if y > 0 {
      CellsIsProduct(x, y - 1);
      OneMore(y - 1, x);
    }
  }

  datatype Components = Components(x: nat, y: nat, max: nat, dc: Triple, ac: seq<Triple>)

  predicate InRange(t: Triple, limit: nat) {
    0 <= t.r < limit && 0 <= t.g < limit && 0 <= t.b < limit
  }

  predicate WellFormed(c: Components) {
    && 1 <= c.x <= 9 && 1 <= c.y <= 9 && c.max <= 82
    && InRange(c.dc, 256)
    && |c.ac| == Cells(c.x, c.y) - 1
    && forall i :: 0 <= i < |c.ac| ==> InRange(c.ac[i], 19)
  }

  function EncodeDC(t: Triple): (v: nat)
    requires InRange(t, 256)
    ensures v < 0x100_0000
  {
    t.r * 65536 + t.g * 256 + t.b
  }

  function EncodeAC(t: Triple): (v: nat)
    requires InRange(t, 19)
    ensures v < 6859
  {
    t.r * 361 + t.g * 19 + t.b
  }

  function DecodeDC(v: nat): Triple {
    Triple(v / 65536, v / 256 % 256, v % 256)
  }

  function DecodeAC(v: nat): Triple {
    Triple(v / 361, v / 19 % 19, v % 19)
  }

  /** A DC value fits four letters, and its letters give the three channels back. */
  lemma DCField(t: Triple)
    requires InRange(t, 256)
    ensures DecodeDC(Unpacked(Packed(EncodeDC(t), 4))) == t
  {
    var v := EncodeDC(t);
    assert Power83(3) == 571787 && v < Power83(4);
    FieldRoundTrip(v, 4);
    DivisionUnique(v, 256, t.r * 256 + t.g, t.b);
    DivisionUnique(t.r * 256 + t.g, 256, t.r, t.g);
    DivisionUnique(v, 65536, t.r, t.g * 256 + t.b);
  }

  /** An AC value fits two letters, and its letters give the three channels back. */
  lemma ACField(t: Triple)
    requires InRange(t, 19)
    ensures DecodeAC(Unpacked(Packed(EncodeAC(t), 2))) == t
  {
    var v := EncodeAC(t);
    assert Power83(1) == 83 && v < Power83(2);
    FieldRoundTrip(v, 2);
    DivisionUnique(v, 19, t.r * 19 + t.g, t.b);
    DivisionUnique(t.r * 19 + t.g, 19, t.r, t.g);
    DivisionUnique(v, 361, t.r, t.g * 19 + t.b);
  }

  lemma LetterField(v: nat)
    requires v < 83
    ensures Unpacked(Packed(v, 1)) == v
  {
    assert Power83(1) == 83;
    FieldRoundTrip(v, 1);
  }

  function PackedAC(ac: seq<Triple>): (s: seq<Digit>)
    requires forall i :: 0 <= i < |ac| ==> InRange(ac[i], 19)
    ensures |s| == 2 * |ac|
  {
    if ac == [] then [] else PackedAC(ac[..|ac| - 1]) + Packed(EncodeAC(ac[|ac| - 1]), 2)
  }

  function PackedHeader(size: nat, maximum: nat, dc: nat): (s: seq<Digit>)
    ensures |s| == 6
  {
    Packed(size, 1) + Packed(maximum, 1) + Packed(dc, 4)
  }

  /** The layout of a hash: one size letter, one maximum letter, four for DC, two for each AC triple. */
  function Encoded(c: Components): (s: seq<Digit>)
    requires WellFormed(c)
    ensures |s| == 4 + 2 * Cells(c.x, c.y)
  {
    PackedHeader((c.x - 1) + (c.y - 1) * 9, c.max, EncodeDC(c.dc)) + PackedAC(c.ac)
  }

  function DecodedAC(s: seq<nat>): seq<Triple> {
    if |s| < 2 then [] else DecodedAC(s[..|s| - 2]) + [DecodeAC(Unpacked(s[|s| - 2..]))]
  }

  function Decoded(s: seq<nat>): Option<Components> {
    if |s| < 6 then None
    else
      var size := Unpacked(s[..1]);
      var x, y := size % 9 + 1, size / 9 + 1;
      if |s| != 4 + 2 * Cells(x, y) then None
      else Some(Components(x, y, Unpacked(s[1..2]), DecodeDC(Unpacked(s[2..6])), DecodedAC(s[6..])))
  }

  lemma DecodedACLast(s: seq<nat>, field: seq<nat>)
    requires |field| == 2
    ensures DecodedAC(s + field) == DecodedAC(s) + [DecodeAC(Unpacked(field))]
  {
    assert (s + field)[..|s + field| - 2] == s;
    assert (s + field)[|s + field| - 2..] == field;
  }

  lemma {:induction false} ACRoundTrip(ac: seq<Triple>)
    requires forall i :: 0 <= i < |ac| ==> InRange(ac[i], 19)
    ensures DecodedAC(PackedAC(ac)) == ac
  {
    if ac != [] {
      var before, last := ac[..|ac| - 1], ac[|ac| - 1];
      ACRoundTrip(before);
      DecodedACLast(PackedAC(before), Packed(EncodeAC(last), 2));
      ACField(last);
    }
  }

  lemma HeaderSlices(c: Components)
    requires WellFormed(c)
    ensures var s := Encoded(c);
            && s[..1] == Packed((c.x - 1) + (c.y - 1) * 9, 1) && s[1..2] == Packed(c.max, 1)
            && s[2..6] == Packed(EncodeDC(c.dc), 4) && s[6..] == PackedAC(c.ac)
  {
  }

  lemma HeaderFields(c: Components)
    requires WellFormed(c)
    ensures var s := Encoded(c);
            && Unpacked(s[..1]) == (c.x - 1) + (c.y - 1) * 9 && Unpacked(s[1..2]) == c.max
            && DecodeDC(Unpacked(s[2..6])) == c.dc && DecodedAC(s[6..]) == c.ac
  {
    HeaderSlices(c);
    LetterField((c.x - 1) + (c.y - 1) * 9);
    LetterField(c.max);
    DCField(c.dc);
    ACRoundTrip(c.ac);
  }

  lemma FieldsDecode(s: seq<nat>, c: Components)
    requires WellFormed(c) && |s| == 4 + 2 * Cells(c.x, c.y)
    requires Unpacked(s[..1]) == (c.x - 1) + (c.y - 1) * 9 && Unpacked(s[1..2]) == c.max
    requires DecodeDC(Unpacked(s[2..6])) == c.dc && DecodedAC(s[6..]) == c.ac
    ensures Decoded(s) == Some(c)
  {
  }

  /** A decoder recovers every quantised component from the hash alone. */
  lemma HashRoundTrip(c: Components)
    requires WellFormed(c)
    ensures Decoded(Read(Spelled(Encoded(c)))) == Some(c)
    ensures |Spelled(Encoded(c))| == 4 + 2 * (c.x * c.y)
  {
    HeaderFields(c);
    FieldsDecode(Encoded(c), c);
    ReadSpelled(Encoded(c));
    CellsIsProduct(c.x, c.y);
  }

  // --------------------------------------------------------------- encoder

  function Distance(a: int, b: int): int {
    if a <= b then b - a else a - b
  }

  /** The nearest value in the range. */
  function Clamp(value: int, low: int, high: int): (r: int)
    ensures low <= high ==> low <= r <= high
    ensures low <= high ==> forall v :: low <= v <= high ==> Distance(r, value) <= Distance(v, value)
  {
    if value < low then low else if value > high then high else value
  }

  function ClampTriple(t: Triple): (r: Triple)
    ensures InRange(r, 19)
  {
    Triple(Clamp(t.r, 0, 18), Clamp(t.g, 0, 18), Clamp(t.b, 0, 18))
  }

  /** Coefficient (x, y) row by row, each row left to right. */
  function RowMajor(columns: nat, rows: nat, coefficient: (nat, nat) -> Triple): (s: seq<Triple>)
    ensures |s| == Cells(columns, rows)
  {
    if rows == 0 then []
    else RowMajor(columns, rows - 1, coefficient) + seq(columns, x requires 0 <= x => coefficient(x, rows - 1))
  }

  lemma {:induction false} RowMajorAt(columns: nat, rows: nat, coefficient: (nat, nat) -> Triple, x: nat, y: nat)
    requires x < columns && y < rows
    ensures Cells(columns, y) + x < Cells(columns, rows)
    ensures RowMajor(columns, rows, coefficient)[Cells(columns, y) + x] == coefficient(x, y)
  {
    if y < rows - 1 {
      RowMajorAt(columns, rows - 1, coefficient, x, y);
    }
  }

  function ClampAll(ts: seq<Triple>): (r: seq<Triple>)
    ensures |r| == |ts| && forall i :: 0 <= i < |r| ==> r[i] == ClampTriple(ts[i]) && InRange(r[i], 19)
  {
    seq(|ts|, i requires 0 <= i < |ts| => ClampTriple(ts[i]))
  }

  /** The components a hash is made of: (0, 0) is the DC term, every other coefficient an AC triple. */
  function Quantised(componentsX: int, componentsY: int, dc: Triple, maximum: int,
      coefficient: (nat, nat) -> Triple): (c: Components)
    requires InRange(dc, 256)
    ensures WellFormed(c)
  {
    var x, y := Clamp(componentsX, 1, 9), Clamp(componentsY, 1, 9);
    var ac := ClampAll(RowMajor(x, y, coefficient)[1..]);
    Components(x, y, if |ac| > 0 then Clamp(maximum, 0, 82) else 0, dc, ac)
  }

  /**
   * What each component comes from: the counts of columns and rows, the DC colour, the largest
   * AC magnitude unless there is no AC term, and coefficient (x, y) after the rows above it and
   * what stands before it in its own, the DC term's place left out.
   */
  predicate IsMadeOf(c: Components, componentsX: int, componentsY: int, dc: Triple, maximum: int,
      coefficient: (nat, nat) -> Triple) {
    && c.x == Clamp(componentsX, 1, 9) && c.y == Clamp(componentsY, 1, 9) && c.dc == dc
    && |c.ac| == Cells(c.x, c.y) - 1
    && c.max == (if |c.ac| == 0 then 0 else Clamp(maximum, 0, 82))
    && forall x, y :: 0 <= x < c.x && 0 <= y < c.y && (x > 0 || y > 0) ==> IsAt(c.ac, c.x, x, y, coefficient(x, y))
  }

  predicate IsAt(ac: seq<Triple>, columns: nat, x: nat, y: nat, t: Triple) {
    && 0 <= Cells(columns, y) + x - 1 < |ac|
    && ac[Cells(columns, y) + x - 1] == Triple(Clamp(t.r, 0, 18), Clamp(t.g, 0, 18), Clamp(t.b, 0, 18))
  }

  lemma PlacedAt(columns: nat, rows: nat, coefficient: (nat, nat) -> Triple, x: nat, y: nat)
    requires x < columns && y < rows && (x > 0 || y > 0)
    ensures IsAt(ClampAll(RowMajor(columns, rows, coefficient)[1..]), columns, x, y, coefficient(x, y))
  {
    RowMajorAt(columns, rows, coefficient, x, y);
    var all, i := RowMajor(columns, rows, coefficient), Cells(columns, y) + x;
    assert i > 0 && all[1..][i - 1] == all[i];
  }

  lemma QuantisedIsMadeOf(componentsX: int, componentsY: int, dc: Triple, maximum: int,
      coefficient: (nat, nat) -> Triple)
    requires InRange(dc, 256)
    ensures IsMadeOf(Quantised(componentsX, componentsY, dc, maximum, coefficient),
                     componentsX, componentsY, dc, maximum, coefficient)
  {
    var c := Quantised(componentsX, componentsY, dc, maximum, coefficient);
    forall x, y | 0 <= x < c.x && 0 <= y < c.y && (x > 0 || y > 0)
      ensures IsAt(c.ac, c.x, x, y, coefficient(x, y))
    {
      PlacedAt(c.x, c.y, coefficient, x, y);
    }
  }

  /** The two loops over components. */
  method Factors(columns: nat, rows: nat, coefficient: (nat, nat) -> Triple) returns (factors: seq<Triple>)
    ensures factors == RowMajor(columns, rows, coefficient)
  {
    factors := [];
    for y := 0 to rows
      invariant factors == RowMajor(columns, y, coefficient)
    {
      for x := 0 to columns
        invariant factors == RowMajor(columns, y, coefficient) + seq(x, i requires 0 <= i => coefficient(i, y))
      {
        factors := factors + [coefficient(x, y)];
      }
    }
  }

  function High(value: nat, k: nat): nat {
    if k == 0 then value else High(value, k - 1) / 83
  }

  lemma {:induction false} HighIsQuotient(value: nat, k: nat)
    ensures High(value, k) == value / Power83(k)
  {
    if k > 0 {
      HighIsQuotient(value, k - 1);
      NextPower(value, Power83(k - 1));
    }
  }

  /** The digits picked out by powers of 83 are the digits of repeated division. */
  method AppendBase83(dst: seq<Digit>, value: nat, length: nat) returns (out: seq<Digit>)
    ensures out == dst + Packed(value, length)
  {
    out := dst;
    for i := 1 to length + 1
      invariant out == dst + Packed(High(value, length + 1 - i), i - 1)
    {
      HighIsQuotient(value, length - i);
      var digit := value / Power83(length - i) % 83;
      assert Packed(High(value, length - i), i) == Packed(High(value, length + 1 - i), i - 1) + [digit];
      out := out + [digit];
    }
  }

  /**
   * EncodeBlurHash after the floating-point work: `dc` and `coefficient` are the quantised
   * cosine sums, `maximum` the quantised largest AC magnitude, all before clamping.
   */
  method EncodeBlurHash(width: nat, height: nat, componentsX: int, componentsY: int,
                        dc: Triple, maximum: int, coefficient: (nat, nat) -> Triple)
    returns (hash: string)
    requires InRange(dc, 256)
    ensures hash == if width == 0 || height == 0 then ""
                    else Spelled(Encoded(Quantised(componentsX, componentsY, dc, maximum, coefficient)))
    ensures width > 0 && height > 0 ==>
              Decoded(Read(hash)) == Some(Quantised(componentsX, componentsY, dc, maximum, coefficient))
    ensures width > 0 && height > 0 ==>
              IsMadeOf(Decoded(Read(hash)).value, componentsX, componentsY, dc, maximum, coefficient)
  {
    if width == 0 || height == 0 {
      return "";
    }
    var digits := EncodeDigits(componentsX, componentsY, dc, maximum, coefficient);
    hash := Spelled(digits);
    HashRoundTrip(Quantised(componentsX, componentsY, dc, maximum, coefficient));
    QuantisedIsMadeOf(componentsX, componentsY, dc, maximum, coefficient);
  }

  method EncodeDigits(componentsX: int, componentsY: int, dc: Triple, maximum: int, coefficient: (nat, nat) -> Triple)
    returns (digits: seq<Digit>)
    requires InRange(dc, 256)
    ensures digits == Encoded(Quantised(componentsX, componentsY, dc, maximum, coefficient))
  {
    var columns, rows := Clamp(componentsX, 1, 9), Clamp(componentsY, 1, 9);
    var factors := Factors(columns, rows, coefficient);
    var ac := factors[1..];
    ghost var c := Quantised(componentsX, componentsY, dc, maximum, coefficient);
    digits := EncodeComponents(columns, rows, dc, maximum, ac, c);
  }

  method EncodeComponents(columns: nat, rows: nat, dc: Triple, maximum: int, ac: seq<Triple>, ghost c: Components)
    returns (digits: seq<Digit>)
    requires WellFormed(c) && c.x == columns && c.y == rows && c.dc == dc && c.ac == ClampAll(ac)
    requires c.max == if |ac| > 0 then Clamp(maximum, 0, 82) else 0
    ensures digits == Encoded(c)
  {
    var sizeFlag := (columns - 1) + (rows - 1) * 9;
    digits := Header(sizeFlag, |ac|, maximum, EncodeDC(dc));
    digits := AppendAC(digits, ac);
  }

  method Header(sizeFlag: nat, acCount: nat, maximum: int, dc: nat) returns (out: seq<Digit>)
    ensures out == PackedHeader(sizeFlag, if acCount > 0 then Clamp(maximum, 0, 82) else 0, dc)
  {
    out := AppendBase83([], sizeFlag, 1);
    if acCount > 0 {
      out := AppendBase83(out, Clamp(maximum, 0, 82), 1);
    } else {
      out := AppendBase83(out, 0, 1);
    }
    out := AppendBase83(out, dc, 4);
  }

  lemma PackedACNext(ac: seq<Triple>, i: nat)
    requires i < |ac| && forall k :: 0 <= k < |ac| ==> InRange(ac[k], 19)
    ensures PackedAC(ac[..i + 1]) == PackedAC(ac[..i]) + Packed(EncodeAC(ac[i]), 2)
  {
    assert ac[..i + 1][..i] == ac[..i];
  }

  method AppendAC(dst: seq<Digit>, ac: seq<Triple>) returns (out: seq<Digit>)
    ensures out == dst + PackedAC(ClampAll(ac))
  {
    ghost var clamped := ClampAll(ac);
    out := dst;
    for i := 0 to |ac|
      invariant out == dst + PackedAC(clamped[..i])
    {
      PackedACNext(clamped, i);
      out := AppendBase83(out, EncodeAC(ClampTriple(ac[i])), 2);
    }
    assert clamped[..|ac|] == clamped;
  }
}
