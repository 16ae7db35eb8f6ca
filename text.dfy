/** The pieces of Rust's string library the core relies on: `char::is_whitespace`
    (used by `trim_end` and `split_whitespace`), the decimal `Display` of an
    unsigned length, `str::len`, which counts UTF-8 bytes, and the byte
    offsets that string slicing takes. */
module Text {
  import opened Results

  /** Rust's `char::is_whitespace`: the Unicode White_Space property. */
  predicate IsWhitespace(c: char) {
    ('\t' <= c <= '\r') || c == ' ' || c == '\U{85}' || c == '\U{A0}' || c == '\U{1680}'
    || ('\U{2000}' <= c <= '\U{200A}') || c == '\U{2028}' || c == '\U{2029}'
    || c == '\U{202F}' || c == '\U{205F}' || c == '\U{3000}'
  }

  predicate NoWhitespace(s: string) {
    forall i :: 0 <= i < |s| ==> !IsWhitespace(s[i])
  }

  predicate AllWhitespace(s: string) {
    forall i :: 0 <= i < |s| ==> IsWhitespace(s[i])
  }

  /** `str::trim_end`: the longest prefix that does not end in whitespace. */
  function TrimEnd(s: string): (r: string)
    ensures r <= s
    ensures r == [] || !IsWhitespace(r[|r| - 1])
    ensures AllWhitespace(s[|r|..])
  {
    if s != [] && IsWhitespace(s[|s| - 1]) then
      var r := TrimEnd(s[..|s| - 1]);
      assert s[|r|..] == s[..|s| - 1][|r|..] + [s[|s| - 1]];
      r
    else s
  }

  /** Trimming a value that has no trailing whitespace gives it back, so a
      line whose only trailing whitespace is the terminator trims to its text. */
  lemma {:induction false} TrimEndOfTerminated(text: string, tail: string)
    requires text == [] || !IsWhitespace(text[|text| - 1])
    requires AllWhitespace(tail)
    ensures TrimEnd(text + tail) == text
    decreases |tail|
  {
    if tail != [] {
      var t := tail[..|tail| - 1];
      assert (text + tail)[..|text + tail| - 1] == text + t;
      TrimEndOfTerminated(text, t);
    } else {
      assert text + tail == text;
    }
  }

  predicate IsDigit(c: char) {
    '0' <= c <= '9'
  }

  predicate AllDigits(s: string) {
    forall i :: 0 <= i < |s| ==> IsDigit(s[i])
  }

  function DigitChar(d: nat): (c: char)
    requires d < 10
    ensures IsDigit(c) && c as int - '0' as int == d
  {
    "0123456789"[d]
  }

  /** The decimal `Display` of a `usize`: no sign, no leading zeros. */
  function Decimal(n: nat): (r: string)
    ensures |r| > 0 && AllDigits(r)
    ensures r[0] == '0' ==> n == 0
  {
    if n < 10 then [DigitChar(n)] else Decimal(n / 10) + [DigitChar(n % 10)]
  }

  lemma DecimalOfTwoDigits(n: nat)
    requires 10 <= n < 100
    ensures Decimal(n) == [DigitChar(n / 10), DigitChar(n % 10)]
  {
  }

  /** The number a run of decimal digits stands for. */
  function ValueOf(s: string): nat
    requires AllDigits(s)
  {
    if s == [] then 0 else ValueOf(s[..|s| - 1]) * 10 + (s[|s| - 1] as int - '0' as int)
  }

  /** Reading back the decimal text of a number gives the number. */
  lemma {:induction false} ValueOfDecimal(n: nat)
    ensures ValueOf(Decimal(n)) == n
  {
    if n >= 10 {
      ValueOfDecimal(n / 10);
      var d := Decimal(n / 10);
      assert (d + [DigitChar(n % 10)])[..|d|] == d;
    }
  }

  /** The longest prefix made of decimal digits. */
  function DigitPrefix(s: string): (r: string)
    ensures r <= s && AllDigits(r)
    ensures |r| < |s| ==> !IsDigit(s[|r|])
  {
    if s != [] && IsDigit(s[0]) then [s[0]] + DigitPrefix(s[1..]) else []
  }

  lemma {:induction false} DigitPrefixOf(d: string, rest: string)
    requires AllDigits(d)
    requires rest == [] || !IsDigit(rest[0])
    ensures DigitPrefix(d + rest) == d
  {
    if d != [] {
      assert (d + rest)[1..] == d[1..] + rest;
      DigitPrefixOf(d[1..], rest);
    } else {
      assert d + rest == rest;
    }
  }

  /** Number of bytes of `c` in UTF-8. */
  function Utf8Width(c: char): (w: nat)
    ensures 1 <= w <= 4
  {
    if c < '\U{80}' then 1 else if c < '\U{800}' then 2 else if c < '\U{10000}' then 3 else 4
  }

  /** Rust's `str::len`: the length in UTF-8 bytes. */
  function Utf8Length(s: string): (n: nat)
    ensures |s| <= n <= 4 * |s|
  {
    if s == [] then 0 else Utf8Width(s[0]) + Utf8Length(s[1..])
  }

  predicate IsAscii(s: string) {
    forall i :: 0 <= i < |s| ==> s[i] < '\U{80}'
  }

  /** For ASCII text, bytes and characters coincide. */
  lemma {:induction false} AsciiUtf8Length(s: string)
    requires IsAscii(s)
    ensures Utf8Length(s) == |s|
  {
    if s != [] {
      AsciiUtf8Length(s[1..]);
    }
  }

  /** Byte lengths add up over concatenation. */
  lemma {:induction false} Utf8LengthAppend(a: string, b: string)
    ensures Utf8Length(a + b) == Utf8Length(a) + Utf8Length(b)
  {
    if a == [] {
      assert a + b == b;
    } else {
      assert (a + b)[1..] == a[1..] + b;
      Utf8LengthAppend(a[1..], b);
    }
  }

  /** A non-empty prefix takes the first character's bytes and then those of
      the rest of the prefix. */
  lemma PrefixLengths(s: string)
    requires s != []
    ensures forall i :: 0 < i <= |s| ==> Utf8Length(s[..i]) == Utf8Width(s[0]) + Utf8Length(s[1..][..i - 1])
  {
    forall i | 0 < i <= |s|
      ensures Utf8Length(s[..i]) == Utf8Width(s[0]) + Utf8Length(s[1..][..i - 1])
    {
      assert s[..i][1..] == s[1..][..i - 1];
    }
  }

  /** The character position at byte offset `b` of `s`: the number of leading
      characters that take exactly `b` bytes. `None` when `b` falls inside a
      character or beyond the end, where Rust's `&s[..b]` panics. */
  function CharIndex(s: string, b: nat): (r: Option<nat>)
    ensures r.Some? ==> r.value <= |s| && Utf8Length(s[..r.value]) == b
    ensures r.None? ==> forall i :: 0 <= i <= |s| ==> Utf8Length(s[..i]) != b
  {
    if b == 0 then
      assert s[..0] == [];
      Some(0)
    else if s == [] then
      assert forall i :: 0 <= i <= |s| ==> s[..i] == [];
      None
    else
      var w := Utf8Width(s[0]);
      PrefixLengths(s);
      assert s[..0] == [];
      if w > b then None
      else
        match CharIndex(s[1..], b - w)
        case None => None
        case Some(k) => Some(k + 1)
  }

  /** Byte offsets grow with character positions. */
  lemma PrefixLengthMonotone(s: string, i: nat, j: nat)
    requires i <= j <= |s|
    ensures Utf8Length(s[..j]) == Utf8Length(s[..i]) + Utf8Length(s[i..j])
  {
    assert s[..j] == s[..i] + s[i..j];
    Utf8LengthAppend(s[..i], s[i..j]);
  }
}
