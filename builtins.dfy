/** The Python built-in behaviours the CPU code depends on: how a list index
    selects a cell (or raises IndexError), and how int(text, 2) reads a
    binary literal (or raises ValueError). */
module Builtins {

  datatype Option<+T> = None | Some(value: T)

  datatype Result<+T, +E> = Ok(value: T) | Err(error: E)

  /** The cell that index i selects in a Python list of length n: i itself
      when 0 <= i < n, n + i when -n <= i < 0 (counting from the end), and
      None for the IndexError raised otherwise. */
  function Slot(i: int, n: nat): (k: Option<nat>)
    ensures k.Some? <==> 0 <= i + n && i < n
    ensures k.Some? ==> k.value < n && (k.value == i || k.value == n + i)
  {
    if 0 <= i < n then Some(i) else if 0 <= i + n && i < 0 then Some(n + i) else None
  }

  /** The white space int() skips at both ends of its argument: the ASCII
      space and '\t' to '\r', and the characters above ASCII that
      str.isspace() accepts, which int() first turns into spaces. The ASCII
      separators U+001C to U+001F satisfy str.isspace() but are passed to the
      parser unchanged, which rejects them. */
  predicate IsSpace(c: char) {
    c == ' ' || '\t' <= c <= '\r' ||
    c == '\U{85}' || c == '\U{a0}' || c == '\U{1680}' ||
    '\U{2000}' <= c <= '\U{200a}' || c == '\U{2028}' || c == '\U{2029}' ||
    c == '\U{202f}' || c == '\U{205f}' || c == '\U{3000}'
  }

  function TrimStart(s: string): (t: string)
    ensures |t| <= |s| && t == s[|s| - |t|..]
    ensures |t| > 0 ==> !IsSpace(t[0])
    ensures forall i | 0 <= i < |s| - |t| :: IsSpace(s[i])
  {
    if |s| > 0 && IsSpace(s[0]) then TrimStart(s[1..]) else s
  }

  function TrimEnd(s: string): (t: string)
    ensures |t| <= |s| && t == s[..|t|]
    ensures |t| > 0 ==> !IsSpace(t[|t| - 1])
    ensures forall i | |t| <= i < |s| :: IsSpace(s[i])
  {
    if |s| > 0 && IsSpace(s[|s| - 1]) then TrimEnd(s[..|s| - 1]) else s
  }

  /** What int() parses after dropping a "0b" or "0B" prefix: the prefix may
      be followed by a single underscore. */
  function AfterPrefix(u: string): string {
    if |u| >= 2 && u[0] == '0' && (u[1] == 'b' || u[1] == 'B') then
      if |u| >= 3 && u[2] == '_' then u[3..] else u[2..]
    else u
  }

  predicate IsBinaryDigit(c: char) {
    c == '0' || c == '1'
  }

  /** One or more binary digits, single underscores allowed between two
      digits. */
  predicate BinaryDigits(d: string) {
    |d| > 0 && IsBinaryDigit(d[0]) &&
    (|d| == 1 || BinaryDigits(d[1..]) || (|d| > 2 && d[1] == '_' && BinaryDigits(d[2..])))
  }

  /** Digits alone form a well-formed run. */
  lemma {:induction false} DigitsAreBinaryDigits(d: string)
    requires |d| > 0 && forall i | 0 <= i < |d| :: IsBinaryDigit(d[i])
    ensures BinaryDigits(d)
  {
    if |d| > 1 {
      DigitsAreBinaryDigits(d[1..]);
    }
  }

  /** The number that a run of binary digits denotes; underscores are
      separators and carry no weight. */
  function BinaryValue(d: string): nat {
    if |d| == 0 then 0
    else if d[|d| - 1] == '_' then BinaryValue(d[..|d| - 1])
    else 2 * BinaryValue(d[..|d| - 1]) + (if d[|d| - 1] == '1' then 1 else 0)
  }

  /** int(text, 2): white space trimmed at both ends, an optional sign, then
      an unsigned binary literal; None is the ValueError. */
  function IntBase2(text: string): (r: Option<int>)
    ensures r.Some? ==> |TrimEnd(TrimStart(text))| > 0
    ensures r.Some? && r.value < 0 ==> TrimEnd(TrimStart(text))[0] == '-'
  {
    SignedLiteral(TrimEnd(TrimStart(text)))
  }

  /** An optional sign, then an unsigned binary literal. */
  function SignedLiteral(t: string): (r: Option<int>)
    ensures r.Some? ==> |t| > 0 && (r.value < 0 ==> t[0] == '-')
  {
    if |t| > 0 && (t[0] == '+' || t[0] == '-') then
      match Unsigned(t[1..])
      case None => None
      case Some(v) => Some(if t[0] == '-' then -v else v)
    else Unsigned(t)
  }

  /** An optional 0b/0B prefix, then binary digits. */
  function Unsigned(u: string): (r: Option<int>)
    ensures r.Some? ==> |u| > 0 && r.value >= 0
  {
    var digits := AfterPrefix(u);
    if BinaryDigits(digits) then Some(BinaryValue(digits)) else None
  }

  /** Without leading white space, int() only trims the end. */
  lemma IntBase2Untrimmed(s: string)
    requires |s| > 0 && !IsSpace(s[0])
    ensures IntBase2(s) == SignedLiteral(TrimEnd(s))
  {
  }

  /** A literal that starts with a binary digit has no leading white space
      and no sign: int() reads it as an unsigned literal. */
  lemma IntBase2FromDigit(s: string)
    requires |s| > 0 && (s[0] == '0' || s[0] == '1')
    ensures IntBase2(s) == Unsigned(TrimEnd(s))
  {
    assert !IsSpace(s[0]);
    IntBase2Untrimmed(s);
    var t := TrimEnd(s);
    if |t| > 0 {
      assert t[0] == s[0];
      assert !(t[0] == '+' || t[0] == '-');
    }
    assert SignedLiteral(t) == Unsigned(t);
  }

  function Pow2(k: nat): nat {
    if k == 0 then 1 else 2 * Pow2(k - 1)
  }

  /** n written as exactly `width` binary digits, most significant first,
      the way instructions are written in a program listing. */
  function Bits(n: nat, width: nat): (s: string)
    ensures |s| == width
    ensures forall i | 0 <= i < |s| :: IsBinaryDigit(s[i])
  {
    if width == 0 then "" else Bits(n / 2, width - 1) + [if n % 2 == 1 then '1' else '0']
  }

  /** Reading a width-digit binary word back gives the number written. */
  lemma {:induction false} BinaryValueOfBits(n: nat, width: nat)
    requires n < Pow2(width)
    ensures BinaryValue(Bits(n, width)) == n
  {
    if width > 0 {
      var s := Bits(n, width);
      assert s[..|s| - 1] == Bits(n / 2, width - 1);
      BinaryValueOfBits(n / 2, width - 1);
    }
  }

  /** Trailing white space is exactly what TrimEnd removes. */
  lemma {:induction false} TrimEndPadding(s: string, pad: string)
    requires |s| > 0 && !IsSpace(s[|s| - 1])
    requires forall i | 0 <= i < |pad| :: IsSpace(pad[i])
    ensures TrimEnd(s + pad) == s
  {
    if |pad| > 0 {
      assert (s + pad)[..|s + pad| - 1] == s + pad[..|pad| - 1];
      TrimEndPadding(s, pad[..|pad| - 1]);
    }
  }

  /** Round trip: int(text, 2) of a width-digit binary word, followed by any
      white space such as a line ending, is the number the word encodes. */
  lemma {:induction false} IntBase2OfBits(n: nat, width: nat, pad: string)
    requires 0 < width && n < Pow2(width)
    requires forall i | 0 <= i < |pad| :: IsSpace(pad[i])
    ensures IntBase2(Bits(n, width) + pad) == Some(n)
  {
    var s := Bits(n, width);
    var text := s + pad;
    assert text[0] == s[0];
    IntBase2Untrimmed(text);
    TrimEndPadding(s, pad);
    assert AfterPrefix(s) == s by {
      if |s| >= 2 { assert IsBinaryDigit(s[1]); }
    }
    DigitsAreBinaryDigits(s);
    BinaryValueOfBits(n, width);
    assert Unsigned(s) == Some(n);
    assert SignedLiteral(s) == Unsigned(s);
  }

  /** The ASCII separators are not white space to int(): a field that ends
      in U+001C is rejected rather than trimmed. */
  lemma IntBase2KeepsSeparators()
    ensures IntBase2("1\U{1c}") == None
  {
    var t := "1\U{1c}";
    assert !IsSpace(t[0]) && !IsSpace(t[1]);
    assert TrimStart(t) == t;
    assert TrimEnd(t) == t;
    assert AfterPrefix(t) == t;
    assert !IsBinaryDigit(t[1]) && t[1] != '_';
    assert !BinaryDigits(t[1..]);
    assert !BinaryDigits(t);
  }
}
