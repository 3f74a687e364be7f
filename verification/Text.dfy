/** Strings as the source sees them: sequences of Unicode scalar values, measured in UTF-8 bytes. */
module Text {

  datatype Option<+T> = None | Some(value: T)

  datatype Result<+T, +E> = Ok(value: T) | Err(error: E)

  /** `usize::MAX` and `u64::MAX` on the 64-bit targets the application ships for. */
  const WORD_MAX: nat := 0xFFFF_FFFF_FFFF_FFFF

  function Min(a: nat, b: nat): nat { if a <= b then a else b }

  function Max(a: nat, b: nat): nat { if a <= b then b else a }

  function SatAdd(a: nat, b: nat): nat { Min(a + b, WORD_MAX) }

  function SatMul(a: nat, b: nat): nat { Min(a * b, WORD_MAX) }

  function SatSub(a: nat, b: nat): nat { if a <= b then 0 else a - b }

  // ----- UTF-8 (section 3 of RFC 3629) -----

  newtype byte = b: int | 0 <= b < 256

  /** Bytes one scalar value takes. */
  function CharLen(c: char): nat {
    if c as int < 0x80 then 1 else if c as int < 0x800 then 2 else if c as int < 0x10000 then 3 else 4
  }

  function EncodeChar(c: char): (bytes: seq<byte>)
    ensures |bytes| == CharLen(c)
  {
    var n := c as int;
    if n < 0x80 then [n as byte]
    else if n < 0x800 then [(0xC0 + n / 64) as byte, (0x80 + n % 64) as byte]
    else if n < 0x10000 then [(0xE0 + n / 4096) as byte, (0x80 + n / 64 % 64) as byte, (0x80 + n % 64) as byte]
    else [(0xF0 + n / 262144) as byte, (0x80 + n / 4096 % 64) as byte, (0x80 + n / 64 % 64) as byte,
          (0x80 + n % 64) as byte]
  }

  function Encode(s: string): (bytes: seq<byte>)
    ensures |bytes| == Len(s)
  {
    if s == [] then [] else EncodeChar(s[0]) + Encode(s[1..])
  }

  /** `str::len`: the length in bytes. */
  function Len(s: string): nat {
    if s == [] then 0 else CharLen(s[0]) + Len(s[1..])
  }

  lemma {:induction false} LenConcat(a: string, b: string)
    ensures Len(a + b) == Len(a) + Len(b)
  {
    if a == [] {
      assert a + b == b;
    } else {
      LenConcat(a[1..], b);
      assert (a + b)[1..] == a[1..] + b;
    }
  }

  lemma Assoc<T>(x: seq<T>, y: seq<T>, z: seq<T>)
    ensures x + y + z == x + (y + z)
  {
  }

  lemma {:induction false} EncodeConcat(a: string, b: string)
    ensures Encode(a + b) == Encode(a) + Encode(b)
  {
    if a == [] {
      assert a + b == b;
    } else {
      EncodeConcat(a[1..], b);
      assert (a + b)[0] == a[0] && (a + b)[1..] == a[1..] + b;
      Assoc(EncodeChar(a[0]), Encode(a[1..]), Encode(b));
    }
  }

  /** `str::is_char_boundary`: the end, or a byte that does not continue a character. */
  predicate IsCharBoundary(bytes: seq<byte>, i: nat) {
    i == 0 || i == |bytes| || (i < |bytes| && !(0x80 <= bytes[i] < 0xC0))
  }

  /** The boundary test finds exactly the ends of whole characters. */
  lemma {:induction false} BoundaryIsPrefixLength(s: string, i: nat)
    requires i <= Len(s)
    ensures IsCharBoundary(Encode(s), i) <==> exists k :: 0 <= k <= |s| && Len(s[..k]) == i
  {
    if i == 0 {
      assert Len(s[..0]) == i;
    } else if i < CharLen(s[0]) {
      assert 0x80 <= Encode(s)[i] < 0xC0 by { assert Encode(s)[i] == EncodeChar(s[0])[i]; }
      forall k | 0 <= k <= |s| ensures Len(s[..k]) != i {
        if k > 0 { assert s[..k][0] == s[0]; }
      }
    } else {
      var j := i - CharLen(s[0]);
      BoundaryIsPrefixLength(s[1..], j);
      forall k | 0 < k <= |s| ensures Len(s[..k]) == CharLen(s[0]) + Len(s[1..][..k - 1]) {
        assert s[..k][1..] == s[1..][..k - 1];
      }
      if IsCharBoundary(Encode(s), i) {
        if 0 < j < Len(s[1..]) { assert Encode(s)[i] == Encode(s[1..])[j]; }
        var k :| 0 <= k <= |s[1..]| && Len(s[1..][..k]) == j;
        assert Len(s[..k + 1]) == i;
      } else {
        assert Encode(s)[i] == Encode(s[1..])[j];
        if j == 0 { FirstByteStarts(s[1..]); }
      }
    }
  }

  /** The first byte of a character never looks like a continuation. */
  lemma FirstByteStarts(s: string)
    requires s != []
    ensures !(0x80 <= Encode(s)[0] < 0xC0)
  {
    assert Encode(s)[0] == EncodeChar(s[0])[0];
  }

  /** The longest prefix of whole characters that fits `limit` bytes. */
  function Clip(s: string, limit: nat): (r: string)
    ensures r <= s && Len(r) <= limit
    ensures r == s <==> Len(s) <= limit
    ensures forall k :: |r| < k <= |s| ==> Len(s[..k]) > limit
  {
    if s == [] || CharLen(s[0]) > limit then
      assert forall k :: 0 < k <= |s| ==> s[..k][0] == s[0];
      []
    else
      var rest := Clip(s[1..], limit - CharLen(s[0]));
      assert forall k :: 0 < k <= |s| ==> s[..k][0] == s[0] && s[..k][1..] == s[1..][..k - 1];
      assert ([s[0]] + rest)[1..] == rest;
      [s[0]] + rest
  }

  /** `clip_utf8`: the byte loop stops at exactly the character prefix `Clip` names. */
  method ClipUtf8(text: string, bytes: nat) returns (clipped: seq<byte>)
    ensures clipped == Encode(Clip(text, bytes))
  {
    var encoded := Encode(text);
    var end := Min(|encoded|, bytes);
    ghost var whole := Clip(text, bytes);
    WholePrefixIsBoundary(text, whole);
    while !IsCharBoundary(encoded, end)
      invariant Len(whole) <= end <= Min(|encoded|, bytes)
      decreases end
    {
      end := end - 1;
    }
    BoundaryIsClip(text, bytes, end);
    clipped := encoded[..end];
  }

  lemma WholePrefixIsBoundary(text: string, whole: string)
    requires whole <= text
    ensures Len(whole) <= Len(text) && IsCharBoundary(Encode(text), Len(whole))
  {
    assert text[..|whole|] == whole;
    PrefixLen(text, |whole|);
    BoundaryIsPrefixLength(text, Len(whole));
  }

  /** The last boundary within the limit ends the longest whole prefix. */
  lemma BoundaryIsClip(text: string, limit: nat, end: nat)
    requires Len(Clip(text, limit)) <= end <= Len(text) && end <= limit && IsCharBoundary(Encode(text), end)
    ensures Encode(text)[..end] == Encode(Clip(text, limit))
  {
    hide IsCharBoundary;
    var whole := Clip(text, limit);
    BoundaryIsPrefixLength(text, end);
    var k :| 0 <= k <= |text| && Len(text[..k]) == end;
    hide Clip, Len, Encode;
    assert text[..k] == whole[..k];
    PrefixLen(whole, k);
    if k < |whole| { LenPositive(whole[k..]); }
    assert k == |whole| && whole[..k] == whole;
    EncodeConcat(whole, text[k..]);
    assert whole + text[k..] == text;
  }

  lemma PrefixLen(s: string, k: nat)
    requires k <= |s|
    ensures Len(s) == Len(s[..k]) + Len(s[k..])
    ensures Len(s[..k]) <= Len(s)
  {
    assert s == s[..k] + s[k..];
    LenConcat(s[..k], s[k..]);
  }

  lemma LenPositive(s: string)
    requires s != []
    ensures Len(s) > 0
  {
  }

  /** Clipping a longer text only asks how much room the kept prefix leaves. */
  lemma {:induction false} ClipConcat(a: string, b: string, limit: nat)
    requires Len(a) <= limit
    ensures Clip(a + b, limit) == a + Clip(b, limit - Len(a))
  {
    if a == [] {
      assert a + b == b;
    } else {
      assert (a + b)[1..] == a[1..] + b;
      ClipConcat(a[1..], b, limit - CharLen(a[0]));
    }
  }

  /** Nothing that follows an overflowing text changes its clipped form. */
  lemma {:induction false} ClipIgnoresTail(a: string, b: string, limit: nat)
    requires Len(a) > limit
    ensures Clip(a + b, limit) == Clip(a, limit)
  {
    assert (a + b)[1..] == a[1..] + b;
    if CharLen(a[0]) <= limit {
      ClipIgnoresTail(a[1..], b, limit - CharLen(a[0]));
    }
  }

  // ----- Character classes and searching -----

  /** `char::is_control`: Unicode general category Cc. */
  predicate IsControl(c: char) {
    c as int < 0x20 || 0x7F <= c as int < 0xA0
  }

  /** `char::is_whitespace`: the Unicode White_Space property. */
  predicate IsWhitespace(c: char) {
    var n := c as int;
    9 <= n <= 13 || n == 0x20 || n == 0x85 || n == 0xA0 || n == 0x1680 || 0x2000 <= n <= 0x200A
    || n == 0x2028 || n == 0x2029 || n == 0x202F || n == 0x205F || n == 0x3000
  }

  predicate AnyControl(s: string) { exists i :: 0 <= i < |s| && IsControl(s[i]) }

  predicate IsAsciiAlphanumeric(c: char) {
    'a' <= c <= 'z' || 'A' <= c <= 'Z' || '0' <= c <= '9'
  }

  /** `text.trim() == text` for a nonempty text, and `!text.trim().is_empty()`. */
  predicate IsTrimmed(s: string) {
    s != [] && !IsWhitespace(s[0]) && !IsWhitespace(s[|s| - 1])
  }

  predicate IsBlank(s: string) { forall i :: 0 <= i < |s| ==> IsWhitespace(s[i]) }

  predicate Contains(s: string, pattern: string) {
    exists i {:trigger s[i..]} :: 0 <= i <= |s| && pattern <= s[i..]
  }

  /** Index of the first occurrence of a nonempty pattern. */
  function Find(s: string, pattern: string): (at: Option<nat>)
    ensures at.Some? ==> at.value + |pattern| <= |s| && pattern <= s[at.value..]
    ensures at.Some? ==> forall i :: 0 <= i < at.value ==> !(pattern <= s[i..])
    ensures at.None? <==> !Contains(s, pattern)
  {
    if pattern <= s then
      assert s[0..] == s;
      Some(0)
    else if s == [] then
      None
    else
      var rest := Find(s[1..], pattern);
      ContainsLater(s, pattern);
      if rest.None? then None else
        FirstLater(s, pattern, rest.value);
        Some(rest.value + 1)
  }

  lemma ContainsLater(s: string, pattern: string)
    requires s != [] && !(pattern <= s)
    ensures Contains(s, pattern) <==> Contains(s[1..], pattern)
  {
    if Contains(s, pattern) {
      var i :| 0 <= i <= |s| && pattern <= s[i..];
      assert s[0..] == s;
      assert i > 0;
      assert s[1..][i - 1..] == s[i..];
    }
    if Contains(s[1..], pattern) {
      var i :| 0 <= i <= |s[1..]| && pattern <= s[1..][i..];
      assert s[1..][i..] == s[i + 1..];
    }
  }

  lemma FirstLater(s: string, pattern: string, at: nat)
    requires s != [] && !(pattern <= s)
    requires at + |pattern| <= |s[1..]| && pattern <= s[1..][at..]
    requires forall i :: 0 <= i < at ==> !(pattern <= s[1..][i..])
    ensures pattern <= s[at + 1..]
    ensures forall i :: 0 <= i < at + 1 ==> !(pattern <= s[i..])
  {
    assert s[1..][at..] == s[at + 1..];
    assert s[0..] == s;
    forall i | 0 < i < at + 1 ensures !(pattern <= s[i..]) {
      assert s[1..][i - 1..] == s[i..];
    }
  }

  /** The search returns the only index with its two defining properties. */
  lemma FindIs(s: string, pattern: string, at: nat)
    requires at <= |s| && pattern <= s[at..]
    requires forall i :: 0 <= i < at ==> !(pattern <= s[i..])
    ensures Find(s, pattern) == Some(at)
  {
    assert Contains(s, pattern);
  }

  // ----- Decimal numbers -----

  function DigitChar(d: nat): char
    requires d < 10
  {
    ('0' as int + d) as char
  }

  predicate IsDigit(c: char) { '0' <= c <= '9' }

  /** How the source formats an unsigned integer. */
  function Decimal(n: nat): (s: string)
    ensures s != [] && forall i :: 0 <= i < |s| ==> IsDigit(s[i])
  {
    if n < 10 then [DigitChar(n)] else Decimal(n / 10) + [DigitChar(n % 10)]
  }

  function DigitsValue(s: string): nat
    requires forall i :: 0 <= i < |s| ==> IsDigit(s[i])
  {
    if s == [] then 0 else
      assert IsDigit(s[|s| - 1]);
      DigitsValue(s[..|s| - 1]) * 10 + (s[|s| - 1] as int - '0' as int)
  }

  /** `str::parse::<u64>`: an optional plus sign, at least one digit, and a value that fits. */
  function ParseU64(s: string): Option<nat> {
    var digits := if s != [] && s[0] == '+' then s[1..] else s;
    if digits != [] && (forall i :: 0 <= i < |digits| ==> IsDigit(digits[i])) && DigitsValue(digits) <= WORD_MAX
    then Some(DigitsValue(digits)) else None
  }

  lemma {:induction false} DecimalValue(n: nat)
    ensures DigitsValue(Decimal(n)) == n
  {
    if n >= 10 {
      DecimalValue(n / 10);
      assert Decimal(n)[..|Decimal(n)| - 1] == Decimal(n / 10);
    }
  }

  /** Formatting is undone by parsing, so it is injective. */
  lemma ParseDecimal(n: nat)
    requires n <= WORD_MAX
    ensures ParseU64(Decimal(n)) == Some(n)
  {
    DecimalValue(n);
    assert IsDigit(Decimal(n)[0]);
  }
}
