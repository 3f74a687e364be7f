/** The canonical base64 recogniser of inline image data, against section 4 of RFC 4648. */
module Base64 {
  import opened Text

  const PAD: byte := '=' as byte

  /** Value of an alphabet character (table 1 of RFC 4648). */
  function Value(b: byte): (v: Option<nat>)
    ensures v.Some? ==> v.value < 64
  {
    var c := b as int;
    if 'A' as int <= c <= 'Z' as int then Some(c - 'A' as int)
    else if 'a' as int <= c <= 'z' as int then Some(c - 'a' as int + 26)
    else if '0' as int <= c <= '9' as int then Some(c - '0' as int + 52)
    else if c == '+' as int then Some(62)
    else if c == '/' as int then Some(63)
    else None
  }

  function Digit(v: nat): (b: byte)
    requires v < 64
    ensures Value(b) == Some(v)
  {
    if v < 26 then ('A' as int + v) as byte
    else if v < 52 then ('a' as int + v - 26) as byte
    else if v < 62 then ('0' as int + v - 52) as byte
    else if v == 62 then '+' as byte
    else '/' as byte
  }

  lemma DigitOfValue(b: byte)
    requires Value(b).Some?
    ensures Digit(Value(b).value) == b
  {
  }

  function Quad(a: byte, b: byte, c: byte): (q: seq<byte>)
    ensures |q| == 4 && forall i :: 0 <= i < 4 ==> Value(q[i]).Some? && q[i] != PAD
    ensures b == 0 ==> Value(q[1]).value % 16 == 0
    ensures c == 0 ==> Value(q[2]).value % 4 == 0
  {
    var (x, y, z) := (a as nat, b as nat, c as nat);
    [Digit(x / 4), Digit(x % 4 * 16 + y / 16), Digit(y % 16 * 4 + z / 64), Digit(z % 64)]
  }

  /** The encoder of section 4, with the zero pad bits of section 3.5. */
  function Encode64(bytes: seq<byte>): (t: seq<byte>) {
    if bytes == [] then []
    else if |bytes| == 1 then Quad(bytes[0], 0, 0)[..2] + [PAD, PAD]
    else if |bytes| == 2 then Quad(bytes[0], bytes[1], 0)[..3] + [PAD]
    else Quad(bytes[0], bytes[1], bytes[2]) + Encode64(bytes[3..])
  }

  function TrailingPads(t: seq<byte>): (n: nat)
    ensures n <= |t|
    ensures forall i :: |t| - n <= i < |t| ==> t[i] == PAD
    ensures n < |t| ==> t[|t| - n - 1] != PAD
  {
    if t == [] || t[|t| - 1] != PAD then 0 else 1 + TrailingPads(t[..|t| - 1])
  }

  /** `valid_base64`: the checks made without decoding. */
  predicate ValidBase64(t: seq<byte>) {
    t != [] && |t| % 4 == 0 &&
    var padding := TrailingPads(t);
    padding <= 2 &&
    var data := t[..|t| - padding];
    (forall i :: 0 <= i < |data| ==> Value(data[i]).Some?) &&
    var last := if data == [] then 0 else Value(data[|data| - 1]).value;
    (padding == 1 ==> last % 4 == 0) && (padding == 2 ==> last % 16 == 0)
  }

  lemma PadsAre(t: seq<byte>, n: nat)
    requires n < |t| && t[|t| - n - 1] != PAD
    requires forall i :: |t| - n <= i < |t| ==> t[i] == PAD
    ensures TrailingPads(t) == n
  {
    assert TrailingPads(t) >= n;
  }

  /** Only the last block may be padded. */
  lemma ValidByBlocks(t: seq<byte>)
    requires |t| > 4 && |t| % 4 == 0
    ensures ValidBase64(t) <==> (forall i :: 0 <= i < 4 ==> Value(t[i]).Some?) && ValidBase64(t[4..])
  {
    hide Value, TrailingPads;
    var rest := t[4..];
    var n := TrailingPads(rest);
    PadsOfRest(t);
    if n < |rest| {
      var data := t[..|t| - n];
      assert data[4..] == rest[..|rest| - n];
      assert data[|data| - 1] == rest[..|rest| - n][|rest| - n - 1];
      assert forall i :: 0 <= i < |data| ==> data[i] == if i < 4 then t[i] else rest[i - 4];
      assert forall i :: 0 <= i < |rest| - n ==> rest[i] == data[i + 4];
    } else {
    }
  }

  /** Padding that does not fill the later blocks does not reach the first. */
  lemma PadsOfRest(t: seq<byte>)
    requires |t| > 4 && |t| % 4 == 0
    ensures var (n, rest) := (TrailingPads(t[4..]), t[4..]);
      if n < |rest| then TrailingPads(t) == n else TrailingPads(t) >= 3
  {
    hide TrailingPads;
    var rest := t[4..];
    var n := TrailingPads(rest);
    if n < |rest| {
      assert t[|t| - n - 1] == rest[|rest| - n - 1];
      forall i | |t| - n <= i < |t| ensures t[i] == PAD { assert t[i] == rest[i - 4]; }
      PadsAre(t, n);
    } else {
      assert forall i :: 4 <= i < |t| ==> t[i] == rest[i - 4];
    }
  }

  /** Three bytes from four six-bit values. */
  function Join(v0: nat, v1: nat, v2: nat, v3: nat): (byte, byte, byte)
    requires v0 < 64 && v1 < 64 && v2 < 64 && v3 < 64
  {
    ((v0 * 4 + v1 / 16) as byte, (v1 % 16 * 16 + v2 / 4) as byte, (v2 % 4 * 64 + v3) as byte)
  }

  /** Regrouping four six-bit values into three bytes and back is lossless. */
  lemma QuadOfJoin(v0: nat, v1: nat, v2: nat, v3: nat)
    requires v0 < 64 && v1 < 64 && v2 < 64 && v3 < 64
    ensures var (a, b, c) := Join(v0, v1, v2, v3);
      && Quad(a, b, c) == [Digit(v0), Digit(v1), Digit(v2), Digit(v3)]
      && (v1 % 16 == 0 && v2 == 0 ==> b == 0) && (v2 % 4 == 0 && v3 == 0 ==> c == 0)
  {
    var (a, b, c) := Join(v0, v1, v2, v3);
    assert a as nat / 4 == v0 && a as nat % 4 == v1 / 16;
    assert b as nat / 16 == v1 % 16 && b as nat % 16 == v2 / 4;
    assert c as nat / 64 == v2 % 4 && c as nat % 64 == v3;
  }

  function SixBits(t: seq<byte>, i: nat): (v: nat)
    ensures v < 64
  {
    if i < |t| && Value(t[i]).Some? then Value(t[i]).value else 0
  }

  function Decode4(t: seq<byte>, padding: nat): (bytes: seq<byte>)
    requires padding <= 2
    ensures |bytes| == 3 - padding
  {
    var (a, b, c) := Join(SixBits(t, 0), SixBits(t, 1), SixBits(t, 2), SixBits(t, 3));
    [a, b, c][..3 - padding]
  }

  lemma BlockShape(t: seq<byte>)
    requires |t| == 4 && ValidBase64(t)
    ensures var n := TrailingPads(t);
      && n <= 2
      && (forall i :: 0 <= i < 4 - n ==> Digit(SixBits(t, i)) == t[i])
      && (forall i :: 4 - n <= i < 4 ==> t[i] == PAD && SixBits(t, i) == 0)
      && (n == 1 ==> SixBits(t, 2) % 4 == 0) && (n == 2 ==> SixBits(t, 1) % 16 == 0)
  {
    var n := TrailingPads(t);
    var data := t[..4 - n];
    assert forall i :: 0 <= i < |data| ==> t[i] == data[i];
    forall i | 0 <= i < 4 - n ensures Digit(SixBits(t, i)) == t[i] { DigitOfValue(data[i]); }
  }

  lemma BlockIsEncoding(t: seq<byte>)
    requires |t| == 4 && ValidBase64(t)
    ensures Encode64(Decode4(t, TrailingPads(t))) == t
  {
    hide Quad, Digit, Value, SixBits, TrailingPads, ValidBase64;
    BlockShape(t);
    var n := TrailingPads(t);
    QuadOfJoin(SixBits(t, 0), SixBits(t, 1), SixBits(t, 2), SixBits(t, 3));
    var (a, b, c) := Join(SixBits(t, 0), SixBits(t, 1), SixBits(t, 2), SixBits(t, 3));
    EncodeTriple(a, b, c);
    PaddedQuad(t, n, Quad(a, b, c),
               [Digit(SixBits(t, 0)), Digit(SixBits(t, 1)), Digit(SixBits(t, 2)), Digit(SixBits(t, 3))]);
  }

  lemma PaddedQuad(t: seq<byte>, n: nat, q: seq<byte>, digits: seq<byte>)
    requires |t| == |digits| == 4 && n <= 2 && q == digits
    requires forall i :: 0 <= i < 4 - n ==> digits[i] == t[i]
    requires forall i :: 4 - n <= i < 4 ==> t[i] == PAD
    ensures n == 0 ==> t == q
    ensures n == 1 ==> t == q[..3] + [PAD]
    ensures n == 2 ==> t == q[..2] + [PAD, PAD]
  {
  }

  lemma EncodeTriple(a: byte, b: byte, c: byte)
    ensures Encode64([a]) == Quad(a, 0, 0)[..2] + [PAD, PAD]
    ensures Encode64([a, b]) == Quad(a, b, 0)[..3] + [PAD]
    ensures Encode64([a, b, c]) == Quad(a, b, c)
  {
    assert [a, b, c][3..] == [];
    assert Quad(a, b, c) + [] == Quad(a, b, c);
  }

  lemma {:induction false} ValidIsEncoding(t: seq<byte>) returns (bytes: seq<byte>)
    requires ValidBase64(t)
    ensures bytes != [] && Encode64(bytes) == t
    decreases |t|
  {
    if |t| == 4 {
      BlockIsEncoding(t);
      bytes := Decode4(t, TrailingPads(t));
    } else {
      ValidByBlocks(t);
      PadsAre(t[..4], 0);
      BlockIsEncoding(t[..4]);
      var head := Decode4(t[..4], 0);
      var rest := ValidIsEncoding(t[4..]);
      bytes := head + rest;
      FullBlockEncodes(head, rest);
      assert t == t[..4] + t[4..];
    }
  }

  lemma FullBlockEncodes(head: seq<byte>, rest: seq<byte>)
    requires |head| == 3
    ensures Encode64(head + rest) == Encode64(head) + Encode64(rest)
  {
    assert (head + rest)[3..] == rest && head[3..] == [];
  }

  lemma QuadIsValid(q: seq<byte>, padding: nat)
    requires |q| == 4 && padding <= 2
    requires forall i :: 0 <= i < 4 - padding ==> Value(q[i]).Some? && q[i] != PAD
    requires forall i :: 4 - padding <= i < 4 ==> q[i] == PAD
    requires padding == 1 ==> Value(q[2]).value % 4 == 0
    requires padding == 2 ==> Value(q[1]).value % 16 == 0
    ensures ValidBase64(q)
  {
    PadsAre(q, padding);
    assert forall i :: 0 <= i < 4 - padding ==> q[..4 - padding][i] == q[i];
  }

  lemma {:induction false} EncodedInBlocks(bytes: seq<byte>)
    ensures |Encode64(bytes)| % 4 == 0 && (bytes != [] ==> |Encode64(bytes)| >= 4)
  {
    hide Quad;
    if |bytes| >= 3 { EncodedInBlocks(bytes[3..]); }
  }

  lemma {:induction false} EncodingIsValid(bytes: seq<byte>)
    requires bytes != []
    ensures ValidBase64(Encode64(bytes))
  {
    hide Quad, Value;
    var t := Encode64(bytes);
    EncodedInBlocks(bytes);
    if |bytes| == 1 {
      QuadIsValid(t, 2);
    } else if |bytes| == 2 {
      QuadIsValid(t, 1);
    } else {
      var q := Quad(bytes[0], bytes[1], bytes[2]);
      QuadIsValid(q, 0);
      if |bytes| == 3 {
        assert bytes[3..] == [] && q + [] == q;
      } else {
        EncodingIsValid(bytes[3..]);
        assert t[4..] == Encode64(bytes[3..]);
        ValidByBlocks(t);
      }
    }
  }

  /** The recogniser accepts exactly the padded encodings of nonempty byte sequences. */
  lemma ValidBase64Iff(t: seq<byte>)
    ensures ValidBase64(t) <==> exists bytes :: bytes != [] && Encode64(bytes) == t
  {
    if ValidBase64(t) {
      var bytes := ValidIsEncoding(t);
    }
    forall bytes: seq<byte> | bytes != [] && Encode64(bytes) == t ensures ValidBase64(t) {
      EncodingIsValid(bytes);
    }
  }
}
