/**
 * Standard base64 (the `+` `/` alphabet with `=` padding) as used by
 * `base64.b64encode` for outgoing audio and `base64.b64decode` for incoming
 * audio. The decoder is strict: it accepts exactly the canonical encodings.
 */
module Base64 {
  import opened Wrappers
  import opened Bytes

  /** A six-bit value. */
  type Sextet = x: int | 0 <= x < 64

  /** The character for a six-bit value. */
  function Sym(v: Sextet): char {
    if v < 26 then ('A' as int + v) as char
    else if v < 52 then ('a' as int + (v - 26)) as char
    else if v < 62 then ('0' as int + (v - 52)) as char
    else if v == 62 then '+'
    else '/'
  }

  predicate IsSym(c: char) {
    ('A' <= c <= 'Z') || ('a' <= c <= 'z') || ('0' <= c <= '9') || c == '+' || c == '/'
  }

  /** The six-bit value of an alphabet character. */
  function Val(c: char): (v: Sextet)
    requires IsSym(c)
    ensures Sym(v) == c
  {
    if 'A' <= c <= 'Z' then c as int - 'A' as int
    else if 'a' <= c <= 'z' then c as int - 'a' as int + 26
    else if '0' <= c <= '9' then c as int - '0' as int + 52
    else if c == '+' then 62
    else 63
  }

  lemma ValOfSym(v: Sextet)
    ensures IsSym(Sym(v)) && Val(Sym(v)) == v
  {
  }

  /** Three octets as four characters. */
  function EncodeFull(a: Byte, b: Byte, c: Byte): string {
    [Sym(a / 4), Sym((a % 4) * 16 + b / 16), Sym((b % 16) * 4 + c / 64), Sym(c % 64)]
  }

  /** `base64.b64encode(s)`: one four-character group per three octets, the last group padded. */
  function Encode(s: seq<Byte>): (r: string)
    decreases |s|
  {
    if |s| == 0 then ""
    else if |s| < 3 then EncodeTail(s)
    else EncodeFull(s[0], s[1], s[2]) + Encode(s[3..])
  }

  /** The padded last group of one or two octets. */
  function EncodeTail(s: seq<Byte>): string
    requires 1 <= |s| <= 2
  {
    if |s| == 1 then [Sym(s[0] / 4), Sym((s[0] % 4) * 16), '=', '=']
    else [Sym(s[0] / 4), Sym((s[0] % 4) * 16 + s[1] / 16), Sym((s[1] % 16) * 4), '=']
  }

  /** Every three octets, and a final one or two, become four characters. */
  lemma {:induction false} EncodeLength(s: seq<Byte>)
    ensures |Encode(s)| == 4 * ((|s| + 2) / 3)
    decreases |s|
  {
    if |s| >= 3 {
      EncodeLength(s[3..]);
      assert (|s| + 2) / 3 == (|s[3..]| + 2) / 3 + 1;
    }
  }

  /** Four alphabet characters as three octets. */
  function DecodeFull(q: string): seq<Byte>
    requires |q| == 4 && IsSym(q[0]) && IsSym(q[1]) && IsSym(q[2]) && IsSym(q[3])
  {
    [Val(q[0]) * 4 + Val(q[1]) / 16, (Val(q[1]) % 16) * 16 + Val(q[2]) / 4, (Val(q[2]) % 4) * 64 + Val(q[3])]
  }

  /**
   * The inverse of `Encode`: groups of four alphabet characters, padding only
   * in the last group, and the padded group's unused bits zero; anything else
   * is the decoding error (None).
   */
  function Decode(t: string): Option<seq<Byte>>
    decreases |t|
  {
    if |t| == 0 then Some([])
    else if |t| < 4 || !IsSym(t[0]) || !IsSym(t[1]) then None
    else if |t| == 4 && t[2] == '=' && t[3] == '=' then
      if Val(t[1]) % 16 == 0 then Some([Val(t[0]) * 4 + Val(t[1]) / 16]) else None
    else if !IsSym(t[2]) then None
    else if |t| == 4 && t[3] == '=' then
      if Val(t[2]) % 4 == 0 then Some([Val(t[0]) * 4 + Val(t[1]) / 16, (Val(t[1]) % 16) * 16 + Val(t[2]) / 4])
      else None
    else if !IsSym(t[3]) then None
    else match Decode(t[4..])
      case None => None
      case Some(rest) => Some(DecodeFull(t[..4]) + rest)
  }

  /** The high six bits and the low two bits of an octet rebuild it. */
  lemma SplitHigh(a: Byte, b: Byte)
    ensures (a / 4) * 4 + ((a % 4) * 16 + b / 16) / 16 == a
  {
    assert ((a % 4) * 16 + b / 16) / 16 == a % 4;
  }

  lemma SplitMiddle(b: Byte, x: int, c: Byte)
    requires 0 <= x < 4
    ensures ((x * 16 + b / 16) % 16) * 16 + ((b % 16) * 4 + c / 64) / 4 == b
  {
    assert (x * 16 + b / 16) % 16 == b / 16;
    assert ((b % 16) * 4 + c / 64) / 4 == b % 16;
  }

  lemma SplitLow(b: Byte, c: Byte)
    ensures (((b % 16) * 4 + c / 64) % 4) * 64 + c % 64 == c
  {
    assert ((b % 16) * 4 + c / 64) % 4 == c / 64;
  }

  lemma FullRoundTrip(a: Byte, b: Byte, c: Byte)
    ensures var q := EncodeFull(a, b, c);
      IsSym(q[0]) && IsSym(q[1]) && IsSym(q[2]) && IsSym(q[3]) && DecodeFull(q) == [a, b, c]
  {
    var v0, v1, v2, v3 := a / 4, (a % 4) * 16 + b / 16, (b % 16) * 4 + c / 64, c % 64;
    ValOfSym(v0); ValOfSym(v1); ValOfSym(v2); ValOfSym(v3);
    SplitHigh(a, b);
    SplitMiddle(b, a % 4, c);
    SplitLow(b, c);
  }

  lemma OneRoundTrip(a: Byte)
    ensures Decode(Encode([a])) == Some([a])
  {
    ValOfSym(a / 4);
    ValOfSym((a % 4) * 16);
  }

  lemma TwoRoundTrip(a: Byte, b: Byte)
    ensures Decode(Encode([a, b])) == Some([a, b])
  {
    var v0, v1, v2 := a / 4, (a % 4) * 16 + b / 16, (b % 16) * 4;
    ValOfSym(v0); ValOfSym(v1); ValOfSym(v2);
    SplitHigh(a, b);
    assert v1 % 16 == b / 16;
    assert v2 / 4 == b % 16 && v2 % 4 == 0;
    var t := Encode([a, b]);
    assert t == [Sym(v0), Sym(v1), Sym(v2), '='];
    assert Decode(t) == Some([v0 * 4 + v1 / 16, (v1 % 16) * 16 + v2 / 4]);
  }

  /** A full group of four alphabet characters decodes to its three octets ahead of the rest. */
  lemma DecodeGroup(q: string, r: string)
    requires |q| == 4 && IsSym(q[0]) && IsSym(q[1]) && IsSym(q[2]) && IsSym(q[3])
    ensures Decode(q + r) == match Decode(r) case None => None case Some(x) => Some(DecodeFull(q) + x)
  {
    var t := q + r;
    assert t[..4] == q && t[4..] == r;
    assert t[2] == q[2] && t[3] == q[3];
  }

  /** The inductive step: a leading group of three octets survives the round trip when the rest does. */
  lemma GroupRoundTrip(s: seq<Byte>)
    requires |s| >= 3 && Decode(Encode(s[3..])) == Some(s[3..])
    ensures Decode(Encode(s)) == Some(s)
  {
    FirstThree(s);
    var q, r := EncodeFull(s[0], s[1], s[2]), Encode(s[3..]);
    LeadingGroup(s[0], s[1], s[2], r);
    DecodeEqual(Encode(s), q + r, s, [s[0], s[1], s[2]] + s[3..]);
  }

  lemma FirstThree(s: seq<Byte>)
    requires |s| >= 3
    ensures s == [s[0], s[1], s[2]] + s[3..]
  {
  }

  lemma DecodeEqual(t: string, u: string, v: seq<Byte>, w: seq<Byte>)
    requires t == u
    requires Decode(u) == Some(w)
    requires v == w
    ensures Decode(t) == Some(v)
  {
  }

  /** Three octets encoded ahead of any text decode back to themselves ahead of that text's decoding. */
  lemma LeadingGroup(a: Byte, b: Byte, c: Byte, r: string)
    ensures Decode(EncodeFull(a, b, c) + r) == match Decode(r) case None => None case Some(x) => Some([a, b, c] + x)
  {
    FullRoundTrip(a, b, c);
    DecodeGroup(EncodeFull(a, b, c), r);
  }

  /** Decoding undoes encoding: `b64decode(b64encode(s)) == s`. */
  lemma {:induction false} RoundTrip(s: seq<Byte>)
    ensures Decode(Encode(s)) == Some(s)
    decreases |s|
  {
    if |s| == 1 {
      assert s == [s[0]];
      OneRoundTrip(s[0]);
    } else if |s| == 2 {
      assert s == [s[0], s[1]];
      TwoRoundTrip(s[0], s[1]);
    } else if |s| >= 3 {
      RoundTrip(s[3..]);
      GroupRoundTrip(s);
    }
  }
}
