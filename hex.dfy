/** Lowercase hexadecimal encoding, as Go's hex.EncodeToString writes it, and its
    strict inverse, used to state what a digest-valued response carries. */
module HexEncoding {
  import opened Wrappers
  import opened GoStrings

  /** The digit for a nibble, from the alphabet "0123456789abcdef". */
  function HexDigit(n: int): byte
    requires 0 <= n < 16
  {
    if n < 10 then (48 + n) as byte else (87 + n) as byte
  }

  /** `0`-`9` or `a`-`f`. */
  predicate IsLowerHexDigit(b: byte)
  {
    48 <= b <= 57 || 97 <= b <= 102
  }

  predicate IsLowerHex(s: GoString)
  {
    forall i :: 0 <= i < |s| ==> IsLowerHexDigit(s[i])
  }

  /** hex.EncodeToString: each byte becomes its high nibble's digit, then its low nibble's. */
  function Hex(bs: seq<byte>): (s: GoString)
    ensures |s| == 2 * |bs|
    ensures IsLowerHex(s)
    decreases |bs|
  {
    if bs == [] then []
    else [HexDigit(bs[0] as int / 16), HexDigit(bs[0] as int % 16)] + Hex(bs[1..])
  }

  /** The nibble a lowercase digit stands for; nothing for any other byte. */
  function NibbleOf(d: byte): (r: Option<int>)
    ensures r.Some? <==> IsLowerHexDigit(d)
    ensures r.Some? ==> 0 <= r.value < 16 && HexDigit(r.value) == d
  {
    if 48 <= d <= 57 then Some(d as int - 48)
    else if 97 <= d <= 102 then Some(d as int - 87)
    else None
  }

  /** Strict decoder: accepts exactly the even-length lowercase hex strings. */
  function Unhex(s: GoString): (r: Option<seq<byte>>)
    ensures r.Some? ==> 2 * |r.value| == |s|
    decreases |s|
  {
    if |s| == 0 then Some([])
    else if |s| == 1 then None
    else
      match (NibbleOf(s[0]), NibbleOf(s[1]), Unhex(s[2..]))
      case (Some(hi), Some(lo), Some(rest)) => Some([(hi * 16 + lo) as byte] + rest)
      case _ => None
  }

  /** Decoding the encoding of any bytes gives those bytes back. */
  lemma {:induction false} UnhexOfHex(bs: seq<byte>)
    ensures Unhex(Hex(bs)) == Some(bs)
    decreases |bs|
  {
    if bs != [] {
      var b := bs[0] as int;
      var s := Hex(bs);
      assert s[2..] == Hex(bs[1..]);
      UnhexOfHex(bs[1..]);
      assert NibbleOf(HexDigit(b / 16)) == Some(b / 16);
      assert NibbleOf(HexDigit(b % 16)) == Some(b % 16);
      assert [bs[0]] + bs[1..] == bs;
    }
  }

  /** Encoding whatever the decoder accepts gives back the very same string. */
  lemma {:induction false} HexOfUnhex(s: GoString)
    requires Unhex(s).Some?
    ensures Hex(Unhex(s).value) == s
    decreases |s|
  {
    if |s| >= 2 {
      HexOfUnhex(s[2..]);
      var hi, lo := NibbleOf(s[0]).value, NibbleOf(s[1]).value;
      var b := (hi * 16 + lo) as byte;
      assert b as int / 16 == hi && b as int % 16 == lo;
      assert Unhex(s).value == [b] + Unhex(s[2..]).value;
      assert s == [s[0], s[1]] + s[2..];
    }
  }

  /** The decoder accepts a string exactly when it has even length and only lowercase digits. */
  lemma {:induction false} UnhexAccepts(s: GoString)
    ensures Unhex(s).Some? <==> |s| % 2 == 0 && IsLowerHex(s)
    decreases |s|
  {
    if |s| >= 2 {
      UnhexAccepts(s[2..]);
      assert forall i :: 2 <= i < |s| ==> s[i] == s[2..][i - 2];
    }
  }

  /** Two byte strings with the same encoding are equal. */
  lemma HexInjective(a: seq<byte>, b: seq<byte>)
    requires Hex(a) == Hex(b)
    ensures a == b
  {
    UnhexOfHex(a);
    UnhexOfHex(b);
  }
}
