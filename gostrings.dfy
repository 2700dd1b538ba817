/** Go strings as the client sees them: immutable sequences of bytes. */
module GoStrings {

  /** A Go `byte`. */
  newtype byte = b: int | 0 <= b < 256

  /** A Go `string`: a sequence of bytes, not necessarily valid UTF-8.
      `[]byte(s)` and `string(bs)` are the identity on this representation. */
  type GoString = seq<byte>

  /** The bytes of a literal written in ASCII in the Go source. */
  function Ascii(s: string): GoString
  {
    seq(|s|, i requires 0 <= i < |s| => (s[i] as int % 256) as byte)
  }

  /** `hasPrefix` (client.go), the Go 1.20 stand-in for strings.HasPrefix: it holds
      exactly when `s` is `prefix` followed by some rest. */
  function HasPrefix(s: GoString, prefix: GoString): (b: bool)
    ensures b <==> exists rest :: s == prefix + rest
  {
    if |s| >= |prefix| && s[..|prefix|] == prefix then
      assert s == prefix + s[|prefix|..];
      true
    else
      false
  }
}
