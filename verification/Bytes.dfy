/** Bytes, and C strings as the bytes before the first NUL. */
module Bytes {

  type Byte = b: nat | b < 256

  function Text(s: seq<Byte>): (r: seq<Byte>)
    requires 0 in s
    ensures r < s && s[|r|] == 0 && 0 !in r
  {
    if s[0] == 0 then [] else [s[0]] + Text(s[1..])
  }

  lemma {:induction false} TextEnds(s: seq<Byte>, i: nat)
    requires i < |s| && s[i] == 0 && 0 !in s[..i]
    ensures 0 in s && Text(s) == s[..i]
  {
    if i > 0 {
      assert s[..i] == [s[0]] + s[1..][..i - 1];
      TextEnds(s[1..], i - 1);
    }
  }
}
