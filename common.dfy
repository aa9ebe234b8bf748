/** Values shared by every component of the model: optional values, the two
    address predicates of the `ip` package (whose code is not part of this
    model, so they are passed in rather than defined), and ASCII lower-casing. */
module Common {

  datatype Option<+T> = None | Some(value: T)

  /** The `ip` package as the core uses it: `isV4Format` says whether a string
      is an IPv4 literal, `isPublic` whether an address is public. Both are
      uninterpreted: every member that needs them takes them as an argument. */
  datatype IpLib = IpLib(isV4Format: string -> bool, isPublic: string -> bool)

  function LowerChar(c: char): (d: char)
    ensures 'A' <= c <= 'Z' ==> d as int == c as int + 32
    ensures !('A' <= c <= 'Z') ==> d == c
    ensures !('A' <= d <= 'Z')
  {
    if 'A' <= c <= 'Z' then (c as int + 32) as char else c
  }

  /** `String.prototype.toLowerCase`, restricted to ASCII letters. */
  function AsciiLower(s: string): (r: string)
    ensures |r| == |s|
    ensures forall i :: 0 <= i < |s| ==> r[i] == LowerChar(s[i])
    ensures forall i :: 0 <= i < |r| ==> !('A' <= r[i] <= 'Z')
  {
    seq(|s|, i requires 0 <= i < |s| => LowerChar(s[i]))
  }

  /** Lower-casing twice is lower-casing once. */
  lemma AsciiLowerIdempotent(s: string)
    ensures AsciiLower(AsciiLower(s)) == AsciiLower(s)
  {
    var r := AsciiLower(s);
    assert forall i :: 0 <= i < |r| ==> LowerChar(r[i]) == r[i];
  }
}
