/** Small helpers shared by the modules: optional values, results, and the
    handful of JavaScript string operations the core relies on. */
module Strings {

  datatype Option<T> = None | Some(value: T)

  /** The outcome of an operation that either returns a value or throws. */
  datatype Result<T, E> = Ok(value: T) | Err(error: E)

  /** `s.startsWith(prefix)` */
  predicate StartsWith(s: string, prefix: string) {
    |prefix| <= |s| && s[..|prefix|] == prefix
  }

  /** `s.endsWith(suffix)` */
  predicate EndsWith(s: string, suffix: string) {
    |suffix| <= |s| && s[|s| - |suffix|..] == suffix
  }

  predicate IsAsciiUpper(c: char) { 'A' <= c <= 'Z' }

  function LowerChar(c: char): (d: char)
    ensures !IsAsciiUpper(d)
    ensures !IsAsciiUpper(c) ==> d == c
  {
    if IsAsciiUpper(c) then (c as int + 32) as char else c
  }

  /** `s.toLowerCase()`, restricted to the ASCII letters (case folding of
      other characters is not modelled). */
  function ToLower(s: string): (r: string)
    ensures |r| == |s|
    ensures forall i :: 0 <= i < |s| ==> r[i] == LowerChar(s[i])
  {
    seq(|s|, i requires 0 <= i < |s| => LowerChar(s[i]))
  }

  predicate IsLower(s: string) {
    forall i :: 0 <= i < |s| ==> !IsAsciiUpper(s[i])
  }

  lemma ToLowerIsLower(s: string)
    ensures IsLower(ToLower(s))
    ensures ToLower(ToLower(s)) == ToLower(s)
  {
  }

  lemma ToLowerOfLower(s: string)
    requires IsLower(s)
    ensures ToLower(s) == s
  {
  }

  /** `s.indexOf(c)`: the first position of `c`, or -1. */
  function IndexOf(s: string, c: char): (r: int)
    ensures -1 <= r < |s|
    ensures r == -1 <==> c !in s
    ensures 0 <= r ==> s[r] == c && c !in s[..r]
  {
    if s == [] then -1
    else if s[0] == c then 0
    else
      var k := IndexOf(s[1..], c);
      if k == -1 then
        assert s == [s[0]] + s[1..];
        -1
      else
        assert s[..k + 1] == [s[0]] + s[1..][..k];
        k + 1
  }

  /** The split both connection-string parsers perform:
      `protocol = s.substring(0, ix)`, `url = s.substring(ix + 1)` with
      `ix = s.indexOf(':')`. JavaScript clamps `substring(0, -1)` to the
      empty string and `substring(0)` is the whole string, so a string with
      no ':' yields the protocol "" and the whole string as url. */
  function SplitProtocol(connStr: string): (r: (string, string))
    ensures ':' !in r.0
    ensures ':' !in connStr ==> r == ("", connStr)
    ensures ':' in connStr ==> connStr == r.0 + ":" + r.1
  {
    var ix := IndexOf(connStr, ':');
    if ix < 0 then ("", connStr)
    else
      assert connStr == connStr[..ix] + ":" + connStr[ix + 1..];
      (connStr[..ix], connStr[ix + 1..])
  }

  /** The protocol is exactly the text before the first ':'. */
  lemma {:induction false} SplitProtocolUnique(p: string, u: string)
    requires ':' !in p
    ensures SplitProtocol(p + ":" + u) == (p, u)
  {
    var s := p + ":" + u;
    assert s[|p|] == ':';
    assert s[..|p|] == p;
    var ix := IndexOf(s, ':');
    assert ix == |p|;
    assert s[ix + 1..] == u;
  }
}
