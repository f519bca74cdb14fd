/** Realm resolution after Decentraland ADR-144: a realm string is a
    `name.dcl.eth` world name, which resolves to the worlds content server,
    or a URL or host name, which gets a protocol. */
module Resolution {
  import opened Strings

  predicate IsAsciiAlnum(c: char) {
    'a' <= c <= 'z' || 'A' <= c <= 'Z' || '0' <= c <= '9'
  }

  predicate AllAlnum(s: string) {
    forall i :: 0 <= i < |s| ==> IsAsciiAlnum(s[i])
  }

  const DclEthSuffix := ".dcl.eth"
  const EthSuffix := ".eth"

  /** `isDclEns`: the whole string matches `^[a-zA-Z0-9]+\.dcl\.eth$`. */
  predicate IsDclEns(s: string) {
    |s| > |DclEthSuffix| && EndsWith(s, DclEthSuffix) && AllAlnum(s[..|s| - |DclEthSuffix|])
  }

  /** `isEns`: the whole string matches `^[a-zA-Z0-9]+\.eth$`. */
  predicate IsEns(s: string) {
    |s| > |EthSuffix| && EndsWith(s, EthSuffix) && AllAlnum(s[..|s| - |EthSuffix|])
  }

  /** The regular expressions read as "a non-empty alphanumeric name, then
      the suffix". */
  predicate NameWithSuffix(name: string, suffix: string, s: string) {
    name != [] && AllAlnum(name) && s == name + suffix
  }

  lemma {:induction false} IsDclEnsMeansNameWithSuffix(s: string)
    ensures IsDclEns(s) <==> exists name :: NameWithSuffix(name, DclEthSuffix, s)
  {
    if IsDclEns(s) {
      var name := s[..|s| - |DclEthSuffix|];
      assert s == name + DclEthSuffix;
      assert NameWithSuffix(name, DclEthSuffix, s);
    }
    if exists name :: NameWithSuffix(name, DclEthSuffix, s) {
      var name :| NameWithSuffix(name, DclEthSuffix, s);
      assert s[..|s| - |DclEthSuffix|] == name;
      assert s[|s| - |DclEthSuffix|..] == DclEthSuffix;
    }
  }

  lemma {:induction false} IsEnsMeansNameWithSuffix(s: string)
    ensures IsEns(s) <==> exists name :: NameWithSuffix(name, EthSuffix, s)
  {
    if IsEns(s) {
      var name := s[..|s| - |EthSuffix|];
      assert s == name + EthSuffix;
      assert NameWithSuffix(name, EthSuffix, s);
    }
    if exists name :: NameWithSuffix(name, EthSuffix, s) {
      var name :| NameWithSuffix(name, EthSuffix, s);
      assert s[..|s| - |EthSuffix|] == name;
      assert s[|s| - |EthSuffix|..] == EthSuffix;
    }
  }

  /** The two predicates exclude each other: the part before '.eth' of a
      '.dcl.eth' name holds a '.', which is not alphanumeric. */
  lemma {:induction false} DclEnsIsNotEns(s: string)
    ensures !(IsDclEns(s) && IsEns(s))
  {
    if IsDclEns(s) {
      var k := |s| - |DclEthSuffix|;
      assert s[k..][0] == '.';
      assert s[..|s| - |EthSuffix|][k] == '.';
    }
  }

  /** The characters `encodeURIComponent` leaves as they are. */
  predicate UriUnreserved(c: char) {
    IsAsciiAlnum(c) || c in "-_.!~*'()"
  }

  /** The UTF-8 bytes of one Unicode scalar value. */
  function Utf8Bytes(c: char): (bytes: seq<int>)
    ensures 1 <= |bytes| <= 4
    ensures forall i :: 0 <= i < |bytes| ==> 0 <= bytes[i] < 256
    ensures (c as int < 0x80) <==> bytes == [c as int]
  {
    var n := c as int;
    if n < 0x80 then [n]
    else if n < 0x800 then [0xC0 + n / 0x40, 0x80 + n % 0x40]
    else if n < 0x10000 then [0xE0 + n / 0x1000, 0x80 + (n / 0x40) % 0x40, 0x80 + n % 0x40]
    else [0xF0 + n / 0x40000, 0x80 + (n / 0x1000) % 0x40, 0x80 + (n / 0x40) % 0x40, 0x80 + n % 0x40]
  }

  const HexDigits := "0123456789ABCDEF"

  predicate IsEncodedChar(c: char) {
    UriUnreserved(c) || c == '%' || c in HexDigits
  }

  /** `%XX` with upper-case hex digits. */
  function PercentByte(b: int): (r: string)
    requires 0 <= b < 256
    ensures |r| == 3 && r[0] == '%'
    ensures forall i :: 0 <= i < |r| ==> IsEncodedChar(r[i])
  {
    ['%', HexDigits[b / 16], HexDigits[b % 16]]
  }

  function PercentBytes(bytes: seq<int>): (r: string)
    requires forall i :: 0 <= i < |bytes| ==> 0 <= bytes[i] < 256
    ensures |r| == 3 * |bytes|
    ensures forall i :: 0 <= i < |r| ==> IsEncodedChar(r[i])
  {
    if bytes == [] then "" else PercentByte(bytes[0]) + PercentBytes(bytes[1..])
  }

  function EncodeChar(c: char): (r: string)
    ensures UriUnreserved(c) ==> r == [c]
    ensures !UriUnreserved(c) ==> |r| >= 3
    ensures forall i :: 0 <= i < |r| ==> IsEncodedChar(r[i])
  {
    if UriUnreserved(c) then [c] else PercentBytes(Utf8Bytes(c))
  }

  /** `encodeURIComponent` over Unicode scalar values (a lone surrogate,
      on which it throws, is not a Dafny `char`). */
  function EncodeUriComponent(s: string): (r: string)
    ensures |r| >= |s|
    ensures forall i :: 0 <= i < |r| ==> IsEncodedChar(r[i])
  {
    if s == [] then "" else EncodeChar(s[0]) + EncodeUriComponent(s[1..])
  }

  /** Encoding changes a string exactly when some character of it is
      reserved. */
  lemma {:induction false} EncodeIsIdentityIffUnreserved(s: string)
    ensures EncodeUriComponent(s) == s <==> forall i :: 0 <= i < |s| ==> UriUnreserved(s[i])
  {
    if s != [] {
      EncodeIsIdentityIffUnreserved(s[1..]);
      assert s == [s[0]] + s[1..];
      if !UriUnreserved(s[0]) {
        assert |EncodeUriComponent(s)| > |s|;
      } else if EncodeUriComponent(s) == s {
        assert EncodeUriComponent(s[1..]) == s[1..];
      }
      if !(forall i :: 0 <= i < |s| ==> UriUnreserved(s[i])) {
        var i :| 0 <= i < |s| && !UriUnreserved(s[i]);
        if i > 0 {
          assert !UriUnreserved(s[1..][i - 1]);
        }
      }
    }
  }

  const WorldsServer := "https://" + "worlds-content-server.decentraland.org/world/"

  /** `dclWorldUrl` */
  function DclWorldUrl(dclName: string): (r: string)
    ensures StartsWith(r, WorldsServer)
  {
    assert (WorldsServer + EncodeUriComponent(ToLower(dclName)))[..|WorldsServer|] == WorldsServer;
    WorldsServer + EncodeUriComponent(ToLower(dclName))
  }

  /** A world name is made of alphanumerics and dots, so the encoding leaves
      the lower-cased name as it is. */
  lemma {:induction false} DclWorldUrlOfName(dclName: string)
    requires IsDclEns(dclName)
    ensures DclWorldUrl(dclName) == WorldsServer + ToLower(dclName)
  {
    var lower := ToLower(dclName);
    var k := |dclName| - |DclEthSuffix|;
    forall i | 0 <= i < |lower|
      ensures UriUnreserved(lower[i])
    {
      if i < k {
        assert dclName[..k][i] == dclName[i];
      } else {
        assert dclName[k..][i - k] == dclName[i];
      }
    }
    EncodeIsIdentityIffUnreserved(lower);
  }

  /** `normalizeUrl`: a leading '://' becomes 'http://'. */
  function NormalizeUrl(url: string): (r: string)
    ensures StartsWith(url, "://") ==> r == "http://" + url[3..]
    ensures !StartsWith(url, "://") ==> r == url
    ensures !StartsWith(r, "://")
  {
    if StartsWith(url, "://") then
      assert ("http://" + url[3..])[0] == 'h';
      "http://" + url[3..]
    else url
  }

  datatype ResolutionError = InvalidUrl   // `new URL` of a relative string throws

  predicate HasHttpProtocol(s: string) {
    StartsWith(s, "http://") || StartsWith(s, "https://")
  }

  /** `urlWithProtocol`. A string starting with '/' goes to `new URL`
      without a base, which throws for every relative reference. */
  function UrlWithProtocol(urlOrHostname: string): (r: Result<string, ResolutionError>)
    ensures StartsWith(urlOrHostname, "/") <==> r == Err(InvalidUrl)
    ensures r.Ok? ==> HasHttpProtocol(r.value)
    ensures HasHttpProtocol(urlOrHostname) ==> r == Ok(urlOrHostname)
    ensures StartsWith(urlOrHostname, "://") ==> r == Ok("http://" + urlOrHostname[3..])
    ensures !StartsWith(urlOrHostname, "/") && !HasHttpProtocol(urlOrHostname) && !StartsWith(urlOrHostname, "://") ==>
              r == Ok("https://" + urlOrHostname)
  {
    if StartsWith(urlOrHostname, "/") then
      assert urlOrHostname[..1] == "/";
      assert !StartsWith(urlOrHostname, "http://") && !StartsWith(urlOrHostname, "https://") && !StartsWith(urlOrHostname, "://") by {
        assert urlOrHostname[0] == '/';
      }
      Err(InvalidUrl)
    else if !StartsWith(urlOrHostname, "http://") && !StartsWith(urlOrHostname, "https://") && !StartsWith(urlOrHostname, "://") then
      assert ("https://" + urlOrHostname)[..8] == "https://";
      Ok(NormalizeUrl("https://" + urlOrHostname))
    else
      assert StartsWith(urlOrHostname, "://") ==> ("http://" + urlOrHostname[3..])[..7] == "http://";
      Ok(NormalizeUrl(urlOrHostname))
  }

  lemma UrlWithProtocolIdempotent(urlOrHostname: string)
    requires UrlWithProtocol(urlOrHostname).Ok?
    ensures UrlWithProtocol(UrlWithProtocol(urlOrHostname).value) == UrlWithProtocol(urlOrHostname)
  {
  }

  /** `resolveRealmBaseUrl`. Its `isEns` branch is empty (ENS resolution is
      not implemented), so only world names are treated apart. */
  function ResolveRealmBaseUrl(realmString: string): (r: Result<string, ResolutionError>)
    ensures IsDclEns(realmString) ==> r == Ok(WorldsServer + ToLower(realmString))
    ensures !IsDclEns(realmString) ==> r == UrlWithProtocol(realmString)
    ensures r.Ok? ==> HasHttpProtocol(r.value)
  {
    if IsDclEns(realmString) then
      DclWorldUrlOfName(realmString);
      assert (WorldsServer + ToLower(realmString))[..8] == WorldsServer[..8];
      Ok(DclWorldUrl(realmString))
    else
      UrlWithProtocol(realmString)
  }
}
