/** The command line of the headless server: `parseArgs` walks the
    arguments after the program name and fills in the realm, the identity
    and the help flag, starting from their defaults. */
module Cli {
  import opened Strings

  datatype Identity = Identity(address: string, isGuest: bool)

  datatype CliOptions = CliOptions(realm: string, identity: Identity, help: bool)

  function Repeat(c: char, n: nat): (r: string)
    ensures |r| == n
    ensures forall i :: 0 <= i < n ==> r[i] == c
  {
    if n == 0 then "" else [c] + Repeat(c, n - 1)
  }

  const DefaultRealm := "localhost:8000"

  /** The zero address: '0x' and forty '0's. */
  const DefaultAddress := "0x" + Repeat('0', 40)

  const DefaultOptions := CliOptions(DefaultRealm, Identity(DefaultAddress, true), false)

  /** The text of `v` before its first '='. For an argument `--realm=v` this
      is `split('=')[1]`, since the flag itself holds no '='. */
  function UpToEquals(v: string): (r: string)
    ensures '=' !in r
    ensures |r| <= |v| && v[..|r|] == r
    ensures '=' !in v ==> r == v
    ensures '=' in v ==> |r| < |v| && v[|r|] == '='
  {
    var k := IndexOf(v, '=');
    if k < 0 then v else v[..k]
  }

  /** One pass of the loop body at index `i`: the options it leaves and the
      index the loop goes on from. A flag that takes a separate value
      consumes the next argument only when there is one and it is not ''. */
  function Step(args: seq<string>, i: nat, o: CliOptions): (r: (CliOptions, nat))
    requires i < |args|
    ensures i + 1 <= r.1 <= i + 2 && r.1 <= |args|
  {
    var arg := args[i];
    if arg == "--realm" && i + 1 < |args| && args[i + 1] != "" then
      (o.(realm := args[i + 1]), i + 2)
    else if StartsWith(arg, "--realm=") then
      (o.(realm := UpToEquals(arg[8..])), i + 1)
    else if arg == "--address" && i + 1 < |args| && args[i + 1] != "" then
      (o.(identity := o.identity.(address := args[i + 1])), i + 2)
    else if StartsWith(arg, "--address=") then
      (o.(identity := o.identity.(address := UpToEquals(arg[10..]))), i + 1)
    else if arg == "--guest" then
      (o.(identity := o.identity.(isGuest := true)), i + 1)
    else if arg == "--authenticated" then
      (o.(identity := o.identity.(isGuest := false)), i + 1)
    else if arg == "--help" || arg == "-h" then
      (o.(help := true), i + 1)
    else
      (o, i + 1)
  }

  /** The options left by the loop run from index `i` on. */
  function ParseFrom(args: seq<string>, i: nat, o: CliOptions): CliOptions
    requires i <= |args|
    decreases |args| - i
  {
    if i == |args| then o
    else
      var (o', next) := Step(args, i, o);
      ParseFrom(args, next, o')
  }

  function Parse(args: seq<string>): CliOptions {
    ParseFrom(args, 0, DefaultOptions)
  }

  /** `parseArgs`, on `process.argv.slice(2)`. */
  method ParseArgs(args: seq<string>) returns (options: CliOptions)
    ensures options == Parse(args)
  {
    var realm := DefaultRealm;
    var address := DefaultAddress;
    var isGuest := true;
    var help := false;

    var i := 0;
    while i < |args|
      invariant 0 <= i <= |args|
      invariant ParseFrom(args, i, CliOptions(realm, Identity(address, isGuest), help)) == Parse(args)
      decreases |args| - i
    {
      var arg := args[i];
      if arg == "--realm" && i + 1 < |args| && args[i + 1] != "" {
        realm := args[i + 1];
        i := i + 1;
      } else if StartsWith(arg, "--realm=") {
        realm := UpToEquals(arg[8..]);
      } else if arg == "--address" && i + 1 < |args| && args[i + 1] != "" {
        address := args[i + 1];
        i := i + 1;
      } else if StartsWith(arg, "--address=") {
        address := UpToEquals(arg[10..]);
      } else if arg == "--guest" {
        isGuest := true;
      } else if arg == "--authenticated" {
        isGuest := false;
      } else if arg == "--help" || arg == "-h" {
        help := true;
      }
      i := i + 1;
    }
    options := CliOptions(realm, Identity(address, isGuest), help);
  }

  /** Without arguments the defaults stand: realm 'localhost:8000', the
      42-character zero address, a guest, no help. */
  lemma NoArgumentsGiveDefaults()
    ensures Parse([]) == DefaultOptions
    ensures |Parse([]).identity.address| == 42
    ensures Parse([]).identity.isGuest && !Parse([]).help
  {
  }

  /** Whether the last argument is a flag that could take the next one as
      its value. When it is not, the loop steps onto the first appended
      argument. */
  predicate EndsClear(args: seq<string>) {
    args == [] || args[|args| - 1] !in {"--realm", "--address"}
  }

  lemma {:induction false} ParseFromAppend(args: seq<string>, rest: seq<string>, i: nat, o: CliOptions)
    requires i <= |args|
    requires EndsClear(args)
    ensures ParseFrom(args + rest, i, o) == ParseFrom(rest, 0, ParseFrom(args, i, o))
    decreases |args| - i
  {
    if i == |args| {
      ParseFromShift(args, rest, 0, o);
    } else {
      var all := args + rest;
      assert all[i] == args[i];
      assert i + 1 < |args| ==> all[i + 1] == args[i + 1];
      assert Step(all, i, o) == Step(args, i, o);
      var (o', next) := Step(args, i, o);
      ParseFromAppend(args, rest, next, o');
    }
  }

  /** Parsing after a prefix is parsing the rest on its own. */
  lemma {:induction false} ParseFromShift(args: seq<string>, rest: seq<string>, j: nat, o: CliOptions)
    requires j <= |rest|
    ensures ParseFrom(args + rest, |args| + j, o) == ParseFrom(rest, j, o)
    decreases |rest| - j
  {
    if j < |rest| {
      var all := args + rest;
      assert all[|args| + j] == rest[j];
      assert j + 1 < |rest| ==> all[|args| + j + 1] == rest[j + 1];
      var (o', next) := Step(rest, j, o);
      assert Step(all, |args| + j, o) == (o', |args| + next);
      ParseFromShift(args, rest, next, o');
    }
  }

  /** Arguments are read left to right: once the earlier arguments cannot
      take the next one as a value, the later ones start from the options
      the earlier ones left. */
  lemma ParseAppend(args: seq<string>, rest: seq<string>)
    requires EndsClear(args)
    ensures Parse(args + rest) == ParseFrom(rest, 0, Parse(args))
  {
    ParseFromAppend(args, rest, 0, DefaultOptions);
  }

  /** A later `--realm=v` overrides every earlier realm and changes nothing
      else; the value ends at its first '='. */
  lemma LastRealmWins(args: seq<string>, v: string)
    requires EndsClear(args)
    ensures Parse(args + ["--realm=" + v]) == Parse(args).(realm := UpToEquals(v))
  {
    ParseAppend(args, ["--realm=" + v]);
    assert ("--realm=" + v)[..8] == "--realm=";
    assert ("--realm=" + v)[8..] == v;
  }

  /** The same for `--address=v`. */
  lemma LastAddressWins(args: seq<string>, v: string)
    requires EndsClear(args)
    ensures Parse(args + ["--address=" + v]) == Parse(args).(identity := Parse(args).identity.(address := UpToEquals(v)))
  {
    ParseAppend(args, ["--address=" + v]);
    assert ("--address=" + v)[..10] == "--address=";
    assert ("--address=" + v)[..8][2] != "--realm="[2];
    assert ("--address=" + v)[10..] == v;
  }

  /** `--realm v` takes the non-empty `v` as the realm whatever it reads
      like: a value that looks like a flag is not read as one. */
  lemma ConsumedRealmIsNotAFlag(args: seq<string>, v: string)
    requires EndsClear(args)
    requires v != ""
    ensures Parse(args + ["--realm", v]) == Parse(args).(realm := v)
  {
    ParseAppend(args, ["--realm", v]);
  }

  /** The same for `--address v`. */
  lemma ConsumedAddressIsNotAFlag(args: seq<string>, v: string)
    requires EndsClear(args)
    requires v != ""
    ensures Parse(args + ["--address", v]) == Parse(args).(identity := Parse(args).identity.(address := v))
  {
    ParseAppend(args, ["--address", v]);
    assert "--address"[..8][2] != "--realm="[2];
  }

  /** A trailing `--realm` with nothing after it sets nothing. */
  lemma TrailingRealmFlagIsIgnored(args: seq<string>)
    requires EndsClear(args)
    ensures Parse(args + ["--realm"]) == Parse(args)
  {
    ParseAppend(args, ["--realm"]);
    assert !StartsWith("--realm", "--realm=");
    assert !StartsWith("--realm", "--address=");
  }

  /** Among `--guest` and `--authenticated` the last one decides, and
      nothing else about the options changes. */
  lemma LastIdentityModeWins(args: seq<string>)
    requires EndsClear(args)
    ensures Parse(args + ["--guest"]) == Parse(args).(identity := Parse(args).identity.(isGuest := true))
    ensures Parse(args + ["--authenticated"]) == Parse(args).(identity := Parse(args).identity.(isGuest := false))
  {
    ParseAppend(args, ["--guest"]);
    ParseAppend(args, ["--authenticated"]);
    assert !StartsWith("--guest", "--realm=") && !StartsWith("--guest", "--address=");
    assert "--authenticated"[..8][2] != "--realm="[2];
    assert "--authenticated"[..10][3] != "--address="[3];
  }

  /** An argument the loop does not recognise leaves the options as they
      are, wherever it stands. */
  predicate Unrecognised(arg: string) {
    && arg !in {"--realm", "--address", "--guest", "--authenticated", "--help", "-h"}
    && !StartsWith(arg, "--realm=") && !StartsWith(arg, "--address=")
  }

  lemma UnrecognisedIsIgnored(before: seq<string>, arg: string, after: seq<string>)
    requires EndsClear(before)
    requires Unrecognised(arg)
    ensures Parse(before + [arg] + after) == Parse(before + after)
  {
    ParseAppend(before, [arg] + after);
    ParseAppend(before, after);
    assert before + [arg] + after == before + ([arg] + after);
    ParseFromShift([arg], after, 0, Parse(before));
  }

  /** Only `--guest` and `--authenticated` change whether the identity is a
      guest. */
  lemma {:induction false} GuestFlagOnlyFromModeFlags(args: seq<string>, i: nat, o: CliOptions)
    requires i <= |args|
    requires forall j :: i <= j < |args| ==> args[j] != "--guest" && args[j] != "--authenticated"
    ensures ParseFrom(args, i, o).identity.isGuest == o.identity.isGuest
    decreases |args| - i
  {
    if i < |args| {
      var (o', next) := Step(args, i, o);
      GuestFlagOnlyFromModeFlags(args, next, o');
    }
  }

  /** Without `--help` or `-h` among the arguments, `help` stays as it
      was (false, from the defaults). */
  lemma {:induction false} HelpOnlyFromHelpFlags(args: seq<string>, i: nat, o: CliOptions)
    requires i <= |args|
    requires forall j :: i <= j < |args| ==> args[j] != "--help" && args[j] != "-h"
    ensures ParseFrom(args, i, o).help == o.help
    decreases |args| - i
  {
    if i < |args| {
      var (o', next) := Step(args, i, o);
      HelpOnlyFromHelpFlags(args, next, o');
    }
  }

  /** Help given after the other arguments is always seen. */
  lemma HelpFlagIsSeen(args: seq<string>)
    requires EndsClear(args)
    ensures Parse(args + ["-h"]).help && Parse(args + ["--help"]).help
  {
    ParseAppend(args, ["-h"]);
    ParseAppend(args, ["--help"]);
    assert !StartsWith("-h", "--realm=") && !StartsWith("-h", "--address=");
    assert !StartsWith("--help", "--realm=") && !StartsWith("--help", "--address=");
  }
}
