/**
 * The command-line parser of the bridge (`parseArgs` and `readArgValue`).
 *
 * `argv` is the whole of `process.argv`: index 0 is the runtime, index 1 the
 * script, index 2 the broker address, and flags with their values follow.
 * JavaScript's `argv[i] || usage()` rejects a missing token and an empty one
 * alike; the usage text and the process exit become the `Usage` result.
 */
module CommandLine {
  import opened Wrappers

  const DefaultSwitchName := "MQTTSWITCH"
  const DefaultSwitchPath := "switchvalue"

  datatype Args = Args(
    brokerAddr: string,
    username: Option<string>,
    password: Option<string>,
    switchName: string,
    switchPath: string)

  datatype ParseResult = Usage | Parsed(args: Args)

  /** The four flags the parser recognises. */
  datatype Flag = Username | Password | Name | Path

  /** A recognised flag together with the token that followed it. */
  type Setting = (Flag, string)

  function FlagOf(token: string): (f: Option<Flag>)
    ensures f == Some(Username) <==> token == "-username"
    ensures f == Some(Password) <==> token == "-password"
    ensures f == Some(Name) <==> token == "-name"
    ensures f == Some(Path) <==> token == "-path"
  {
    if token == "-username" then Some(Username)
    else if token == "-password" then Some(Password)
    else if token == "-name" then Some(Name)
    else if token == "-path" then Some(Path)
    else None
  }

  /** `argv[i]` is truthy: it exists and is not the empty string. */
  predicate HasValue(argv: seq<string>, i: nat) {
    i < |argv| && argv[i] != ""
  }

  function Prepend(done: seq<Setting>, rest: Option<seq<Setting>>): Option<seq<Setting>> {
    match rest
    case None => None
    case Some(later) => Some(done + later)
  }

  /**
   * The settings met scanning `argv` from index `i`, in order, or None when
   * a recognised flag has no truthy token after it. A flag takes the next
   * token whatever it is; any other token is passed over.
   */
  function Settings(argv: seq<string>, i: nat): (r: Option<seq<Setting>>)
    ensures r.Some? ==> forall k :: 0 <= k < |r.value| ==> r.value[k].1 != ""
    decreases |argv| - i
  {
    if i >= |argv| then Some([])
    else
      match FlagOf(argv[i])
      case None => Settings(argv, i + 1)
      case Some(f) =>
        if HasValue(argv, i + 1) then Prepend([(f, argv[i + 1])], Settings(argv, i + 2))
        else None
  }

  /** The value the last setting of `f` gave, None when `f` was never set. */
  function LastValue(settings: seq<Setting>, f: Flag): Option<string> {
    if settings == [] then None
    else if settings[|settings| - 1].0 == f then Some(settings[|settings| - 1].1)
    else LastValue(settings[..|settings| - 1], f)
  }

  function ArgsFrom(brokerAddr: string, settings: seq<Setting>): Args {
    Args(brokerAddr,
         LastValue(settings, Username),
         LastValue(settings, Password),
         LastValue(settings, Name).GetOr(DefaultSwitchName),
         LastValue(settings, Path).GetOr(DefaultSwitchPath))
  }

  /**
   * What `parseArgs` yields for `argv`: `Usage` unless `argv[2]` is truthy,
   * and otherwise the broker address `argv[2]` with settings that are all
   * non-empty strings.
   */
  function Parse(argv: seq<string>): (r: ParseResult)
    ensures !HasValue(argv, 2) ==> r == Usage
    ensures r.Parsed? ==> r.args.brokerAddr == argv[2] && ValuesNonEmpty(r.args)
  {
    if !HasValue(argv, 2) then Usage
    else
      match Settings(argv, 3)
      case None => Usage
      case Some(settings) =>
        LastValueNonEmpty(settings, Username);
        LastValueNonEmpty(settings, Password);
        LastValueNonEmpty(settings, Name);
        LastValueNonEmpty(settings, Path);
        Parsed(ArgsFrom(argv[2], settings))
  }

  /** Every string the parser hands out is non-empty. */
  predicate ValuesNonEmpty(a: Args) {
    && a.brokerAddr != ""
    && (a.username.Some? ==> a.username.value != "")
    && (a.password.Some? ==> a.password.value != "")
    && a.switchName != ""
    && a.switchPath != ""
  }

  /** `readArgValue`: advance the cursor and take the token there if it is truthy. */
  method ReadArgValue(argv: seq<string>, argi: nat) returns (next: nat, value: Option<string>)
    ensures next == argi + 1
    ensures value.Some? <==> HasValue(argv, next)
    ensures value.Some? ==> value.value == argv[next]
  {
    next := argi + 1;
    if next < |argv| && argv[next] != "" {
      value := Some(argv[next]);
    } else {
      value := None;
    }
  }

  /** `parseArgs`: the cursor walks `argv`, each flag's value is assigned as it is met. */
  method ParseArgs(argv: seq<string>) returns (r: ParseResult)
    ensures r == Parse(argv)
    ensures r.Parsed? ==> r.args.brokerAddr == argv[2] && ValuesNonEmpty(r.args)
  {
    var argi: nat := 1;
    var broker;
    argi, broker := ReadArgValue(argv, argi);
    if broker.None? {
      return Usage;
    }
    var username: Option<string> := None;
    var password: Option<string> := None;
    var switchName := DefaultSwitchName;
    var switchPath := DefaultSwitchPath;
    ghost var done: seq<Setting> := [];

    argi := argi + 1;
    PrependNothing(Settings(argv, argi));
    while argi < |argv|
      invariant 3 <= argi <= |argv|
      invariant Settings(argv, 3) == Prepend(done, Settings(argv, argi))
      invariant username == LastValue(done, Username)
      invariant password == LastValue(done, Password)
      invariant switchName == LastValue(done, Name).GetOr(DefaultSwitchName)
      invariant switchPath == LastValue(done, Path).GetOr(DefaultSwitchPath)
      decreases |argv| - argi
    {
      var token := argv[argi];
      ghost var at := argi;
      ghost var flag := FlagOf(token);
      var value: Option<string> := None;
      if token == "-username" {
        argi, value := ReadArgValue(argv, argi);
        if value.None? {
          assert Settings(argv, at) == None;
          return Usage;
        }
        username := value;
      } else if token == "-password" {
        argi, value := ReadArgValue(argv, argi);
        if value.None? {
          assert Settings(argv, at) == None;
          return Usage;
        }
        password := value;
      } else if token == "-name" {
        argi, value := ReadArgValue(argv, argi);
        if value.None? {
          assert Settings(argv, at) == None;
          return Usage;
        }
        switchName := value.value;
      } else if token == "-path" {
        argi, value := ReadArgValue(argv, argi);
        if value.None? {
          assert Settings(argv, at) == None;
          return Usage;
        }
        switchPath := value.value;
      }
      if flag.Some? {
        AppendSetting(done, flag.value, value.value);
        PrependAssoc(done, [(flag.value, value.value)], Settings(argv, at + 2));
        done := done + [(flag.value, value.value)];
      }
      argi := argi + 1;
    }
    assert done + [] == done;
    r := Parsed(Args(broker.value, username, password, switchName, switchPath));
  }

  /** The value a flag ends up with is one of the values given to it. */
  lemma {:induction false} LastValueNonEmpty(settings: seq<Setting>, f: Flag)
    requires forall k :: 0 <= k < |settings| ==> settings[k].1 != ""
    ensures LastValue(settings, f).Some? ==> LastValue(settings, f).value != ""
    decreases |settings|
  {
    if settings != [] && settings[|settings| - 1].0 != f {
      LastValueNonEmpty(settings[..|settings| - 1], f);
    }
  }

  lemma PrependNothing(rest: Option<seq<Setting>>)
    ensures Prepend([], rest) == rest
  {
    if rest.Some? {
      assert [] + rest.value == rest.value;
    }
  }

  lemma PrependAssoc(a: seq<Setting>, b: seq<Setting>, rest: Option<seq<Setting>>)
    ensures Prepend(a, Prepend(b, rest)) == Prepend(a + b, rest)
  {
    if rest.Some? {
      assert a + (b + rest.value) == (a + b) + rest.value;
    }
  }

  /** Adding a setting of `f` makes `v` the value of `f` and leaves the other flags alone. */
  lemma AppendSetting(done: seq<Setting>, f: Flag, v: string)
    ensures LastValue(done + [(f, v)], f) == Some(v)
    ensures forall g :: g != f ==> LastValue(done + [(f, v)], g) == LastValue(done, g)
  {
    assert (done + [(f, v)])[..|done|] == done;
  }

  /** `a` after one more `-username`, `-password`, `-name` or `-path` with value `v`. */
  function WithSetting(a: Args, f: Flag, v: string): Args {
    match f
    case Username => a.(username := Some(v))
    case Password => a.(password := Some(v))
    case Name => a.(switchName := v)
    case Path => a.(switchPath := v)
  }

  /** Scanning `argv + tail` is scanning `argv` to its end, then scanning `tail`. */
  lemma {:induction false} SettingsAppend(argv: seq<string>, tail: seq<string>, i: nat, done: seq<Setting>)
    requires i <= |argv|
    requires Settings(argv, i) == Some(done)
    ensures Settings(argv + tail, i) == Prepend(done, Settings(argv + tail, |argv|))
    decreases |argv| - i
  {
    var full := argv + tail;
    if i == |argv| {
      PrependNothing(Settings(full, i));
    } else {
      assert full[i] == argv[i];
      match FlagOf(argv[i])
      case None =>
        SettingsAppend(argv, tail, i + 1, done);
      case Some(f) =>
        assert full[i + 1] == argv[i + 1];
        var later := Settings(argv, i + 2).value;
        SettingsAppend(argv, tail, i + 2, later);
        PrependAssoc([(f, argv[i + 1])], later, Settings(full, |argv|));
    }
  }

  lemma {:induction false} SettingsWithoutFlags(argv: seq<string>, i: nat)
    requires forall k :: i <= k < |argv| ==> FlagOf(argv[k]).None?
    ensures Settings(argv, i) == Some([])
    decreases |argv| - i
  {
    if i < |argv| {
      SettingsWithoutFlags(argv, i + 1);
    }
  }

  /** With no recognised flag, no credentials are set and the name and path keep their defaults. */
  lemma ParseWithoutFlags(argv: seq<string>)
    requires HasValue(argv, 2)
    requires forall k :: 3 <= k < |argv| ==> FlagOf(argv[k]).None?
    ensures Parse(argv) == Parsed(Args(argv[2], None, None, "MQTTSWITCH", "switchvalue"))
  {
    SettingsWithoutFlags(argv, 3);
  }

  /**
   * A recognised flag takes exactly the token after it, whatever that token
   * is, and sets its own field only; a later setting overrides an earlier one.
   */
  lemma ParseAppendFlag(argv: seq<string>, flag: string, v: string)
    requires Parse(argv).Parsed?
    requires FlagOf(flag).Some?
    requires v != ""
    ensures Parse(argv + [flag, v]) == Parsed(WithSetting(Parse(argv).args, FlagOf(flag).value, v))
  {
    var full := argv + [flag, v];
    var done := Settings(argv, 3).value;
    var f := FlagOf(flag).value;
    SettingsAppend(argv, [flag, v], 3, done);
    TrailingSetting(argv, flag, v);
    ArgsFromAppend(argv[2], done, f, v);
    assert full[2] == argv[2];
  }

  lemma TrailingSetting(argv: seq<string>, flag: string, v: string)
    requires FlagOf(flag).Some?
    requires v != ""
    ensures Settings(argv + [flag, v], |argv|) == Some([(FlagOf(flag).value, v)])
  {
    var full := argv + [flag, v];
    assert full[|argv|] == flag && full[|argv| + 1] == v;
    assert Settings(full, |argv| + 2) == Some([]);
    assert [(FlagOf(flag).value, v)] + [] == [(FlagOf(flag).value, v)];
  }

  lemma ArgsFromAppend(brokerAddr: string, done: seq<Setting>, f: Flag, v: string)
    ensures ArgsFrom(brokerAddr, done + [(f, v)]) == WithSetting(ArgsFrom(brokerAddr, done), f, v)
  {
    AppendSetting(done, f, v);
  }

  /** A token that is not a recognised flag changes nothing. */
  lemma ParseAppendUnknown(argv: seq<string>, token: string)
    requires Parse(argv).Parsed?
    requires FlagOf(token).None?
    ensures Parse(argv + [token]) == Parse(argv)
  {
    var full := argv + [token];
    var done := Settings(argv, 3).value;
    SettingsAppend(argv, [token], 3, done);
    assert full[|argv|] == token;
    assert Settings(full, |argv|) == Some([]);
    assert done + [] == done;
    assert full[2] == argv[2];
  }

  /** A recognised flag with no token after it, or an empty one, ends in the usage text. */
  lemma ParseAppendMissingValue(argv: seq<string>, flag: string, rest: seq<string>)
    requires Parse(argv).Parsed?
    requires FlagOf(flag).Some?
    ensures Parse(argv + [flag]) == Usage
    ensures Parse(argv + [flag, ""] + rest) == Usage
  {
    var done := Settings(argv, 3).value;
    SettingsAppend(argv, [flag], 3, done);
    assert (argv + [flag])[|argv|] == flag;
    var full := argv + [flag, ""] + rest;
    assert full == argv + ([flag, ""] + rest);
    SettingsAppend(argv, [flag, ""] + rest, 3, done);
    assert full[|argv|] == flag && full[|argv| + 1] == "";
  }

  /**
   * The `-user` and `-pass` spellings of the usage text are not recognised:
   * they and the token after them are passed over.
   */
  lemma UsageSpellingsIgnored(argv: seq<string>, v: string)
    requires Parse(argv).Parsed?
    requires FlagOf(v).None?
    ensures Parse(argv + ["-user", v]) == Parse(argv)
    ensures Parse(argv + ["-pass", v]) == Parse(argv)
  {
    ParseAppendUnknown(argv, "-user");
    ParseAppendUnknown(argv + ["-user"], v);
    assert argv + ["-user"] + [v] == argv + ["-user", v];
    ParseAppendUnknown(argv, "-pass");
    ParseAppendUnknown(argv + ["-pass"], v);
    assert argv + ["-pass"] + [v] == argv + ["-pass", v];
  }

  lemma {:induction false} LastValueUnset(settings: seq<Setting>, f: Flag)
    requires forall k :: 0 <= k < |settings| ==> settings[k].0 != f
    ensures LastValue(settings, f) == None
    decreases |settings|
  {
    if settings != [] {
      LastValueUnset(settings[..|settings| - 1], f);
    }
  }

  /**
   * A command line in the style of the usage text: `-user bob` is passed over
   * and `-path` takes `-name` as its value.
   */
  lemma ParseExample()
    ensures Parse(["node", "index.js", "10.0.0.2", "-name", "Garage Light", "-user", "bob", "-path", "-name"])
         == Parsed(Args("10.0.0.2", None, None, "Garage Light", "-name"))
  {
    var argv := ["node", "index.js", "10.0.0.2", "-name", "Garage Light", "-user", "bob", "-path", "-name"];
    assert Settings(argv, 9) == Some([]);
    assert [(Path, "-name")] + [] == [(Path, "-name")];
    assert FlagOf(argv[7]) == Some(Path) && FlagOf(argv[3]) == Some(Name);
    assert HasValue(argv, 4) && HasValue(argv, 8);
    assert Settings(argv, 7) == Some([(Path, "-name")]);
    assert Settings(argv, 5) == Some([(Path, "-name")]);
    assert Settings(argv, 3) == Prepend([(Name, argv[4])], Settings(argv, 5));
    var settings := [(Name, "Garage Light"), (Path, "-name")];
    assert [(Name, "Garage Light")] + [(Path, "-name")] == settings;
    assert settings[..1] == [(Name, "Garage Light")] && settings[..1][..0] == [];
    LastValueUnset(settings, Username);
    LastValueUnset(settings, Password);
    assert LastValue(settings, Name) == Some("Garage Light");
  }
}
