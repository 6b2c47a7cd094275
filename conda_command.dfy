/**
 * `parse_conda_create_command` of maintenance_utilities/conda_tools.py: one
 * `conda install|create|update ...` token list becomes a spec dictionary holding
 * the ordered package list under "dependencies", one entry per flag (the flag's
 * long name without dashes, mapped to the token after it), and defaults for
 * "name" and "channel".
 */
module CondaCommand {
  import opened Runtime
  import opened Text

  /** `CONDA_ARGS.get(a, a)`: short conda flags become their long forms, other tokens stay. */
  function Expand(a: string): string {
    match a
    case "-n" => "--name"
    case "-f" => "--file"
    case "-p" => "--prefix"
    case "-c" => "--channel"
    case "-S" => "--satisfied-skip-solve"
    case "-m" => "--mkdir"
    case "-C" => "--use-index-cache"
    case "-k" => "--insecure"
    case "-d" => "--dry-run"
    case "-q" => "--quiet"
    case "-v" => "--verbose"
    case "-y" => "--yes"
    case _ => a
  }

  /** Tokens (compared lower-cased) that carry no information for the spec. */
  const Chaff: set<string> := {"conda", "install", "update", "create", "-y", "--yes"}

  /** The arguments whose lower-case form is not one of the chaff words, in order. */
  function InstallArgs(args: seq<string>): (r: seq<string>)
    ensures |r| <= |args|
    ensures forall t :: t in r <==> t in args && Lower(t) !in Chaff
  {
    if args == [] then []
    else (if Lower(args[0]) in Chaff then [] else [args[0]]) + InstallArgs(args[1..])
  }

  /** One token is dropped exactly when its lower-case form is a chaff word. */
  lemma InstallArgsOne(t: string)
    ensures Lower(t) in Chaff ==> InstallArgs([t]) == []
    ensures Lower(t) !in Chaff ==> InstallArgs([t]) == [t]
  {
    assert [t][1..] == [];
  }

  /** The chaff filter works token by token: order and repeats of the kept tokens are those of the input. */
  lemma {:induction false} InstallArgsAppend(a: seq<string>, b: seq<string>)
    ensures InstallArgs(a + b) == InstallArgs(a) + InstallArgs(b)
    decreases |a|
  {
    if a == [] {
      assert a + b == b;
    } else {
      assert (a + b)[0] == a[0] && (a + b)[1..] == a[1..] + b;
      InstallArgsAppend(a[1..], b);
    }
  }

  /** Tokens that are not chaff are all kept. */
  lemma {:induction false} InstallArgsKeeps(a: seq<string>)
    requires forall i :: 0 <= i < |a| ==> Lower(a[i]) !in Chaff
    ensures InstallArgs(a) == a
    decreases |a|
  {
    if a != [] {
      InstallArgsKeeps(a[1..]);
    }
  }

  /** Chaff tokens are all dropped. */
  lemma {:induction false} InstallArgsDrops(a: seq<string>)
    requires forall i :: 0 <= i < |a| ==> Lower(a[i]) in Chaff
    ensures InstallArgs(a) == []
    decreases |a|
  {
    if a != [] {
      InstallArgsDrops(a[1..]);
    }
  }

  /** `arg.startswith('-')` */
  predicate IsFlag(t: string) {
    StartsWith(t, "-")
  }

  /** The dictionary key a flag token is stored under: its long name from `CONDA_ARGS` (or itself), without leading dashes. */
  function FlagKey(t: string): string {
    TrimStart(Expand(t), Dashes)
  }

  const Deps: string := "dependencies"

  /** What the parser returns: the `('invalid', args)` tuple, or the spec dictionary. */
  datatype Parsed = Invalid(args: seq<string>) | Spec(fields: map<string, Value>)

  function Lookup<K, V>(m: map<K, V>, k: K): Option<V> {
    if k in m then Some(m[k]) else None
  }

  /** Every key but "dependencies" holds a string. */
  predicate OthersAreStr(fields: map<string, Value>) {
    forall k :: k in fields && k != Deps ==> fields[k].Str?
  }

  /**
   * The token loop of the parser, from dictionary `fields` over the tokens not yet
   * read: a flag stores the next token (StopIteration when there is none); any
   * other token is unquoted and appended to the "dependencies" list (an
   * AttributeError once a flag has replaced that list by a string).
   */
  function Fill(fields: map<string, Value>, toks: seq<string>): (r: Result<map<string, Value>>)
    requires Deps in fields
    ensures r.Ok? ==> fields.Keys <= r.value.Keys && Deps in r.value
    ensures r.Ok? && OthersAreStr(fields) ==> OthersAreStr(r.value)
    ensures r.Err? ==> r.error == StopIteration || r.error == AttributeError
    decreases |toks|
  {
    if toks == [] then Ok(fields)
    else if IsFlag(toks[0]) then
      if |toks| == 1 then Err(StopIteration)
      else Fill(fields[FlagKey(toks[0]) := Str(toks[1])], toks[2..])
    else
      match fields[Deps]
      case List(items) => Fill(fields[Deps := List(items + [Unquote(toks[0])])], toks[1..])
      case Str(_) => Err(AttributeError)
  }

  /** `parse_conda_create_command(env, args)` as a function of its arguments. */
  function ParseCommand(env: string, args: seq<string>): (r: Result<Parsed>)
    ensures r == Err(IndexError) <==> args == []
    ensures r == Ok(Invalid(args)) <==> args != [] && Lower(Strip(args[0])) != "conda"
    ensures r.Ok? && r.value.Spec? ==>
      var f := r.value.fields;
      && Deps in f
      && "name" in f && f["name"].Str?
      && "channel" in f && f["channel"].Str?
  {
    if args == [] then Err(IndexError)
    else if Lower(Strip(args[0])) != "conda" then Ok(Invalid(args))
    else
      var fields :- Fill(map[Deps := List([])], InstallArgs(args));
      Ok(Spec(Defaults(fields, env)))
  }

  /** The dictionary with "name" (the env argument) and "channel" ("defaults") filled in when absent. */
  function Defaults(fields: map<string, Value>, env: string): (f: map<string, Value>)
    ensures fields.Keys <= f.Keys && "name" in f && "channel" in f
  {
    var named := if "name" in fields then fields else fields["name" := Str(env)];
    if "channel" in named then named else named["channel" := Str("defaults")]
  }

  /** The parser as the source runs it: an iterator over the install tokens and a dictionary it updates. */
  method ParseCondaCreateCommand(env: string, args: seq<string>) returns (r: Result<Parsed>)
    ensures r == ParseCommand(env, args)
  {
    if |args| == 0 {
      return Err(IndexError);
    }
    if Lower(Strip(args[0])) != "conda" {
      return Ok(Invalid(args));
    }
    var installArgs := InstallArgs(args);
    var spec: map<string, Value> := map[Deps := List([])];
    var i := 0;
    while i < |installArgs|
      invariant 0 <= i <= |installArgs|
      invariant Deps in spec
      invariant Fill(map[Deps := List([])], installArgs) == Fill(spec, installArgs[i..])
    {
      var arg := installArgs[i];
      assert installArgs[i..][0] == arg;
      if IsFlag(arg) {
        if i + 1 == |installArgs| {
          return Err(StopIteration);
        }
        assert installArgs[i..][2..] == installArgs[i + 2..];
        spec := spec[FlagKey(arg) := Str(installArgs[i + 1])];
        i := i + 2;
      } else {
        assert installArgs[i..][1..] == installArgs[i + 1..];
        match spec[Deps]
        case Str(_) =>
          return Err(AttributeError);
        case List(items) =>
          spec := spec[Deps := List(items + [Unquote(arg)])];
        i := i + 1;
      }
    }
    if "name" !in spec {
      spec := spec["name" := Str(env)];
    }
    if "channel" !in spec {
      spec := spec["channel" := Str("defaults")];
    }
    return Ok(Spec(spec));
  }

  // ---------------------------------------------------------------------------
  // How the loop pairs the tokens, as a reference for what the dictionary holds.

  /** A token read by the loop: a flag together with the value it consumed, or a package. */
  datatype Item = Flag(flag: string, value: string) | Package(token: string)

  /** The loop's reading of a token list; `None` when the last flag has no value. */
  function Items(toks: seq<string>): Option<seq<Item>>
    decreases |toks|
  {
    if toks == [] then Some([])
    else if IsFlag(toks[0]) then
      if |toks| == 1 then None
      else match Items(toks[2..])
        case None => None
        case Some(rest) => Some([Flag(toks[0], toks[1])] + rest)
    else match Items(toks[1..])
      case None => None
      case Some(rest) => Some([Package(toks[0])] + rest)
  }

  /** The tokens an item list was read from. */
  function Tokens(items: seq<Item>): seq<string> {
    if items == [] then []
    else (match items[0] case Flag(f, v) => [f, v] case Package(t) => [t]) + Tokens(items[1..])
  }

  /** Items the loop can produce: flags start with "-", packages do not. */
  predicate WellFormed(items: seq<Item>) {
    forall i :: 0 <= i < |items| ==>
      (items[i].Flag? ==> IsFlag(items[i].flag)) && (items[i].Package? ==> !IsFlag(items[i].token))
  }

  /** Reading the tokens loses nothing: the items give back exactly the tokens. */
  lemma {:induction false} ItemsThenTokens(toks: seq<string>)
    requires Items(toks).Some?
    ensures Tokens(Items(toks).value) == toks
    ensures WellFormed(Items(toks).value)
    decreases |toks|
  {
    if toks != [] {
      if IsFlag(toks[0]) {
        ItemsThenTokens(toks[2..]);
      } else {
        ItemsThenTokens(toks[1..]);
      }
    }
  }

  /** Every well-formed item list is read back from its tokens. */
  lemma {:induction false} TokensThenItems(items: seq<Item>)
    requires WellFormed(items)
    ensures Items(Tokens(items)) == Some(items)
  {
    if items != [] {
      assert WellFormed(items[1..]) by {
        forall i | 0 <= i < |items[1..]|
          ensures (items[1..][i].Flag? ==> IsFlag(items[1..][i].flag))
                  && (items[1..][i].Package? ==> !IsFlag(items[1..][i].token))
        {
          assert items[1..][i] == items[i + 1];
        }
      }
      TokensThenItems(items[1..]);
      var toks := Tokens(items);
      match items[0]
      case Flag(f, v) =>
        assert IsFlag(items[0].flag);
        assert items == [Flag(f, v)] + items[1..];
        assert toks == [f, v] + Tokens(items[1..]);
        assert toks[2..] == Tokens(items[1..]);
      case Package(t) =>
        assert !IsFlag(items[0].token);
        assert items == [Package(t)] + items[1..];
        assert toks == [t] + Tokens(items[1..]);
        assert toks[1..] == Tokens(items[1..]);
    }
  }

  /** The package tokens, unquoted, in input order. */
  function Packages(items: seq<Item>): seq<string> {
    if items == [] then []
    else (if items[0].Package? then [Unquote(items[0].token)] else []) + Packages(items[1..])
  }

  /** The value of the last flag stored under `key`, if any. */
  function LastValue(items: seq<Item>, key: string): Option<string> {
    if items == [] then None
    else match LastValue(items[1..], key)
      case Some(v) => Some(v)
      case None => if items[0].Flag? && FlagKey(items[0].flag) == key then Some(items[0].value) else None
  }

  /** What key `k` holds after the items are read into `fields`: the last flag value, or the old entry. */
  function Stored(items: seq<Item>, k: string, fields: map<string, Value>): Option<Value> {
    match LastValue(items, k)
    case Some(v) => Some(Str(v))
    case None => Lookup(fields, k)
  }

  /**
   * When no flag replaces the package list, the loop appends every package token,
   * unquoted and in order, and each other key ends up holding the value of the
   * LAST flag stored under it (a repeated flag overwrites the earlier one).
   */
  lemma {:induction false} FillContents(fields: map<string, Value>, toks: seq<string>)
    requires Deps in fields && fields[Deps].List?
    requires Items(toks).Some? && LastValue(Items(toks).value, Deps).None?
    ensures Fill(fields, toks).Ok?
    ensures Fill(fields, toks).value[Deps] == List(fields[Deps].items + Packages(Items(toks).value))
    ensures forall k :: k != Deps ==> Lookup(Fill(fields, toks).value, k) == Stored(Items(toks).value, k, fields)
    decreases |toks|
  {
    if toks == [] {
    } else if IsFlag(toks[0]) {
      var key := FlagKey(toks[0]);
      var rest := Items(toks[2..]).value;
      var items := [Flag(toks[0], toks[1])] + rest;
      assert Items(toks).value == items;
      assert items[1..] == rest;
      assert LastValue(rest, Deps).None? && key != Deps;
      var next := fields[key := Str(toks[1])];
      FillContents(next, toks[2..]);
      assert Fill(fields, toks) == Fill(next, toks[2..]);
      assert Packages(items) == Packages(rest);
      forall k | k != Deps
        ensures Lookup(Fill(fields, toks).value, k) == Stored(items, k, fields)
      {
        assert Lookup(Fill(next, toks[2..]).value, k) == Stored(rest, k, next);
      }
    } else {
      var rest := Items(toks[1..]).value;
      var items := [Package(toks[0])] + rest;
      assert Items(toks).value == items;
      assert items[1..] == rest;
      var next := fields[Deps := List(fields[Deps].items + [Unquote(toks[0])])];
      FillContents(next, toks[1..]);
      assert Fill(fields, toks) == Fill(next, toks[1..]);
      assert Packages(items) == [Unquote(toks[0])] + Packages(rest);
      forall k | k != Deps
        ensures Lookup(Fill(fields, toks).value, k) == Stored(items, k, fields)
      {
        assert Lookup(Fill(next, toks[1..]).value, k) == Stored(rest, k, next);
      }
    }
  }

  /** A flag with no token after it ends the parse with an exception. */
  lemma {:induction false} DanglingFlagFails(fields: map<string, Value>, toks: seq<string>)
    requires Deps in fields
    requires Items(toks).None?
    ensures Fill(fields, toks).Err?
    decreases |toks|
  {
    if IsFlag(toks[0]) {
      if |toks| > 1 {
        DanglingFlagFails(fields[FlagKey(toks[0]) := Str(toks[1])], toks[2..]);
      }
    } else if fields[Deps].List? {
      DanglingFlagFails(fields[Deps := List(fields[Deps].items + [Unquote(toks[0])])], toks[1..]);
    }
  }

  /**
   * A conda command whose install tokens pair up: "dependencies" lists every
   * package token unquoted in order, "name" is the last -n/--name value or the
   * env argument, "channel" the last -c/--channel value or "defaults", and any
   * other key is present exactly when a flag was stored under it, with the last
   * such value.
   */
  lemma ParsedSpec(env: string, args: seq<string>)
    requires args != [] && Lower(Strip(args[0])) == "conda"
    requires Items(InstallArgs(args)).Some?
    requires LastValue(Items(InstallArgs(args)).value, Deps).None?
    ensures ParseCommand(env, args).Ok? && ParseCommand(env, args).value.Spec?
    ensures var f := ParseCommand(env, args).value.fields;
      var items := Items(InstallArgs(args)).value;
      && f[Deps] == List(Packages(items))
      && f["name"] == Str(LastValue(items, "name").GetOr(env))
      && f["channel"] == Str(LastValue(items, "channel").GetOr("defaults"))
      && forall k :: k != Deps && k != "name" && k != "channel" ==> Lookup(f, k) == Stored(items, k, map[])
  {
    var toks := InstallArgs(args);
    var items := Items(toks).value;
    var init: map<string, Value> := map[Deps := List([])];
    FillContents(init, toks);
    var fields := Fill(init, toks).value;
    assert [] + Packages(items) == Packages(items);
    assert fields[Deps] == List(Packages(items));
    WithDefaults(fields, items, env);
    FilledSpec(env, args);
  }

  /** The parser's result once the token loop has succeeded. */
  lemma FilledSpec(env: string, args: seq<string>)
    requires args != [] && Lower(Strip(args[0])) == "conda"
    requires Fill(map[Deps := List([])], InstallArgs(args)).Ok?
    ensures ParseCommand(env, args) == Ok(Spec(Defaults(Fill(map[Deps := List([])], InstallArgs(args)).value, env)))
  {
  }

  /** The defaults step of the parser, on a dictionary the loop produced. */
  lemma WithDefaults(fields: map<string, Value>, items: seq<Item>, env: string)
    requires Deps in fields
    requires forall k :: k != Deps ==> Lookup(fields, k) == Stored(items, k, map[Deps := List([])])
    ensures var f := Defaults(fields, env);
      && f[Deps] == fields[Deps]
      && f["name"] == Str(LastValue(items, "name").GetOr(env))
      && f["channel"] == Str(LastValue(items, "channel").GetOr("defaults"))
      && forall k :: k != Deps && k != "name" && k != "channel" ==> Lookup(f, k) == Stored(items, k, map[])
  {
    var init: map<string, Value> := map[Deps := List([])];
    var named := if "name" in fields then fields else fields["name" := Str(env)];
    var f := if "channel" in named then named else named["channel" := Str("defaults")];
    assert "name" != Deps && "channel" != Deps && "channel" != "name";
    assert Lookup(init, "name") == None && Lookup(init, "channel") == None;
    assert Lookup(fields, "name") == Stored(items, "name", init);
    assert named["name"] == Str(LastValue(items, "name").GetOr(env));
    assert Lookup(named, "channel") == Lookup(fields, "channel") == Stored(items, "channel", init);
    assert f["channel"] == Str(LastValue(items, "channel").GetOr("defaults"));
    forall k | k != Deps && k != "name" && k != "channel"
      ensures Lookup(f, k) == Stored(items, k, map[])
    {
      assert Lookup(f, k) == Lookup(fields, k) == Stored(items, k, init);
    }
  }

  /** `-c`/`--channel` is stored under "channel", never under "channels". */
  lemma ChannelFlagKey()
    ensures FlagKey("-c") == "channel" && FlagKey("--channel") == "channel"
    ensures FlagKey("-n") == "name" && FlagKey("--name") == "name"
  {
    DashesDropped("channel");
    DashesDropped("name");
    assert Expand("-c") == "--channel" && Expand("--channel") == "--channel";
    assert Expand("-n") == "--name" && Expand("--name") == "--name";
  }

  /** `("--" + w).lstrip('-') == w` for a word that does not start with a dash. */
  lemma DashesDropped(w: string)
    requires w != [] && w[0] != '-'
    ensures TrimStart("--" + w, Dashes) == w
  {
    var s := "--" + w;
    assert s[0] == '-' && s[1..] == "-" + w;
    assert s[1..][0] == '-' && s[1..][1..] == w;
    calc {
      TrimStart(s, Dashes);
      TrimStart(s[1..], Dashes);
      TrimStart(w, Dashes);
      w;
    }
  }
}
