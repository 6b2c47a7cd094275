/**
 * The older (HEAD-side) helpers of tests/test_package_alignment.py: a Dockerfile
 * scanner that returns the raw `(env, tokens)` pairs of every
 * `RUN conda install|create` command, a parser that turns one such token list
 * into a dictionary whose "packages" entry maps package names to versions, and
 * the assertion that a notebook environment and its paired worker images agree
 * on every package they share.
 *
 * Python dictionaries whose iteration order matters (the "packages" table) are
 * ordered entry lists; the scanner's token lists are shared objects in the
 * source, and the scan state records which emitted pairs still share the list
 * being extended.
 */
module PackageAlignment {
  import opened Runtime
  import opened Text
  import CC = CondaCommand
  import DS = DockerfileScan

  // ---------------------------------------------------------------------------
  // The scanner

  /** The tokens of a cleaned line: trailing backslashes and surrounding whitespace removed, split on whitespace runs, with no flag expansion. */
  function LineTokens(line: string): (r: seq<string>)
    ensures |r| >= 1
  {
    SplitWs(Strip(TrimEnd(line, Backslashes)))
  }

  /** The tokens the scanner sees on a raw line (comment removed, trimmed). */
  function Args(raw: string): (r: seq<string>)
    ensures |r| >= 1
  {
    LineTokens(DS.CleanLine(raw))
  }

  /** Whether a raw line ends in a backslash once its comment is removed. */
  predicate Continues(raw: string) {
    EndsWithBackslash(DS.CleanLine(raw))
  }

  /** The branch a line takes. */
  datatype LineKind =
    | Activate(env: string)           // RUN conda|source activate env
    | Install(command: seq<string>)   // RUN conda install|create ...; the tokens after RUN
    | Other

  /**
   * The two branch conditions, evaluated left to right: a RUN line too short
   * for the index a condition reads raises IndexError. The second condition
   * reads no index the first has not already read.
   */
  function Classify(args: seq<string>): (r: Result<LineKind>)
    requires |args| >= 1
    ensures r.Err? ==> r.error == IndexError && Upper(args[0]) == "RUN" && |args| < 4
    ensures Upper(args[0]) != "RUN" ==> r == Ok(Other)
    ensures r.Ok? && r.value.Install? ==>
      && |args| >= 3 && r.value.command == args[1..] && Lower(args[1]) == "conda"
      && (Lower(args[2]) == "install" || Lower(args[2]) == "create")
  {
    if Upper(args[0]) != "RUN" then Ok(Other)
    else if |args| < 2 then Err(IndexError)
    else
      var tool := Lower(args[1]);
      if tool != "conda" && tool != "source" then Ok(Other)
      else if |args| < 3 then Err(IndexError)
      else
        var verb := Lower(args[2]);
        if verb == "activate" then
          if |args| < 4 then Err(IndexError) else Ok(Activate(args[3]))
        else if tool == "conda" && (verb == "install" || verb == "create") then Ok(Install(args[1..]))
        else Ok(Other)
  }

  /** One emitted `(env, conda_spec)` tuple. */
  datatype Pair = Pair(env: string, tokens: seq<string>)

  /**
   * The scanner's variables between two lines. `shared` holds the positions of
   * emitted pairs whose token list is the very list object `condaSpec` names,
   * so that extending `condaSpec` in place extends them too.
   */
  datatype ScanState = ScanState(
    env: string,
    inConda: bool,
    condaSpec: seq<string>,
    shared: set<nat>,
    pairs: seq<Pair>)

  const Start: ScanState := ScanState("base", false, [], {}, [])

  /** The sharing is consistent: shared positions exist and hold the current token list. */
  predicate Aliased(st: ScanState) {
    forall i :: i in st.shared ==> i < |st.pairs| && st.pairs[i].tokens == st.condaSpec
  }

  /** `conda_spec += args` seen through every emitted pair that holds the same list. */
  function Extend(pairs: seq<Pair>, shared: set<nat>, tokens: seq<string>): (r: seq<Pair>)
    ensures |r| == |pairs|
    ensures forall i :: 0 <= i < |pairs| ==> r[i].env == pairs[i].env
    ensures forall i :: 0 <= i < |pairs| && i !in shared ==> r[i] == pairs[i]
  {
    seq(|pairs|, i requires 0 <= i < |pairs| => if i in shared then Pair(pairs[i].env, tokens) else pairs[i])
  }

  /** The branch taken by a line of kind `kind`; `continued` says whether it ends in a backslash. */
  function Apply(st: ScanState, args: seq<string>, continued: bool, kind: LineKind): (r: ScanState)
    ensures |st.pairs| <= |r.pairs| <= |st.pairs| + 1
  {
    match kind
    case Activate(e) => st.(env := e)
    case Install(command) =>
      if continued then st.(inConda := true, condaSpec := command, shared := {})
      else st.(condaSpec := command, shared := {|st.pairs|}, pairs := st.pairs + [Pair(st.env, command)])
    case Other => if st.inConda then Gather(st, args, continued) else st
  }

  /** A line inside an open command: its tokens extend the list, and a line without a backslash emits it. */
  function Gather(st: ScanState, args: seq<string>, continued: bool): ScanState {
    var command := st.condaSpec + args;
    var pairs := Extend(st.pairs, st.shared, command);
    if continued then st.(condaSpec := command, pairs := pairs)
    else st.(inConda := false, condaSpec := command, shared := st.shared + {|pairs|},
             pairs := pairs + [Pair(st.env, command)])
  }

  /** One iteration of the scanner's loop. */
  function Step(st: ScanState, raw: string): (r: Result<ScanState>)
    ensures r.Ok? ==> |st.pairs| <= |r.value.pairs| <= |st.pairs| + 1
  {
    var line := DS.CleanLine(raw);
    var args := LineTokens(line);
    var kind :- Classify(args);
    Ok(Apply(st, args, EndsWithBackslash(line), kind))
  }

  function ScanLines(st: ScanState, lines: seq<string>): (r: Result<ScanState>)
    ensures r.Ok? ==> |st.pairs| <= |r.value.pairs| <= |st.pairs| + |lines|
    decreases |lines|
  {
    if lines == [] then Ok(st)
    else
      var next :- Step(st, lines[0]);
      ScanLines(next, lines[1..])
  }

  /** `get_conda_specs(dockerfile)` on the Dockerfile's lines; a command still open at the end is dropped. */
  function CondaSpecs(lines: seq<string>): (r: Result<seq<Pair>>)
    ensures r.Ok? ==> |r.value| <= |lines|
  {
    var st :- ScanLines(Start, lines);
    Ok(st.pairs)
  }

  /**
   * A line adds at most one pair, at the end, carrying the environment active
   * when it is read; it rewrites no earlier pair except those sharing the list
   * being extended, and keeps the sharing consistent.
   */
  lemma ApplyAppends(st: ScanState, args: seq<string>, continued: bool, kind: LineKind)
    requires Aliased(st)
    ensures var next := Apply(st, args, continued, kind);
      && Aliased(next)
      && |st.pairs| <= |next.pairs| <= |st.pairs| + 1
      && (forall i :: 0 <= i < |st.pairs| ==> next.pairs[i].env == st.pairs[i].env)
      && (forall i :: 0 <= i < |st.pairs| && i !in st.shared ==> next.pairs[i] == st.pairs[i])
      && (|next.pairs| > |st.pairs| ==> next.pairs[|st.pairs|] == Pair(st.env, next.condaSpec))
  {
  }

  lemma StepAppends(st: ScanState, raw: string)
    requires Aliased(st) && Step(st, raw).Ok?
    ensures var next := Step(st, raw).value;
      && Aliased(next)
      && |st.pairs| <= |next.pairs| <= |st.pairs| + 1
      && (forall i :: 0 <= i < |st.pairs| && i !in st.shared ==> next.pairs[i] == st.pairs[i])
      && (|next.pairs| > |st.pairs| ==> next.pairs[|st.pairs|].env == st.env)
  {
    var line := DS.CleanLine(raw);
    var args := LineTokens(line);
    ApplyAppends(st, args, EndsWithBackslash(line), Classify(args).value);
  }

  /** Scanning only adds pairs: the list never shrinks and every environment already emitted stays. */
  lemma {:induction false} ScanGrows(st: ScanState, lines: seq<string>)
    requires Aliased(st) && ScanLines(st, lines).Ok?
    ensures Aliased(ScanLines(st, lines).value)
    ensures |st.pairs| <= |ScanLines(st, lines).value.pairs|
    decreases |lines|
  {
    if lines != [] {
      StepAppends(st, lines[0]);
      ScanGrows(Step(st, lines[0]).value, lines[1..]);
    }
  }

  /** A line whose kind is `kind` takes the branch of that kind. */
  lemma StepAs(st: ScanState, raw: string, kind: LineKind)
    requires Classify(Args(raw)) == Ok(kind)
    ensures Step(st, raw) == Ok(Apply(st, Args(raw), Continues(raw), kind))
  {
  }

  /** A line that steps to `next` hands the remaining lines to `next`. */
  lemma ScanOk(st: ScanState, lines: seq<string>, next: ScanState)
    requires lines != [] && Step(st, lines[0]) == Ok(next)
    ensures ScanLines(st, lines) == ScanLines(next, lines[1..])
  {
  }

  /** `RUN conda|source activate X` switches the environment to X and changes nothing else. */
  lemma ActivateSwitches(st: ScanState, raw: string, e: string)
    requires Classify(Args(raw)) == Ok(Activate(e))
    ensures Step(st, raw) == Ok(st.(env := e))
  {
    StepAs(st, raw, Activate(e));
  }

  /** A complete `RUN conda install|create` line emits one pair: the active env and the tokens after RUN. */
  lemma InstallEmits(st: ScanState, raw: string)
    requires Classify(Args(raw)).Ok? && Classify(Args(raw)).value.Install? && !Continues(raw)
    ensures Step(st, raw).Ok?
    ensures Step(st, raw).value.pairs == st.pairs + [Pair(st.env, Args(raw)[1..])]
  {
    StepAs(st, raw, Classify(Args(raw)).value);
  }

  /** The tokens of several raw lines, one after the other. */
  function ArgsOf(lines: seq<string>): seq<string> {
    if lines == [] then [] else Args(lines[0]) + ArgsOf(lines[1..])
  }

  /** A `RUN conda install|create` line ending in a backslash. */
  predicate OpensCommand(raw: string) {
    Classify(Args(raw)).Ok? && Classify(Args(raw)).value.Install? && Continues(raw)
  }

  /** A line that takes no other branch and does not end in a backslash. */
  predicate ClosesCommand(raw: string) {
    Classify(Args(raw)) == Ok(Other) && !Continues(raw)
  }

  /** A line that continues a command and takes no other branch. */
  predicate IsContinuation(raw: string) {
    Classify(Args(raw)) == Ok(Other) && Continues(raw)
  }

  /** Scanning `a + b` is scanning `a`, then `b` from where `a` left off. */
  lemma {:induction false} ScanAppend(st: ScanState, a: seq<string>, b: seq<string>)
    ensures ScanLines(st, a + b)
         == if ScanLines(st, a).Err? then Err(ScanLines(st, a).error) else ScanLines(ScanLines(st, a).value, b)
    decreases |a|
  {
    if a == [] {
      assert a + b == b;
    } else {
      assert (a + b)[0] == a[0] && (a + b)[1..] == a[1..] + b;
      var step := Step(st, a[0]);
      if step.Ok? {
        ScanAppend(step.value, a[1..], b);
      }
    }
  }

  /**
   * Inside a command opened by a continued install line (which shares its list
   * with no pair), continuation lines only gather their tokens.
   */
  lemma {:induction false} GatherContinuation(st: ScanState, middle: seq<string>)
    requires st.inConda && st.shared == {}
    requires forall i :: 0 <= i < |middle| ==> IsContinuation(middle[i])
    ensures ScanLines(st, middle) == Ok(st.(condaSpec := st.condaSpec + ArgsOf(middle)))
    decreases |middle|
  {
    if middle == [] {
      assert st.condaSpec + ArgsOf(middle) == st.condaSpec;
    } else {
      var next := st.(condaSpec := st.condaSpec + Args(middle[0]));
      ScanContinuation(st, middle);
      GatherContinuation(next, middle[1..]);
      assert ArgsOf(middle) == Args(middle[0]) + ArgsOf(middle[1..]);
      DS.ConcatAssoc(st.condaSpec, Args(middle[0]), ArgsOf(middle[1..]));
    }
  }

  lemma ScanContinuation(st: ScanState, lines: seq<string>)
    requires st.inConda && st.shared == {} && lines != [] && IsContinuation(lines[0])
    ensures ScanLines(st, lines) == ScanLines(st.(condaSpec := st.condaSpec + Args(lines[0])), lines[1..])
  {
    ContinuationStep(st, lines[0]);
    ScanOk(st, lines, st.(condaSpec := st.condaSpec + Args(lines[0])));
  }

  /** Inside an open command that shares its list with no pair, a continuation line appends its tokens. */
  lemma ContinuationStep(st: ScanState, l: string)
    requires st.inConda && st.shared == {} && IsContinuation(l)
    ensures Step(st, l) == Ok(st.(condaSpec := st.condaSpec + Args(l)))
  {
    StepAs(st, l, Other);
    OtherContinues(st, Args(l));
  }

  lemma OtherContinues(st: ScanState, args: seq<string>)
    requires st.inConda && st.shared == {}
    ensures Apply(st, args, true, Other) == st.(condaSpec := st.condaSpec + args)
  {
    ExtendNone(st.pairs, st.condaSpec + args);
  }

  lemma OtherCloses(st: ScanState, args: seq<string>)
    requires st.inConda && st.shared == {}
    ensures Apply(st, args, false, Other)
         == st.(inConda := false, condaSpec := st.condaSpec + args, shared := {|st.pairs|},
                pairs := st.pairs + [Pair(st.env, st.condaSpec + args)])
  {
    ExtendNone(st.pairs, st.condaSpec + args);
  }

  /** With no shared pair, extending the list rewrites no pair. */
  lemma ExtendNone(pairs: seq<Pair>, tokens: seq<string>)
    ensures Extend(pairs, {}, tokens) == pairs
  {
  }

  /** An install line ending in a backslash opens a command with the tokens after RUN. */
  lemma InstallOpens(st: ScanState, first: string)
    requires OpensCommand(first)
    ensures Step(st, first) == Ok(st.(inConda := true, condaSpec := Args(first)[1..], shared := {}))
  {
    StepAs(st, first, Classify(Args(first)).value);
  }

  /** The first line without a backslash closes an open command and emits it. */
  lemma ContinuationCloses(st: ScanState, last: string)
    requires st.inConda && st.shared == {} && ClosesCommand(last)
    ensures var command := st.condaSpec + Args(last);
      Step(st, last) == Ok(st.(inConda := false, condaSpec := command, shared := {|st.pairs|},
                               pairs := st.pairs + [Pair(st.env, command)]))
  {
    StepAs(st, last, Other);
    OtherCloses(st, Args(last));
  }

  /**
   * A backslash-continued `RUN conda install|create` block emits exactly one
   * pair: the active env, and the tokens after RUN on the first line followed
   * by every later line's tokens.
   */
  lemma ContinuationBlock(st: ScanState, first: string, middle: seq<string>, last: string, rest: seq<string>)
    requires OpensCommand(first)
    requires forall i :: 0 <= i < |middle| ==> IsContinuation(middle[i])
    requires ClosesCommand(last)
    ensures var command := Args(first)[1..] + ArgsOf(middle) + Args(last);
      ScanLines(st, [first] + middle + [last] + rest)
      == ScanLines(st.(inConda := false, condaSpec := command, shared := {|st.pairs|},
                       pairs := st.pairs + [Pair(st.env, command)]), rest)
  {
    var started := st.(inConda := true, condaSpec := Args(first)[1..], shared := {});
    InstallOpens(st, first);
    DS.ConcatAssoc([first] + middle, [last], rest);
    DS.ConcatAssoc([first], middle, [last] + rest);
    ScanFirst(st, first, middle + ([last] + rest), started);
    ScanAppend(started, middle, [last] + rest);
    GatherContinuation(started, middle);
    var gathered := started.(condaSpec := Args(first)[1..] + ArgsOf(middle));
    ContinuationCloses(gathered, last);
    ScanFirst(gathered, last, rest, Step(gathered, last).value);
  }

  lemma ScanFirst(st: ScanState, l: string, rest: seq<string>, next: ScanState)
    requires Step(st, l) == Ok(next)
    ensures ScanLines(st, [l] + rest) == ScanLines(next, rest)
  {
    assert ([l] + rest)[0] == l && ([l] + rest)[1..] == rest;
  }

  /** The scanner as the source runs it: a loop over the lines updating its variables. */
  method GetCondaSpecs(lines: seq<string>) returns (r: Result<seq<Pair>>)
    ensures r == CondaSpecs(lines)
  {
    var st := Start;
    var i := 0;
    assert lines[i..] == lines;
    while i < |lines|
      invariant 0 <= i <= |lines|
      invariant ScanLines(Start, lines) == ScanLines(st, lines[i..])
    {
      ScanFrom(st, lines, i);
      var next := ScanLine(st, lines[i]);
      if next.Err? {
        return Err(next.error);
      }
      st := next.value;
      i := i + 1;
    }
    return Ok(st.pairs);
  }

  /** Scanning from line `i` is one step, then scanning from line `i + 1`. */
  lemma ScanFrom(st: ScanState, lines: seq<string>, i: nat)
    requires i < |lines|
    ensures ScanLines(st, lines[i..])
         == if Step(st, lines[i]).Err? then Err(Step(st, lines[i]).error)
            else ScanLines(Step(st, lines[i]).value, lines[i + 1..])
  {
    assert lines[i..][0] == lines[i] && lines[i..][1..] == lines[i + 1..];
  }

  /** The loop body: the line read and split, its branch taken. */
  method ScanLine(st: ScanState, raw: string) returns (r: Result<ScanState>)
    ensures r == Step(st, raw)
  {
    var line := DS.CleanLine(raw);
    var args := LineTokens(line);
    var kind := Classify(args);
    if kind.Err? {
      return Err(kind.error);
    }
    var next := TakeBranch(st, args, EndsWithBackslash(line), kind.value);
    return Ok(next);
  }

  /** The branches of the loop body, updating the scanner's variables. */
  method TakeBranch(st: ScanState, args: seq<string>, continued: bool, kind: LineKind) returns (next: ScanState)
    ensures next == Apply(st, args, continued, kind)
  {
    var env, inConda, condaSpec, shared, pairs := st.env, st.inConda, st.condaSpec, st.shared, st.pairs;
    match kind {
      case Activate(e) =>
        env := e;
      case Install(command) =>
        condaSpec := command;
        shared := {};
        if continued {
          inConda := true;
        } else {
          shared := {|pairs|};
          pairs := pairs + [Pair(env, condaSpec)];
        }
      case Other =>
        if inConda {
          condaSpec := condaSpec + args;
          pairs := Extend(pairs, shared, condaSpec);
          if !continued {
            shared := shared + {|pairs|};
            pairs := pairs + [Pair(env, condaSpec)];
            inConda := false;
          }
        }
    }
    return ScanState(env, inConda, condaSpec, shared, pairs);
  }

  // ---------------------------------------------------------------------------
  // The parser

  /** `CONDA_ARGS.get(a, a)` on a token whose dashes are already stripped. */
  function ExpandShort(a: string): (r: string)
    ensures r != a ==> |a| == 1 && |r| > 1
  {
    match a
    case "n" => "name"
    case "p" => "prefix"
    case "c" => "channel"
    case "S" => "satisfied-skip-solve"
    case "m" => "mkdir"
    case "C" => "use-index-cache"
    case "k" => "insecure"
    case "d" => "dry-run"
    case "q" => "quiet"
    case "v" => "verbose"
    case "y" => "yes"
    case _ => a
  }

  /** The dictionary key a flag is stored under: dashes stripped at both ends, then expanded. */
  function OptionKey(flag: string): string {
    ExpandShort(Trim(flag, Dashes))
  }

  const PackagesKey: string := "packages"

  /** One entry of the ordered "packages" dictionary. */
  datatype Entry = Entry(name: string, version: Option<string>)

  /** A dictionary update with one entry: a present name keeps its place and takes the new version; a new name goes last. */
  function Put(t: seq<Entry>, e: Entry): (r: seq<Entry>)
    decreases |t|
  {
    if t == [] then [e]
    else if t[0].name == e.name then [e] + t[1..]
    else [t[0]] + Put(t[1..], e)
  }

  /** `d.get(name)`: the version stored under `name`, if the name is present. */
  function Get(t: seq<Entry>, name: string): Option<Option<string>>
    decreases |t|
  {
    if t == [] then None
    else if t[0].name == name then Some(t[0].version)
    else Get(t[1..], name)
  }

  /** After an update the name holds the new version and every other name is as before. */
  lemma {:induction false} GetPut(t: seq<Entry>, e: Entry, name: string)
    ensures Get(Put(t, e), name) == if name == e.name then Some(e.version) else Get(t, name)
    decreases |t|
  {
    if t != [] && t[0].name != e.name {
      GetPut(t[1..], e, name);
    }
  }

  /** An update adds an entry only for a new name; otherwise the dictionary keeps its length. */
  lemma {:induction false} PutLength(t: seq<Entry>, e: Entry)
    ensures |Put(t, e)| == if Get(t, e.name).Some? then |t| else |t| + 1
    decreases |t|
  {
    if t != [] && t[0].name != e.name {
      PutLength(t[1..], e);
    }
  }

  /** The value under the "packages" key: the table, or the string a `--packages` flag put there. */
  datatype Packages = Table(entries: seq<Entry>) | Text(text: string)

  /** The spec dictionary: "packages" and every other key (all of which hold strings). */
  datatype Dict = Dict(packages: Packages, options: map<string, string>)

  /** What the parser returns. */
  datatype Command =
    | Invalid(args: seq<string>)           // ('invalid', args)
    | Upgrade(parts: seq<string>)          // {'upgrade': parts}
    | Spec(dict: Dict)

  /** The name part of a package token: its text (quotes stripped) before the first "=". */
  function PkgName(t: string): string {
    SplitOn(Unquote(t), '=')[0]
  }

  /** The version part: the text between the first and second "=", or None without an "=". */
  function PkgVersion(t: string): Option<string> {
    var parts := SplitOn(Unquote(t), '=');
    if |parts| == 1 then None else Some(parts[1])
  }

  /** A token's name and version are the text before the first "=" and the text between the first two. */
  lemma PackageToken(t: string)
    ensures var u := Unquote(t);
      && PkgName(t) == Before(u, '=')
      && ('=' !in u ==> PkgVersion(t) == None)
      && ('=' in u ==> |Before(u, '=')| < |u| && PkgVersion(t) == Some(Before(u[|Before(u, '=')| + 1..], '=')))
  {
    var u := Unquote(t);
    if '=' in u {
      SplitOnFound(u, '=');
    }
  }

  /** Splitting at a separator that occurs gives the text before it, then the split of the rest. */
  lemma SplitOnFound(s: string, c: char)
    requires c in s
    ensures |Before(s, c)| < |s|
    ensures SplitOn(s, c) == [Before(s, c)] + SplitOn(s[|Before(s, c)| + 1..], c)
  {
    BeforeFound(s, c);
  }

  lemma {:induction false} BeforeFound(s: string, c: char)
    requires c in s
    ensures |Before(s, c)| < |s|
    decreases |s|
  {
    if s[0] != c {
      assert c in s[1..];
      BeforeFound(s[1..], c);
    }
  }

  /** `spec[key] = value` */
  function Store(d: Dict, key: string, value: string): Dict {
    if key == PackagesKey then d.(packages := Text(value)) else d.(options := d.options[key := value])
  }

  /**
   * The token loop from dictionary `d` over the tokens not yet read: a flag
   * stores the next token (StopIteration when there is none); any other token
   * updates the packages table (AttributeError once a flag has put a string there).
   */
  function Fill(d: Dict, toks: seq<string>): (r: Result<Dict>)
    ensures r.Err? ==> r.error == StopIteration || r.error == AttributeError
    decreases |toks|
  {
    if toks == [] then Ok(d)
    else if CC.IsFlag(toks[0]) then
      if |toks| == 1 then Err(StopIteration)
      else Fill(Store(d, OptionKey(toks[0]), toks[1]), toks[2..])
    else
      match d.packages
      case Text(_) => Err(AttributeError)
      case Table(t) => Fill(d.(packages := Table(Put(t, Entry(PkgName(toks[0]), PkgVersion(toks[0]))))), toks[1..])
  }

  /** "name" defaults to the environment and "channel" to "defaults". */
  function Defaults(d: Dict, env: string): (r: Dict)
    ensures r.packages == d.packages && "name" in r.options && "channel" in r.options
    ensures forall k :: k in d.options ==> k in r.options && r.options[k] == d.options[k]
  {
    var named := if "name" in d.options then d.options else d.options["name" := env];
    Dict(d.packages, if "channel" in named then named else named["channel" := "defaults"])
  }

  /** Whether the install tokens are a lone self-upgrade of conda. */
  predicate IsUpgrade(installArgs: seq<string>) {
    |installArgs| == 1 && Before(installArgs[0], '=') == "conda"
  }

  /** The older `parse_conda_create_command(env, args)` as a function of its arguments. */
  function ParseCommand(env: string, args: seq<string>): (r: Result<Command>)
    ensures r == Err(IndexError) <==> args == []
    ensures r == Ok(Invalid(args)) <==> args != [] && Lower(Strip(args[0])) != "conda"
    ensures (r.Ok? && r.value.Upgrade?) <==>
      args != [] && Lower(Strip(args[0])) == "conda" && IsUpgrade(CC.InstallArgs(args))
    ensures r.Ok? && r.value.Upgrade? ==> r.value.parts == SplitOn(Unquote(CC.InstallArgs(args)[0]), '=')
    ensures r.Ok? && r.value.Spec? ==> "name" in r.value.dict.options && "channel" in r.value.dict.options
  {
    if args == [] then Err(IndexError)
    else if Lower(Strip(args[0])) != "conda" then Ok(Invalid(args))
    else
      var installArgs := CC.InstallArgs(args);
      if IsUpgrade(installArgs) then Ok(Upgrade(SplitOn(Unquote(installArgs[0]), '=')))
      else
        var d :- Fill(Dict(Table([]), map[]), installArgs);
        Ok(Spec(Defaults(d, env)))
  }

  /** The parser as the source runs it: an iterator over the install tokens and a dictionary it updates. */
  method ParseCondaCreateCommand(env: string, args: seq<string>) returns (r: Result<Command>)
    ensures r == ParseCommand(env, args)
  {
    if |args| == 0 {
      return Err(IndexError);
    }
    if Lower(Strip(args[0])) != "conda" {
      return Ok(Invalid(args));
    }
    var installArgs := CC.InstallArgs(args);
    if |installArgs| == 1 && Before(installArgs[0], '=') == "conda" {
      return Ok(Upgrade(SplitOn(Unquote(installArgs[0]), '=')));
    }
    var spec := Dict(Table([]), map[]);
    var i := 0;
    while i < |installArgs|
      invariant 0 <= i <= |installArgs|
      invariant Fill(Dict(Table([]), map[]), installArgs) == Fill(spec, installArgs[i..])
    {
      var arg := installArgs[i];
      assert installArgs[i..][0] == arg;
      if CC.IsFlag(arg) {
        if i + 1 == |installArgs| {
          return Err(StopIteration);
        }
        assert installArgs[i..][2..] == installArgs[i + 2..];
        spec := Store(spec, OptionKey(arg), installArgs[i + 1]);
        i := i + 2;
      } else {
        assert installArgs[i..][1..] == installArgs[i + 1..];
        match spec.packages
        case Text(_) =>
          return Err(AttributeError);
        case Table(t) =>
          spec := spec.(packages := Table(Put(t, Entry(PkgName(arg), PkgVersion(arg)))));
        i := i + 1;
      }
    }
    if "name" !in spec.options {
      spec := spec.(options := spec.options["name" := env]);
    }
    if "channel" !in spec.options {
      spec := spec.(options := spec.options["channel" := "defaults"]);
    }
    return Ok(Spec(spec));
  }

  // How the loop reads the tokens, as a reference for what the dictionary holds.

  /** The version of the last package item named `name`, if there is one. */
  function LastVersion(items: seq<CC.Item>, name: string): Option<Option<string>> {
    if items == [] then None
    else match LastVersion(items[1..], name)
      case Some(v) => Some(v)
      case None =>
        if items[0].Package? && PkgName(items[0].token) == name then Some(PkgVersion(items[0].token)) else None
  }

  /** The value of the last flag stored under `key`, if there is one. */
  function LastOption(items: seq<CC.Item>, key: string): Option<string> {
    if items == [] then None
    else match LastOption(items[1..], key)
      case Some(v) => Some(v)
      case None => if items[0].Flag? && OptionKey(items[0].flag) == key then Some(items[0].value) else None
  }

  function Lookup(m: map<string, string>, k: string): Option<string> {
    if k in m then Some(m[k]) else None
  }

  /** `x` if present, otherwise `y`. */
  function Or<T>(x: Option<T>, y: Option<T>): Option<T> {
    if x.Some? then x else y
  }

  /**
   * When no flag is stored under "packages", the loop leaves a table in which
   * each name holds the version of the LAST package token with that name (or
   * its old version), and each other key the value of the LAST flag stored
   * under it (or its old value).
   */
  lemma {:induction false} FillContents(d: Dict, toks: seq<string>)
    requires d.packages.Table?
    requires CC.Items(toks).Some? && LastOption(CC.Items(toks).value, PackagesKey).None?
    ensures Fill(d, toks).Ok? && Fill(d, toks).value.packages.Table?
    ensures forall name :: Get(Fill(d, toks).value.packages.entries, name)
                        == Or(LastVersion(CC.Items(toks).value, name), Get(d.packages.entries, name))
    ensures forall k :: Lookup(Fill(d, toks).value.options, k) == Or(LastOption(CC.Items(toks).value, k), Lookup(d.options, k))
    decreases |toks|
  {
    if toks == [] {
    } else if CC.IsFlag(toks[0]) {
      var rest := CC.Items(toks[2..]).value;
      var items := [CC.Flag(toks[0], toks[1])] + rest;
      assert CC.Items(toks).value == items;
      assert items[1..] == rest;
      var key := OptionKey(toks[0]);
      assert LastOption(rest, PackagesKey).None? && key != PackagesKey;
      var next := Store(d, key, toks[1]);
      FillContents(next, toks[2..]);
      assert Fill(d, toks) == Fill(next, toks[2..]);
      forall name
        ensures Get(Fill(d, toks).value.packages.entries, name) == Or(LastVersion(items, name), Get(d.packages.entries, name))
      {
        assert LastVersion(items, name) == LastVersion(rest, name);
      }
      forall k
        ensures Lookup(Fill(d, toks).value.options, k) == Or(LastOption(items, k), Lookup(d.options, k))
      {
        assert Lookup(Fill(next, toks[2..]).value.options, k) == Or(LastOption(rest, k), Lookup(next.options, k));
      }
    } else {
      var rest := CC.Items(toks[1..]).value;
      var items := [CC.Package(toks[0])] + rest;
      assert CC.Items(toks).value == items;
      assert items[1..] == rest;
      var e := Entry(PkgName(toks[0]), PkgVersion(toks[0]));
      var next := d.(packages := Table(Put(d.packages.entries, e)));
      FillContents(next, toks[1..]);
      assert Fill(d, toks) == Fill(next, toks[1..]);
      forall name
        ensures Get(Fill(d, toks).value.packages.entries, name) == Or(LastVersion(items, name), Get(d.packages.entries, name))
      {
        GetPut(d.packages.entries, e, name);
      }
      forall k
        ensures Lookup(Fill(d, toks).value.options, k) == Or(LastOption(items, k), Lookup(d.options, k))
      {
        assert LastOption(items, k) == LastOption(rest, k);
      }
    }
  }

  /**
   * A conda command that is not a lone upgrade, whose flags all have values
   * and none of which is stored under "packages": each package name maps to
   * the version of its last token, "name" is the last `-n` value or the env,
   * "channel" the last `-c` value or "defaults", and any other key holds its
   * last flag value.
   */
  lemma ParsedSpec(env: string, args: seq<string>)
    requires args != [] && Lower(Strip(args[0])) == "conda" && !IsUpgrade(CC.InstallArgs(args))
    requires CC.Items(CC.InstallArgs(args)).Some?
    requires LastOption(CC.Items(CC.InstallArgs(args)).value, PackagesKey).None?
    ensures ParseCommand(env, args).Ok? && ParseCommand(env, args).value.Spec?
    ensures var d := ParseCommand(env, args).value.dict;
      var items := CC.Items(CC.InstallArgs(args)).value;
      && d.packages.Table?
      && (forall name :: Get(d.packages.entries, name) == LastVersion(items, name))
      && d.options["name"] == LastOption(items, "name").GetOr(env)
      && d.options["channel"] == LastOption(items, "channel").GetOr("defaults")
      && (forall k :: k != "name" && k != "channel" ==> Lookup(d.options, k) == LastOption(items, k))
  {
    var toks := CC.InstallArgs(args);
    var init := Dict(Table([]), map[]);
    FillContents(init, toks);
    FilledSpec(env, args);
    var filled := Fill(init, toks).value;
    var items := CC.Items(toks).value;
    WithDefaults(filled, items, env);
  }

  /** The parser's result once the token loop has succeeded. */
  lemma FilledSpec(env: string, args: seq<string>)
    requires args != [] && Lower(Strip(args[0])) == "conda" && !IsUpgrade(CC.InstallArgs(args))
    requires Fill(Dict(Table([]), map[]), CC.InstallArgs(args)).Ok?
    ensures ParseCommand(env, args) == Ok(Spec(Defaults(Fill(Dict(Table([]), map[]), CC.InstallArgs(args)).value, env)))
  {
  }

  /** The defaults step, on options that hold the last flag values. */
  lemma WithDefaults(d: Dict, items: seq<CC.Item>, env: string)
    requires forall k :: Lookup(d.options, k) == LastOption(items, k)
    ensures var r := Defaults(d, env);
      && r.packages == d.packages
      && r.options["name"] == LastOption(items, "name").GetOr(env)
      && r.options["channel"] == LastOption(items, "channel").GetOr("defaults")
      && (forall k :: k != "name" && k != "channel" ==> Lookup(r.options, k) == LastOption(items, k))
  {
    assert Lookup(d.options, "name") == LastOption(items, "name");
    assert Lookup(d.options, "channel") == LastOption(items, "channel");
  }

  /** `-n` and `--name` both set "name"; `-c` and `--channel` both set "channel". */
  lemma ShortFlagsExpand()
    ensures OptionKey("-n") == "name" && OptionKey("--name") == "name"
    ensures OptionKey("-c") == "channel" && OptionKey("--channel") == "channel"
  {
    assert "-n"[1..] == "n" && "--name"[1..] == "-name" && "-name"[1..] == "name";
    assert "-c"[1..] == "c" && "--channel"[1..] == "-channel" && "-channel"[1..] == "channel";
  }

  // ---------------------------------------------------------------------------
  // The older pairing assertion

  /** The checks of one base package against one paired entry. */
  function CheckOne(pkg: string, ver: Option<string>, pair: Command): (r: Result<()>)
    ensures r.Err? ==> r.error in {AttributeError, TypeError, AssertionError}
  {
    match pair
    case Invalid(_) => Err(AttributeError)     // the tuple has no `get`
    case Upgrade(_) => Ok(())                  // no "packages": skipped
    case Spec(d) =>
      match d.packages
      case Text(s) => if Contains(s, pkg) then Err(TypeError) else Ok(())
      case Table(t) =>
        match Get(t, pkg)
        case None => Ok(())
        case Some(v) => if v == ver then Ok(()) else Err(AssertionError)
  }

  /** One base package against every paired entry, in order. */
  function CheckPairs(pkg: string, ver: Option<string>, pairs: seq<Command>): (r: Result<()>)
    ensures r.Err? ==> r.error in {AttributeError, TypeError, AssertionError}
    ensures pairs == [] ==> r.Ok?
    decreases |pairs|
  {
    if pairs == [] then Ok(())
    else if CheckOne(pkg, ver, pairs[0]).Err? then CheckOne(pkg, ver, pairs[0])
    else CheckPairs(pkg, ver, pairs[1..])
  }

  /** Every package of a base table, in dictionary order. */
  function CheckEntries(t: seq<Entry>, pairs: seq<Command>): (r: Result<()>)
    ensures r.Err? ==> r.error in {AttributeError, TypeError, AssertionError}
    ensures pairs == [] ==> r.Ok?
    decreases |t|
  {
    if t == [] then Ok(())
    else if CheckPairs(t[0].name, t[0].version, pairs).Err? then CheckPairs(t[0].name, t[0].version, pairs)
    else CheckEntries(t[1..], pairs)
  }

  /**
   * The older `assert_pairing_match(env, base, penv, pairs)`. A base entry
   * without a packages table cannot be iterated: the tuple raises TypeError,
   * an upgrade dictionary KeyError, a string AttributeError.
   */
  function AssertPairingMatch(base: seq<Command>, pairs: seq<Command>): (r: Result<()>)
    ensures r.Err? ==> r.error in {TypeError, KeyError(PackagesKey), AttributeError, AssertionError}
    decreases |base|
  {
    if base == [] then Ok(())
    else
      var here := match base[0]
        case Invalid(_) => Err(TypeError)
        case Upgrade(_) => Err(KeyError(PackagesKey))
        case Spec(d) => match d.packages
          case Text(_) => Err(AttributeError)
          case Table(t) => CheckEntries(t, pairs);
      if here.Err? then here else AssertPairingMatch(base[1..], pairs)
  }

  /** The table of a parsed spec, or nothing for any other shape. */
  function TableOf(c: Command): seq<Entry> {
    if c.Spec? && c.dict.packages.Table? then c.dict.packages.entries else []
  }

  /** Entries the check can read: base specs with tables, paired entries that are not tuples or strings. */
  predicate WellShaped(base: seq<Command>, pairs: seq<Command>) {
    && (forall i :: 0 <= i < |base| ==> base[i].Spec? && base[i].dict.packages.Table?)
    && (forall j :: 0 <= j < |pairs| ==> !pairs[j].Invalid? && !(pairs[j].Spec? && pairs[j].dict.packages.Text?))
  }

  /** Some base package appears in some paired table with a different version. */
  predicate Misaligned(base: seq<Command>, pairs: seq<Command>) {
    exists i, k, j :: 0 <= i < |base| && 0 <= k < |TableOf(base[i])| && 0 <= j < |pairs|
      && var e := TableOf(base[i])[k];
         Get(TableOf(pairs[j]), e.name).Some? && Get(TableOf(pairs[j]), e.name).value != e.version
  }

  /** The per-package check on well-shaped pairs fails exactly on a version mismatch. */
  lemma {:induction false} CheckPairsMeaning(pkg: string, ver: Option<string>, pairs: seq<Command>)
    requires forall j :: 0 <= j < |pairs| ==> !pairs[j].Invalid? && !(pairs[j].Spec? && pairs[j].dict.packages.Text?)
    ensures CheckPairs(pkg, ver, pairs).Err? ==> CheckPairs(pkg, ver, pairs).error == AssertionError
    ensures CheckPairs(pkg, ver, pairs).Err? <==>
      exists j :: 0 <= j < |pairs| && Get(TableOf(pairs[j]), pkg).Some? && Get(TableOf(pairs[j]), pkg).value != ver
    decreases |pairs|
  {
    if pairs != [] {
      CheckPairsMeaning(pkg, ver, pairs[1..]);
      if CheckPairs(pkg, ver, pairs[1..]).Err? {
        var j :| 0 <= j < |pairs[1..]| && Get(TableOf(pairs[1..][j]), pkg).Some? && Get(TableOf(pairs[1..][j]), pkg).value != ver;
        assert pairs[1..][j] == pairs[j + 1];
      }
      if CheckOne(pkg, ver, pairs[0]).Ok? {
        forall j | 0 <= j < |pairs| && Get(TableOf(pairs[j]), pkg).Some? && Get(TableOf(pairs[j]), pkg).value != ver
          ensures CheckPairs(pkg, ver, pairs[1..]).Err?
        {
          assert j != 0;
          assert pairs[1..][j - 1] == pairs[j];
        }
      }
    }
  }

  /** Over a base table. */
  lemma {:induction false} CheckEntriesMeaning(t: seq<Entry>, pairs: seq<Command>)
    requires forall j :: 0 <= j < |pairs| ==> !pairs[j].Invalid? && !(pairs[j].Spec? && pairs[j].dict.packages.Text?)
    ensures CheckEntries(t, pairs).Err? ==> CheckEntries(t, pairs).error == AssertionError
    ensures CheckEntries(t, pairs).Err? <==>
      exists k, j :: 0 <= k < |t| && 0 <= j < |pairs|
        && Get(TableOf(pairs[j]), t[k].name).Some? && Get(TableOf(pairs[j]), t[k].name).value != t[k].version
    decreases |t|
  {
    if t != [] {
      CheckPairsMeaning(t[0].name, t[0].version, pairs);
      CheckEntriesMeaning(t[1..], pairs);
      if CheckEntries(t[1..], pairs).Err? {
        var k, j :| 0 <= k < |t[1..]| && 0 <= j < |pairs|
          && Get(TableOf(pairs[j]), t[1..][k].name).Some? && Get(TableOf(pairs[j]), t[1..][k].name).value != t[1..][k].version;
        assert t[1..][k] == t[k + 1];
      }
      if CheckPairs(t[0].name, t[0].version, pairs).Ok? {
        forall k, j | 0 <= k < |t| && 0 <= j < |pairs|
          && Get(TableOf(pairs[j]), t[k].name).Some? && Get(TableOf(pairs[j]), t[k].name).value != t[k].version
          ensures CheckEntries(t[1..], pairs).Err?
        {
          assert k != 0;
          assert t[1..][k - 1] == t[k];
        }
      }
    }
  }

  /**
   * On well-shaped inputs the assertion fails (with AssertionError) exactly when
   * some base package appears in a paired table with a different version;
   * paired entries without a table are skipped.
   */
  lemma {:induction false} AssertPairingMatchMeaning(base: seq<Command>, pairs: seq<Command>)
    requires WellShaped(base, pairs)
    ensures AssertPairingMatch(base, pairs).Err? ==> AssertPairingMatch(base, pairs).error == AssertionError
    ensures AssertPairingMatch(base, pairs).Ok? <==> !Misaligned(base, pairs)
    decreases |base|
  {
    if base != [] {
      assert WellShaped(base[1..], pairs) by {
        forall i | 0 <= i < |base[1..]| ensures base[1..][i].Spec? && base[1..][i].dict.packages.Table? {
          assert base[1..][i] == base[i + 1];
        }
      }
      AssertPairingMatchMeaning(base[1..], pairs);
      var t := TableOf(base[0]);
      assert AssertPairingMatch(base, pairs)
          == if CheckEntries(t, pairs).Err? then CheckEntries(t, pairs) else AssertPairingMatch(base[1..], pairs);
      CheckEntriesMeaning(t, pairs);
      if CheckEntries(t, pairs).Err? {
        var k, j :| 0 <= k < |t| && 0 <= j < |pairs|
          && Get(TableOf(pairs[j]), t[k].name).Some? && Get(TableOf(pairs[j]), t[k].name).value != t[k].version;
        assert Misaligned(base, pairs) by {
          assert 0 <= 0 < |base| && 0 <= k < |TableOf(base[0])|;
        }
      } else if Misaligned(base[1..], pairs) {
        var i, k, j :| 0 <= i < |base[1..]| && 0 <= k < |TableOf(base[1..][i])| && 0 <= j < |pairs|
          && var e := TableOf(base[1..][i])[k];
             Get(TableOf(pairs[j]), e.name).Some? && Get(TableOf(pairs[j]), e.name).value != e.version;
        assert base[1..][i] == base[i + 1];
      } else {
        forall i, k, j | 0 <= i < |base| && 0 <= k < |TableOf(base[i])| && 0 <= j < |pairs|
          ensures var e := TableOf(base[i])[k];
            !(Get(TableOf(pairs[j]), e.name).Some? && Get(TableOf(pairs[j]), e.name).value != e.version)
        {
          if i > 0 {
            assert base[1..][i - 1] == base[i];
          }
        }
      }
    }
  }

  /** A paired entry with no "packages" key (the upgrade dictionary) never makes the check fail. */
  lemma UpgradeIsSkipped(pkg: string, ver: Option<string>, parts: seq<string>)
    ensures CheckOne(pkg, ver, Upgrade(parts)) == Ok(())
  {
  }
}

/**
 * The newer (dev-side) `assert_pairing_match` of tests/test_package_alignment.py:
 * two solved package lists are compared and every pair of same-named packages
 * with different versions is reported.
 */
module SolvedPairing {
  import opened Runtime

  /** A solved package record. */
  datatype Package = Package(name: string, version: string)

  /** A reported mismatch: the base package and the paired one. */
  datatype Mismatch = Mismatch(base: Package, paired: Package)

  /** The mismatches of one base package, in the order of the paired list. */
  function MismatchesOf(pkg: Package, paired: seq<Package>): seq<Mismatch>
    decreases |paired|
  {
    if paired == [] then []
    else
      var last := paired[|paired| - 1];
      MismatchesOf(pkg, paired[..|paired| - 1])
        + (if pkg.name == last.name && pkg.version != last.version then [Mismatch(pkg, last)] else [])
  }

  /** All mismatches, base package by base package. */
  function Failures(base: seq<Package>, paired: seq<Package>): seq<Mismatch>
    decreases |base|
  {
    if base == [] then [] else Failures(base[..|base| - 1], paired) + MismatchesOf(base[|base| - 1], paired)
  }

  predicate Conflict(x: Package, y: Package) {
    x.name == y.name && x.version != y.version
  }

  lemma {:induction false} MismatchesOfMembers(pkg: Package, paired: seq<Package>, m: Mismatch)
    ensures m in MismatchesOf(pkg, paired) <==> m.base == pkg && m.paired in paired && Conflict(pkg, m.paired)
    decreases |paired|
  {
    if paired != [] {
      var init := paired[..|paired| - 1];
      MismatchesOfMembers(pkg, init, m);
      assert paired == init + [paired[|paired| - 1]];
    }
  }

  /** A mismatch is reported exactly for a base and a paired package of the same name and different versions. */
  lemma {:induction false} FailuresMembers(base: seq<Package>, paired: seq<Package>, m: Mismatch)
    ensures m in Failures(base, paired) <==> m.base in base && m.paired in paired && Conflict(m.base, m.paired)
    decreases |base|
  {
    if base != [] {
      var init := base[..|base| - 1];
      FailuresMembers(init, paired, m);
      MismatchesOfMembers(base[|base| - 1], paired, m);
      assert base == init + [base[|base| - 1]];
    }
  }

  /** Mismatches come base package by base package: splitting the base list splits the report. */
  lemma {:induction false} FailuresAppend(b1: seq<Package>, b2: seq<Package>, paired: seq<Package>)
    ensures Failures(b1 + b2, paired) == Failures(b1, paired) + Failures(b2, paired)
    decreases |b2|
  {
    if b2 == [] {
      assert b1 + b2 == b1;
    } else {
      var init := b2[..|b2| - 1];
      FailuresAppend(b1, init, paired);
      assert (b1 + b2)[..|b1 + b2| - 1] == b1 + init;
      assert (b1 + b2)[|b1 + b2| - 1] == b2[|b2| - 1];
    }
  }

  /** The nested loops, appending to `failures` as they go. */
  method CollectFailures(base: seq<Package>, paired: seq<Package>) returns (failures: seq<Mismatch>)
    ensures failures == Failures(base, paired)
  {
    failures := [];
    var i := 0;
    while i < |base|
      invariant 0 <= i <= |base|
      invariant failures == Failures(base[..i], paired)
    {
      assert base[..i + 1][..i] == base[..i];
      var pkg := base[i];
      var j := 0;
      ghost var before := failures;
      while j < |paired|
        invariant 0 <= j <= |paired|
        invariant failures == before + MismatchesOf(pkg, paired[..j])
      {
        assert paired[..j + 1][..j] == paired[..j];
        var pair := paired[j];
        if pkg.name == pair.name {
          if pkg.version != pair.version {
            failures := failures + [Mismatch(pkg, pair)];
          }
        }
        j := j + 1;
      }
      assert paired[..j] == paired;
      i := i + 1;
    }
    assert base[..i] == base;
  }

  /**
   * `assert_pairing_match(base_name, base_spec, paired_name, paired_spec)`:
   * ValueError when there is any mismatch. The message text is not modelled.
   */
  method AssertPairingMatch(base: seq<Package>, paired: seq<Package>) returns (r: Result<()>)
    ensures r.Err? <==> exists x, y :: x in base && y in paired && Conflict(x, y)
    ensures r.Err? ==> r.error == ValueError
  {
    var failures := CollectFailures(base, paired);
    if |failures| > 0 {
      FailuresMembers(base, paired, failures[0]);
      return Err(ValueError);
    }
    forall x, y | x in base && y in paired ensures !Conflict(x, y) {
      FailuresMembers(base, paired, Mismatch(x, y));
    }
    return Ok(());
  }
}
