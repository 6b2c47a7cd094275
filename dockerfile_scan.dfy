/**
 * `get_conda_specs` and `build_final_envs_for_multiple_docker_files` of
 * maintenance_utilities/conda_tools.py: a line-by-line scan of a Dockerfile that
 * follows `COPY` lines, `activate` lines and `conda install|create` commands
 * (possibly continued over several lines with a trailing backslash), and merges
 * each command into the solver of its environment.
 *
 * The Dockerfile is given as its lines; the environment files it refers to are a
 * map from path to loaded YAML document.
 */
module DockerfileScan {
  import opened Runtime
  import opened Text
  import opened EnvironmentFile
  import opened CondaCommand
  import opened CondaSolver

  // ---------------------------------------------------------------------------
  // Paths (POSIX `os.path`)

  /** Length of `p` up to and including its last "/", or 0 without one. */
  function LastSlashEnd(p: string): (i: nat)
    ensures i <= |p|
    ensures i > 0 ==> p[i - 1] == '/'
    ensures forall k :: i <= k < |p| ==> p[k] != '/'
  {
    if p == [] then 0
    else if p[|p| - 1] == '/' then |p|
    else LastSlashEnd(p[..|p| - 1])
  }

  /** `os.path.dirname(p)`: everything before the last "/", trailing slashes removed unless all slashes. */
  function Dirname(p: string): (r: string)
    ensures r <= p
    ensures '/' !in p ==> r == ""
  {
    var head := p[..LastSlashEnd(p)];
    if head != [] && exists k :: 0 <= k < |head| && head[k] != '/' then
      TrimEndIsPrefix(head, Slashes);
      TrimEnd(head, Slashes)
    else head
  }

  lemma {:induction false} TrimEndIsPrefix(s: string, k: CharClass)
    ensures TrimEnd(s, k) <= s
    decreases |s|
  {
    if s != [] && InClass(s[|s| - 1], k) {
      TrimEndIsPrefix(s[..|s| - 1], k);
    }
  }

  /** `os.path.join(a, b)`: an absolute `b` replaces `a`; otherwise one "/" separates them. */
  function PathJoin(a: string, b: string): (r: string)
    ensures StartsWith(b, "/") ==> r == b
    ensures !StartsWith(b, "/") ==> a <= r && |b| <= |r| && r[|r| - |b|..] == b
    ensures !StartsWith(b, "/") && a != [] ==> |b| < |r| && r[|r| - |b| - 1] == '/'
  {
    if StartsWith(b, "/") then b
    else if a == [] || a[|a| - 1] == '/' then a + b
    else a + "/" + b
  }

  // ---------------------------------------------------------------------------
  // One line

  /** The text before the first '#', with surrounding whitespace removed. */
  function CleanLine(raw: string): string {
    Strip(Before(raw, '#'))
  }

  /** The line without trailing backslashes and surrounding whitespace, split on whitespace runs, each token expanded through `CONDA_ARGS`. */
  function LineArgs(line: string): (r: seq<string>)
    ensures |r| >= 1
  {
    var words := SplitWs(Strip(TrimEnd(line, Backslashes)));
    seq(|words|, i requires 0 <= i < |words| => Expand(words[i]))
  }

  /** The tokens the scanner sees on a raw line. */
  function Args(raw: string): (r: seq<string>)
    ensures |r| >= 1
  {
    LineArgs(CleanLine(raw))
  }

  /** Whether a raw line continues onto the next one (`line.endswith('\\')`). */
  predicate Continues(raw: string) {
    EndsWithBackslash(CleanLine(raw))
  }

  /** Which branch of the scanner a line takes. */
  datatype LineKind =
    | Copy(src: string, dest: string)   // COPY src dest
    | Activate(env: string)             // RUN conda|source activate env
    | Install(command: seq<string>)     // RUN conda install|create ...; the tokens after RUN
    | EnvCommand(args: seq<string>)     // RUN conda env create|update ...
    | Other

  /**
   * The branch conditions of the scanner, evaluated left to right as Python
   * does: a line that is too short for the index a condition reads raises
   * IndexError.
   */
  function Classify(args: seq<string>): (r: Result<LineKind>)
    requires |args| >= 1
    ensures r == Err(IndexError) ==> |args| < 4
    ensures r.Ok? && r.value.Install? ==> |args| >= 3 && r.value.command == args[1..] && Lower(args[1]) == "conda"
    ensures r.Ok? && r.value.EnvCommand? ==> r.value.args == args
    ensures Upper(args[0]) != "COPY" && Upper(args[0]) != "RUN" ==> r == Ok(Other)
  {
    if Upper(args[0]) == "COPY" then
      if |args| < 3 then Err(IndexError) else Ok(Copy(args[1], args[2]))
    else if Upper(args[0]) != "RUN" then Ok(Other)
    else if |args| < 2 then Err(IndexError)
    else
      var tool := Lower(args[1]);
      if tool != "conda" && tool != "source" then Ok(Other)
      else if |args| < 3 then Err(IndexError)
      else
        var verb := Lower(args[2]);
        if verb == "activate" then
          if |args| < 4 then Err(IndexError) else Ok(Activate(args[3]))
        else if tool != "conda" then Ok(Other)
        else if verb == "install" || verb == "create" then Ok(Install(args[1..]))
        else if verb != "env" then Ok(Other)
        else if |args| < 4 then Err(IndexError)
        else
          var action := Lower(args[3]);
          if action == "create" || action == "update" then Ok(EnvCommand(args)) else Ok(Other)
  }

  // ---------------------------------------------------------------------------
  // The per-environment result map

  /** Every entry of `next` that was in `prev` keeps its prefix and extends its package list. */
  predicate Extends(prev: map<string, Solver>, next: map<string, Solver>) {
    && prev.Keys <= next.Keys
    && forall k :: k in prev ==>
         next[k].prefix == prev[k].prefix && prev[k].specsToAdd <= next[k].specsToAdd
  }

  /** Each solver is stored under its own prefix. */
  predicate PrefixKeyed(specs: map<string, Solver>) {
    forall k :: k in specs ==> specs[k].prefix == k
  }

  lemma ExtendsTransitive(a: map<string, Solver>, b: map<string, Solver>, c: map<string, Solver>)
    requires Extends(a, b) && Extends(b, c)
    ensures Extends(a, c)
  {
    forall k | k in a
      ensures c[k].prefix == a[k].prefix && a[k].specsToAdd <= c[k].specsToAdd
    {
      assert a[k].specsToAdd <= b[k].specsToAdd <= c[k].specsToAdd;
    }
  }

  /**
   * A parsed conda command merged into the map: the solver of the environment
   * the command names (`-n`, otherwise the active env) gets its packages, and is
   * stored under that name, whatever prefix `naming` gives a fresh solver. The
   * `('invalid', args)` tuple cannot be indexed by "name" and raises TypeError.
   * Entries are only ever added, at most one per command.
   */
  function Dispatch(naming: Naming, env: string, command: seq<string>, specs: map<string, Solver>)
    : (r: Result<map<string, Solver>>)
    ensures ParseCommand(env, command).Err? ==> r == Err(ParseCommand(env, command).error)
    ensures ParseCommand(env, command) == Ok(Invalid(command)) ==> r == Err(TypeError)
    ensures r.Ok? ==> specs.Keys <= r.value.Keys && |r.value.Keys| <= |specs.Keys| + 1
  {
    var parsed :- ParseCommand(env, command);
    match parsed
    case Invalid(_) => Err(TypeError)
    case Spec(fields) =>
      var name := fields["name"].text;
      var solver := SolverFor(naming,
        Command(name, Lookup(fields, "channels"), Lookup(fields, "subdirs"), Some(fields[Deps])),
        Lookup(specs, name));
      assert specs[name := solver].Keys == specs.Keys + {name};
      Ok(specs[name := solver])
  }

  /**
   * A dispatched command only adds or extends entries; with the corrected naming
   * it also keeps solvers under their prefixes.
   */
  lemma DispatchExtends(naming: Naming, env: string, command: seq<string>, specs: map<string, Solver>)
    requires Dispatch(naming, env, command, specs).Ok?
    ensures Extends(specs, Dispatch(naming, env, command, specs).value)
    ensures naming == Corrected && PrefixKeyed(specs) ==> PrefixKeyed(Dispatch(naming, env, command, specs).value)
  {
  }

  /** Index of the first occurrence of `x` in `s` (`s.index(x)`). */
  function IndexOf(s: seq<string>, x: string): (i: nat)
    requires x in s
    ensures i < |s| && s[i] == x && x !in s[..i]
  {
    if s[0] == x then 0 else 1 + IndexOf(s[1..], x)
  }

  /**
   * `RUN conda env create|update`: only the `--file` form is understood. The
   * path after it must have been registered by a COPY; the file's `name`
   * selects the solver to extend, and the result is stored under the solver's
   * prefix. A file declaration is merged the same way under either naming
   * (`GetCondaSolverAsWritten` agrees with `GetCondaSolver` on files).
   */
  function EnvUpdate(args: seq<string>, files: map<string, string>, docs: map<string, EnvFile>,
                     specs: map<string, Solver>): (r: Result<map<string, Solver>>)
    ensures r.Ok? ==> specs.Keys <= r.value.Keys
    ensures r == Err(ValueError) <==> "--file" !in args
    ensures "--file" in args && IndexOf(args, "--file") + 1 < |args|
            && args[IndexOf(args, "--file") + 1] !in files ==>
            r == Err(KeyError(args[IndexOf(args, "--file") + 1]))
  {
    if "--file" !in args then Err(ValueError)
    else
      var i := IndexOf(args, "--file");
      if i + 1 >= |args| then Err(IndexError)
      else if args[i + 1] !in files then Err(KeyError(args[i + 1]))
      else
        var path := files[args[i + 1]];
        if path !in docs then Err(FileNotFoundError(path))
        else
          var doc := docs[path];
          if doc.name.None? then Err(KeyError("name"))
          else
            var solver := GetCondaSolver(File(doc), Lookup(specs, doc.name.value));
            Ok(specs[solver.prefix := solver])
  }

  /**
   * On a map that keeps solvers under their prefixes, an environment-file update
   * extends the entry the file names (or adds it) and keeps that property.
   */
  lemma EnvUpdateExtends(args: seq<string>, files: map<string, string>, docs: map<string, EnvFile>,
                         specs: map<string, Solver>)
    requires EnvUpdate(args, files, docs, specs).Ok? && PrefixKeyed(specs)
    ensures Extends(specs, EnvUpdate(args, files, docs, specs).value)
    ensures PrefixKeyed(EnvUpdate(args, files, docs, specs).value)
  {
  }

  // ---------------------------------------------------------------------------
  // The scan

  /** The scanner's variables between two lines. */
  datatype ScanState = ScanState(
    naming: Naming,                // which `get_conda_solver` the merges use
    env: string,                   // the active environment
    inConda: bool,                 // inside a backslash-continued install command
    condaSpec: seq<string>,        // the tokens of that command so far
    files: map<string, string>,    // COPY destination -> path next to the Dockerfile
    specs: map<string, Solver>)    // environment -> solver

  function Start(naming: Naming, condaSpecs: map<string, Solver>): ScanState {
    ScanState(naming, "base", false, [], map[], condaSpecs)
  }

  /** What a successful line or run of lines never changes: the naming, and that no environment or COPY entry is lost. */
  predicate Grows(st: ScanState, next: ScanState) {
    next.naming == st.naming && st.specs.Keys <= next.specs.Keys && st.files.Keys <= next.files.Keys
  }

  /** One iteration of the scanner's loop, for the Dockerfile in directory `dir`. */
  function Step(dir: string, docs: map<string, EnvFile>, st: ScanState, raw: string): (r: Result<ScanState>)
    ensures r.Ok? ==> Grows(st, r.value)
  {
    var line := CleanLine(raw);
    var args := LineArgs(line);
    var kind :- Classify(args);
    Apply(dir, docs, st, args, EndsWithBackslash(line), kind)
  }

  /** The branch a line of kind `kind` takes; `continued` says whether the line ends in a backslash. */
  function Apply(dir: string, docs: map<string, EnvFile>, st: ScanState, args: seq<string>,
                 continued: bool, kind: LineKind): (r: Result<ScanState>)
    ensures r.Ok? ==> Grows(st, r.value)
    ensures r.Ok? && !kind.Copy? ==> r.value.files == st.files
    ensures r.Ok? && !kind.Activate? ==> r.value.env == st.env
  {
    match kind
    case Copy(src, dest) => Ok(st.(files := st.files[dest := PathJoin(dir, src)]))
    case Activate(e) => Ok(st.(env := e))
    case Install(command) =>
      if continued then Ok(st.(inConda := true, condaSpec := command))
      else
        var specs :- Dispatch(st.naming, st.env, command, st.specs);
        Ok(st.(condaSpec := command, specs := specs))
    case EnvCommand(a) =>
      var specs :- EnvUpdate(a, st.files, docs, st.specs);
      Ok(st.(specs := specs))
    case Other =>
      if !st.inConda then Ok(st)
      else
        var command := st.condaSpec + args;
        if continued then Ok(st.(condaSpec := command)) else Close(st, command)
  }

  /** The line that ends a continued command: the gathered tokens are parsed and merged. */
  function Close(st: ScanState, command: seq<string>): (r: Result<ScanState>)
    ensures r.Ok? ==> Grows(st, r.value) && !r.value.inConda && r.value.condaSpec == command
  {
    var specs :- Dispatch(st.naming, st.env, command, st.specs);
    Ok(st.(inConda := false, condaSpec := command, specs := specs))
  }

  /** The scanner over the remaining lines; no environment or COPY entry is ever lost. */
  function ScanLines(dir: string, docs: map<string, EnvFile>, st: ScanState, lines: seq<string>): (r: Result<ScanState>)
    ensures r.Ok? ==> Grows(st, r.value)
    decreases |lines|
  {
    if lines == [] then Ok(st)
    else
      var next :- Step(dir, docs, st, lines[0]);
      ScanLines(dir, docs, next, lines[1..])
  }

  /** `get_conda_specs(dockerfile, conda_specs)` on the Dockerfile's lines. */
  function CondaSpecs(naming: Naming, dockerfile: string, lines: seq<string>, docs: map<string, EnvFile>,
                      condaSpecs: map<string, Solver>): (r: Result<map<string, Solver>>)
    ensures r.Ok? ==> condaSpecs.Keys <= r.value.Keys
  {
    var st :- ScanLines(Dirname(dockerfile), docs, Start(naming, condaSpecs), lines);
    Ok(st.specs)
  }

  /** One line only adds COPY entries and only adds or extends solvers, keeping them under their prefixes. */
  lemma StepExtends(dir: string, docs: map<string, EnvFile>, st: ScanState, raw: string)
    requires Step(dir, docs, st, raw).Ok? && PrefixKeyed(st.specs) && st.naming == Corrected
    ensures Extends(st.specs, Step(dir, docs, st, raw).value.specs)
    ensures PrefixKeyed(Step(dir, docs, st, raw).value.specs)
    ensures st.files.Keys <= Step(dir, docs, st, raw).value.files.Keys
  {
    var line := CleanLine(raw);
    var args := LineArgs(line);
    ApplyExtends(dir, docs, st, args, EndsWithBackslash(line), Classify(args).value);
  }

  lemma ApplyExtends(dir: string, docs: map<string, EnvFile>, st: ScanState, args: seq<string>,
                     continued: bool, kind: LineKind)
    requires Apply(dir, docs, st, args, continued, kind).Ok? && PrefixKeyed(st.specs) && st.naming == Corrected
    ensures Extends(st.specs, Apply(dir, docs, st, args, continued, kind).value.specs)
    ensures PrefixKeyed(Apply(dir, docs, st, args, continued, kind).value.specs)
    ensures st.files.Keys <= Apply(dir, docs, st, args, continued, kind).value.files.Keys
  {
    match kind
    case Install(command) =>
      if !continued {
        DispatchExtends(st.naming, st.env, command, st.specs);
      }
    case EnvCommand(a) =>
      EnvUpdateExtends(a, st.files, docs, st.specs);
    case Other =>
      if st.inConda && !continued {
        DispatchExtends(st.naming, st.env, st.condaSpec + args, st.specs);
      }
    case _ =>
  }

  /**
   * With the corrected naming, scanning lines only adds or extends entries of the
   * result map (a solver's package list only grows, its prefix never changes) and
   * keeps each solver under its own prefix.
   */
  lemma {:induction false} ScanExtends(dir: string, docs: map<string, EnvFile>, st: ScanState, lines: seq<string>)
    requires ScanLines(dir, docs, st, lines).Ok? && PrefixKeyed(st.specs) && st.naming == Corrected
    ensures Extends(st.specs, ScanLines(dir, docs, st, lines).value.specs)
    ensures PrefixKeyed(ScanLines(dir, docs, st, lines).value.specs)
    decreases |lines|
  {
    if lines != [] {
      StepExtends(dir, docs, st, lines[0]);
      var next := Step(dir, docs, st, lines[0]).value;
      ScanExtends(dir, docs, next, lines[1..]);
      ExtendsTransitive(st.specs, next.specs, ScanLines(dir, docs, st, lines).value.specs);
    }
  }

  /** With the corrected naming, `get_conda_specs` returns the map it was given with entries only added or extended. */
  lemma CondaSpecsExtends(dockerfile: string, lines: seq<string>, docs: map<string, EnvFile>,
                          condaSpecs: map<string, Solver>)
    requires CondaSpecs(Corrected, dockerfile, lines, docs, condaSpecs).Ok? && PrefixKeyed(condaSpecs)
    ensures Extends(condaSpecs, CondaSpecs(Corrected, dockerfile, lines, docs, condaSpecs).value)
    ensures PrefixKeyed(CondaSpecs(Corrected, dockerfile, lines, docs, condaSpecs).value)
  {
    ScanExtends(Dirname(dockerfile), docs, Start(Corrected, condaSpecs), lines);
  }

  // ---------------------------------------------------------------------------
  // What the branches do, stated on raw lines

  /** `COPY src dest` records `dest` -> `os.path.join(dir, src)`; nothing else changes. */
  lemma CopyRecordsPath(dir: string, docs: map<string, EnvFile>, st: ScanState, raw: string)
    requires |Args(raw)| >= 3 && Upper(Args(raw)[0]) == "COPY"
    ensures Step(dir, docs, st, raw) == Ok(st.(files := st.files[Args(raw)[2] := PathJoin(dir, Args(raw)[1])]))
  {
    var args := Args(raw);
    assert Classify(args) == Ok(Copy(args[1], args[2]));
    StepAs(dir, docs, st, raw, Copy(args[1], args[2]));
    assert Apply(dir, docs, st, args, Continues(raw), Copy(args[1], args[2]))
        == Ok(st.(files := st.files[args[2] := PathJoin(dir, args[1])]));
  }

  /** `RUN conda activate X` or `RUN source activate X`, in any letter case, makes X the active env. */
  lemma ActivateSetsEnv(dir: string, docs: map<string, EnvFile>, st: ScanState, raw: string)
    requires var args := Args(raw);
      |args| >= 4 && Upper(args[0]) == "RUN"
      && (Lower(args[1]) == "conda" || Lower(args[1]) == "source")
      && Lower(args[2]) == "activate"
    ensures Step(dir, docs, st, raw) == Ok(st.(env := Args(raw)[3]))
  {
    var args := Args(raw);
    ActivateClassified(args);
    ActivateStep(dir, docs, st, raw, args[3]);
  }

  lemma ActivateStep(dir: string, docs: map<string, EnvFile>, st: ScanState, raw: string, e: string)
    requires Classify(Args(raw)) == Ok(Activate(e))
    ensures Step(dir, docs, st, raw) == Ok(st.(env := e))
  {
    StepAs(dir, docs, st, raw, Activate(e));
  }

  lemma ActivateClassified(args: seq<string>)
    requires |args| >= 4 && Upper(args[0]) == "RUN"
      && (Lower(args[1]) == "conda" || Lower(args[1]) == "source")
      && Lower(args[2]) == "activate"
    ensures Classify(args) == Ok(Activate(args[3]))
  {
  }

  /** The tokens of several raw lines, one after the other. */
  function ArgsOf(lines: seq<string>): seq<string> {
    if lines == [] then [] else Args(lines[0]) + ArgsOf(lines[1..])
  }

  /** A line that continues a command and belongs to no other branch. */
  predicate IsContinuation(raw: string) {
    Classify(Args(raw)) == Ok(Other) && Continues(raw)
  }

  /** Inside a continued command, continuation lines only gather their tokens. */
  lemma {:induction false} GatherContinuation(dir: string, docs: map<string, EnvFile>, st: ScanState,
                                              middle: seq<string>)
    requires st.inConda
    requires forall i :: 0 <= i < |middle| ==> IsContinuation(middle[i])
    ensures ScanLines(dir, docs, st, middle) == Ok(st.(condaSpec := st.condaSpec + ArgsOf(middle)))
    decreases |middle|
  {
    if middle == [] {
      assert st.condaSpec + ArgsOf(middle) == st.condaSpec;
    } else {
      var next := st.(condaSpec := st.condaSpec + Args(middle[0]));
      ScanContinuation(dir, docs, st, middle);
      GatherContinuation(dir, docs, next, middle[1..]);
      assert ArgsOf(middle) == Args(middle[0]) + ArgsOf(middle[1..]);
      ConcatAssoc(st.condaSpec, Args(middle[0]), ArgsOf(middle[1..]));
    }
  }

  lemma ConcatAssoc(a: seq<string>, b: seq<string>, c: seq<string>)
    ensures (a + b) + c == a + (b + c)
  {
  }

  /** Scanning `a + b` is scanning `a`, then `b` from where `a` left off. */
  lemma {:induction false} ScanAppend(dir: string, docs: map<string, EnvFile>, st: ScanState,
                                      a: seq<string>, b: seq<string>)
    ensures ScanLines(dir, docs, st, a + b)
         == if ScanLines(dir, docs, st, a).Err? then Err(ScanLines(dir, docs, st, a).error)
            else ScanLines(dir, docs, ScanLines(dir, docs, st, a).value, b)
    decreases |a|
  {
    if a == [] {
      assert a + b == b;
    } else {
      assert (a + b)[0] == a[0] && (a + b)[1..] == a[1..] + b;
      var step := Step(dir, docs, st, a[0]);
      if step.Ok? {
        ScanAppend(dir, docs, step.value, a[1..], b);
      }
    }
  }

  lemma ScanContinuation(dir: string, docs: map<string, EnvFile>, st: ScanState, lines: seq<string>)
    requires st.inConda && lines != [] && IsContinuation(lines[0])
    ensures ScanLines(dir, docs, st, lines)
         == ScanLines(dir, docs, st.(condaSpec := st.condaSpec + Args(lines[0])), lines[1..])
  {
    ContinuationStep(dir, docs, st, lines[0]);
    ScanOk(dir, docs, st, lines, st.(condaSpec := st.condaSpec + Args(lines[0])));
  }

  /** A line that steps to `next` hands the remaining lines to `next`. */
  lemma ScanOk(dir: string, docs: map<string, EnvFile>, st: ScanState, lines: seq<string>, next: ScanState)
    requires lines != [] && Step(dir, docs, st, lines[0]) == Ok(next)
    ensures ScanLines(dir, docs, st, lines) == ScanLines(dir, docs, next, lines[1..])
  {
  }

  /** A continuation line inside a continued command appends its tokens. */
  lemma ContinuationStep(dir: string, docs: map<string, EnvFile>, st: ScanState, l: string)
    requires st.inConda && Classify(Args(l)) == Ok(Other) && Continues(l)
    ensures Step(dir, docs, st, l) == Ok(st.(condaSpec := st.condaSpec + Args(l)))
  {
    StepAs(dir, docs, st, l, Other);
    OtherContinues(dir, docs, st, Args(l));
  }

  lemma OtherContinues(dir: string, docs: map<string, EnvFile>, st: ScanState, args: seq<string>)
    requires st.inConda
    ensures Apply(dir, docs, st, args, true, Other) == Ok(st.(condaSpec := st.condaSpec + args))
  {
  }

  lemma ScanFirst(dir: string, docs: map<string, EnvFile>, st: ScanState, l: string, rest: seq<string>)
    ensures ScanLines(dir, docs, st, [l] + rest)
         == if Step(dir, docs, st, l).Err? then Err(Step(dir, docs, st, l).error)
            else ScanLines(dir, docs, Step(dir, docs, st, l).value, rest)
  {
    assert ([l] + rest)[0] == l && ([l] + rest)[1..] == rest;
  }

  /**
   * A `RUN conda install|create` line ending in a backslash, continuation lines
   * and a closing line without one produce exactly one parse and merge, for the
   * tokens after RUN on the first line followed by every later line's tokens.
   */
  lemma ContinuationBlock(dir: string, docs: map<string, EnvFile>, st: ScanState,
                          first: string, middle: seq<string>, last: string, rest: seq<string>)
    requires Classify(Args(first)).Ok? && Classify(Args(first)).value.Install? && Continues(first)
    requires forall i :: 0 <= i < |middle| ==> IsContinuation(middle[i])
    requires Classify(Args(last)) == Ok(Other) && !Continues(last)
    ensures var command := Args(first)[1..] + ArgsOf(middle) + Args(last);
      var merged := Dispatch(st.naming, st.env, command, st.specs);
      ScanLines(dir, docs, st, [first] + middle + [last] + rest)
      == if merged.Err? then Err(merged.error)
         else ScanLines(dir, docs, st.(inConda := false, condaSpec := command, specs := merged.value), rest)
  {
    var started := st.(inConda := true, condaSpec := Args(first)[1..]);
    InstallOpens(dir, docs, st, first);
    ConcatAssoc([first] + middle, [last], rest);
    ConcatAssoc([first], middle, [last] + rest);
    ScanFirst(dir, docs, st, first, middle + ([last] + rest));
    ScanAppend(dir, docs, started, middle, [last] + rest);
    GatherContinuation(dir, docs, started, middle);
    var gathered := started.(condaSpec := Args(first)[1..] + ArgsOf(middle));
    ScanFirst(dir, docs, gathered, last, rest);
    ContinuationCloses(dir, docs, gathered, last);
  }

  /** An install line ending in a backslash opens a continued command with the tokens after RUN. */
  lemma InstallOpens(dir: string, docs: map<string, EnvFile>, st: ScanState, first: string)
    requires Classify(Args(first)).Ok? && Classify(Args(first)).value.Install? && Continues(first)
    ensures Step(dir, docs, st, first) == Ok(st.(inConda := true, condaSpec := Args(first)[1..]))
  {
    var args := Args(first);
    assert Classify(args) == Ok(Install(args[1..]));
    StepAs(dir, docs, st, first, Install(args[1..]));
    InstallContinues(dir, docs, st, args, args[1..]);
  }

  lemma InstallContinues(dir: string, docs: map<string, EnvFile>, st: ScanState, args: seq<string>, command: seq<string>)
    ensures Apply(dir, docs, st, args, true, Install(command)) == Ok(st.(inConda := true, condaSpec := command))
  {
  }

  /** The first line without a backslash closes the continued command and dispatches it. */
  lemma ContinuationCloses(dir: string, docs: map<string, EnvFile>, st: ScanState, last: string)
    requires st.inConda && Classify(Args(last)) == Ok(Other) && !Continues(last)
    ensures var command := st.condaSpec + Args(last);
      var merged := Dispatch(st.naming, st.env, command, st.specs);
      Step(dir, docs, st, last)
      == if merged.Err? then Err(merged.error)
         else Ok(st.(inConda := false, condaSpec := command, specs := merged.value))
  {
    StepAs(dir, docs, st, last, Other);
    OtherCloses(dir, docs, st, Args(last));
    CloseDispatches(st, st.condaSpec + Args(last));
  }

  lemma OtherCloses(dir: string, docs: map<string, EnvFile>, st: ScanState, args: seq<string>)
    requires st.inConda
    ensures Apply(dir, docs, st, args, false, Other) == Close(st, st.condaSpec + args)
  {
  }

  lemma CloseDispatches(st: ScanState, command: seq<string>)
    ensures var merged := Dispatch(st.naming, st.env, command, st.specs);
      Close(st, command)
      == if merged.Err? then Err(merged.error)
         else Ok(st.(inConda := false, condaSpec := command, specs := merged.value))
  {
  }

  /** A line whose kind is `kind` takes the branch of that kind. */
  lemma StepAs(dir: string, docs: map<string, EnvFile>, st: ScanState, raw: string, kind: LineKind)
    requires Classify(Args(raw)) == Ok(kind)
    ensures Step(dir, docs, st, raw) == Apply(dir, docs, st, Args(raw), Continues(raw), kind)
  {
  }

  /**
   * A command that names no "channels" or "subdirs" key (a `-c` flag is stored
   * under "channel") reaches the solver with no channels and no subdirs; the
   * solver of the environment it names gets the command's packages appended.
   */
  lemma DispatchIgnoresChannelFlag(naming: Naming, env: string, command: seq<string>, specs: map<string, Solver>)
    requires command != [] && Lower(Strip(command[0])) == "conda"
    requires Items(InstallArgs(command)).Some?
    requires var items := Items(InstallArgs(command)).value;
      LastValue(items, Deps).None? && LastValue(items, "channels").None? && LastValue(items, "subdirs").None?
    ensures Dispatch(naming, env, command, specs).Ok?
    ensures var items := Items(InstallArgs(command)).value;
      var name := LastValue(items, "name").GetOr(env);
      var m := Dispatch(naming, env, command, specs).value;
      && name in m
      && m[name].channels == Empty && m[name].subdirs == Empty
      && m[name].specsToAdd == (if name in specs then specs[name].specsToAdd else []) + Packages(items)
  {
    var items := Items(InstallArgs(command)).value;
    ParsedSpec(env, command);
    var f := ParseCommand(env, command).value.fields;
    assert Lookup(f, "channels") == None && Lookup(f, "subdirs") == None;
    assert Elements(f[Deps]) == Packages(items);
  }

  /** The scanner as the source runs it: a loop over the lines updating its variables. */
  method GetCondaSpecs(naming: Naming, dockerfile: string, lines: seq<string>, docs: map<string, EnvFile>,
                       condaSpecs: map<string, Solver>) returns (r: Result<map<string, Solver>>)
    ensures r == CondaSpecs(naming, dockerfile, lines, docs, condaSpecs)
  {
    var dir := Dirname(dockerfile);
    var st := Start(naming, condaSpecs);
    var i := 0;
    assert lines[i..] == lines;
    while i < |lines|
      invariant 0 <= i <= |lines|
      invariant ScanLines(dir, docs, Start(naming, condaSpecs), lines) == ScanLines(dir, docs, st, lines[i..])
    {
      ScanFrom(dir, docs, st, lines, i);
      var next := ScanLine(dir, docs, st, lines[i]);
      if next.Err? {
        return Err(next.error);
      }
      st := next.value;
      i := i + 1;
    }
    return Ok(st.specs);
  }

  /** Scanning from line `i` is one step, then scanning from line `i + 1`. */
  lemma ScanFrom(dir: string, docs: map<string, EnvFile>, st: ScanState, lines: seq<string>, i: nat)
    requires i < |lines|
    ensures ScanLines(dir, docs, st, lines[i..])
         == if Step(dir, docs, st, lines[i]).Err? then Err(Step(dir, docs, st, lines[i]).error)
            else ScanLines(dir, docs, Step(dir, docs, st, lines[i]).value, lines[i + 1..])
  {
    assert lines[i..][0] == lines[i] && lines[i..][1..] == lines[i + 1..];
  }

  /** The body of the scanner's loop: one line read and split, its branch taken. */
  method ScanLine(dir: string, docs: map<string, EnvFile>, st: ScanState, raw: string) returns (r: Result<ScanState>)
    ensures r == Step(dir, docs, st, raw)
  {
    var line := CleanLine(raw);
    var args := LineArgs(line);
    var kind := Classify(args);
    if kind.Err? {
      return Err(kind.error);
    }
    r := TakeBranch(dir, docs, st, args, EndsWithBackslash(line), kind.value);
  }

  /** The branches of the loop body, updating the scanner's variables. */
  method TakeBranch(dir: string, docs: map<string, EnvFile>, st: ScanState, args: seq<string>,
                    continued: bool, kind: LineKind) returns (r: Result<ScanState>)
    ensures r == Apply(dir, docs, st, args, continued, kind)
  {
    var naming, env, inConda, condaSpec, files, specs := st.naming, st.env, st.inConda, st.condaSpec, st.files, st.specs;
    match kind {
      case Copy(src, dest) =>
        files := files[dest := PathJoin(dir, src)];
      case Activate(e) =>
        env := e;
      case Install(command) =>
        condaSpec := command;
        if continued {
          inConda := true;
        } else {
          var merged := Dispatch(naming, env, condaSpec, specs);
          if merged.Err? {
            return Err(merged.error);
          }
          specs := merged.value;
        }
      case EnvCommand(a) =>
        var merged := EnvUpdate(a, files, docs, specs);
        if merged.Err? {
          return Err(merged.error);
        }
        specs := merged.value;
      case Other =>
        if inConda {
          condaSpec := condaSpec + args;
          if !continued {
            var merged := Dispatch(naming, env, condaSpec, specs);
            if merged.Err? {
              return Err(merged.error);
            }
            specs := merged.value;
            inConda := false;
          }
        }
    }
    return Ok(ScanState(naming, env, inConda, condaSpec, files, specs));
  }

  // ---------------------------------------------------------------------------
  // Several Dockerfiles

  /**
   * `build_final_envs_for_multiple_docker_files` from the map `envs` over the
   * remaining Dockerfiles: each file is scanned starting from the map so far and
   * the map is updated with the result. `texts` holds the Dockerfiles' lines.
   */
  function BuildFrom(naming: Naming, envs: map<string, Solver>, dockerfiles: seq<string>,
                     texts: map<string, seq<string>>, docs: map<string, EnvFile>): (r: Result<map<string, Solver>>)
    ensures r.Ok? ==> envs.Keys <= r.value.Keys
    ensures r.Ok? ==> forall i :: 0 <= i < |dockerfiles| ==> dockerfiles[i] in texts
    decreases |dockerfiles|
  {
    if dockerfiles == [] then Ok(envs)
    else if dockerfiles[0] !in texts then Err(FileNotFoundError(dockerfiles[0]))
    else
      var specs :- CondaSpecs(naming, dockerfiles[0], texts[dockerfiles[0]], docs, envs);
      assert forall i :: 1 <= i < |dockerfiles| ==> dockerfiles[i] == dockerfiles[1..][i - 1];
      BuildFrom(naming, envs + specs, dockerfiles[1..], texts, docs)
  }

  /**
   * Threading one map through all Dockerfiles with the corrected naming: its key
   * set never shrinks, a solver's packages only grow, and each solver stays under
   * its own prefix.
   */
  lemma {:induction false} BuildExtends(envs: map<string, Solver>, dockerfiles: seq<string>,
                                        texts: map<string, seq<string>>, docs: map<string, EnvFile>)
    requires BuildFrom(Corrected, envs, dockerfiles, texts, docs).Ok? && PrefixKeyed(envs)
    ensures Extends(envs, BuildFrom(Corrected, envs, dockerfiles, texts, docs).value)
    ensures PrefixKeyed(BuildFrom(Corrected, envs, dockerfiles, texts, docs).value)
    decreases |dockerfiles|
  {
    if dockerfiles != [] {
      var specs := CondaSpecs(Corrected, dockerfiles[0], texts[dockerfiles[0]], docs, envs).value;
      CondaSpecsExtends(dockerfiles[0], texts[dockerfiles[0]], docs, envs);
      UpdateWithExtension(envs, specs);
      BuildExtends(envs + specs, dockerfiles[1..], texts, docs);
      ExtendsTransitive(envs, envs + specs, BuildFrom(Corrected, envs, dockerfiles, texts, docs).value);
    }
  }

  /**
   * Merging a file's scan result back into `envs` changes nothing beyond what
   * the scan returned: the scan's map already holds every key of `envs`, under
   * either naming. When the scan extends `envs`, so does the merged map.
   */
  lemma UpdateWithExtension(envs: map<string, Solver>, specs: map<string, Solver>)
    requires envs.Keys <= specs.Keys
    ensures envs + specs == specs
    ensures Extends(envs, specs) ==> Extends(envs, envs + specs)
  {
    assert (envs + specs).Keys == specs.Keys;
  }

  /** The fold as the source runs it: one dictionary threaded through every Dockerfile. */
  method BuildFinalEnvsForMultipleDockerFiles(naming: Naming, dockerfiles: seq<string>, texts: map<string, seq<string>>,
                                              docs: map<string, EnvFile>) returns (r: Result<map<string, Solver>>)
    ensures r == BuildFrom(naming, map[], dockerfiles, texts, docs)
  {
    var envs: map<string, Solver> := map[];
    var i := 0;
    while i < |dockerfiles|
      invariant 0 <= i <= |dockerfiles|
      invariant BuildFrom(naming, map[], dockerfiles, texts, docs) == BuildFrom(naming, envs, dockerfiles[i..], texts, docs)
    {
      assert dockerfiles[i..][0] == dockerfiles[i] && dockerfiles[i..][1..] == dockerfiles[i + 1..];
      if dockerfiles[i] !in texts {
        return Err(FileNotFoundError(dockerfiles[i]));
      }
      var specs := GetCondaSpecs(naming, dockerfiles[i], texts[dockerfiles[i]], docs, envs);
      if specs.Err? {
        return Err(specs.error);
      }
      envs := envs + specs.value;
      i := i + 1;
    }
    assert dockerfiles[i..] == [];
    return Ok(envs);
  }
}
