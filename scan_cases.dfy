/**
 * Four Dockerfile lines followed through `get_conda_specs` under both namings of
 * a fresh solver:
 *
 *   RUN conda install numpy
 *   COPY vis.yml /e/vis.yml
 *   RUN conda create -n vis python
 *   RUN conda env update --file /e/vis.yml      (vis.yml: name vis, dependencies [scipy])
 *
 * As written, the create line stores under "vis" a solver whose prefix is
 * "base"; the environment-file update then stores its merge under that prefix,
 * replacing the packages of the real "base" environment.
 */
module ScanCases {
  import opened Runtime
  import opened Text
  import opened EnvironmentFile
  import opened CondaCommand
  import opened CondaSolver
  import opened DockerfileScan
  import AC = AlignmentCases

  // ---------------------------------------------------------------------------
  // The lines as text

  /** Every word of a line is a plain token without '#', and the last one does not end in a backslash. */
  predicate PlainWords(words: seq<string>) {
    && |words| >= 1
    && (forall i :: 0 <= i < |words| ==> AC.Word(words[i]) && '#' !in words[i])
    && var w := words[|words| - 1]; w != [] && w[|w| - 1] != '\\'
  }

  /** A plain line gives its words, each expanded through `CONDA_ARGS`, and does not continue. */
  lemma PlainArgs(words: seq<string>)
    requires PlainWords(words)
    ensures Args(AC.Join(words)) == seq(|words|, i requires 0 <= i < |words| => Expand(words[i]))
    ensures !Continues(AC.Join(words))
  {
    AC.PlainLine(words);
  }

  /** A plain line with no short conda flag gives exactly its words. */
  lemma LongFormLine(words: seq<string>)
    requires PlainWords(words) && forall i :: 0 <= i < |words| ==> Expand(words[i]) == words[i]
    ensures Args(AC.Join(words)) == words && !Continues(AC.Join(words))
  {
    PlainArgs(words);
  }

  lemma InstallNumpyWords(words: seq<string>)
    requires words == ["RUN", "conda", "install", "numpy"]
    ensures PlainWords(words) && forall i :: 0 <= i < |words| ==> Expand(words[i]) == words[i]
  {
  }

  lemma CopyVisWords(words: seq<string>)
    requires words == ["COPY", "vis.yml", "/e/vis.yml"]
    ensures PlainWords(words) && forall i :: 0 <= i < |words| ==> Expand(words[i]) == words[i]
  {
  }

  lemma CreateVisWords(words: seq<string>, args: seq<string>)
    requires words == ["RUN", "conda", "create", "-n", "vis", "python"]
    requires args == ["RUN", "conda", "create", "--name", "vis", "python"]
    ensures PlainWords(words)
    ensures seq(|words|, i requires 0 <= i < |words| => Expand(words[i])) == args
  {
  }

  lemma UpdateVisWords(words: seq<string>)
    requires words == ["RUN", "conda", "env", "update", "--file", "/e/vis.yml"]
    ensures PlainWords(words) && forall i :: 0 <= i < |words| ==> Expand(words[i]) == words[i]
  {
  }

  /** The example's four lines, written as words, give these tokens; `-n` reaches the scanner as `--name`. */
  lemma ExampleLines(w1: seq<string>, w2: seq<string>, w3: seq<string>, w4: seq<string>)
    requires w1 == ["RUN", "conda", "install", "numpy"]
    requires w2 == ["COPY", "vis.yml", "/e/vis.yml"]
    requires w3 == ["RUN", "conda", "create", "-n", "vis", "python"]
    requires w4 == ["RUN", "conda", "env", "update", "--file", "/e/vis.yml"]
    ensures NumpyLine(AC.Join(w1))
    ensures CopyVisLine(AC.Join(w2))
    ensures CreateVisLine(AC.Join(w3))
    ensures UpdateVisLine(AC.Join(w4))
  {
    InstallNumpyWords(w1);
    LongFormLine(w1);
    CopyVisWords(w2);
    LongFormLine(w2);
    CreateVisWords(w3, ["RUN", "conda", "create", "--name", "vis", "python"]);
    PlainArgs(w3);
    UpdateVisWords(w4);
    LongFormLine(w4);
  }

  /** The tokens of each of the example's lines. */
  predicate NumpyLine(raw: string) {
    Args(raw) == ["RUN", "conda", "install", "numpy"] && !Continues(raw)
  }

  predicate CopyVisLine(raw: string) {
    Args(raw) == ["COPY", "vis.yml", "/e/vis.yml"]
  }

  predicate CreateVisLine(raw: string) {
    Args(raw) == ["RUN", "conda", "create", "--name", "vis", "python"] && !Continues(raw)
  }

  predicate UpdateVisLine(raw: string) {
    Args(raw) == ["RUN", "conda", "env", "update", "--file", "/e/vis.yml"]
  }

  // ---------------------------------------------------------------------------
  // The commands as the parser reads them

  /** One unquoted, non-flag token is appended to the package list. */
  lemma FillOne(fields: map<string, Value>, t: string)
    requires Deps in fields && fields[Deps].List? && !IsFlag(t)
    requires t != [] && !InClass(t[0], Quotes) && !InClass(t[|t| - 1], Quotes)
    ensures Fill(fields, [t]) == Ok(fields[Deps := List(fields[Deps].items + [t])])
  {
    AC.TrimUntouched(t, Quotes);
    assert [t][1..] == [];
  }

  lemma ChaffNumpy(cmd: seq<string>)
    requires cmd == ["conda", "install", "numpy"]
    ensures InstallArgs(cmd) == ["numpy"]
  {
    AC.LowerKeeps("conda");
    AC.LowerKeeps("install");
    AC.LowerKeeps("numpy");
    assert cmd == ["conda", "install"] + ["numpy"];
    AC.SplitInstallArgs(["conda", "install"], ["numpy"]);
  }

  /** `conda install numpy` in "base" lists numpy for "base". */
  lemma ParseNumpy(cmd: seq<string>)
    requires cmd == ["conda", "install", "numpy"]
    ensures ParseCommand("base", cmd)
         == Ok(Spec(map[Deps := List(["numpy"]), "name" := Str("base"), "channel" := Str("defaults")]))
  {
    ChaffNumpy(cmd);
    assert !IsFlag("numpy") by { assert "numpy"[0] == 'n'; }
    FillOne(map[Deps := List([])], "numpy");
    assert [] + ["numpy"] == ["numpy"];
    var f := Fill(map[Deps := List([])], InstallArgs(cmd)).value;
    assert f == map[Deps := List(["numpy"])];
    AC.TrimUntouched("conda", Whitespace);
    AC.LowerKeeps("conda");
    FilledSpec("base", cmd);
  }

  lemma ChaffCreate(cmd: seq<string>, kept: seq<string>)
    requires cmd == ["conda", "create", "--name", "vis", "python"]
    requires kept == ["--name", "vis", "python"]
    ensures InstallArgs(cmd) == kept
  {
    AC.LowerKeeps("conda");
    AC.LowerKeeps("create");
    AC.LowerKeeps("--name");
    AC.LowerKeeps("vis");
    AC.LowerKeeps("python");
    assert cmd == ["conda", "create"] + kept;
    AC.SplitInstallArgs(["conda", "create"], kept);
  }

  /** `--name vis` sets the name and python is listed. */
  lemma FillVis(kept: seq<string>)
    requires kept == ["--name", "vis", "python"]
    ensures Fill(map[Deps := List([])], kept) == Ok(map[Deps := List(["python"]), "name" := Str("vis")])
  {
    var m0: map<string, Value> := map[Deps := List([])];
    ChannelFlagKey();
    assert IsFlag("--name") by { assert "--name"[0] == '-'; }
    assert Fill(m0, kept) == Fill(m0["name" := Str("vis")], ["python"]) by {
      assert kept[2..] == ["python"];
    }
    var m1 := m0["name" := Str("vis")];
    assert !IsFlag("python") by { assert "python"[0] == 'p'; }
    FillOne(m1, "python");
    assert [] + ["python"] == ["python"];
    assert m1[Deps := List(["python"])] == map[Deps := List(["python"]), "name" := Str("vis")];
  }

  /** `conda create --name vis python` names "vis" and lists python. */
  lemma ParseVis(cmd: seq<string>)
    requires cmd == ["conda", "create", "--name", "vis", "python"]
    ensures ParseCommand("base", cmd)
         == Ok(Spec(map[Deps := List(["python"]), "name" := Str("vis"), "channel" := Str("defaults")]))
  {
    var kept := ["--name", "vis", "python"];
    ChaffCreate(cmd, kept);
    FillVis(kept);
    AC.TrimUntouched("conda", Whitespace);
    AC.LowerKeeps("conda");
    FilledSpec("base", cmd);
  }

  // ---------------------------------------------------------------------------
  // The branches the lines take

  /** The prefix a fresh solver for "vis" gets from a command. */
  function VisPrefix(naming: Naming): string {
    match naming
    case AsWritten => "base"
    case Corrected => "vis"
  }

  /** A solver with no channels, subdirs or removals. */
  function Fresh(prefix: string, specs: seq<string>): Solver {
    Solver(prefix, Empty, Empty, specs, Empty)
  }

  /** A complete install line dispatches the tokens after RUN in the active environment. */
  lemma InstallLine(raw: string, dir: string, docs: map<string, EnvFile>, st: ScanState)
    requires !Continues(raw) && Classify(Args(raw)) == Ok(Install(Args(raw)[1..]))
    ensures var merged := Dispatch(st.naming, st.env, Args(raw)[1..], st.specs);
      Step(dir, docs, st, raw)
      == if merged.Err? then Err(merged.error) else Ok(st.(condaSpec := Args(raw)[1..], specs := merged.value))
  {
    StepAs(dir, docs, st, raw, Install(Args(raw)[1..]));
  }

  /** A parsed command for an environment without a solver adds a fresh one under the environment's name. */
  lemma DispatchFresh(naming: Naming, env: string, cmd: seq<string>, specs: map<string, Solver>,
                      name: string, pkgs: seq<string>)
    requires ParseCommand(env, cmd)
          == Ok(Spec(map[Deps := List(pkgs), "name" := Str(name), "channel" := Str("defaults")]))
    requires name !in specs
    ensures Dispatch(naming, env, cmd, specs)
         == Ok(specs[name := Fresh(if naming == AsWritten then "base" else name, pkgs)])
  {
  }

  lemma InstallNumpyKind(args: seq<string>)
    requires args == ["RUN", "conda", "install", "numpy"]
    ensures Classify(args) == Ok(Install(args[1..])) && args[1..] == ["conda", "install", "numpy"]
  {
    AC.UpperKeeps("RUN");
    AC.LowerKeeps("conda");
    AC.LowerKeeps("install");
  }

  /** `RUN conda install numpy` in "base" before "base" has a solver. */
  lemma InstallNumpy(raw: string, dir: string, docs: map<string, EnvFile>, st: ScanState)
    requires NumpyLine(raw)
    requires st.env == "base" && !st.inConda && "base" !in st.specs
    ensures Step(dir, docs, st, raw)
         == Ok(st.(condaSpec := ["conda", "install", "numpy"], specs := st.specs["base" := Fresh("base", ["numpy"])]))
  {
    InstallNumpyKind(Args(raw));
    InstallLine(raw, dir, docs, st);
    ParseNumpy(Args(raw)[1..]);
    DispatchFresh(st.naming, "base", Args(raw)[1..], st.specs, "base", ["numpy"]);
  }

  lemma CopyVisKind(args: seq<string>)
    requires args == ["COPY", "vis.yml", "/e/vis.yml"]
    ensures |args| >= 3 && Upper(args[0]) == "COPY" && args[1] == "vis.yml" && args[2] == "/e/vis.yml"
  {
    AC.UpperKeeps("COPY");
  }

  /** `COPY vis.yml /e/vis.yml` registers the file next to the Dockerfile. */
  lemma CopyVis(raw: string, dir: string, docs: map<string, EnvFile>, st: ScanState)
    requires CopyVisLine(raw)
    ensures Step(dir, docs, st, raw) == Ok(st.(files := st.files["/e/vis.yml" := PathJoin(dir, "vis.yml")]))
  {
    CopyVisKind(Args(raw));
    CopyRecordsPath(dir, docs, st, raw);
  }

  lemma CreateVisKind(args: seq<string>)
    requires args == ["RUN", "conda", "create", "--name", "vis", "python"]
    ensures Classify(args) == Ok(Install(args[1..])) && args[1..] == ["conda", "create", "--name", "vis", "python"]
  {
    AC.UpperKeeps("RUN");
    AC.LowerKeeps("conda");
    AC.LowerKeeps("create");
  }

  /** The state after the create line: "vis" gets a fresh solver with the prefix the naming gives it. */
  function Created(st: ScanState): ScanState {
    st.(condaSpec := ["conda", "create", "--name", "vis", "python"],
        specs := st.specs["vis" := Fresh(VisPrefix(st.naming), ["python"])])
  }

  /** `RUN conda create -n vis python` while the active environment is "base" and "vis" has no solver. */
  lemma CreateVis(raw: string, dir: string, docs: map<string, EnvFile>, st: ScanState)
    requires CreateVisLine(raw)
    requires st.env == "base" && !st.inConda && "vis" !in st.specs
    ensures Step(dir, docs, st, raw)
         == Ok(Created(st))
  {
    CreateVisKind(Args(raw));
    InstallLine(raw, dir, docs, st);
    ParseVis(Args(raw)[1..]);
    DispatchFresh(st.naming, "base", Args(raw)[1..], st.specs, "vis", ["python"]);
  }

  /** A `RUN conda env create|update` line hands its tokens to the environment-file update. */
  lemma EnvLine(raw: string, dir: string, docs: map<string, EnvFile>, st: ScanState)
    requires Classify(Args(raw)) == Ok(EnvCommand(Args(raw)))
    ensures var merged := EnvUpdate(Args(raw), st.files, docs, st.specs);
      Step(dir, docs, st, raw) == if merged.Err? then Err(merged.error) else Ok(st.(specs := merged.value))
  {
    StepAs(dir, docs, st, raw, EnvCommand(Args(raw)));
    EnvApply(dir, docs, st, Args(raw), Continues(raw));
  }

  lemma EnvApply(dir: string, docs: map<string, EnvFile>, st: ScanState, args: seq<string>, continued: bool)
    ensures var merged := EnvUpdate(args, st.files, docs, st.specs);
      Apply(dir, docs, st, args, continued, EnvCommand(args))
      == if merged.Err? then Err(merged.error) else Ok(st.(specs := merged.value))
  {
  }

  /** The update from a registered file whose environment has a solver stores the merge under that solver's prefix. */
  lemma UpdateFromFile(args: seq<string>, files: map<string, string>, docs: map<string, EnvFile>,
                       specs: map<string, Solver>, doc: EnvFile)
    requires "--file" in args && IndexOf(args, "--file") + 1 < |args|
    requires args[IndexOf(args, "--file") + 1] in files
    requires files[args[IndexOf(args, "--file") + 1]] in docs
    requires docs[files[args[IndexOf(args, "--file") + 1]]] == doc
    requires doc.name.Some? && doc.name.value in specs
    ensures var s := GetCondaSolver(File(doc), Some(specs[doc.name.value]));
      EnvUpdate(args, files, docs, specs) == Ok(specs[s.prefix := s])
  {
  }

  /** The update line is an environment-file command whose `--file` is its fifth token. */
  lemma UpdateVisKind(args: seq<string>)
    requires args == ["RUN", "conda", "env", "update", "--file", "/e/vis.yml"]
    ensures Classify(args) == Ok(EnvCommand(args))
    ensures "--file" in args && IndexOf(args, "--file") == 4
  {
    AC.UpperKeeps("RUN");
    AC.LowerKeeps("conda");
    AC.LowerKeeps("env");
    AC.LowerKeeps("update");
    assert args[4] == "--file";
  }

  /** `RUN conda env update --file /e/vis.yml` once vis.yml is registered and "vis" has a solver. */
  lemma UpdateVisStep(raw: string, vis: EnvFile, dir: string, docs: map<string, EnvFile>, st: ScanState)
    requires UpdateVisLine(raw)
    requires vis.name == Some("vis")
    requires "/e/vis.yml" in st.files && st.files["/e/vis.yml"] in docs && docs[st.files["/e/vis.yml"]] == vis
    requires "vis" in st.specs
    ensures var s := GetCondaSolver(File(vis), Some(st.specs["vis"]));
      Step(dir, docs, st, raw) == Ok(st.(specs := st.specs[s.prefix := s]))
  {
    UpdateVisKind(Args(raw));
    EnvLine(raw, dir, docs, st);
    UpdateFromFile(Args(raw), st.files, docs, st.specs, vis);
  }

  /** vis.yml merged into the solver the create line made appends scipy and keeps the rest. */
  lemma MergeVis(vis: EnvFile, p: string)
    requires vis == EnvFile(Some("vis"), None, None, Some([Pkg("scipy")]), None)
    ensures GetCondaSolver(File(vis), Some(Fresh(p, ["python"]))) == Fresh(p, ["python", "scipy"])
  {
    BareSpecsOne(Pkg("scipy"));
    assert ["python"] + ["scipy"] == ["python", "scipy"];
  }

  lemma UpdateVis(raw: string, vis: EnvFile, dir: string, docs: map<string, EnvFile>, st: ScanState, p: string)
    requires UpdateVisLine(raw)
    requires vis == EnvFile(Some("vis"), None, None, Some([Pkg("scipy")]), None)
    requires "/e/vis.yml" in st.files && st.files["/e/vis.yml"] in docs && docs[st.files["/e/vis.yml"]] == vis
    requires "vis" in st.specs && st.specs["vis"] == Fresh(p, ["python"])
    ensures Step(dir, docs, st, raw) == Ok(st.(specs := st.specs[p := Fresh(p, ["python", "scipy"])]))
  {
    UpdateVisStep(raw, vis, dir, docs, st);
    MergeVis(vis, p);
  }

  // ---------------------------------------------------------------------------
  // The whole Dockerfile

  /** The map the four lines produce from an empty one, for either naming. */
  function Expected(naming: Naming): map<string, Solver> {
    var p := VisPrefix(naming);
    map["base" := Fresh("base", ["numpy"]), "vis" := Fresh(p, ["python"])][p := Fresh(p, ["python", "scipy"])]
  }

  /** A first line that steps to `next` hands the rest to `next`. */
  lemma ScanCons(dir: string, docs: map<string, EnvFile>, l: string, rest: seq<string>, st: ScanState, next: ScanState)
    requires Step(dir, docs, st, l) == Ok(next)
    ensures ScanLines(dir, docs, st, [l] + rest) == ScanLines(dir, docs, next, rest)
  {
    ScanOk(dir, docs, st, [l] + rest, next);
    assert ([l] + rest)[1..] == rest;
  }

  /** A last line that steps to `next` ends the scan there. */
  lemma ScanLast(dir: string, docs: map<string, EnvFile>, l: string, st: ScanState, next: ScanState)
    requires Step(dir, docs, st, l) == Ok(next)
    ensures ScanLines(dir, docs, st, [l]) == Ok(next)
  {
    ScanCons(dir, docs, l, [], st, next);
    assert [l] + [] == [l];
  }

  /** Two, three and four lines each of which succeeds from the state the previous one left. */
  lemma ScanTwo(dir: string, docs: map<string, EnvFile>, l0: string, l1: string,
                st0: ScanState, st1: ScanState, st2: ScanState)
    requires Step(dir, docs, st0, l0) == Ok(st1) && Step(dir, docs, st1, l1) == Ok(st2)
    ensures ScanLines(dir, docs, st0, [l0, l1]) == Ok(st2)
  {
    ScanCons(dir, docs, l0, [l1], st0, st1);
    ScanLast(dir, docs, l1, st1, st2);
  }

  lemma ScanThree(dir: string, docs: map<string, EnvFile>, l0: string, l1: string, l2: string,
                  st0: ScanState, st1: ScanState, st2: ScanState, st3: ScanState)
    requires Step(dir, docs, st0, l0) == Ok(st1) && Step(dir, docs, st1, l1) == Ok(st2)
    requires Step(dir, docs, st2, l2) == Ok(st3)
    ensures ScanLines(dir, docs, st0, [l0, l1, l2]) == Ok(st3)
  {
    ScanCons(dir, docs, l0, [l1, l2], st0, st1);
    ScanTwo(dir, docs, l1, l2, st1, st2, st3);
  }

  lemma ScanFour(dir: string, docs: map<string, EnvFile>, l0: string, l1: string, l2: string, l3: string,
                 st0: ScanState, st1: ScanState, st2: ScanState, st3: ScanState, st4: ScanState)
    requires Step(dir, docs, st0, l0) == Ok(st1) && Step(dir, docs, st1, l1) == Ok(st2)
    requires Step(dir, docs, st2, l2) == Ok(st3) && Step(dir, docs, st3, l3) == Ok(st4)
    ensures ScanLines(dir, docs, st0, [l0, l1, l2, l3]) == Ok(st4)
  {
    ScanCons(dir, docs, l0, [l1, l2, l3], st0, st1);
    ScanThree(dir, docs, l1, l2, l3, st1, st2, st3, st4);
  }

  lemma ExpectedAsWritten()
    ensures Expected(AsWritten) == map["base" := Fresh("base", ["python", "scipy"]), "vis" := Fresh("base", ["python"])]
  {
  }

  lemma ExpectedCorrected()
    ensures Expected(Corrected) == map["base" := Fresh("base", ["numpy"]), "vis" := Fresh("vis", ["python", "scipy"])]
  {
  }

  /** The states the scanner passes through on the four lines. */
  function AfterInstall(naming: Naming): ScanState {
    Start(naming, map[]).(condaSpec := ["conda", "install", "numpy"], specs := map["base" := Fresh("base", ["numpy"])])
  }

  function AfterCopy(naming: Naming, dir: string): ScanState {
    AfterInstall(naming).(files := map["/e/vis.yml" := PathJoin(dir, "vis.yml")])
  }

  function AfterCreate(naming: Naming, dir: string): ScanState {
    Created(AfterCopy(naming, dir))
  }

  function AfterUpdate(naming: Naming, dir: string): ScanState {
    AfterCreate(naming, dir).(specs := Expected(naming))
  }

  /** The install and COPY lines from the start. */
  lemma FirstSteps(naming: Naming, r1: string, r2: string, dir: string, docs: map<string, EnvFile>)
    requires NumpyLine(r1) && CopyVisLine(r2)
    ensures Step(dir, docs, Start(naming, map[]), r1) == Ok(AfterInstall(naming))
    ensures Step(dir, docs, AfterInstall(naming), r2) == Ok(AfterCopy(naming, dir))
  {
    InstallNumpy(r1, dir, docs, Start(naming, map[]));
    CopyVis(r2, dir, docs, AfterInstall(naming));
  }

  /** The create line from a state like the one the first two lines leave. */
  lemma CreateStep(r3: string, dir: string, docs: map<string, EnvFile>, st: ScanState)
    requires CreateVisLine(r3)
    requires st.env == "base" && !st.inConda && st.specs == map["base" := Fresh("base", ["numpy"])]
    ensures Step(dir, docs, st, r3) == Ok(Created(st))
  {
    CreateVis(r3, dir, docs, st);
  }

  /** The update line from the state the create line leaves. */
  lemma UpdateStep(naming: Naming, r4: string, dir: string, vis: EnvFile, docs: map<string, EnvFile>)
    requires UpdateVisLine(r4)
    requires vis == EnvFile(Some("vis"), None, None, Some([Pkg("scipy")]), None)
    requires docs == map[PathJoin(dir, "vis.yml") := vis]
    ensures Step(dir, docs, AfterCreate(naming, dir), r4) == Ok(AfterUpdate(naming, dir))
  {
    var st := AfterCreate(naming, dir);
    assert "/e/vis.yml" in st.files && st.files["/e/vis.yml"] == PathJoin(dir, "vis.yml");
    assert "vis" in st.specs && st.specs["vis"] == Fresh(VisPrefix(naming), ["python"]);
    UpdateVis(r4, vis, dir, docs, st, VisPrefix(naming));
  }

  /** Four lines each of which succeeds from the state the previous one left give the last state's map. */
  lemma ScanFourFromStart(naming: Naming, dockerfile: string, docs: map<string, EnvFile>,
                          r1: string, r2: string, r3: string, r4: string,
                          st1: ScanState, st2: ScanState, st3: ScanState, st4: ScanState)
    requires Step(Dirname(dockerfile), docs, Start(naming, map[]), r1) == Ok(st1)
    requires Step(Dirname(dockerfile), docs, st1, r2) == Ok(st2)
    requires Step(Dirname(dockerfile), docs, st2, r3) == Ok(st3)
    requires Step(Dirname(dockerfile), docs, st3, r4) == Ok(st4)
    ensures CondaSpecs(naming, dockerfile, [r1, r2, r3, r4], docs, map[]) == Ok(st4.specs)
  {
    ScanFour(Dirname(dockerfile), docs, r1, r2, r3, r4, Start(naming, map[]), st1, st2, st3, st4);
  }

  /** Four lines that tokenize as the example, scanned from an empty map with either naming. */
  lemma FourLines(naming: Naming, r1: string, r2: string, r3: string, r4: string, dockerfile: string,
                  vis: EnvFile, docs: map<string, EnvFile>)
    requires NumpyLine(r1) && CopyVisLine(r2) && CreateVisLine(r3) && UpdateVisLine(r4)
    requires vis == EnvFile(Some("vis"), None, None, Some([Pkg("scipy")]), None)
    requires docs == map[PathJoin(Dirname(dockerfile), "vis.yml") := vis]
    ensures CondaSpecs(naming, dockerfile, [r1, r2, r3, r4], docs, map[]) == Ok(Expected(naming))
  {
    var dir := Dirname(dockerfile);
    FirstSteps(naming, r1, r2, dir, docs);
    CreateStep(r3, dir, docs, AfterCopy(naming, dir));
    UpdateStep(naming, r4, dir, vis, docs);
    ScanFourFromStart(naming, dockerfile, docs, r1, r2, r3, r4, AfterInstall(naming), AfterCopy(naming, dir),
                      AfterCreate(naming, dir), AfterUpdate(naming, dir));
  }

  /**
   * As written, the environment-file update lands on "base": its packages
   * [numpy] are replaced by [python, scipy], while "vis" keeps only [python].
   * `ExampleLines` gives the text of four such lines.
   */
  lemma AsWrittenScanOverwritesBase(r1: string, r2: string, r3: string, r4: string, dockerfile: string,
                                    vis: EnvFile, docs: map<string, EnvFile>)
    requires NumpyLine(r1) && CopyVisLine(r2) && CreateVisLine(r3) && UpdateVisLine(r4)
    requires vis == EnvFile(Some("vis"), None, None, Some([Pkg("scipy")]), None)
    requires docs == map[PathJoin(Dirname(dockerfile), "vis.yml") := vis]
    ensures CondaSpecs(AsWritten, dockerfile, [r1, r2, r3, r4], docs, map[])
         == Ok(map["base" := Fresh("base", ["python", "scipy"]), "vis" := Fresh("base", ["python"])])
  {
    FourLines(AsWritten, r1, r2, r3, r4, dockerfile, vis, docs);
    ExpectedAsWritten();
  }

  /**
   * With the corrected naming the same lines keep "base" at [numpy] and give
   * "vis", under its own prefix, [python, scipy].
   */
  lemma CorrectedScanKeepsBase(r1: string, r2: string, r3: string, r4: string, dockerfile: string,
                               vis: EnvFile, docs: map<string, EnvFile>)
    requires NumpyLine(r1) && CopyVisLine(r2) && CreateVisLine(r3) && UpdateVisLine(r4)
    requires vis == EnvFile(Some("vis"), None, None, Some([Pkg("scipy")]), None)
    requires docs == map[PathJoin(Dirname(dockerfile), "vis.yml") := vis]
    ensures CondaSpecs(Corrected, dockerfile, [r1, r2, r3, r4], docs, map[])
         == Ok(map["base" := Fresh("base", ["numpy"]), "vis" := Fresh("vis", ["python", "scipy"])])
  {
    FourLines(Corrected, r1, r2, r3, r4, dockerfile, vis, docs);
    ExpectedCorrected();
  }
}
