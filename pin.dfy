/**
 * pin.py: pinning the packages of conda environment files to the versions
 * installed in a local environment. The installed versions come from
 * `conda env export --json` (a parameter here); they are turned into a
 * provider → name → full-spec snapshot, and every dependency of an environment
 * file is replaced by the snapshot's spec of the same name.
 */
module Pin {
  import opened Runtime
  import opened Text
  import opened EnvironmentFile

  // ---------------------------------------------------------------------------
  // The environment-name check of `get_versions_in_current_environment`

  /** The end of the run of ASCII letters and digits that starts at `i`. */
  function AlnumRun(s: string, i: nat): (j: nat)
    requires i <= |s|
    ensures i <= j <= |s|
    ensures forall k :: i <= k < j ==> IsAsciiAlnum(s[k])
    ensures j < |s| ==> !IsAsciiAlnum(s[j])
    decreases |s| - i
  {
    if i < |s| && IsAsciiAlnum(s[i]) then AlnumRun(s, i + 1) else i
  }

  /**
   * `re.match(r'[a-zA-Z0-9]+$', name)`: the greedy run from the start, then the
   * end of the string or a newline that is its last character. Backtracking
   * to a shorter run cannot help, since the character after it is alphanumeric.
   */
  predicate MatchesEnvName(name: string) {
    var j := AlnumRun(name, 0);
    j > 0 && (j == |name| || (j == |name| - 1 && name[j] == '\n'))
  }

  /** The length of a name without its final newline, if it has one. */
  function WordEnd(name: string): (w: nat)
    ensures w == |name| || (w == |name| - 1 && name[w] == '\n')
  {
    if name != [] && name[|name| - 1] == '\n' then |name| - 1 else |name|
  }

  /** The names the check admits: ASCII letters and digits, at least one, and at most one final newline. */
  predicate IsEnvName(name: string) {
    var w := WordEnd(name);
    w > 0 && forall k :: 0 <= k < w ==> IsAsciiAlnum(name[k])
  }

  lemma MatchesIsEnvName(name: string)
    ensures MatchesEnvName(name) <==> IsEnvName(name)
  {
    var j := AlnumRun(name, 0);
    var w := WordEnd(name);
    assert w < |name| ==> !IsAsciiAlnum(name[w]);
  }

  /** The `assert` before the subprocess starts: an AssertionError for any other name. */
  function CheckEnvName(name: string): (r: Result<string>)
    ensures r.Ok? <==> IsEnvName(name)
    ensures r.Ok? ==> r.value == name
    ensures r.Err? ==> r.error == AssertionError
  {
    MatchesIsEnvName(name);
    if MatchesEnvName(name) then Ok(name) else Err(AssertionError)
  }

  lemma EnvNameExamples()
    ensures CheckEnvName("base") == Ok("base") && CheckEnvName("r") == Ok("r")
    ensures CheckEnvName("base\n").Ok?
    ensures CheckEnvName("my-env") == Err(AssertionError)
    ensures CheckEnvName("base\n\n") == Err(AssertionError)
    ensures CheckEnvName("") == Err(AssertionError)
  {
    assert !IsAsciiAlnum("base\n\n"[4]);
    assert "my-env"[2] == '-';
  }

  // ---------------------------------------------------------------------------
  // The snapshot built by `parse_conda_dependencies`

  /** The package name of a spec (the text before its first '='), as in `numpy=1.16.2=py37_0`. */
  function Name(spec: string): string {
    Before(spec, '=')
  }

  /** The provider bare strings belong to. */
  const Conda := "conda"

  /** Package name → full spec, for one provider. */
  type Pins = map<string, string>

  /** Provider → its pins. */
  type Snapshot = map<string, Pins>

  /** The pins of a provider, `{}` when there are none. */
  function Of(s: Snapshot, provider: string): Pins {
    if provider in s then s[provider] else map[]
  }

  /** Each spec in turn stored under its package name (the text before the first '='), later specs replacing earlier ones. */
  function AddAll(pins: Pins, specs: seq<string>): Pins
    decreases |specs|
  {
    if specs == [] then pins
    else
      var last := specs[|specs| - 1];
      AddAll(pins, specs[..|specs| - 1])[Name(last) := last]
  }

  /** The provider map of one dependency: each provider's pins extended by its list. */
  function AddGroups(s: Snapshot, groups: seq<Group>): (r: Snapshot)
    ensures s.Keys <= r.Keys
    decreases |groups|
  {
    if groups == [] then s
    else
      var g := groups[|groups| - 1];
      var prev := AddGroups(s, groups[..|groups| - 1]);
      prev[g.provider := AddAll(Of(prev, g.provider), g.specs)]
  }

  /** One dependency of the export: a bare string goes to "conda", a provider map to its providers. */
  function AddDep(s: Snapshot, dep: Dep): (r: Snapshot)
    ensures s.Keys <= r.Keys
  {
    match dep
    case Pkg(spec) => s[Conda := Of(s, Conda)[Name(spec) := spec]]
    case Provider(groups) => AddGroups(s, groups)
  }

  /** `parse_conda_dependencies(deps)` */
  function SnapshotOf(deps: seq<Dep>): (r: Snapshot)
    ensures Conda in r
    decreases |deps|
  {
    if deps == [] then map[Conda := map[]]
    else AddDep(SnapshotOf(deps[..|deps| - 1]), deps[|deps| - 1])
  }

  /** The dependency loop, updating the dictionaries as it goes. */
  method ParseCondaDependencies(deps: seq<Dep>) returns (snap: Snapshot)
    ensures snap == SnapshotOf(deps)
  {
    snap := map[Conda := map[]];
    var i := 0;
    while i < |deps|
      invariant 0 <= i <= |deps|
      invariant snap == SnapshotOf(deps[..i])
    {
      assert deps[..i + 1][..i] == deps[..i];
      match deps[i] {
        case Pkg(spec) =>
          snap := snap[Conda := snap[Conda][Name(spec) := spec]];
        case Provider(groups) =>
          snap := AddProviderMap(snap, groups);
      }
      i := i + 1;
    }
    assert deps[..i] == deps;
  }

  /** The loop over a provider map's entries: each provider gets an empty table if it has none, then its list is added to it. */
  method AddProviderMap(s: Snapshot, groups: seq<Group>) returns (snap: Snapshot)
    ensures snap == AddGroups(s, groups)
  {
    snap := s;
    var j := 0;
    while j < |groups|
      invariant 0 <= j <= |groups|
      invariant snap == AddGroups(s, groups[..j])
    {
      var k, v := groups[j].provider, groups[j].specs;
      var table := if k in snap then snap[k] else map[];
      var pins := UpdatePins(table, v);
      AddGroupsSnoc(s, groups, j, snap[k := pins]);
      snap := snap[k := pins];
      j := j + 1;
    }
    assert groups[..j] == groups;
  }

  lemma AddGroupsSnoc(s: Snapshot, groups: seq<Group>, j: nat, next: Snapshot)
    requires j < |groups|
    requires next == AddGroups(s, groups[..j])[groups[j].provider :=
      AddAll(Of(AddGroups(s, groups[..j]), groups[j].provider), groups[j].specs)]
    ensures next == AddGroups(s, groups[..j + 1])
  {
    assert groups[..j + 1][..j] == groups[..j];
  }

  /** The loop over one provider's list, storing each spec under its package name. */
  method UpdatePins(start: Pins, v: seq<string>) returns (pins: Pins)
    ensures pins == AddAll(start, v)
  {
    pins := start;
    var l := 0;
    while l < |v|
      invariant 0 <= l <= |v|
      invariant pins == AddAll(start, v[..l])
    {
      assert v[..l + 1][..l] == v[..l];
      pins := pins[Name(v[l]) := v[l]];
      l := l + 1;
    }
    assert v[..l] == v;
  }

  // A reference reading of the snapshot: which specs reach which provider, and which one wins.

  /** The specs a list of provider blocks gives `provider`, in order. */
  function GroupSpecs(groups: seq<Group>, provider: string): seq<string>
    decreases |groups|
  {
    if groups == [] then []
    else
      var g := groups[|groups| - 1];
      GroupSpecs(groups[..|groups| - 1], provider) + (if g.provider == provider then g.specs else [])
  }

  /** Every spec of the export that is filed under `provider`, in order. */
  function Contributed(deps: seq<Dep>, provider: string): seq<string>
    decreases |deps|
  {
    if deps == [] then []
    else
      var d := deps[|deps| - 1];
      Contributed(deps[..|deps| - 1], provider)
      + match d
        case Pkg(spec) => if provider == Conda then [spec] else []
        case Provider(groups) => GroupSpecs(groups, provider)
  }

  /** The providers that some provider block names. */
  function GroupProviders(groups: seq<Group>): set<string>
    decreases |groups|
  {
    if groups == [] then {}
    else GroupProviders(groups[..|groups| - 1]) + {groups[|groups| - 1].provider}
  }

  function Providers(deps: seq<Dep>): set<string>
    decreases |deps|
  {
    if deps == [] then {}
    else
      var d := deps[|deps| - 1];
      Providers(deps[..|deps| - 1]) + (if d.Provider? then GroupProviders(d.groups) else {})
  }

  /** The last spec of `specs` whose name is `n`. */
  function LastNamed(specs: seq<string>, n: string): (r: Option<string>)
    ensures r.Some? ==> r.value in specs && Name(r.value) == n
    decreases |specs|
  {
    if specs == [] then None
    else if Name(specs[|specs| - 1]) == n then Some(specs[|specs| - 1])
    else LastNamed(specs[..|specs| - 1], n)
  }

  lemma {:induction false} AddAllAppend(pins: Pins, a: seq<string>, b: seq<string>)
    ensures AddAll(pins, a + b) == AddAll(AddAll(pins, a), b)
    decreases |b|
  {
    if b == [] {
      assert a + b == a;
    } else {
      assert (a + b)[..|a + b| - 1] == a + b[..|b| - 1];
      AddAllAppend(pins, a, b[..|b| - 1]);
    }
  }

  /** Later duplicates overwrite earlier ones: a name maps to the last spec that has it. */
  lemma {:induction false} AddAllLast(pins: Pins, specs: seq<string>, n: string)
    ensures n in AddAll(pins, specs) <==> LastNamed(specs, n).Some? || n in pins
    ensures LastNamed(specs, n).Some? ==> AddAll(pins, specs)[n] == LastNamed(specs, n).value
    ensures LastNamed(specs, n).None? && n in pins ==> AddAll(pins, specs)[n] == pins[n]
    decreases |specs|
  {
    if specs != [] {
      AddAllLast(pins, specs[..|specs| - 1], n);
    }
  }

  /** A table whose every spec is filed under its own name. */
  predicate SelfKeyed(pins: Pins) {
    forall n :: n in pins ==> Name(pins[n]) == n
  }

  lemma {:induction false} AddAllSelfKeyed(pins: Pins, specs: seq<string>)
    requires SelfKeyed(pins)
    ensures SelfKeyed(AddAll(pins, specs))
    decreases |specs|
  {
    if specs != [] {
      AddAllSelfKeyed(pins, specs[..|specs| - 1]);
    }
  }

  lemma {:induction false} AddGroupsContents(s: Snapshot, groups: seq<Group>)
    ensures AddGroups(s, groups).Keys == s.Keys + GroupProviders(groups)
    ensures forall p :: Of(AddGroups(s, groups), p) == AddAll(Of(s, p), GroupSpecs(groups, p))
    decreases |groups|
  {
    if groups != [] {
      var init := groups[..|groups| - 1];
      var g := groups[|groups| - 1];
      AddGroupsContents(s, init);
      forall p ensures Of(AddGroups(s, groups), p) == AddAll(Of(s, p), GroupSpecs(groups, p)) {
        AddAllAppend(Of(s, p), GroupSpecs(init, p), if g.provider == p then g.specs else []);
      }
    }
  }

  /**
   * The snapshot has "conda" and every provider the export names, and the pins
   * of each provider are the specs filed under it, added in order.
   */
  lemma {:induction false} SnapshotContents(deps: seq<Dep>)
    ensures SnapshotOf(deps).Keys == {Conda} + Providers(deps)
    ensures forall p :: Of(SnapshotOf(deps), p) == AddAll(map[], Contributed(deps, p))
    decreases |deps|
  {
    if deps != [] {
      var init := deps[..|deps| - 1];
      var d := deps[|deps| - 1];
      SnapshotContents(init);
      match d {
        case Pkg(spec) =>
          forall p ensures Of(SnapshotOf(deps), p) == AddAll(map[], Contributed(deps, p)) {
            AddAllAppend(map[], Contributed(init, p), if p == Conda then [spec] else []);
          }
        case Provider(groups) =>
          AddGroupsContents(SnapshotOf(init), groups);
          forall p ensures Of(SnapshotOf(deps), p) == AddAll(map[], Contributed(deps, p)) {
            AddAllAppend(map[], Contributed(init, p), GroupSpecs(groups, p));
          }
      }
    }
  }

  /**
   * A provider's pins hold a name exactly when some spec filed under that
   * provider has it, and the spec they hold is the last such one.
   */
  lemma SnapshotLastWins(deps: seq<Dep>, provider: string, n: string)
    ensures n in Of(SnapshotOf(deps), provider) <==> LastNamed(Contributed(deps, provider), n).Some?
    ensures n in Of(SnapshotOf(deps), provider) ==>
      Of(SnapshotOf(deps), provider)[n] == LastNamed(Contributed(deps, provider), n).value
  {
    SnapshotContents(deps);
    AddAllLast(map[], Contributed(deps, provider), n);
  }

  /** Every provider's pins are keyed by the names of their specs. */
  lemma SnapshotSelfKeyed(deps: seq<Dep>)
    ensures forall p :: p in SnapshotOf(deps) ==> SelfKeyed(SnapshotOf(deps)[p])
  {
    SnapshotContents(deps);
    forall p | p in SnapshotOf(deps) ensures SelfKeyed(SnapshotOf(deps)[p]) {
      AddAllSelfKeyed(map[], Contributed(deps, p));
    }
  }

  // ---------------------------------------------------------------------------
  // `determine_pinned_version`

  /** A source URL rather than a package name: "git+" or "http" anywhere in it. */
  predicate IsUrl(dep: string) {
    Contains(dep, "git+") || Contains(dep, "http")
  }

  /** The spec a dependency is pinned to: the snapshot's spec of the same name, unless it is a URL. */
  function DeterminePinnedVersion(dep: string, pins: Pins): (r: string)
    ensures IsUrl(dep) ==> r == dep
    ensures !IsUrl(dep) && Name(dep) in pins ==> r == pins[Name(dep)]
    ensures !IsUrl(dep) && Name(dep) !in pins ==> r == dep
    ensures r == dep || (Name(dep) in pins && r == pins[Name(dep)])
  {
    if IsUrl(dep) then dep else if Name(dep) in pins then pins[Name(dep)] else dep
  }

  /** Pinning against a table keyed by its own names keeps the package name. */
  lemma PinKeepsName(dep: string, pins: Pins)
    requires SelfKeyed(pins)
    ensures Name(DeterminePinnedVersion(dep, pins)) == Name(dep)
  {
  }

  /** Pinning an already pinned spec against a table keyed by its own names changes nothing. */
  lemma PinnedIsFixed(dep: string, pins: Pins)
    requires SelfKeyed(pins)
    ensures var once := DeterminePinnedVersion(dep, pins);
      DeterminePinnedVersion(once, pins) == once
  {
    var once := DeterminePinnedVersion(dep, pins);
    if once != dep {
      assert Name(once) == Name(dep);
      if !IsUrl(once) {
        assert pins[Name(once)] == once;
      }
    }
  }

  /**
   * A bare package pinned against the snapshot of an export becomes the last
   * bare spec of the same name in that export, and stays as it is when the
   * export has none.
   */
  lemma PinBareAgainstExport(d: string, exported: seq<Dep>)
    requires !IsUrl(d)
    ensures PinDep(Pkg(d), SnapshotOf(exported))
      == Ok(Pkg(LastNamed(Contributed(exported, Conda), Name(d)).GetOr(d)))
  {
    SnapshotLastWins(exported, Conda, Name(d));
  }

  /** The URL test is a substring test: a package named "httpx" is never pinned. */
  lemma HttpxIsNeverPinned()
    ensures DeterminePinnedVersion("httpx", map["httpx" := "httpx=0.9.3"]) == "httpx"
  {
    assert Contains("httpx", "http");
  }

  // ---------------------------------------------------------------------------
  // The rewrite of `file_spec['dependencies']`

  /** A provider list with every entry pinned. */
  function PinSpecs(specs: seq<string>, pins: Pins): (r: seq<string>)
    ensures |r| == |specs|
    ensures forall t :: 0 <= t < |specs| ==> r[t] == DeterminePinnedVersion(specs[t], pins)
  {
    seq(|specs|, t requires 0 <= t < |specs| => DeterminePinnedVersion(specs[t], pins))
  }

  /**
   * One provider block: `versions_to_pin[k]` is read once per entry, so an
   * empty list never raises, and a non-empty one under a provider the
   * snapshot lacks raises KeyError.
   */
  function PinGroup(g: Group, versions: Snapshot): (r: Result<Group>)
    ensures r.Err? <==> g.specs != [] && g.provider !in versions
    ensures r.Err? ==> r.error == KeyError(g.provider)
    ensures r.Ok? ==> r.value.provider == g.provider && |r.value.specs| == |g.specs|
  {
    if g.specs == [] then Ok(g)
    else if g.provider !in versions then Err(KeyError(g.provider))
    else Ok(Group(g.provider, PinSpecs(g.specs, versions[g.provider])))
  }

  function PinGroups(groups: seq<Group>, versions: Snapshot): (r: Result<seq<Group>>)
    ensures r.Ok? ==> |r.value| == |groups|
    decreases |groups|
  {
    if groups == [] then Ok([])
    else
      var init :- PinGroups(groups[..|groups| - 1], versions);
      var last :- PinGroup(groups[|groups| - 1], versions);
      Ok(init + [last])
  }

  /** One entry of `dependencies`; a bare string needs the snapshot's "conda" pins. */
  function PinDep(dep: Dep, versions: Snapshot): (r: Result<Dep>)
    ensures r.Ok? ==> r.value.Pkg? == dep.Pkg?
    ensures dep.Pkg? ==> (r.Err? <==> Conda !in versions)
  {
    match dep
    case Pkg(spec) =>
      if Conda !in versions then Err(KeyError(Conda))
      else Ok(Pkg(DeterminePinnedVersion(spec, versions[Conda])))
    case Provider(groups) =>
      var pinned :- PinGroups(groups, versions);
      Ok(Provider(pinned))
  }

  /** The whole list, entry by entry; the first entry that fails decides the error. */
  function PinAll(deps: seq<Dep>, versions: Snapshot): (r: Result<seq<Dep>>)
    ensures r.Ok? ==> |r.value| == |deps|
    decreases |deps|
  {
    if deps == [] then Ok([])
    else
      var init :- PinAll(deps[..|deps| - 1], versions);
      var last :- PinDep(deps[|deps| - 1], versions);
      Ok(init + [last])
  }

  /** The rewrite in place: each entry of the loaded list is replaced by its pinned form. */
  method PinDependencies(deps: array<Dep>, versions: Snapshot) returns (err: Option<Error>)
    modifies deps
    ensures err.None? <==> PinAll(old(deps[..]), versions).Ok?
    ensures err.None? ==> deps[..] == PinAll(old(deps[..]), versions).value
    ensures err.Some? ==> err.value == PinAll(old(deps[..]), versions).error
  {
    ghost var original := deps[..];
    var di := 0;
    while di < deps.Length
      invariant 0 <= di <= deps.Length
      invariant PinAll(original[..di], versions) == Ok(deps[..di])
      invariant forall t :: di <= t < deps.Length ==> deps[t] == original[t]
    {
      var pinned := PinEntry(deps[di], versions);
      PinAllAt(original, di, versions);
      if pinned.Err? {
        return Some(pinned.error);
      }
      deps[di] := pinned.value;
      assert deps[..di + 1] == deps[..di] + [pinned.value];
      di := di + 1;
    }
    assert original[..di] == original;
    return None;
  }

  /** One entry: a bare string is replaced; a provider map has its lists rewritten. */
  method PinEntry(dep: Dep, versions: Snapshot) returns (r: Result<Dep>)
    ensures r == PinDep(dep, versions)
  {
    match dep {
      case Pkg(spec) =>
        if Conda !in versions {
          return Err(KeyError(Conda));
        }
        return Ok(Pkg(DeterminePinnedVersion(spec, versions[Conda])));
      case Provider(groups) =>
        var pinned := PinProviderMap(groups, versions);
        if pinned.Err? {
          return Err(pinned.error);
        }
        return Ok(Provider(pinned.value));
    }
  }

  /** The rewrite's loop over the entries of a provider map. */
  method PinProviderMap(groups: seq<Group>, versions: Snapshot) returns (r: Result<seq<Group>>)
    ensures r == PinGroups(groups, versions)
  {
    var out: seq<Group> := [];
    var j := 0;
    while j < |groups|
      invariant 0 <= j <= |groups|
      invariant PinGroups(groups[..j], versions) == Ok(out)
    {
      assert groups[..j + 1] == groups[..j] + [groups[j]];
      PinGroupsSnoc(groups[..j], groups[j], versions);
      var g := PinList(groups[j], versions);
      if g.Err? {
        PinGroupsStops(groups[..j + 1], groups[j + 1..], versions);
        assert groups[..j + 1] + groups[j + 1..] == groups;
        return Err(g.error);
      }
      out := out + [g.value];
      j := j + 1;
    }
    assert groups[..j] == groups;
    return Ok(out);
  }

  /** The rewrite's loop over one provider's list, replacing each spec in place by its pinned form from the provider's table. */
  method PinList(g: Group, versions: Snapshot) returns (r: Result<Group>)
    ensures r == PinGroup(g, versions)
  {
    var specs := g.specs;
    var si := 0;
    while si < |specs|
      invariant 0 <= si <= |specs| == |g.specs|
      invariant si > 0 ==> g.provider in versions
      invariant forall t :: 0 <= t < si ==>
        g.provider in versions && specs[t] == DeterminePinnedVersion(g.specs[t], versions[g.provider])
      invariant specs[si..] == g.specs[si..]
    {
      if g.provider !in versions {
        return Err(KeyError(g.provider));
      }
      specs := specs[si := DeterminePinnedVersion(specs[si], versions[g.provider])];
      si := si + 1;
    }
    if specs == [] {
      return Ok(g);
    }
    assert specs == PinSpecs(g.specs, versions[g.provider]);
    return Ok(Group(g.provider, specs));
  }

  lemma PinAllSnoc(a: seq<Dep>, d: Dep, versions: Snapshot)
    requires PinAll(a, versions).Ok?
    ensures PinDep(d, versions).Err? ==> PinAll(a + [d], versions) == Err(PinDep(d, versions).error)
    ensures PinDep(d, versions).Ok? ==>
      PinAll(a + [d], versions) == Ok(PinAll(a, versions).value + [PinDep(d, versions).value])
  {
    assert (a + [d])[..|a|] == a;
  }

  /** The step of the rewrite at position `i`: the prefix grows by one pinned entry, or the whole list fails there. */
  lemma PinAllAt(deps: seq<Dep>, i: nat, versions: Snapshot)
    requires i < |deps| && PinAll(deps[..i], versions).Ok?
    ensures PinDep(deps[i], versions).Err? ==> PinAll(deps, versions) == Err(PinDep(deps[i], versions).error)
    ensures PinDep(deps[i], versions).Ok? ==>
      PinAll(deps[..i + 1], versions) == Ok(PinAll(deps[..i], versions).value + [PinDep(deps[i], versions).value])
  {
    assert deps[..i + 1] == deps[..i] + [deps[i]];
    PinAllSnoc(deps[..i], deps[i], versions);
    if PinDep(deps[i], versions).Err? {
      PinAllStops(deps[..i + 1], deps[i + 1..], versions);
      assert deps[..i + 1] + deps[i + 1..] == deps;
    }
  }

  lemma PinGroupsSnoc(a: seq<Group>, g: Group, versions: Snapshot)
    requires PinGroups(a, versions).Ok?
    ensures PinGroup(g, versions).Err? ==> PinGroups(a + [g], versions) == Err(PinGroup(g, versions).error)
    ensures PinGroup(g, versions).Ok? ==>
      PinGroups(a + [g], versions) == Ok(PinGroups(a, versions).value + [PinGroup(g, versions).value])
  {
    assert (a + [g])[..|a|] == a;
  }

  lemma {:induction false} PinAllStops(a: seq<Dep>, b: seq<Dep>, versions: Snapshot)
    requires PinAll(a, versions).Err?
    ensures PinAll(a + b, versions) == PinAll(a, versions)
    decreases |b|
  {
    if b == [] {
      assert a + b == a;
    } else {
      assert (a + b)[..|a + b| - 1] == a + b[..|b| - 1];
      PinAllStops(a, b[..|b| - 1], versions);
    }
  }

  lemma {:induction false} PinGroupsStops(a: seq<Group>, b: seq<Group>, versions: Snapshot)
    requires PinGroups(a, versions).Err?
    ensures PinGroups(a + b, versions) == PinGroups(a, versions)
    decreases |b|
  {
    if b == [] {
      assert a + b == a;
    } else {
      assert (a + b)[..|a + b| - 1] == a + b[..|b| - 1];
      PinGroupsStops(a, b[..|b| - 1], versions);
    }
  }

  /** What the rewrite does to one entry: the same kind and providers, every string pinned. */
  predicate EntryPinned(before: Dep, after: Dep, versions: Snapshot) {
    match before
    case Pkg(spec) => Conda in versions && after == Pkg(DeterminePinnedVersion(spec, versions[Conda]))
    case Provider(groups) =>
      && after.Provider? && |after.groups| == |groups|
      && forall j :: 0 <= j < |groups| ==> GroupPinned(groups[j], after.groups[j], versions)
  }

  predicate GroupPinned(before: Group, after: Group, versions: Snapshot) {
    && after.provider == before.provider && |after.specs| == |before.specs|
    && forall t :: 0 <= t < |before.specs| ==>
         before.provider in versions
         && after.specs[t] == DeterminePinnedVersion(before.specs[t], versions[before.provider])
  }

  /** An entry that raises KeyError: a bare string without "conda" pins, or a non-empty list of an unknown provider. */
  predicate Unpinnable(dep: Dep, versions: Snapshot) {
    match dep
    case Pkg(_) => Conda !in versions
    case Provider(groups) =>
      exists j :: 0 <= j < |groups| && groups[j].specs != [] && groups[j].provider !in versions
  }

  lemma {:induction false} PinGroupsPointwise(groups: seq<Group>, versions: Snapshot)
    ensures PinGroups(groups, versions).Err? <==>
      exists j :: 0 <= j < |groups| && groups[j].specs != [] && groups[j].provider !in versions
    ensures PinGroups(groups, versions).Ok? ==>
      var r := PinGroups(groups, versions).value;
      |r| == |groups| && forall j :: 0 <= j < |groups| ==> GroupPinned(groups[j], r[j], versions)
    decreases |groups|
  {
    if groups != [] {
      var init := groups[..|groups| - 1];
      PinGroupsPointwise(init, versions);
      if PinGroups(init, versions).Err? {
        var j :| 0 <= j < |init| && init[j].specs != [] && init[j].provider !in versions;
        assert groups[j] == init[j];
      } else {
        var last := groups[|groups| - 1];
        if PinGroup(last, versions).Ok? {
          forall j | 0 <= j < |groups| && groups[j].specs != []
            ensures groups[j].provider in versions
          {
            if j < |init| {
              assert groups[j] == init[j];
              assert GroupPinned(init[j], PinGroups(init, versions).value[j], versions);
            }
          }
        }
      }
    }
  }

  /**
   * The rewrite succeeds exactly when no entry is unpinnable, and then keeps
   * the list's length and each entry's position and kind, pinning every string.
   */
  lemma {:induction false} PinAllPointwise(deps: seq<Dep>, versions: Snapshot)
    ensures PinAll(deps, versions).Err? <==> exists i :: 0 <= i < |deps| && Unpinnable(deps[i], versions)
    ensures PinAll(deps, versions).Ok? ==>
      var r := PinAll(deps, versions).value;
      |r| == |deps| && forall i :: 0 <= i < |deps| ==> EntryPinned(deps[i], r[i], versions)
    decreases |deps|
  {
    if deps != [] {
      var init := deps[..|deps| - 1];
      var d := deps[|deps| - 1];
      assert deps == init + [d];
      PinAllPointwise(init, versions);
      PinDepPointwise(d, versions);
      if PinAll(init, versions).Err? {
        var i :| 0 <= i < |init| && Unpinnable(init[i], versions);
        assert deps[i] == init[i];
      } else {
        var r0 := PinAll(init, versions).value;
        forall i | 0 <= i < |init| ensures !Unpinnable(deps[i], versions) {
          assert deps[i] == init[i];
          PinnedIsPinnable(init[i], r0[i], versions);
        }
      }
    }
  }

  lemma PinDepPointwise(d: Dep, versions: Snapshot)
    ensures PinDep(d, versions).Err? <==> Unpinnable(d, versions)
    ensures PinDep(d, versions).Ok? ==> EntryPinned(d, PinDep(d, versions).value, versions)
  {
    if d.Provider? {
      PinGroupsPointwise(d.groups, versions);
    }
  }

  lemma PinnedIsPinnable(d: Dep, after: Dep, versions: Snapshot)
    requires EntryPinned(d, after, versions)
    ensures !Unpinnable(d, versions)
  {
    if d.Provider? {
      forall j | 0 <= j < |d.groups| && d.groups[j].specs != []
        ensures d.groups[j].provider in versions
      {
        assert GroupPinned(d.groups[j], after.groups[j], versions);
        var g, h := d.groups[j], after.groups[j];
        assert h.specs[0] == DeterminePinnedVersion(g.specs[0], versions[g.provider]);
      }
    }
  }

  /** Every table of the snapshot is keyed by its own names. */
  predicate SnapshotSelfKeyedAll(versions: Snapshot) {
    forall p :: p in versions ==> SelfKeyed(versions[p])
  }

  lemma {:induction false} PinGroupsIdempotent(groups: seq<Group>, versions: Snapshot)
    requires SnapshotSelfKeyedAll(versions)
    requires PinGroups(groups, versions).Ok?
    ensures PinGroups(PinGroups(groups, versions).value, versions) == PinGroups(groups, versions)
    decreases |groups|
  {
    if groups != [] {
      var init := groups[..|groups| - 1];
      var g := groups[|groups| - 1];
      var r := PinGroups(groups, versions).value;
      PinGroupsIdempotent(init, versions);
      var rg := PinGroup(g, versions).value;
      assert r == PinGroups(init, versions).value + [rg];
      assert r[..|r| - 1] == PinGroups(init, versions).value;
      if g.specs != [] {
        var pins := versions[g.provider];
        forall t | 0 <= t < |g.specs|
          ensures DeterminePinnedVersion(rg.specs[t], pins) == rg.specs[t]
        {
          PinnedIsFixed(g.specs[t], pins);
        }
        assert PinSpecs(rg.specs, pins) == rg.specs;
      }
    }
  }

  /**
   * Pinning twice against a snapshot whose tables are keyed by their own names
   * (as `parse_conda_dependencies` builds them) gives the same list as pinning once.
   */
  lemma {:induction false} PinAllIdempotent(deps: seq<Dep>, versions: Snapshot)
    requires SnapshotSelfKeyedAll(versions)
    requires PinAll(deps, versions).Ok?
    ensures PinAll(PinAll(deps, versions).value, versions) == PinAll(deps, versions)
    decreases |deps|
  {
    if deps != [] {
      var init := deps[..|deps| - 1];
      var d := deps[|deps| - 1];
      var r := PinAll(deps, versions).value;
      PinAllIdempotent(init, versions);
      var rd := PinDep(d, versions).value;
      assert r == PinAll(init, versions).value + [rd];
      assert r[..|r| - 1] == PinAll(init, versions).value;
      match d {
        case Pkg(spec) =>
          PinnedIsFixed(spec, versions[Conda]);
        case Provider(groups) =>
          PinGroupsIdempotent(groups, versions);
      }
    }
  }

  /** Pinning against an export's snapshot is idempotent. */
  lemma PinTwiceAgainstExport(deps: seq<Dep>, exported: seq<Dep>)
    requires PinAll(deps, SnapshotOf(exported)).Ok?
    ensures var once := PinAll(deps, SnapshotOf(exported)).value;
      PinAll(once, SnapshotOf(exported)) == Ok(once)
  {
    SnapshotSelfKeyed(exported);
    PinAllIdempotent(deps, SnapshotOf(exported));
  }

  // ---------------------------------------------------------------------------
  // `pin_files`

  /** One (environment file path, name of the local environment to pin from) pair. */
  datatype Target = Target(file: string, env: string)

  /** The environments in the order they are first named: the key order of the grouping dict. */
  function FirstSeen(targets: seq<Target>): seq<string>
    decreases |targets|
  {
    if targets == [] then []
    else
      var order := FirstSeen(targets[..|targets| - 1]);
      var e := targets[|targets| - 1].env;
      if e in order then order else order + [e]
  }

  /** The files paired with `env`, in the order given. */
  function FilesFor(targets: seq<Target>, env: string): seq<string>
    decreases |targets|
  {
    if targets == [] then []
    else
      var t := targets[|targets| - 1];
      FilesFor(targets[..|targets| - 1], env) + (if t.env == env then [t.file] else [])
  }

  /** The grouping loop of `pin_files`: a list per environment, appended to in order. */
  method GroupByEnv(targets: seq<Target>) returns (order: seq<string>, groups: map<string, seq<string>>)
    ensures order == FirstSeen(targets)
    ensures forall e :: e in groups <==> e in order
    ensures forall e :: e in groups ==> groups[e] == FilesFor(targets, e)
  {
    order, groups := [], map[];
    var i := 0;
    while i < |targets|
      invariant 0 <= i <= |targets|
      invariant order == FirstSeen(targets[..i])
      invariant forall e :: e in groups <==> e in order
      invariant forall e :: e in groups ==> groups[e] == FilesFor(targets[..i], e)
    {
      assert targets[..i + 1][..i] == targets[..i];
      var t := targets[i];
      if t.env !in groups {
        FilesForAbsent(targets[..i], t.env);
        groups := groups[t.env := []];
        order := order + [t.env];
      }
      groups := groups[t.env := groups[t.env] + [t.file]];
      i := i + 1;
    }
    assert targets[..i] == targets;
  }

  /** An environment is listed exactly when some pair names it. */
  lemma {:induction false} FirstSeenCovers(targets: seq<Target>, env: string)
    ensures env in FirstSeen(targets) <==> exists i :: 0 <= i < |targets| && targets[i].env == env
    decreases |targets|
  {
    if targets != [] {
      var init := targets[..|targets| - 1];
      FirstSeenCovers(init, env);
      if exists i :: 0 <= i < |init| && init[i].env == env {
        var i :| 0 <= i < |init| && init[i].env == env;
        assert targets[i] == init[i];
      }
      if exists i :: 0 <= i < |targets| && targets[i].env == env {
        var i :| 0 <= i < |targets| && targets[i].env == env;
        if i < |init| {
          assert init[i] == targets[i];
        }
      }
    }
  }

  /** No environment is listed twice, so each one is queried at most once. */
  lemma {:induction false} FirstSeenDistinct(targets: seq<Target>)
    ensures forall i, j :: 0 <= i < j < |FirstSeen(targets)| ==> FirstSeen(targets)[i] != FirstSeen(targets)[j]
    decreases |targets|
  {
    if targets != [] {
      FirstSeenDistinct(targets[..|targets| - 1]);
    }
  }

  lemma {:induction false} FilesForAbsent(targets: seq<Target>, env: string)
    requires env !in FirstSeen(targets)
    ensures FilesFor(targets, env) == []
    decreases |targets|
  {
    if targets != [] {
      var init := targets[..|targets| - 1];
      FilesForAbsent(init, env);
    }
  }

  /** The sizes of the groups of the environments in `order`, added up. */
  function GroupSizes(targets: seq<Target>, order: seq<string>): nat
    decreases |order|
  {
    if order == [] then 0 else |FilesFor(targets, order[0])| + GroupSizes(targets, order[1..])
  }

  lemma {:induction false} GroupSizesSnoc(targets: seq<Target>, order: seq<string>, e: string)
    ensures GroupSizes(targets, order + [e]) == GroupSizes(targets, order) + |FilesFor(targets, e)|
    decreases |order|
  {
    if order == [] {
      assert order + [e] == [e];
    } else {
      assert (order + [e])[1..] == order[1..] + [e];
      GroupSizesSnoc(targets, order[1..], e);
    }
  }

  lemma {:induction false} GroupSizesGrow(targets: seq<Target>, t: Target, order: seq<string>)
    requires forall i, j :: 0 <= i < j < |order| ==> order[i] != order[j]
    ensures GroupSizes(targets + [t], order) == GroupSizes(targets, order) + (if t.env in order then 1 else 0)
    decreases |order|
  {
    if order != [] {
      assert (targets + [t])[..|targets + [t]| - 1] == targets;
      GroupSizesGrow(targets, t, order[1..]);
      assert order[0] == t.env ==> t.env !in order[1..];
    }
  }

  /** Every pair lands in exactly one group: the group sizes add up to the number of pairs. */
  lemma {:induction false} EveryFileInOneGroup(targets: seq<Target>)
    ensures GroupSizes(targets, FirstSeen(targets)) == |targets|
    decreases |targets|
  {
    if targets != [] {
      var init := targets[..|targets| - 1];
      var t := targets[|targets| - 1];
      var order := FirstSeen(init);
      assert targets == init + [t];
      EveryFileInOneGroup(init);
      FirstSeenDistinct(init);
      GroupSizesGrow(init, t, order);
      if t.env !in order {
        GroupSizesSnoc(targets, order, t.env);
        FilesForAbsent(init, t.env);
      }
    }
  }

  /** Where a run of `pin_files` ends: the files as they now are, and the exception if one escaped. */
  datatype Outcome = Outcome(files: map<string, EnvFile>, error: Option<Error>)

  /** What a run reports besides the files: the environments it queried, in order. */
  datatype PinRun = PinRun(files: map<string, EnvFile>, queried: seq<string>, error: Option<Error>)

  /** One file's `dependencies` pinned; every other key is kept. KeyError when it has no such key. */
  function PinFile(doc: EnvFile, versions: Snapshot): (r: Result<EnvFile>)
    ensures r.Ok? ==> r.value == doc.(dependencies := r.value.dependencies) && r.value.dependencies.Some?
    ensures doc.dependencies.None? ==> r == Err(KeyError("dependencies"))
    ensures r.Ok? <==> doc.dependencies.Some? && PinAll(doc.dependencies.value, versions).Ok?
    ensures r.Ok? ==> r.value.dependencies == Some(PinAll(doc.dependencies.value, versions).value)
    ensures doc.dependencies.Some? && PinAll(doc.dependencies.value, versions).Err? ==>
      r == Err(PinAll(doc.dependencies.value, versions).error)
  {
    if doc.dependencies.None? then Err(KeyError("dependencies"))
    else
      var pinned :- PinAll(doc.dependencies.value, versions);
      Ok(doc.(dependencies := Some(pinned)))
  }

  /** The files of one environment, pinned and written one after the other (unless it is a dry run). */
  function PinPaths(paths: seq<string>, files: map<string, EnvFile>, versions: Snapshot, dryRun: bool): (r: Outcome)
    ensures r.files.Keys == files.Keys
    ensures dryRun ==> r.files == files
    ensures r.error.None? ==> forall q :: q in paths ==> q in files
    decreases |paths|
  {
    if paths == [] then Outcome(files, None)
    else if paths[0] !in files then Outcome(files, Some(FileNotFoundError(paths[0])))
    else match PinFile(files[paths[0]], versions)
      case Err(e) => Outcome(files, Some(e))
      case Ok(doc) => PinPaths(paths[1..], if dryRun then files else files[paths[0] := doc], versions, dryRun)
  }

  /** The snapshot an environment's files are pinned against: its export's `dependencies`, `[]` when absent. */
  function ExportedVersions(exportEnv: string -> Result<EnvFile>, env: string): (r: Snapshot)
    requires exportEnv(env).Ok?
    ensures Conda in r
  {
    SnapshotOf(exportEnv(env).value.dependencies.GetOr([]))
  }

  /** One environment after its name check: the export (whose `dependencies` default to `[]`), then its files. */
  function VisitEnv(targets: seq<Target>, env: string, files: map<string, EnvFile>,
                    exportEnv: string -> Result<EnvFile>, dryRun: bool): (r: Outcome)
    ensures r.files.Keys == files.Keys
    ensures dryRun ==> r.files == files
  {
    match exportEnv(env)
    case Err(err) => Outcome(files, Some(err))
    case Ok(_) => PinPaths(FilesFor(targets, env), files, ExportedVersions(exportEnv, env), dryRun)
  }

  /** The environments in turn; the first exception ends the run. */
  function PinEnvs(targets: seq<Target>, envs: seq<string>, files: map<string, EnvFile>, queried: seq<string>,
                   exportEnv: string -> Result<EnvFile>, dryRun: bool): (r: PinRun)
    ensures r.files.Keys == files.Keys
    ensures dryRun ==> r.files == files
    decreases |envs|
  {
    if envs == [] then PinRun(files, queried, None)
    else if CheckEnvName(envs[0]).Err? then PinRun(files, queried, Some(AssertionError))
    else
      var out := VisitEnv(targets, envs[0], files, exportEnv, dryRun);
      if out.error.Some? then PinRun(out.files, queried + [envs[0]], out.error)
      else PinEnvs(targets, envs[1..], out.files, queried + [envs[0]], exportEnv, dryRun)
  }

  /** `pin_files(environment_files, dry_run)`, with `conda env export` given as `export`. */
  function PinFilesRun(targets: seq<Target>, files: map<string, EnvFile>,
                       exportEnv: string -> Result<EnvFile>, dryRun: bool): (r: PinRun)
    ensures r.files.Keys == files.Keys
    ensures dryRun ==> r.files == files
  {
    PinEnvs(targets, FirstSeen(targets), files, [], exportEnv, dryRun)
  }

  /** `pin_files`: group the pairs, then query each environment once and rewrite its files. */
  method PinFiles(targets: seq<Target>, files: map<string, EnvFile>,
                  exportEnv: string -> Result<EnvFile>, dryRun: bool) returns (run: PinRun)
    ensures run == PinFilesRun(targets, files, exportEnv, dryRun)
  {
    var order, groups := GroupByEnv(targets);
    var current := files;
    var queried: seq<string> := [];
    var k := 0;
    while k < |order|
      invariant 0 <= k <= |order|
      invariant PinFilesRun(targets, files, exportEnv, dryRun) == PinEnvs(targets, order[k..], current, queried, exportEnv, dryRun)
    {
      var e := order[k];
      var checked := CheckEnvName(e);
      if checked.Err? {
        PinEnvsRejects(targets, order[k..], current, queried, exportEnv, dryRun);
        return PinRun(current, queried, Some(AssertionError));
      }
      var out := PinEnvironment(targets, e, groups[e], current, exportEnv, dryRun);
      PinEnvsVisits(targets, order[k..], current, queried, exportEnv, dryRun, out);
      assert order[k..][1..] == order[k + 1..];
      queried := queried + [e];
      current := out.files;
      if out.error.Some? {
        return PinRun(current, queried, out.error);
      }
      k := k + 1;
    }
    return PinRun(current, queried, None);
  }

  lemma PinEnvsRejects(targets: seq<Target>, envs: seq<string>, files: map<string, EnvFile>, queried: seq<string>,
                       exportEnv: string -> Result<EnvFile>, dryRun: bool)
    requires envs != [] && CheckEnvName(envs[0]).Err?
    ensures PinEnvs(targets, envs, files, queried, exportEnv, dryRun) == PinRun(files, queried, Some(AssertionError))
  {
  }

  lemma PinEnvsVisits(targets: seq<Target>, envs: seq<string>, files: map<string, EnvFile>, queried: seq<string>,
                      exportEnv: string -> Result<EnvFile>, dryRun: bool, out: Outcome)
    requires envs != [] && CheckEnvName(envs[0]).Ok?
    requires out == VisitEnv(targets, envs[0], files, exportEnv, dryRun)
    ensures PinEnvs(targets, envs, files, queried, exportEnv, dryRun)
         == if out.error.Some? then PinRun(out.files, queried + [envs[0]], out.error)
            else PinEnvs(targets, envs[1..], out.files, queried + [envs[0]], exportEnv, dryRun)
  {
  }

  /** One environment of `pin_files`: its export, its snapshot, then its files. */
  method PinEnvironment(targets: seq<Target>, env: string, paths: seq<string>, files: map<string, EnvFile>,
                        exportEnv: string -> Result<EnvFile>, dryRun: bool) returns (out: Outcome)
    requires paths == FilesFor(targets, env)
    ensures out == VisitEnv(targets, env, files, exportEnv, dryRun)
  {
    var exported := exportEnv(env);
    if exported.Err? {
      return Outcome(files, Some(exported.error));
    }
    var versions := ParseCondaDependencies(exported.value.dependencies.GetOr([]));
    out := PinEnvFiles(paths, files, versions, dryRun);
  }

  /** The loop over the files grouped under one environment: load, pin and write each one. */
  method PinEnvFiles(paths: seq<string>, files: map<string, EnvFile>, versions: Snapshot, dryRun: bool)
    returns (out: Outcome)
    ensures out == PinPaths(paths, files, versions, dryRun)
  {
    var current := files;
    var t := 0;
    while t < |paths|
      invariant 0 <= t <= |paths|
      invariant PinPaths(paths, files, versions, dryRun) == PinPaths(paths[t..], current, versions, dryRun)
    {
      var path := paths[t];
      assert paths[t..][0] == path && paths[t..][1..] == paths[t + 1..];
      if path !in current {
        return Outcome(current, Some(FileNotFoundError(path)));
      }
      var doc := current[path];
      if doc.dependencies.None? {
        return Outcome(current, Some(KeyError("dependencies")));
      }
      var deps := doc.dependencies.value;
      var loaded := new Dep[|deps|](i requires 0 <= i < |deps| => deps[i]);
      assert loaded[..] == deps;
      var err := PinDependencies(loaded, versions);
      if err.Some? {
        return Outcome(current, err);
      }
      if !dryRun {
        current := current[path := doc.(dependencies := Some(loaded[..]))];
      }
      t := t + 1;
    }
    return Outcome(current, None);
  }

  /** The files some pair names. */
  function TargetFiles(targets: seq<Target>): set<string>
    decreases |targets|
  {
    if targets == [] then {} else TargetFiles(targets[..|targets| - 1]) + {targets[|targets| - 1].file}
  }

  lemma {:induction false} FilesForAreTargets(targets: seq<Target>, env: string)
    ensures forall p :: p in FilesFor(targets, env) ==> p in TargetFiles(targets)
    decreases |targets|
  {
    if targets != [] {
      FilesForAreTargets(targets[..|targets| - 1], env);
    }
  }

  /** What a run may do to the files: change nothing but the `dependencies` of the paths in `touched`. */
  predicate OnlyDependenciesOf(before: map<string, EnvFile>, after: map<string, EnvFile>, touched: set<string>) {
    && after.Keys == before.Keys
    && forall p :: p in before ==>
         after[p] == before[p].(dependencies := after[p].dependencies)
         && (p !in touched ==> after[p] == before[p])
  }

  lemma OnlyDependenciesTrans(a: map<string, EnvFile>, b: map<string, EnvFile>, c: map<string, EnvFile>, touched: set<string>)
    requires OnlyDependenciesOf(a, b, touched) && OnlyDependenciesOf(b, c, touched)
    ensures OnlyDependenciesOf(a, c, touched)
  {
    forall p | p in a ensures c[p] == a[p].(dependencies := c[p].dependencies) {
      assert c[p] == b[p].(dependencies := c[p].dependencies);
    }
  }

  lemma {:induction false} PinPathsFrame(paths: seq<string>, files: map<string, EnvFile>, versions: Snapshot,
                                         dryRun: bool, touched: set<string>)
    requires forall p :: p in paths ==> p in touched
    ensures OnlyDependenciesOf(files, PinPaths(paths, files, versions, dryRun).files, touched)
    ensures dryRun ==> PinPaths(paths, files, versions, dryRun).files == files
    decreases |paths|
  {
    if paths != [] && paths[0] in files && PinFile(files[paths[0]], versions).Ok? {
      var next := if dryRun then files else files[paths[0] := PinFile(files[paths[0]], versions).value];
      PinPathsFrame(paths[1..], next, versions, dryRun, touched);
      OnlyDependenciesTrans(files, next, PinPaths(paths, files, versions, dryRun).files, touched);
    }
  }

  /** The environments a run of `PinEnvs` queries: a prefix of `envs`, each with a valid name. */
  lemma {:induction false} PinEnvsQueried(targets: seq<Target>, envs: seq<string>, files: map<string, EnvFile>,
                                          queried: seq<string>, exportEnv: string -> Result<EnvFile>, dryRun: bool)
    ensures var r := PinEnvs(targets, envs, files, queried, exportEnv, dryRun);
      && queried <= r.queried && |r.queried| <= |queried| + |envs|
      && (forall i :: |queried| <= i < |r.queried| ==> r.queried[i] == envs[i - |queried|])
      && (r.error.None? ==> |r.queried| == |queried| + |envs|)
    decreases |envs|
  {
    if envs != [] && CheckEnvName(envs[0]).Ok? {
      var e := envs[0];
      var out := VisitEnv(targets, e, files, exportEnv, dryRun);
      if out.error.None? {
        PinEnvsQueried(targets, envs[1..], out.files, queried + [e], exportEnv, dryRun);
        var r := PinEnvs(targets, envs[1..], out.files, queried + [e], exportEnv, dryRun);
        assert r.queried[|queried|] == (queried + [e])[|queried|];
      }
    }
  }

  lemma {:induction false} PinEnvsChecked(targets: seq<Target>, envs: seq<string>, files: map<string, EnvFile>,
                                          queried: seq<string>, exportEnv: string -> Result<EnvFile>, dryRun: bool)
    ensures var r := PinEnvs(targets, envs, files, queried, exportEnv, dryRun);
      queried <= r.queried && forall i :: |queried| <= i < |r.queried| ==> IsEnvName(r.queried[i])
    decreases |envs|
  {
    if envs != [] && CheckEnvName(envs[0]).Ok? {
      var e := envs[0];
      var out := VisitEnv(targets, e, files, exportEnv, dryRun);
      assert IsEnvName(e);
      if out.error.None? {
        PinEnvsChecked(targets, envs[1..], out.files, queried + [e], exportEnv, dryRun);
        var r := PinEnvs(targets, envs[1..], out.files, queried + [e], exportEnv, dryRun);
        assert r.queried[|queried|] == (queried + [e])[|queried|];
      }
    }
  }

  /** What a run of `PinEnvs` does to the files: only the `dependencies` of listed files, nothing in a dry run. */
  lemma {:induction false} PinEnvsFiles(targets: seq<Target>, envs: seq<string>, files: map<string, EnvFile>,
                                        queried: seq<string>, exportEnv: string -> Result<EnvFile>, dryRun: bool)
    ensures var r := PinEnvs(targets, envs, files, queried, exportEnv, dryRun);
      OnlyDependenciesOf(files, r.files, TargetFiles(targets)) && (dryRun ==> r.files == files)
    decreases |envs|
  {
    if envs != [] && CheckEnvName(envs[0]).Ok? {
      var e := envs[0];
      var out := VisitEnv(targets, e, files, exportEnv, dryRun);
      VisitEnvFrame(targets, e, files, exportEnv, dryRun);
      if out.error.None? {
        PinEnvsFiles(targets, envs[1..], out.files, queried + [e], exportEnv, dryRun);
        OnlyDependenciesTrans(files, out.files, PinEnvs(targets, envs, files, queried, exportEnv, dryRun).files,
                              TargetFiles(targets));
      }
    }
  }

  lemma VisitEnvFrame(targets: seq<Target>, env: string, files: map<string, EnvFile>,
                      exportEnv: string -> Result<EnvFile>, dryRun: bool)
    ensures var out := VisitEnv(targets, env, files, exportEnv, dryRun);
      OnlyDependenciesOf(files, out.files, TargetFiles(targets)) && (dryRun ==> out.files == files)
  {
    if exportEnv(env).Ok? {
      FilesForAreTargets(targets, env);
      PinPathsFrame(FilesFor(targets, env), files, ExportedVersions(exportEnv, env), dryRun, TargetFiles(targets));
    }
  }

  /**
   * A successful write-back of one environment's files: a path listed once holds its file
   * with `dependencies` pinned against `versions`; a path not listed is left as it was.
   */
  lemma {:induction false} PinPathsPins(paths: seq<string>, files: map<string, EnvFile>, versions: Snapshot, p: string)
    requires PinPaths(paths, files, versions, false).error.None?
    ensures var r := PinPaths(paths, files, versions, false);
      && (p in files && p !in paths ==> r.files[p] == files[p])
      && (multiset(paths)[p] == 1 ==>
            p in files && PinFile(files[p], versions).Ok? && r.files[p] == PinFile(files[p], versions).value)
    decreases |paths|
  {
    if paths != [] {
      var next := files[paths[0] := PinFile(files[paths[0]], versions).value];
      PinPathsPins(paths[1..], next, versions, p);
      assert paths == [paths[0]] + paths[1..];
      if p == paths[0] && multiset(paths)[p] == 1 {
        assert p !in multiset(paths[1..]);
      }
    }
  }

  /** A successful visit of one environment pins each of its files listed once against its export. */
  lemma VisitEnvPins(targets: seq<Target>, env: string, files: map<string, EnvFile>,
                     exportEnv: string -> Result<EnvFile>, p: string)
    requires VisitEnv(targets, env, files, exportEnv, false).error.None?
    ensures exportEnv(env).Ok?
    ensures var out := VisitEnv(targets, env, files, exportEnv, false);
      && (p in files && p !in FilesFor(targets, env) ==> out.files[p] == files[p])
      && (multiset(FilesFor(targets, env))[p] == 1 ==>
            p in files && PinFile(files[p], ExportedVersions(exportEnv, env)).Ok?
            && out.files[p] == PinFile(files[p], ExportedVersions(exportEnv, env)).value)
  {
    PinPathsPins(FilesFor(targets, env), files, ExportedVersions(exportEnv, env), p);
  }

  /** A successful run over environments none of which lists `p` leaves `p` as it was. */
  lemma {:induction false} PinEnvsUntouched(targets: seq<Target>, envs: seq<string>, files: map<string, EnvFile>,
                                            queried: seq<string>, exportEnv: string -> Result<EnvFile>, p: string)
    requires PinEnvs(targets, envs, files, queried, exportEnv, false).error.None?
    requires p in files
    requires forall e :: e in envs ==> p !in FilesFor(targets, e)
    ensures PinEnvs(targets, envs, files, queried, exportEnv, false).files[p] == files[p]
    decreases |envs|
  {
    if envs != [] {
      var out := VisitEnv(targets, envs[0], files, exportEnv, false);
      VisitEnvPins(targets, envs[0], files, exportEnv, p);
      PinEnvsUntouched(targets, envs[1..], out.files, queried + [envs[0]], exportEnv, p);
    }
  }

  /**
   * A successful run over distinct environments: a file that only `e` lists, and lists once,
   * ends pinned against `e`'s export.
   */
  lemma {:induction false} PinEnvsPins(targets: seq<Target>, envs: seq<string>, files: map<string, EnvFile>,
                                       queried: seq<string>, exportEnv: string -> Result<EnvFile>, p: string, e: string)
    requires PinEnvs(targets, envs, files, queried, exportEnv, false).error.None?
    requires forall i, j :: 0 <= i < j < |envs| ==> envs[i] != envs[j]
    requires e in envs
    requires multiset(FilesFor(targets, e))[p] == 1
    requires forall other :: other != e ==> p !in FilesFor(targets, other)
    ensures exportEnv(e).Ok? && p in files
    ensures var r := PinEnvs(targets, envs, files, queried, exportEnv, false);
      PinFile(files[p], ExportedVersions(exportEnv, e)).Ok?
      && r.files[p] == PinFile(files[p], ExportedVersions(exportEnv, e)).value
    decreases |envs|
  {
    var out := VisitEnv(targets, envs[0], files, exportEnv, false);
    VisitEnvPins(targets, envs[0], files, exportEnv, p);
    if envs[0] == e {
      forall other | other in envs[1..] ensures p !in FilesFor(targets, other) {
        var k :| 0 <= k < |envs[1..]| && envs[1..][k] == other;
        assert envs[k + 1] == other;
      }
      PinEnvsUntouched(targets, envs[1..], out.files, queried + [e], exportEnv, p);
    } else {
      PinEnvsPins(targets, envs[1..], out.files, queried + [envs[0]], exportEnv, p, e);
    }
  }

  /** How many pairs name the file `p`. */
  function Mentions(targets: seq<Target>, p: string): nat
    decreases |targets|
  {
    if targets == [] then 0
    else Mentions(targets[..|targets| - 1], p) + (if targets[|targets| - 1].file == p then 1 else 0)
  }

  lemma {:induction false} MentionsNone(targets: seq<Target>, p: string)
    requires Mentions(targets, p) == 0
    ensures forall t :: t in targets ==> t.file != p
    ensures forall e :: p !in FilesFor(targets, e)
    decreases |targets|
  {
    if targets != [] {
      var init := targets[..|targets| - 1];
      MentionsNone(init, p);
      assert targets == init + [targets[|targets| - 1]];
    }
  }

  /** A file named by exactly one pair `(p, e)` is listed once under `e` and under no other environment. */
  lemma {:induction false} MentionsOnce(targets: seq<Target>, p: string, e: string)
    requires Mentions(targets, p) == 1 && Target(p, e) in targets
    ensures multiset(FilesFor(targets, e))[p] == 1
    ensures forall other :: other != e ==> p !in FilesFor(targets, other)
    decreases |targets|
  {
    var init := targets[..|targets| - 1];
    var t := targets[|targets| - 1];
    assert targets == init + [t];
    if t.file == p {
      MentionsNone(init, p);
      assert t == Target(p, e);
    } else {
      assert Target(p, e) in init;
      MentionsOnce(init, p, e);
    }
  }

  /**
   * What a successful, non-dry run writes: a file named by exactly one pair `(p, e)` holds
   * its old contents with `dependencies` pinned against the export of `e`.
   */
  lemma PinFilesPins(targets: seq<Target>, files: map<string, EnvFile>,
                     exportEnv: string -> Result<EnvFile>, p: string, e: string)
    requires PinFilesRun(targets, files, exportEnv, false).error.None?
    requires Mentions(targets, p) == 1 && Target(p, e) in targets
    ensures exportEnv(e).Ok? && p in files
    ensures PinFile(files[p], ExportedVersions(exportEnv, e)).Ok?
    ensures PinFilesRun(targets, files, exportEnv, false).files[p] == PinFile(files[p], ExportedVersions(exportEnv, e)).value
  {
    FirstSeenDistinct(targets);
    var i :| 0 <= i < |targets| && targets[i] == Target(p, e);
    FirstSeenCovers(targets, e);
    MentionsOnce(targets, p, e);
    PinEnvsPins(targets, FirstSeen(targets), files, [], exportEnv, p, e);
  }

  /**
   * A run queries the environments in first-seen order, each at most once, and
   * all of them when nothing fails.
   */
  lemma PinFilesQueries(targets: seq<Target>, files: map<string, EnvFile>,
                        exportEnv: string -> Result<EnvFile>, dryRun: bool)
    ensures var r := PinFilesRun(targets, files, exportEnv, dryRun);
      && r.queried <= FirstSeen(targets)
      && (forall i, j :: 0 <= i < j < |r.queried| ==> r.queried[i] != r.queried[j])
      && (r.error.None? ==> r.queried == FirstSeen(targets))
  {
    PinEnvsQueried(targets, FirstSeen(targets), files, [], exportEnv, dryRun);
    FirstSeenDistinct(targets);
    var r := PinFilesRun(targets, files, exportEnv, dryRun);
    assert r.queried == FirstSeen(targets)[..|r.queried|];
  }

  /** Only environments whose names pass the check are queried. */
  lemma PinFilesChecksNames(targets: seq<Target>, files: map<string, EnvFile>,
                            exportEnv: string -> Result<EnvFile>, dryRun: bool)
    ensures forall e :: e in PinFilesRun(targets, files, exportEnv, dryRun).queried ==> IsEnvName(e)
  {
    PinEnvsChecked(targets, FirstSeen(targets), files, [], exportEnv, dryRun);
    var r := PinFilesRun(targets, files, exportEnv, dryRun);
    forall e | e in r.queried ensures IsEnvName(e) {
      var i :| 0 <= i < |r.queried| && r.queried[i] == e;
    }
  }

  /** A run changes only the `dependencies` of the listed files, and nothing in a dry run. */
  lemma PinFilesFrame(targets: seq<Target>, files: map<string, EnvFile>,
                      exportEnv: string -> Result<EnvFile>, dryRun: bool)
    ensures var r := PinFilesRun(targets, files, exportEnv, dryRun);
      OnlyDependenciesOf(files, r.files, TargetFiles(targets)) && (dryRun ==> r.files == files)
  {
    PinEnvsFiles(targets, FirstSeen(targets), files, [], exportEnv, dryRun);
  }
}
