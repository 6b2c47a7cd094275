/**
 * The merge arithmetic of `get_conda_solver` in maintenance_utilities/conda_tools.py.
 * A conda `Solver` is represented by the arguments it is constructed with; the
 * declaration is either the keyword arguments of a command (prefix, channels,
 * subdirs, specs_to_add) or an environment file already loaded from YAML.
 */
module CondaSolver {
  import opened Runtime
  import opened EnvironmentFile

  /** The constructor arguments of a conda `Solver`. */
  datatype Solver = Solver(
    prefix: string,
    channels: Value,
    subdirs: Value,
    specsToAdd: seq<string>,
    specsToRemove: Value)

  /** The two ways `get_conda_solver` is called: with keyword arguments, or with an environment file. */
  datatype Declaration =
    | Command(prefix: string, channels: Option<Value>, subdirs: Option<Value>, specsToAdd: Option<Value>)
    | File(doc: EnvFile)

  /** `()`, the Solver's default for `subdirs` and `specs_to_remove`, and the `[]` the code substitutes. */
  const Empty: Value := List([])

  // The dictionary `spec` the function builds (command path) or loads (file path),
  // read key by key; `None` is a key the dictionary does not have.

  function DeclaredName(d: Declaration): Option<string> {
    match d
    case Command(_, _, _, _) => None
    case File(doc) => doc.name
  }

  function DeclaredChannels(d: Declaration): (r: Option<Value>)
    ensures d.Command? ==> r == Some(d.channels.GetOr(Empty))
  {
    match d
    case Command(_, channels, _, _) => Some(channels.GetOr(Empty))
    case File(doc) => doc.channels
  }

  function DeclaredSubdirs(d: Declaration): (r: Option<Value>)
    ensures d.Command? ==> r == Some(d.subdirs.GetOr(Empty))
  {
    match d
    case Command(_, _, subdirs, _) => Some(subdirs.GetOr(Empty))
    case File(doc) => doc.subdirs
  }

  function DeclaredRemovals(d: Declaration): (r: Option<Value>)
    ensures d.Command? ==> r == None
  {
    match d
    case Command(_, _, _, _) => None
    case File(doc) => doc.specsToRemove
  }

  /** The bare-string entries of a dependencies list, in order; provider maps (pip) are dropped. */
  function BareSpecs(deps: seq<Dep>): (r: seq<string>)
    ensures |r| <= |deps|
    ensures forall s :: s in r <==> Pkg(s) in deps
    ensures (forall i :: 0 <= i < |deps| ==> deps[i].Pkg?) ==> |r| == |deps|
  {
    if deps == [] then []
    else
      (match deps[0] case Pkg(s) => [s] case Provider(_) => []) + BareSpecs(deps[1..])
  }

  /** One entry contributes its string when it is bare, and nothing when it is a provider map. */
  lemma BareSpecsOne(dep: Dep)
    ensures dep.Pkg? ==> BareSpecs([dep]) == [dep.spec]
    ensures dep.Provider? ==> BareSpecs([dep]) == []
  {
    assert [dep][1..] == [];
  }

  /**
   * The filter works entry by entry: the bare strings of a split list are those of
   * the first part followed by those of the second, so order and repeats are kept.
   */
  lemma {:induction false} BareSpecsAppend(a: seq<Dep>, b: seq<Dep>)
    ensures BareSpecs(a + b) == BareSpecs(a) + BareSpecs(b)
    decreases |a|
  {
    if a == [] {
      assert a + b == b;
    } else {
      assert (a + b)[0] == a[0] && (a + b)[1..] == a[1..] + b;
      BareSpecsAppend(a[1..], b);
    }
  }

  /** The plain package strings of a declaration's dependencies (none when it has no dependencies), skipping the provider maps. */
  function CondaPackages(d: Declaration): (r: seq<string>)
    ensures d.Command? ==> r == Elements(d.specsToAdd.GetOr(Empty))
    ensures d.File? ==> r == BareSpecs(d.doc.dependencies.GetOr([]))
    ensures d.File? && d.doc.dependencies.None? ==> r == []
    ensures d.File? && d.doc.dependencies.Some? ==>
      forall s :: s in r <==> Pkg(s) in d.doc.dependencies.value
  {
    match d
    case Command(_, _, _, specs) => Elements(specs.GetOr(Empty))
    case File(doc) => match doc.dependencies
      case None => []
      case Some(deps) => BareSpecs(deps)
  }

  /**
   * The Solver built from a declaration: a fresh one named `freshName` when there
   * is no existing solver, otherwise the existing one with the new packages
   * appended, its prefix kept, and every key the declaration has overriding.
   */
  function Merge(d: Declaration, existing: Option<Solver>, freshName: string): (r: Solver)
    ensures existing.None? ==> r.prefix == freshName && r.specsToAdd == CondaPackages(d)
    ensures existing.Some? ==>
      r.prefix == existing.value.prefix && r.specsToAdd == existing.value.specsToAdd + CondaPackages(d)
  {
    match existing
    case None =>
      Solver(freshName, DeclaredChannels(d).GetOr(Empty), Empty, CondaPackages(d), Empty)
    case Some(e) =>
      Solver(
        e.prefix,
        DeclaredChannels(d).GetOr(e.channels),
        DeclaredSubdirs(d).GetOr(e.subdirs),
        e.specsToAdd + CondaPackages(d),
        DeclaredRemovals(d).GetOr(e.specsToRemove))
  }

  /**
   * `get_conda_solver` as written: a fresh solver is named `spec.get('name', 'base')`,
   * and the dictionary the command path builds has no "name" key.
   */
  function GetCondaSolverAsWritten(d: Declaration, existing: Option<Solver>): (r: Solver)
    ensures existing.None? && d.Command? ==> r.prefix == "base"
    ensures existing.None? && d.Command? ==> r == GetCondaSolver(d, existing).(prefix := "base")
    ensures existing.Some? ==> r == GetCondaSolver(d, existing)
    ensures d.File? ==> r == GetCondaSolver(d, existing)
  {
    Merge(d, existing, DeclaredName(d).GetOr("base"))
  }

  /** The name a fresh solver is meant to get: the `prefix` argument, or the file's name. */
  function TargetName(d: Declaration): string {
    match d
    case Command(prefix, _, _, _) => prefix
    case File(doc) => doc.name.GetOr("base")
  }

  /**
   * `get_conda_solver` with the fresh solver named after the environment it
   * declares. Merging keeps the existing prefix and removals unless the file
   * declares removals, appends the new packages after the existing ones, and
   * replaces channels and subdirs by the declared ones; a command always
   * declares both, as `[]` when it was given none.
   */
  function GetCondaSolver(d: Declaration, existing: Option<Solver>): (r: Solver)
    ensures existing.None? ==>
      && r.prefix == TargetName(d)
      && r.specsToAdd == CondaPackages(d)
      && r.subdirs == Empty && r.specsToRemove == Empty
    ensures existing.Some? ==>
      && r.prefix == existing.value.prefix
      && r.specsToAdd == existing.value.specsToAdd + CondaPackages(d)
    ensures d.Command? ==> r.channels == d.channels.GetOr(Empty)
    ensures d.File? && existing.None? ==> r.channels == d.doc.channels.GetOr(Empty)
    ensures d.Command? && existing.Some? ==>
      r.subdirs == d.subdirs.GetOr(Empty) && r.specsToRemove == existing.value.specsToRemove
    ensures d.File? && existing.Some? ==>
      && r.channels == d.doc.channels.GetOr(existing.value.channels)
      && r.subdirs == d.doc.subdirs.GetOr(existing.value.subdirs)
      && r.specsToRemove == d.doc.specsToRemove.GetOr(existing.value.specsToRemove)
  {
    Merge(d, existing, TargetName(d))
  }

  /** The discrepancy: asked for environment "vis", the command path returns a solver for "base". */
  lemma AsWrittenIgnoresPrefix()
    ensures GetCondaSolverAsWritten(Command("vis", None, None, None), None).prefix == "base"
    ensures GetCondaSolver(Command("vis", None, None, None), None).prefix == "vis"
  {
  }

  /**
   * Which `get_conda_solver` a caller uses: the code as written, which names every
   * fresh solver built from a command "base", or the corrected one.
   */
  datatype Naming = AsWritten | Corrected

  /** `get_conda_solver` under the chosen naming; the two differ only on a fresh solver built from a command. */
  function SolverFor(naming: Naming, d: Declaration, existing: Option<Solver>): (r: Solver)
    ensures existing.Some? || d.File? || naming == Corrected ==> r == GetCondaSolver(d, existing)
    ensures naming == AsWritten && existing.None? && d.Command? ==> r.prefix == "base"
    ensures naming == AsWritten && existing.None? && d.Command? ==> r == GetCondaSolver(d, existing).(prefix := "base")
  {
    match naming
    case AsWritten => GetCondaSolverAsWritten(d, existing)
    case Corrected => GetCondaSolver(d, existing)
  }

  /** Folding declarations into one solver, as the Dockerfile scanner does for one environment. */
  function MergeAll(ds: seq<Declaration>, existing: Option<Solver>): (r: Option<Solver>)
    ensures ds == [] ==> r == existing
    ensures ds != [] ==> r.Some?
    decreases |ds|
  {
    if ds == [] then existing
    else MergeAll(ds[1..], Some(GetCondaSolver(ds[0], existing)))
  }

  /** All packages the declarations contribute, in declaration order. */
  function AllPackages(ds: seq<Declaration>): seq<string>
    decreases |ds|
  {
    if ds == [] then [] else CondaPackages(ds[0]) + AllPackages(ds[1..])
  }

  /**
   * Successive merges concatenate: the final `specs_to_add` is the initial list
   * followed by every declaration's packages in order, and the prefix is the one
   * the first solver got.
   */
  lemma {:induction false} MergeAllConcatenates(ds: seq<Declaration>, e: Solver)
    ensures MergeAll(ds, Some(e)).Some?
    ensures MergeAll(ds, Some(e)).value.specsToAdd == e.specsToAdd + AllPackages(ds)
    ensures MergeAll(ds, Some(e)).value.prefix == e.prefix
    decreases |ds|
  {
    if ds != [] {
      var next := GetCondaSolver(ds[0], Some(e));
      MergeAllConcatenates(ds[1..], next);
      assert next.specsToAdd == e.specsToAdd + CondaPackages(ds[0]);
      assert e.specsToAdd + CondaPackages(ds[0]) + AllPackages(ds[1..])
        == e.specsToAdd + AllPackages(ds);
    }
  }

  /** Merging a split list of declarations is merging the first part and then the rest. */
  lemma {:induction false} MergeAllAppend(ds1: seq<Declaration>, ds2: seq<Declaration>, existing: Option<Solver>)
    ensures MergeAll(ds1 + ds2, existing) == MergeAll(ds2, MergeAll(ds1, existing))
    decreases |ds1|
  {
    if ds1 == [] {
      assert ds1 + ds2 == ds2;
    } else {
      assert (ds1 + ds2)[0] == ds1[0];
      assert (ds1 + ds2)[1..] == ds1[1..] + ds2;
      MergeAllAppend(ds1[1..], ds2, Some(GetCondaSolver(ds1[0], existing)));
    }
  }

  /**
   * A command merged after anything forgets earlier channels and subdirs when it
   * declares none: they become `[]`, while the packages accumulate.
   */
  lemma CommandResetsChannels(e: Solver, prefix: string, specs: Option<Value>)
    ensures var r := GetCondaSolver(Command(prefix, None, None, specs), Some(e));
      r.channels == Empty && r.subdirs == Empty && r.specsToAdd == e.specsToAdd + Elements(specs.GetOr(Empty))
  {
  }

  /** A file that declares no channels, subdirs or removals leaves those of the existing solver alone. */
  lemma FileKeepsUndeclared(e: Solver, doc: EnvFile)
    requires doc.channels.None? && doc.subdirs.None? && doc.specsToRemove.None?
    ensures var r := GetCondaSolver(File(doc), Some(e));
      r.prefix == e.prefix && r.channels == e.channels && r.subdirs == e.subdirs
      && r.specsToRemove == e.specsToRemove
  {
  }
}
