/**
 * A conda environment file (`environment.yml`) after YAML loading, reduced to
 * the keys the tools read. The same shape is what `conda env export --json`
 * returns under `dependencies`.
 */
module EnvironmentFile {
  import opened Runtime

  /** One provider block of a dependencies list, e.g. `pip: [requests, ...]`. */
  datatype Group = Group(provider: string, specs: seq<string>)

  /**
   * One entry of `dependencies`: a bare conda spec string, or a provider map
   * (a YAML mapping; its keys in insertion order).
   */
  datatype Dep = Pkg(spec: string) | Provider(groups: seq<Group>)

  /** The keys `get_conda_solver` reads from a loaded file; `None` is an absent key. */
  datatype EnvFile = EnvFile(
    name: Option<string>,
    channels: Option<Value>,
    subdirs: Option<Value>,
    dependencies: Option<seq<Dep>>,
    specsToRemove: Option<Value>)
}
