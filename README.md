# Conda environment tooling of the Rhodium docker images, modelled in Dafny

The repository builds paired Docker images (a notebook image and the worker
images that must run the same package versions). Its Python maintenance code
does four things, and this project models each one:

- **Dockerfile scanning** (`maintenance_utilities/conda_tools.py`). Each
  Dockerfile is read line by line, following `COPY`, `activate` and
  `conda install|create|env create|env update` lines, including commands
  continued over several lines. The packages each conda environment declares
  are merged into one conda `Solver` per environment, across all Dockerfiles.
  The modules are `CondaCommand` (`parse_conda_create_command` and the
  `CONDA_ARGS` table), `CondaSolver` (the merge in `get_conda_solver`) and
  `DockerfileScan` (`get_conda_specs` and
  `build_final_envs_for_multiple_docker_files`).
- **Package alignment test helpers** (`tests/test_package_alignment.py`).
  - An older scanner returns the raw `(env, tokens)` pairs of every install
    command.
  - An older parser turns one such command into a name → version table.
  - Two versions of `assert_pairing_match` check that paired images agree on
    every shared package.
  - The modules are `PackageAlignment` (scanner, parser and older assertion),
    `SolvedPairing` (the newer assertion) and `AlignmentCases` (one Dockerfile
    line followed through both helpers).
- **Pinning** (`pin.py`, module `Pin`).
  - The packages installed in a local conda environment become a snapshot.
  - Every dependency of an environment file is then replaced by the
    snapshot's spec of the same name.
  - `pin_files` groups the files by the environment they are pinned from, and
    queries each environment once.
- **Tag bump** (`bump.py`, module `Bump`). Every `TAG=YYYY-MM-DD.NN` stamp in
  `.travis.yml` gets today's date and a counter.

Shared modules:
- `Runtime` holds the Python exceptions as an `Error` datatype, plus
  `Result` and `Option`.
- `Text` holds the `str` methods the code uses, with ASCII case mapping.
- `EnvironmentFile` holds a loaded environment YAML document: `name`,
  `channels`, `subdirs`, `dependencies` (bare strings and provider maps such as
  `pip:`) and `specs_to_remove`.

Each loop in the source is a method. The method is proved equal to a function, and the
properties are lemmas about that function. The source's exceptions are error
values. The model keeps the same conditions and the same order of evaluation,
so an `IndexError` from reading a short line happens exactly where Python
raises it.

Behaviour worth noting:
- There is no unpin operation, and no `pinkeep` annotation. Pinning replaces a
  dependency by the snapshot's full spec string (for example
  `numpy=1.16.2=py37_0`), not by `name=version`.
- A provider missing from the snapshot raises `KeyError` only when its list in
  the file is non-empty. Bare strings always find the `conda` table.
- A dependency is left unpinned when "git+" or "http" occurs anywhere in it. It
  does not have to be a URL scheme, so a package named `httpx` is never pinned.
- `pin_files` has no all-or-nothing behaviour. Environments are handled in
  turn, and files of earlier environments have already been rewritten when a
  later query or file fails. Within one environment, the query comes before
  any of its files is touched.

## Model

| member | source | states |
|---|---|---|
| CondaCommand.InstallArgs | maintenance_utilities/conda_tools.py:168-169 | A token is kept exactly when its lower-case form is not one of the chaff words. The result is never longer than the input. Order and repeats are stated by InstallArgsAppend and InstallArgsOne. |
| CondaCommand.InstallArgsOne | maintenance_utilities/conda_tools.py:168-169 | One token gives `[]` when its lower-case form is chaff, and itself otherwise. |
| CondaCommand.InstallArgsAppend | maintenance_utilities/conda_tools.py:168-169 | Filtering `a + b` is filtering `a`, then `b`, so the kept tokens keep their order and their repeats. |
| CondaCommand.InstallArgsKeeps | maintenance_utilities/conda_tools.py:168-169 | A list without chaff is returned unchanged. |
| CondaCommand.InstallArgsDrops | maintenance_utilities/conda_tools.py:168-169 | A list of chaff words only gives `[]`. |
| CondaCommand.Fill | maintenance_utilities/conda_tools.py:175-190 | The token loop only adds keys and keeps "dependencies". Every key that held a string still holds one. The only exceptions are StopIteration (a flag with no value) and AttributeError. |
| CondaCommand.ParseCommand | maintenance_utilities/conda_tools.py:154-195 | IndexError exactly for an empty command. The `('invalid', args)` tuple exactly when the first token, stripped and lower-cased, is not "conda". A spec always has "dependencies", plus "name" and "channel" as strings. |
| CondaCommand.Defaults | maintenance_utilities/conda_tools.py:192-193 | Existing keys are kept, and "name" and "channel" are always present. |
| CondaCommand.ParseCondaCreateCommand | maintenance_utilities/conda_tools.py:154-195 | The iterator loop over a mutable dictionary computes exactly `ParseCommand`. |
| CondaCommand.ItemsThenTokens | maintenance_utilities/conda_tools.py:177-190 | Reading tokens as flag/value and package items loses nothing: the items give back the tokens. Flags start with "-" and packages do not. |
| CondaCommand.TokensThenItems | maintenance_utilities/conda_tools.py:177-190 | Every well-formed item list is read back from its own tokens, the inverse of ItemsThenTokens. |
| CondaCommand.FillContents | maintenance_utilities/conda_tools.py:185-190 | Packages are appended unquoted and in order. Every other key holds the value of the last flag stored under it. |
| CondaCommand.DanglingFlagFails | maintenance_utilities/conda_tools.py:186 | A flag that is the last token makes the parse fail. |
| CondaCommand.ParsedSpec | maintenance_utilities/conda_tools.py:165-195 | Full result of a command whose flags all have values: the package list, "name" (the last `-n` or env), "channel" (the last `-c` or "defaults"), and every other flag's last value. |
| CondaCommand.FilledSpec | maintenance_utilities/conda_tools.py:175-195 | Once the loop succeeds, the parse result is the loop's dictionary with defaults filled in. |
| CondaCommand.WithDefaults | maintenance_utilities/conda_tools.py:192-193 | Defaults for name and channel are used only when no flag set them. |
| CondaCommand.ChannelFlagKey | maintenance_utilities/conda_tools.py:21-33 | `-c` and `--channel` are stored under "channel". `-n` and `--name` are stored under "name". |
| CondaCommand.DashesDropped | maintenance_utilities/conda_tools.py:186 | A long flag is stored under its name without the leading dashes. |
| CondaSolver.DeclaredChannels | maintenance_utilities/conda_tools.py:128-132 | A command always declares channels, as `[]` when it was given none. |
| CondaSolver.DeclaredSubdirs | maintenance_utilities/conda_tools.py:128-132 | A command always declares subdirs, as `[]` when it was given none. |
| CondaSolver.DeclaredRemovals | maintenance_utilities/conda_tools.py:128-132 | A command never declares removals. |
| CondaSolver.BareSpecs | maintenance_utilities/conda_tools.py:135-136 | The plain strings of a dependency list, with provider maps dropped and none added. Nothing is dropped when there are no provider maps. Order and repeats are stated by BareSpecsAppend and BareSpecsOne. |
| CondaSolver.BareSpecsOne | maintenance_utilities/conda_tools.py:135-136 | A bare string contributes itself, and a provider map contributes nothing. |
| CondaSolver.BareSpecsAppend | maintenance_utilities/conda_tools.py:135-136 | The bare strings of `a + b` are those of `a` followed by those of `b`, so order and repeats are kept. |
| CondaSolver.CondaPackages | maintenance_utilities/conda_tools.py:128-136 | A command contributes its specs. A file contributes exactly `BareSpecs` of its dependencies, so the bare strings in their order, and none without dependencies. |
| CondaSolver.Merge | maintenance_utilities/conda_tools.py:138-150 | A fresh solver gets the given name and exactly the declared packages. A merge keeps the existing prefix and appends the declared packages after the existing ones. |
| CondaSolver.GetCondaSolverAsWritten | maintenance_utilities/conda_tools.py:124-152 | As written: a fresh solver built from a command is the corrected one with its prefix replaced by "base", so it has the same packages, channels, subdirs and removals. Merging into an existing solver, and any file declaration, agrees with the corrected function. |
| CondaSolver.GetCondaSolver | maintenance_utilities/conda_tools.py:124-152 | A fresh solver takes the declared name, packages and channels (from a file, its channels or `[]`), with empty subdirs and removals. A merge keeps the prefix and appends packages after the existing ones. A command replaces channels and subdirs but keeps removals. A file replaces each field only when it declares it. |
| CondaSolver.AsWrittenIgnoresPrefix | maintenance_utilities/conda_tools.py:128-140 | For a command with prefix "vis", the code builds a solver for "base", but the intended one is for "vis". |
| CondaSolver.SolverFor | maintenance_utilities/conda_tools.py:124-152 | The two namings agree except on a fresh solver built from a command, which the code as written gives prefix "base" while keeping every other field of the corrected solver. |
| CondaSolver.MergeAll | maintenance_utilities/conda_tools.py:143-150 | Folding no declarations keeps the existing solver. Folding any declaration yields a solver. |
| CondaSolver.MergeAllConcatenates | maintenance_utilities/conda_tools.py:143-150 | Successive merges keep the first prefix. The final package list is the initial list followed by every declaration's packages, in order. |
| CondaSolver.MergeAllAppend | maintenance_utilities/conda_tools.py:143-150 | Merging a split list of declarations is merging the first part, then the rest. |
| CondaSolver.CommandResetsChannels | maintenance_utilities/conda_tools.py:128-132 | A later command that gives no channels or subdirs resets both to `[]`, while the packages accumulate. |
| CondaSolver.FileKeepsUndeclared | maintenance_utilities/conda_tools.py:143-150 | A file that declares no channels, subdirs or removals leaves those of the existing solver, and its prefix, unchanged. |
| DockerfileScan.Dirname | maintenance_utilities/conda_tools.py:224 | The directory of the Dockerfile is a prefix of its path, and is empty for a path without "/". |
| DockerfileScan.PathJoin | maintenance_utilities/conda_tools.py:243-244 | An absolute source replaces the directory. Otherwise the result starts with the directory and ends with "/" and the source. |
| DockerfileScan.LastSlashEnd | maintenance_utilities/conda_tools.py:224 | The position just after the last "/", with no "/" beyond it. |
| DockerfileScan.LineArgs | maintenance_utilities/conda_tools.py:237-240 | Splitting a line always gives at least one token, as `re.split` does. |
| DockerfileScan.Args | maintenance_utilities/conda_tools.py:233-240 | Every raw line gives at least one token. |
| DockerfileScan.Classify | maintenance_utilities/conda_tools.py:242-276 | IndexError only for lines shorter than 4 tokens. An install command is the tokens after RUN, with "conda" second. A line that is neither COPY nor RUN takes no branch. |
| DockerfileScan.Dispatch | maintenance_utilities/conda_tools.py:262-270 | A failed parse is the merge's error, and the `('invalid', args)` tuple raises TypeError. A merge adds at most one entry and loses none. |
| DockerfileScan.DispatchExtends | maintenance_utilities/conda_tools.py:262-270 | Under either naming, merging a parsed command only adds or extends solvers. With the corrected naming it also keeps each solver under its prefix; as written it does not (see ScanCases.AsWrittenScanOverwritesBase). |
| DockerfileScan.IndexOf | maintenance_utilities/conda_tools.py:279-280 | `args.index('--file')` is the first occurrence. |
| DockerfileScan.EnvUpdate | maintenance_utilities/conda_tools.py:272-294 | ValueError exactly when there is no `--file`. KeyError for a path that no COPY registered. |
| DockerfileScan.EnvUpdateExtends | maintenance_utilities/conda_tools.py:278-290 | On a map that keeps solvers under their prefixes (as the corrected naming does), an environment-file update extends or adds the solver the file names, and keeps that property. |
| DockerfileScan.Step | maintenance_utilities/conda_tools.py:231-309 | Under either naming, a successful line keeps the naming and loses no environment and no COPY entry. |
| DockerfileScan.Apply | maintenance_utilities/conda_tools.py:242-309 | A branch loses no entry. Only COPY changes the recorded files, and only activate changes the env. |
| DockerfileScan.Close | maintenance_utilities/conda_tools.py:296-309 | The line that ends a continued command leaves no command open, keeps the gathered tokens and loses no entry. |
| DockerfileScan.ScanLines | maintenance_utilities/conda_tools.py:231-309 | A successful scan keeps the naming and loses no environment and no COPY entry. |
| DockerfileScan.CondaSpecs | maintenance_utilities/conda_tools.py:198-311 | Under either naming, every environment given to `get_conda_specs` is still in its result. |
| DockerfileScan.StepExtends | maintenance_utilities/conda_tools.py:231-309 | With the corrected naming, one line only adds COPY entries, and only adds or extends solvers under their prefixes. |
| DockerfileScan.ApplyExtends | maintenance_utilities/conda_tools.py:242-309 | The same property, branch by branch, with the corrected naming. |
| DockerfileScan.ScanExtends | maintenance_utilities/conda_tools.py:231-309 | With the corrected naming, over any lines a solver's prefix never changes and its package list only grows. Keys are never dropped. As written this fails (see ScanCases.AsWrittenScanOverwritesBase). |
| DockerfileScan.CondaSpecsExtends | maintenance_utilities/conda_tools.py:198-311 | With the corrected naming, `get_conda_specs` returns the map it was given, with entries only added or extended. |
| DockerfileScan.CopyRecordsPath | maintenance_utilities/conda_tools.py:242-244 | `COPY src dest` records `dest` as the joined path and changes nothing else. |
| DockerfileScan.ActivateSetsEnv | maintenance_utilities/conda_tools.py:245-250 | `RUN conda activate X` and `RUN source activate X`, in any letter case, make X the active env and change nothing else. |
| DockerfileScan.ActivateStep | maintenance_utilities/conda_tools.py:245-250 | An activate line only switches the environment. |
| DockerfileScan.ActivateClassified | maintenance_utilities/conda_tools.py:245-250 | The activate condition selects the activate branch. |
| DockerfileScan.GatherContinuation | maintenance_utilities/conda_tools.py:296-299 | Inside an open command, continuation lines only append their tokens. |
| DockerfileScan.ScanAppend | maintenance_utilities/conda_tools.py:231-235 | Scanning `a + b` is scanning `a`, then `b` from where `a` ended. |
| DockerfileScan.ScanContinuation | maintenance_utilities/conda_tools.py:296-299 | A continuation line appends its tokens, and the scan goes on. |
| DockerfileScan.ContinuationStep | maintenance_utilities/conda_tools.py:296-299 | A continuation line appends its tokens. |
| DockerfileScan.ContinuationBlock | maintenance_utilities/conda_tools.py:252-309 | A continued install block is parsed and merged exactly once. Its command is the tokens after RUN, followed by every later line's tokens. |
| DockerfileScan.InstallOpens | maintenance_utilities/conda_tools.py:257-260 | An install line ending in a backslash opens a command holding the tokens after RUN. |
| DockerfileScan.ContinuationCloses | maintenance_utilities/conda_tools.py:296-309 | The first line without a backslash closes the command and merges it. |
| DockerfileScan.DispatchIgnoresChannelFlag | maintenance_utilities/conda_tools.py:262-270 | A `-c` flag is stored under "channel", so the solver gets no channels and no subdirs. The named env's solver gets the command's packages appended. |
| DockerfileScan.GetCondaSpecs | maintenance_utilities/conda_tools.py:198-311 | Under either naming, the line loop with its mutable variables computes exactly `CondaSpecs`; with `AsWritten` that is the code as written. |
| DockerfileScan.ScanLine | maintenance_utilities/conda_tools.py:232-240 | Under either naming, the loop body computes one step. |
| DockerfileScan.TakeBranch | maintenance_utilities/conda_tools.py:242-309 | Under either naming, the branches compute the state `Apply` gives. |
| DockerfileScan.BuildFrom | maintenance_utilities/conda_tools.py:313-318 | A successful fold loses no environment, and every Dockerfile it visits was found; a missing one is FileNotFoundError. |
| DockerfileScan.BuildExtends | maintenance_utilities/conda_tools.py:313-318 | With the corrected naming, across all Dockerfiles keys are never lost, packages only grow and solvers stay under their prefixes. |
| DockerfileScan.UpdateWithExtension | maintenance_utilities/conda_tools.py:316 | Under either naming, `envs.update(result)` is exactly the result, because the scan never drops a key of `envs`. When the scan extends `envs`, so does the merged map. |
| DockerfileScan.BuildFinalEnvsForMultipleDockerFiles | maintenance_utilities/conda_tools.py:313-318 | Under either naming, the loop over Dockerfiles computes the fold `BuildFrom` from the empty map; with `AsWritten` that is the code as written. |
| ScanCases.ExampleLines | maintenance_utilities/conda_tools.py:233-240 | The lines `RUN conda install numpy`, `COPY vis.yml /e/vis.yml`, `RUN conda create -n vis python` and `RUN conda env update --file /e/vis.yml` give the tokens the example needs; `-n` reaches the scanner as `--name`. |
| ScanCases.FourLines | maintenance_utilities/conda_tools.py:198-311 | Scanned from an empty map under either naming, the four lines give `Expected(naming)`: base with [numpy], "vis" with a fresh [python] solver whose prefix the naming decides, and then the update's merge of [scipy] stored under that prefix. |
| ScanCases.AsWrittenScanOverwritesBase | maintenance_utilities/conda_tools.py:262-290 | As written, the four lines end with "base" holding a solver for "base" with [python, scipy], replacing [numpy], and "vis" holding a solver for "base" with [python]. |
| ScanCases.CorrectedScanKeepsBase | maintenance_utilities/conda_tools.py:262-290 | With the corrected naming, the same lines keep "base" at [numpy] and give "vis" a solver for "vis" with [python, scipy]. |
| PackageAlignment.LineTokens | tests/test_package_alignment.py:60 | A cleaned line gives at least one token. |
| PackageAlignment.Args | tests/test_package_alignment.py:56-60 | Every raw line gives at least one token. |
| PackageAlignment.Classify | tests/test_package_alignment.py:62-71 | IndexError only for RUN lines shorter than 4 tokens. Non-RUN lines take no branch. An install command is the tokens after RUN, with "conda" and then "install" or "create". |
| PackageAlignment.Extend | tests/test_package_alignment.py:73-81 | Extending the shared token list rewrites only the pairs that share it, and keeps every pair's env. |
| PackageAlignment.Apply | tests/test_package_alignment.py:62-85 | A branch adds at most one pair and removes none. |
| PackageAlignment.Step | tests/test_package_alignment.py:54-85 | A successful line adds at most one pair and removes none. |
| PackageAlignment.ScanLines | tests/test_package_alignment.py:54-85 | A scan adds at most one pair per line and removes none. |
| PackageAlignment.CondaSpecs | tests/test_package_alignment.py:45-87 | A Dockerfile gives at most one pair per line. |
| PackageAlignment.ApplyAppends | tests/test_package_alignment.py:62-85 | A line appends at most one pair, for the env active when it is read. It rewrites only pairs that share the extended list, and keeps the sharing consistent. |
| PackageAlignment.StepAppends | tests/test_package_alignment.py:54-85 | The same, for a raw line. |
| PackageAlignment.ScanGrows | tests/test_package_alignment.py:54-87 | The list of pairs never shrinks. |
| PackageAlignment.ActivateSwitches | tests/test_package_alignment.py:62-66 | An activate line switches the env and changes nothing else. |
| PackageAlignment.InstallEmits | tests/test_package_alignment.py:68-78 | A complete install line appends one pair: the active env, and the tokens after RUN. |
| PackageAlignment.ScanAppend | tests/test_package_alignment.py:54-58 | Scanning `a + b` is scanning `a`, then `b`. |
| PackageAlignment.GatherContinuation | tests/test_package_alignment.py:80-83 | Continuation lines of an open command only append their tokens. |
| PackageAlignment.ScanContinuation | tests/test_package_alignment.py:80-83 | A continuation line appends its tokens, and the scan goes on. |
| PackageAlignment.ContinuationStep | tests/test_package_alignment.py:80-83 | One continuation line appends its tokens. |
| PackageAlignment.ExtendNone | tests/test_package_alignment.py:81 | With no shared pair, extending rewrites nothing. |
| PackageAlignment.InstallOpens | tests/test_package_alignment.py:73-76 | A continued install line opens a command holding the tokens after RUN. |
| PackageAlignment.ContinuationCloses | tests/test_package_alignment.py:80-85 | The first line without a backslash closes the command and emits it. |
| PackageAlignment.ContinuationBlock | tests/test_package_alignment.py:68-85 | A continued install block emits exactly one pair: the env, and every line's tokens after RUN, joined. |
| PackageAlignment.GetCondaSpecs | tests/test_package_alignment.py:45-87 | The line loop computes exactly `CondaSpecs`. |
| PackageAlignment.ScanLine | tests/test_package_alignment.py:54-60 | The loop body computes one step. |
| PackageAlignment.TakeBranch | tests/test_package_alignment.py:62-85 | The branches compute the branch function. |
| PackageAlignment.GetPut | tests/test_package_alignment.py:116 | After `update({name: ver})` the name holds the new version, and every other name is unchanged. |
| PackageAlignment.PutLength | tests/test_package_alignment.py:116 | An update adds an entry exactly for a new name. |
| PackageAlignment.PackageToken | tests/test_package_alignment.py:113-115 | A package's name is the text before the first "=", and its version is the text between the first two "=" (None without one). |
| PackageAlignment.Fill | tests/test_package_alignment.py:100-116 | The token loop raises only StopIteration or AttributeError. |
| PackageAlignment.Defaults | tests/test_package_alignment.py:118-119 | The packages and existing keys are kept, and "name" and "channel" are present. |
| PackageAlignment.ParseCommand | tests/test_package_alignment.py:89-121 | IndexError exactly for an empty command. Invalid exactly when the first token is not "conda". The upgrade result exactly for a lone `conda[=ver]` install token, split at "=". A spec has "name" and "channel". |
| PackageAlignment.ParseCondaCreateCommand | tests/test_package_alignment.py:89-121 | The iterator loop computes exactly `ParseCommand`. |
| PackageAlignment.FillContents | tests/test_package_alignment.py:100-116 | Each package name holds the version of its last token. Each other key holds its last flag value. |
| PackageAlignment.ParsedSpec | tests/test_package_alignment.py:89-121 | The full result of a well-formed command: the package table, "name", "channel" and every other flag's last value. |
| PackageAlignment.FilledSpec | tests/test_package_alignment.py:98-121 | Once the loop succeeds, the result is its dictionary with defaults filled in. |
| PackageAlignment.WithDefaults | tests/test_package_alignment.py:118-119 | Defaults are used only when no flag set name or channel. |
| PackageAlignment.ShortFlagsExpand | tests/test_package_alignment.py:32-43 | `-n` and `--name` set "name". `-c` and `--channel` set "channel". |
| PackageAlignment.ExpandShort | tests/test_package_alignment.py:32-43 | Only a one-letter key is expanded, and it becomes a longer name. |
| PackageAlignment.CheckOne | tests/test_package_alignment.py:126-134 | One comparison fails only with AttributeError, TypeError or AssertionError. |
| PackageAlignment.CheckPairs | tests/test_package_alignment.py:126-134 | One base package against the paired entries fails only with AttributeError, TypeError or AssertionError, and never without pairs. |
| PackageAlignment.CheckEntries | tests/test_package_alignment.py:125-134 | A base table fails only with AttributeError, TypeError or AssertionError, and never without pairs. |
| PackageAlignment.AssertPairingMatch | tests/test_package_alignment.py:123-134 | The older assertion fails only with TypeError, KeyError("packages"), AttributeError or AssertionError. |
| PackageAlignment.CheckPairsMeaning | tests/test_package_alignment.py:126-134 | On readable pairs, a package fails exactly when some paired table lists it with a different version, and it fails with AssertionError. |
| PackageAlignment.CheckEntriesMeaning | tests/test_package_alignment.py:125-134 | The same over a whole base table. |
| PackageAlignment.AssertPairingMatchMeaning | tests/test_package_alignment.py:123-134 | On well-shaped inputs, the assertion passes exactly when no base package is misaligned with a paired table. A failure is AssertionError. |
| PackageAlignment.UpgradeIsSkipped | tests/test_package_alignment.py:127 | A paired upgrade entry, which has no "packages", never fails the check. |
| SolvedPairing.MismatchesOfMembers | tests/test_package_alignment.py:277-280 | A base package's reported mismatches are exactly the paired packages with its name and a different version. |
| SolvedPairing.FailuresMembers | tests/test_package_alignment.py:276-280 | A mismatch is reported exactly for a same-named pair with different versions. |
| SolvedPairing.FailuresAppend | tests/test_package_alignment.py:276-280 | Failures are reported base package by base package, in order. |
| SolvedPairing.CollectFailures | tests/test_package_alignment.py:275-280 | The nested loops compute exactly `Failures`. |
| SolvedPairing.AssertPairingMatch | tests/test_package_alignment.py:274-292 | ValueError exactly when some base and paired package conflict. Otherwise it succeeds. |
| AlignmentCases.SplitWsJoin | tests/test_package_alignment.py:60 | Splitting a space-joined line of whitespace-free words gives the words back. |
| AlignmentCases.PlainLine | tests/test_package_alignment.py:56-60 | A line of plain words is read as those words, and does not continue. |
| AlignmentCases.SingleInstall | tests/test_package_alignment.py:45-87 | A one-line Dockerfile with a plain install command yields exactly one pair, in "base". |
| AlignmentCases.WorkedCase | tests/test_package_alignment.py:45-121 | `RUN conda install -n base numpy=1.0 scipy` yields one pair in "base". Its tokens parse to name "base", channel "defaults" and packages numpy=1.0 and scipy=None, in that order. |
| Pin.MatchesIsEnvName | pin.py:24 | The regular expression `[a-zA-Z0-9]+$` under `re.match` accepts exactly ASCII letters and digits (at least one), followed by an optional final newline. |
| Pin.CheckEnvName | pin.py:24-25 | Passes exactly for names the check admits. Any other name raises AssertionError. |
| Pin.EnvNameExamples | pin.py:24-25 | "base" passes, and so does "base\n". "my-env", "base\n\n" and "" fail. |
| Pin.AddGroups | pin.py:46-50 | A provider map never loses providers. |
| Pin.AddDep | pin.py:44-52 | One export entry never loses providers. |
| Pin.SnapshotOf | pin.py:39-54 | The snapshot always has "conda". |
| Pin.ParseCondaDependencies | pin.py:39-54 | The loop over the export computes exactly `SnapshotOf`. |
| Pin.AddProviderMap | pin.py:46-50 | The loop over a provider map computes `AddGroups`. |
| Pin.UpdatePins | pin.py:49-50 | The loop over one provider's list stores each spec under its name. |
| Pin.AddAllLast | pin.py:49-52 | Later duplicates overwrite: a name maps to the last spec with that name, or keeps its old entry. |
| Pin.AddAllSelfKeyed | pin.py:50-52 | Adding specs keeps every table keyed by its specs' own names. |
| Pin.AddGroupsContents | pin.py:46-50 | The providers are the old ones plus those named. Each provider's table is its specs, added in order. |
| Pin.SnapshotContents | pin.py:43-54 | The snapshot's keys are "conda" plus every provider named. Each table is built from that provider's specs, in order. |
| Pin.SnapshotLastWins | pin.py:43-54 | A name is pinned exactly when some spec of the provider has it, and to the last such spec. |
| Pin.SnapshotSelfKeyed | pin.py:50-52 | Every table is keyed by its specs' names. |
| Pin.DeterminePinnedVersion | pin.py:57-79 | A URL-like dependency is returned unchanged. Any other dependency becomes the table's spec for its name when the table has one, and is returned unchanged when it has none. |
| Pin.PinKeepsName | pin.py:79 | Against a snapshot-built table, pinning keeps the package name. |
| Pin.PinnedIsFixed | pin.py:77-79 | Pinning an already pinned spec changes nothing. |
| Pin.PinBareAgainstExport | pin.py:39-79 | A bare non-URL dependency pinned against an export's snapshot becomes the export's last bare spec with the same name, and stays unchanged when the export has none. |
| Pin.HttpxIsNeverPinned | pin.py:77 | The URL test is a substring test, so "httpx" stays unpinned. |
| Pin.PinSpecs | pin.py:111-113 | A provider list keeps its length, and every position is pinned. |
| Pin.PinGroup | pin.py:110-113 | A provider list fails exactly when it is non-empty and its provider is missing from the snapshot, with KeyError of the provider. Otherwise it keeps its provider and its length. |
| Pin.PinGroups | pin.py:110-113 | A pinned provider map has as many lists as before. |
| Pin.PinDep | pin.py:109-116 | An entry keeps its kind. A bare string fails exactly when the snapshot has no "conda" table. |
| Pin.PinAll | pin.py:108-116 | A pinned dependency list has as many entries as before. |
| Pin.PinDependencies | pin.py:108-116 | The in-place rewrite of the array: succeeds exactly when `PinAll` does, and then holds its result. Otherwise it reports the same error. |
| Pin.PinEntry | pin.py:109-116 | One entry is rewritten as `PinDep` says. |
| Pin.PinProviderMap | pin.py:110-113 | The loop over a provider map computes `PinGroups`. |
| Pin.PinList | pin.py:111-113 | The loop over one provider's list computes `PinGroup`. |
| Pin.PinGroupsPointwise | pin.py:110-113 | A provider map fails exactly when a non-empty list's provider is missing from the snapshot. Otherwise every list is pinned in place. |
| Pin.PinAllPointwise | pin.py:108-116 | The rewrite fails exactly when some entry is unpinnable. Otherwise it keeps the length, each position and each kind, and pins every string. |
| Pin.PinDepPointwise | pin.py:109-116 | One entry fails exactly when it is unpinnable. Otherwise it is pinned in place. |
| Pin.PinGroupsIdempotent | pin.py:110-113 | Pinning a provider map twice gives the same result as once. |
| Pin.PinAllIdempotent | pin.py:108-116 | Pinning twice against a table keyed by its own names is pinning once. |
| Pin.PinTwiceAgainstExport | pin.py:39-116 | Pinning against an export's snapshot is idempotent. |
| Pin.GroupByEnv | pin.py:146-150 | Groups are listed in first-seen order. Each group holds that environment's files, in order. |
| Pin.FirstSeenCovers | pin.py:147-150 | An environment is listed exactly when some pair names it. |
| Pin.FirstSeenDistinct | pin.py:147-152 | No environment is listed twice. |
| Pin.EveryFileInOneGroup | pin.py:146-150 | The group sizes add up to the number of pairs, so every pair lands in exactly one group. |
| Pin.PinFile | pin.py:105-116 | Succeeds exactly when the file has `dependencies` and pinning them with `PinAll` succeeds. On success the new `dependencies` are `PinAll`'s result and every other key is kept. A file without `dependencies` raises KeyError, and `PinAll`'s KeyError for a missing provider propagates. |
| Pin.PinPaths | pin.py:157-159 | The files of one environment, in turn. No file appears or disappears, a dry run changes nothing, and a run without error found every listed file. What a non-dry run writes is stated by `PinPathsPins`. |
| Pin.VisitEnv | pin.py:152-159 | One environment: export, snapshot of the export's `dependencies` (`[]` when absent), then its files. No file appears or disappears, and a dry run changes nothing. What a non-dry run writes is stated by `VisitEnvPins`. |
| Pin.PinEnvs | pin.py:152-159 | The environments in turn, stopping at the first exception. No file appears or disappears, and a dry run changes nothing. What a non-dry run writes is stated by `PinEnvsPins`. |
| Pin.PinFilesRun | pin.py:129-159 | A whole run. No file appears or disappears, and a dry run changes nothing. What a successful non-dry run writes is stated by `PinFilesPins`. |
| Pin.ExportedVersions | pin.py:153-155 | The snapshot an environment's files are pinned against always has a "conda" table. |
| Pin.PinPathsPins | pin.py:157-159 | After a successful non-dry write-back, a path listed once holds its old file with `dependencies` pinned against the snapshot. A path not listed is unchanged. |
| Pin.VisitEnvPins | pin.py:152-159 | After a successful non-dry visit, the export succeeded. Each file the environment lists once is pinned against that export's snapshot, and files it does not list are unchanged. |
| Pin.PinEnvsUntouched | pin.py:152-159 | A successful run over environments that do not list a file leaves that file unchanged. |
| Pin.PinEnvsPins | pin.py:152-159 | A successful non-dry run over distinct environments pins a file that only `e` lists, and lists once, against `e`'s export. |
| Pin.MentionsNone | pin.py:146-150 | A file no pair names is in no environment's group. |
| Pin.MentionsOnce | pin.py:146-150 | A file named by exactly one pair `(p, e)` is in `e`'s group once and in no other group. |
| Pin.PinFilesPins | pin.py:129-159 | After a successful non-dry run, a file named by exactly one pair `(p, e)` holds its old contents with `dependencies` pinned against the export of `e`. This is what `pin_files` is for. |
| Pin.PinFiles | pin.py:129-159 | The grouping and the per-environment loops compute exactly `PinFilesRun`. |
| Pin.PinEnvironment | pin.py:153-159 | One environment's export, snapshot and file loop computes `VisitEnv`. |
| Pin.PinEnvFiles | pin.py:157-159 | The file loop computes `PinPaths`. |
| Pin.PinPathsFrame | pin.py:157-159 | Only the `dependencies` of the listed files change, and nothing changes in a dry run. |
| Pin.PinEnvsQueried | pin.py:152-153 | The queried environments are a prefix of the list, and all of them when nothing fails. |
| Pin.PinEnvsChecked | pin.py:24-25 | Every queried name passed the name check. |
| Pin.PinEnvsFiles | pin.py:152-159 | A run changes only the `dependencies` of listed files, and nothing in a dry run. |
| Pin.VisitEnvFrame | pin.py:152-159 | One environment changes only the `dependencies` of listed files. |
| Pin.PinFilesQueries | pin.py:146-153 | Environments are queried in first-seen order, each at most once, and all of them when nothing fails. |
| Pin.PinFilesChecksNames | pin.py:24-25 | Only names that pass the check are ever queried. |
| Pin.PinFilesFrame | pin.py:129-159 | `pin_files` changes only the `dependencies` of listed files, and nothing in a dry run. |
| Bump.ParseStamp | bump.py:15 | An accepted rest of line is exactly the text of a well-formed stamp. |
| Bump.MatchFrom | bump.py:15 | A match found with `pre` ending at p is a decomposition the pattern describes. |
| Bump.Search | bump.py:15 | The greedy search returns only real decompositions, with `pre` no longer than the bound. |
| Bump.MatchTag | bump.py:15 | `re.match` returns only decompositions the pattern describes. |
| Bump.StampMeaning | bump.py:15 | The stamp parser accepts exactly the grammar's texts, and splits them in the only way. |
| Bump.SearchFinds | bump.py:15 | The greedy search reaches the only possible end of `pre`. |
| Bump.SearchBelowEquals | bump.py:15 | No match has a `pre` shorter than the last "=". |
| Bump.MatchTagComplete | bump.py:15 | Every decomposition the pattern describes is the one `re.match` returns, so a match is unique. |
| Bump.ZeroPadExact | bump.py:35-36 | A number below 10^w is written in exactly w digits, which read back as the number. |
| Bump.DateTextRoundTrip | bump.py:17-20 | Today's date is written in the stamp's shape, and reads back as today. |
| Bump.NextCounter | bump.py:25-31 | The new counter is between 1 and 100, as the two-digit old counter plus one (or 1) always is. |
| Bump.BumpLine | bump.py:15-40 | A line without a stamp is kept. ValueError exactly when the stamp holds an impossible date. |
| Bump.BumpAll | bump.py:14-40 | A successful run has one line per input line. The only error is ValueError. |
| Bump.BumpLines | bump.py:14-40 | The loop computes exactly `BumpAll`. |
| Bump.BumpAllFailed | bump.py:17-18 | Once a line has failed, the file fails with the same error. |
| Bump.BumpAllMeaning | bump.py:14-40 | The file fails exactly when some line fails. Otherwise it has the same lines in the same order, each bumped on its own. |
| Bump.BumpRematches | bump.py:25-37 | A bumped line matches again, with `pre` and `post` kept, today's date, and the counter one more than before on the same day (1 otherwise). Both read back as written. |
| Bump.BumpTwice | bump.py:25-29 | Two bumps on the same day raise the counter by two. |
| Bump.OverflowFreezes | bump.py:15-36 | A counter of 99 on the same day becomes "100". The line then no longer matches, and later runs leave it unchanged. |
| Bump.ThreeDigitCounter | bump.py:15 | A three-digit counter does not match the two-digit pattern. |

## Left out

- Solver internals: a conda `Solver` is its constructor arguments. No solving, `solve_final_state` or package-index access is modelled.
- File and YAML I/O:
  - A Dockerfile is its list of lines.
  - An environment file is an `EnvFile` value looked up by path. A missing path is `FileNotFoundError`.
  - Round-trip YAML formatting, comments and non-string YAML values are not modelled.
- The `conda env export` subprocess is a parameter `exportEnv`. A non-empty stderr is an error that value returns.
- The wall clock is not modelled: `today` is a parameter of `Bump`. `bump.py` reads the clock once per matching line (bump.py:22), so a run that crosses midnight UTC can stamp different lines with different dates. The single `today` parameter cannot show this. The reading and writing of `.travis.yml` is not modelled either; the file is a list of lines and the result a list of lines.
- Pin.PinFilesPins: states the written file only for a file that exactly one pair names. A file named twice is pinned once per naming pair, and the lemma does not state that final value.
- `pin.py`'s click commands, and its dry-run printing, are not modelled. A dry run is modelled as leaving the files unchanged.
- Exception message texts are not modelled, only the exception kinds.
- `Text.Lower`, `Text.Upper`: case mapping is ASCII only. Python maps every Unicode letter.
- `Bump.ParseStamp`: `\d` and `\s` are read as ASCII digits and Python's whitespace code points. Non-ASCII Unicode digits, which Python's `\d` also accepts, are not modelled.
- `DockerfileScan.Dirname`, `DockerfileScan.PathJoin`: POSIX `os.path` only.
- `DockerfileScan.CondaSpecs` and the functions above it take a `Naming`: `AsWritten` merges with `CondaSolver.GetCondaSolverAsWritten`, which is the code as written, and `Corrected` with `CondaSolver.GetCondaSolver` (see Findings). The two give different maps, not only different names: `ScanCases.AsWrittenScanOverwritesBase` shows packages moving from one key to another. The lemmas that solvers stay under their prefixes (`DispatchExtends`, `EnvUpdateExtends`, `StepExtends`, `ApplyExtends`, `ScanExtends`, `CondaSpecsExtends`, `BuildExtends`) are stated for `Corrected` only, because they are false as written.
- `Pin.PinDependencies` leaves the entries before a failing one already rewritten, as the source does. The whole-run functions keep the file unchanged on failure, because the source only writes a file after its loop has finished.
- The test fixtures of `tests/test_package_alignment.py` (listing the Dockerfiles and opening them), its test functions, and `assert_conda_spec_validity` are not modelled.
- `tests/test_package_alignment.py` carries unresolved merge-conflict markers. The model takes both sides' helpers: the HEAD scanner, parser and assertion, and the dev `assert_pairing_match`. The dev fixture, which calls into `conda_tools.py` and a solver, is not modelled.
- The other scripts (`notebook/`, `worker/`, `update_helm_version.py`, `notebook_test.py`, `shared_resources/`) are not part of this model.

## Findings

| source | as written | input that shows it | evidently intended | confidence | as-written member | corrected member |
|---|---|---|---|---|---|---|
| maintenance_utilities/conda_tools.py:128-142 | The command path builds a dict with a `prefix` key. A fresh solver is then named `spec.get('name', 'base')`, so it is always "base". | `get_conda_solver(prefix='vis')` with no existing solver returns a solver for "base". | The fresh solver is named after the prefix it was asked for ("vis"). | not executed | CondaSolver.AsWrittenIgnoresPrefix | CondaSolver.GetCondaSolver |
| maintenance_utilities/conda_tools.py:262-290 | A command's fresh solver is stored under the env name but has prefix "base" (row above). A later `env update` stores its merge under `solver.prefix`, so under "base". | The lines `RUN conda install numpy`, `COPY vis.yml /e/vis.yml`, `RUN conda create -n vis python`, `RUN conda env update --file /e/vis.yml`, with vis.yml naming "vis" and listing scipy: base's [numpy] becomes [python, scipy]. | The update extends the "vis" solver and leaves "base" alone. | not executed | ScanCases.AsWrittenScanOverwritesBase | ScanCases.CorrectedScanKeepsBase |
