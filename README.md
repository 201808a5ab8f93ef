# np_envs environments, modelled in Dafny

np_envs provisions Python environments for a project. Each environment has two
backends. One is a conda env. The other is a venv built from that conda env's
interpreter. The package writes a `pip.ini` into each backend so that pip
installs from both backends share one download cache. This project models
`src/np_envs/env.py`:

- **Path derivation** (`paths.dfy`, `versions.dfy`, `layout.dfy`). The version
  segment is `version.split('.*')[0]`. On top of it sit the `conda` and `.venv`
  roots, the interpreter for each platform, `pip.ini`, the shared `pip_cache`
  and the default requirements file. Joining follows POSIX `pathlib`: empty and
  `.` components are dropped, and a string that starts with `/` replaces the
  path.
- **The pip configuration** (`pip_config.dfy`). The `PIP_CONFIG` entry for the
  environment's name is loaded into nested maps, and then `global.cache-dir` is
  forced to the cache path.
- **The create/update lifecycle** (`lifecycle.dfy`, `envs.dfy`). Module
  `Lifecycle` gives each operation as a function over a `World`, which holds:
  - the paths that exist;
  - the `pip.ini` files written so far;
  - the log of external commands run, each with its success or failure;
  - the commands that fail.

  Module `Envs` holds the imperative classes: `FileSystem`, `PipManaged` (the
  `Conda` and `Venv` classes, told apart by a backend tag) and `EnvPath`, which
  builds and caches its `Conda` and `Venv` objects lazily. Each method is
  proved to produce exactly the world and outcome that its `Lifecycle`
  function gives. The lemmas in `Lifecycle` state what the lifecycle promises.

Three behaviours of the code are easy to miss, and the model follows the code
in each:
- `pip_ini_config` does not merge `PIP_CONFIG['default']`. That entry is only
  passed as `read_dict`'s `source` label. It is still evaluated, so a table
  without a `default` entry raises `KeyError`.
- The cache is `root.parent / 'pip_cache'`. That places it in the version
  directory, so there is one cache per project and version, not one per
  project.
- `add_pip_config` opens `pip.ini` for writing before it builds the
  configuration. When building fails, the file is left empty (`Emptied`).

## Model

| member | source | states |
|---|---|---|
| Versions.Segment | src/np_envs/env.py:43-45 | The segment is a prefix of the version with no `.*` in it. Where it stops short of the end, a `.*` begins there, so it is the text before the first `.*`. |
| Versions.SegmentIsVersionIff | src/np_envs/env.py:45 | The segment equals the version exactly when the version contains no `.*`. |
| Versions.SegmentCutsAtWildcard | src/np_envs/env.py:45 | Everything from a `.*` on is dropped: `v + ".*" + rest` has the same segment as `v`. |
| Versions.WildcardPatchVersion | src/np_envs/env.py:28-29 | `3.8.*` and `3.8` both give the directory `3.8`. |
| Paths.Join | src/np_envs/env.py:45 | `p / s` with `s` starting with `/` gives an absolute path; otherwise it keeps `p`'s anchor and extends `p`'s components. Joining onto a well-formed path gives a well-formed path. |
| Paths.Parent | src/np_envs/env.py:72 | `p.parent` has the same anchor and drops exactly the last component; a path with no component is its own parent. |
| Paths.Name | src/np_envs/env.py:40-41 | `p.name` put back under `p.parent` gives `p`. For a well-formed path it is empty exactly when there is no component, and it never holds a `/`. |
| Paths.AsPosix | src/np_envs/env.py:81 | `as_posix()` of a well-formed path is never empty and starts with `/` exactly when the path is absolute. |
| Paths.JoinComponent | src/np_envs/env.py:45 | Joining a plain component appends it; the result's parent is the original path and its name is the component. |
| Paths.AsPosixRoundTrip | src/np_envs/env.py:81 | `as_posix()` loses nothing: parsing the text back gives the same path (absolute), or the same components appended (relative). |
| PipConfig.Build | src/np_envs/env.py:74-82 | Fails exactly when `default`, the name's entry or its `global` section is missing. Each case gives its own error, checked in that order (`NoDefaultEntry`, `NoEntry`, `NoGlobalSection`). On success: the same sections as the entry, `global.cache-dir` set to the cache text, every other `global` option and every other section kept. |
| PipConfig.DefaultEntryNotMerged | src/np_envs/env.py:77-80 | Replacing the `default` entry never changes the configuration built for another name. |
| PipConfig.RebuildIsStable | src/np_envs/env.py:81 | Forcing `cache-dir` a second time changes nothing. |
| PipConfig.ExtraIndexKept | src/np_envs/env.py:74-82 | An entry `{global: {extra-index-url: https://x}}` yields `global` holding that URL and `cache-dir`. |
| Layout.Env.Name | src/np_envs/env.py:39-41 | For a well-formed project root with a component, the name is a component, and joining it back onto the root's parent gives the project root; it never holds a `/`. |
| Layout.Env.VersionDir | src/np_envs/env.py:43-45 | When the version segment is a usable folder name, the version directory is the project root with that one folder added. |
| Layout.Env.Root | src/np_envs/env.py:110-129 | The root is the version directory with `conda` (conda) or `.venv` (venv) added. |
| Layout.Env.Python | src/np_envs/env.py:114-133 | The interpreter is the root followed by `python.exe` (conda on Windows), `Scripts/python.exe` (venv on Windows) or `bin/python` (elsewhere). |
| Layout.Env.PipIni | src/np_envs/env.py:66-68 | `pip.ini` is the root with the file `pip.ini` added. |
| Layout.Env.PipCache | src/np_envs/env.py:70-72 | `pip_cache` is the version directory (the root's parent) with the folder `pip_cache` added. |
| Layout.Env.Requirements | src/np_envs/env.py:92-94 | When the name holds no `/`, the default requirements file is the package directory followed by `requirements/<name>.requirements.txt`. |
| Layout.Env.PipIniConfig | src/np_envs/env.py:74-82 | The configuration is built exactly when `PIP_CONFIG` has a `default` entry, an entry for the name, and that entry a `global` section; then `global.cache-dir` is the cache path in POSIX form. |
| Layout.ProjectRoot | src/np_envs/env.py:157-158 | For a plain name, the environment's folder lies directly in `ROOT` and is named after the environment. Joining keeps `ROOT` well formed. |
| Layout.RootInVersionDir | src/np_envs/env.py:110-129 | Each root's parent is the version directory, and its name is `conda` (conda) or `.venv` (venv). |
| Layout.SharedPipCache | src/np_envs/env.py:70-72 | The conda env and the venv with the same project root and version have the same `pip_cache`, `<project>/<segment>/pip_cache`, and it is neither root. |
| Layout.PipIniInRoot | src/np_envs/env.py:66-68 | `pip.ini`'s parent is the root and its name is `pip.ini`, so the conda and venv config files differ. |
| Layout.InterpreterInRoot | src/np_envs/env.py:114-133 | The root and the interpreter itself are among the interpreter's ancestors, and the interpreter is not `pip.ini`. |
| Layout.WildcardSharesLayout | src/np_envs/env.py:43-45 | A version and that version followed by `.*…` give the same root, interpreter, `pip.ini` and cache. |
| Layout.DefaultRequirementsPath | src/np_envs/env.py:92-94 | For a well-formed project root, the default requirements file is `<package>/requirements/<name>.requirements.txt`, joined component by component. |
| Layout.ExampleLayout | src/np_envs/env.py:157-161 | `proj` under `/envs` at `3.8.*` has roots `/envs/proj/3.8/conda` and `/envs/proj/3.8/.venv`, and both have the cache `/envs/proj/3.8/pip_cache`. |
| Lifecycle.Execute | src/np_envs/env.py:104-105 | Running a command logs exactly one entry, that command with its outcome. It succeeds exactly when the command is not a failing one. On failure it raises `CommandFailed` and adds no path. On success the created interpreter and every directory above it exist. No `pip.ini` changes and nothing is removed. |
| Lifecycle.AddPipConfig | src/np_envs/env.py:84-90 | Raises `FileNotFound(root)` exactly when the root is missing, and then changes nothing. Otherwise `pip.ini` exists afterwards and holds a configuration exactly when the call returns normally. No command is run, no other `pip.ini` changes, and nothing is removed. |
| Lifecycle.Create | src/np_envs/env.py:56-61 | With the interpreter present, nothing happens. Otherwise at least one command is run. A `create` that returns normally leaves the interpreter in place. Nothing is ever removed, and which commands fail never changes. |
| Lifecycle.RunCreateCmd | src/np_envs/env.py:118-144 | At least one command is run. When the call returns normally, the last command logged is the environment's own create command (`conda create` for conda, `-m venv` from the conda interpreter for a venv), and it succeeded. The interpreter and every directory above it then exist, and for a venv the conda interpreter exists too. Nothing is removed. |
| Lifecycle.RunUpdateCmd | src/np_envs/env.py:104-105 | Exactly one `pip install` of the requirements with the environment's own interpreter is logged, with its outcome. No path and no `pip.ini` changes. |
| Lifecycle.Update | src/np_envs/env.py:96-102 | `update` returns normally only if the requirements file and the root exist and a configuration was written. It runs at most one command and removes nothing. |
| Lifecycle.AddPipConfigKeepsConsistent | src/np_envs/env.py:84-90 | Writing `pip.ini` keeps the existing paths a tree: every directory above an existing path exists. |
| Lifecycle.CreateCmdKeepsConsistent | src/np_envs/env.py:118-144 | The create commands keep the existing paths a tree. |
| Lifecycle.CreateKeepsConsistent | src/np_envs/env.py:56-61 | `create` keeps the existing paths a tree. |
| Lifecycle.UpdateKeepsConsistent | src/np_envs/env.py:96-102 | `update` keeps the existing paths a tree. |
| Lifecycle.CreateCmdWritesOnlyCondaConfig | src/np_envs/env.py:135-144 | The conda create command writes no `pip.ini`. The venv create command writes none except the conda env's. |
| Lifecycle.CreateWritesOnlyOwnConfig | src/np_envs/env.py:56-61 | `create` writes no `pip.ini` except its own and, for a venv, its conda env's. |
| Lifecycle.CreateWhenPresent | src/np_envs/env.py:56-59 | When the interpreter exists, `create` runs nothing, writes nothing and returns normally. |
| Lifecycle.CreateDoneMeansPresent | src/np_envs/env.py:56-61 | A `create` that returns normally leaves the interpreter in place. If it had to build the env, the root exists and `pip.ini` holds the built configuration. |
| Lifecycle.CreateIsIdempotent | src/np_envs/env.py:56-61 | After a `create` that returned normally, a second `create` runs no command and changes nothing. |
| Lifecycle.CondaCreateSteps | src/np_envs/env.py:118-122 | A conda `create` logs one `conda create` command, for its root, version and arguments. On failure it raises `CommandFailed` with no path added and no config written. On success it adds the interpreter and its directories, and then writes `pip.ini` with the built configuration. |
| Lifecycle.VenvCreateWithConda | src/np_envs/env.py:135-144 | A venv `create` whose conda interpreter exists logs exactly one command, `-m venv` from the conda interpreter into the venv root with the arguments, with its outcome. |
| Lifecycle.VenvCreateBuildsCondaFirst | src/np_envs/env.py:138-140 | A venv `create` whose conda interpreter is missing first runs the conda create for the same project root and version, with `--no-default-packages`. |
| Lifecycle.CreateDoneRanCmd | src/np_envs/env.py:56-60 | A `create` that had to build the environment and returned normally ran its create command to completion. |
| Lifecycle.CreateDoneSteps | src/np_envs/env.py:56-61 | When the interpreter is missing and the create command finishes, `create` is `add_pip_config` on the world the command left; the root exists there, so `create` ends exactly as the configuration decides (normally, or `BadPipConfig` for conda and venv alike) and `pip.ini` holds the built configuration, or is emptied when building failed. |
| Lifecycle.VenvCreateDone | src/np_envs/env.py:135-144 | A venv `create` that returns normally ran the venv command last, and it succeeded. The conda interpreter it copied exists. |
| Lifecycle.VenvCreateCondaFails | src/np_envs/env.py:138-140 | When building the conda env fails, the venv `create` raises that same failure and runs no venv command. If the conda command failed, it is the only entry logged and nothing else changes. |
| Lifecycle.VenvCreateCmdFails | src/np_envs/env.py:141-144 | With the conda interpreter present and a failing venv command, the venv `create` raises `CommandFailed` for that command. It is the only entry logged and nothing else changes. |
| Lifecycle.CreateFailureWritesNoConfig | src/np_envs/env.py:60-61 | When the create command fails, `create` raises that failure and leaves the environment's own `pip.ini` as it was. |
| Lifecycle.AddPipConfigOverwrites | src/np_envs/env.py:84-90 | With the root present, `pip.ini` ends up with the same content whatever it held before. No other `pip.ini` and no log entry change. The call succeeds exactly when a configuration was written, and then `global.cache-dir` is the cache path in POSIX form. |
| Lifecycle.AddPipConfigNeedsRoot | src/np_envs/env.py:85-86 | Without the root, `add_pip_config` raises `FileNotFound(root)` and changes nothing. |
| Lifecycle.UpdateSteps | src/np_envs/env.py:96-105 | A missing requirements file raises `FileNotFound` before anything is written or run. A missing root raises `FileNotFound(root)` with nothing run. Otherwise `pip.ini` is rewritten. Only when that succeeds is the `pip install` of the requirements logged, with its outcome. |
| Lifecycle.UpdateAfterCreate | src/np_envs/env.py:96-102 | In a world where every directory above an existing path exists: after a `create` that returned normally, `update` with an existing requirements file never raises `FileNotFound`, and a later `create` is still a no-op. |
| Envs.FileSystem.Run | src/np_envs/env.py:104-105 | Running a command appends it to the log with its outcome. On success it adds the created interpreter and its directories. |
| Envs.FileSystem.Write | src/np_envs/env.py:89-90 | Writing a file makes it exist with exactly the new content. |
| Envs.PipManaged.constructor | src/np_envs/env.py:31-34 | An environment object holds its backend, project root and version. |
| Envs.PipManaged.AddPipConfig | src/np_envs/env.py:84-90 | Produces the world and outcome `Lifecycle.AddPipConfig` gives: the file is opened (and emptied) first, and the built configuration is written after. |
| Envs.PipManaged.Create | src/np_envs/env.py:56-61 | Produces the world and outcome `Lifecycle.Create` gives. |
| Envs.PipManaged.RunCreateCmd | src/np_envs/env.py:118-144 | Produces the world and outcome `Lifecycle.RunCreateCmd` gives, building a fresh sibling `Conda` for a venv. |
| Envs.PipManaged.RunUpdateCmd | src/np_envs/env.py:104-105 | Runs `<python> -m pip install -r <requirements>`, as `Lifecycle.RunUpdateCmd` gives. |
| Envs.PipManaged.Update | src/np_envs/env.py:96-102 | Produces the world and outcome `Lifecycle.Update` gives. |
| Envs.EnvPath.constructor | src/np_envs/env.py:157-165 | The environment lives at `ROOT / name`, with the given version or the default, and nothing cached yet. |
| Envs.EnvPath.CondaEnv | src/np_envs/env.py:174-178 | Returns a fresh `Conda` for this path and version on first access, and the same cached object on every later access. |
| Envs.EnvPath.VenvEnv | src/np_envs/env.py:180-184 | Returns a fresh `Venv` on first access, and the same cached object on every later access. |
| Envs.EnvPath.Python | src/np_envs/env.py:170-172 | Returns the venv interpreter when it exists, else the conda interpreter without checking that it exists. Builds the venv object always, and the conda object only when it is needed. |

## Left out

- Output: the `print` messages (the "already exists" note in `create`, the advisory in `EnvPath.__new__`), `__repr__` and the doctest `__main__` block are not modelled.
- Path normalisation: `np_config.normalize_path` is taken to be the identity.
- Platform: `sys.platform` becomes the `onWindows` setting, which only chooses the interpreter layout. Windows path parsing (backslashes, drive letters) and POSIX's special `//` root are not modelled.
- External commands: conda, venv and pip are opaque. Whether a command fails is fixed in advance by the world's `failing` set. A successful create command makes its interpreter and the directories above it exist. A failed command leaves no paths behind, so partly populated directories are not modelled. What pip install does is not modelled.
- Command text: a `Command` value stands for its whole command line. The text itself is not modelled: neither the fixed flags (`-y --copy --no-shortcuts`, `--copies`, `-r`), the `str()` rendering of paths, nor the `" ".join` of the extra arguments.
- Off Windows every command fails differently from the model. Each command is passed to `subprocess.run` as a single string, without `shell=True` (env.py:105, 119-122, 141-144). On POSIX, Python then looks for a program whose name is the whole string. None exists, so each call raises `FileNotFoundError` instead of `CalledProcessError`. The model's `CommandFailed` and its successful creates only describe Windows, where the string is handed to the system as a command line.
- Keyword arguments are not modelled. `update` passes its `**kwargs` to `run_update_cmd`, which accepts none, so any keyword makes `update` raise `TypeError` after `pip.ini` has been rewritten (env.py:96, 102, 104). `create` passes its `**kwargs` to `run_create_cmd`, which ignores them (env.py:60, 118, 135).
- configparser: option names are not lowercased, values are not passed through `str()`, the special `DEFAULT` section is treated as an ordinary section, the interpolation check that makes a stray `%` in a value raise is not modelled, and the file's text format is not modelled (a written file holds the nested map).
- The `mkdir` of `pip.ini`'s parent in `add_pip_config` is not modelled. `pip.ini`'s parent is the root, which has just been checked to exist (`Layout.PipIniInRoot`), so the branch never runs.
- The abstract base classes' `NotImplementedError` methods are not modelled, because only `Conda` and `Venv` are ever used.
- `pathlib` subclassing of `EnvPath` is not modelled: an `EnvPath` is a plain path, version and settings.
- Configuration constants: `config.ROOT`, `DEFAULT_PYTHON_VERSION`, `PIP_CONFIG` and the package directory are inputs (`Settings`).
- Concurrency: overlapping operations on one environment are not modelled.
- `EnvPython.__init__` falls back to `DEFAULT_PYTHON_VERSION` when no version is passed; every caller in the file passes one, so `PipManaged.constructor` takes the version as given.
