/**
 * The create/update lifecycle of `PipManaged` environments, as functions
 * from one state of the outside world to the next. The world is the set of
 * paths that exist, the contents of the `pip.ini` files written so far, and
 * the log of external commands run (conda, venv, pip), each logged with
 * whether it succeeded. Which commands fail is fixed in advance by the
 * world's `failing` set; a command that succeeds makes the interpreter it
 * was run to create exist, with every directory above it.
 *
 * The methods of module Envs are proved to do exactly what these functions
 * say; the lemmas here state what the lifecycle promises.
 */
module Lifecycle {
  import opened Wrappers
  import opened Paths
  import opened PipConfig
  import opened Layout

  /** The process-wide inputs: `ON_WINDOWS`, `config.ROOT`, `DEFAULT_PYTHON_VERSION`, `PIP_CONFIG`, and the package directory. */
  datatype Settings = Settings(
    onWindows: bool,
    envsRoot: Path,
    defaultVersion: string,
    pipConfig: Table,
    packageDir: Path)

  /**
   * The external commands the environments run, each standing for its whole
   * command line with the source's fixed flags:
   * `conda create -p <prefix> python=<version> -y --copy --no-shortcuts <extra>`,
   * `<python> -m venv --copies <target> <extra>` and
   * `<python> -m pip install -r <requirements>`.
   */
  datatype Command =
    | CondaCreate(prefix: Path, version: string, extra: seq<string>)
    | VenvCreate(python: Path, target: Path, extra: seq<string>)
    | PipInstall(python: Path, requirements: Path)

  datatype Entry = Entry(command: Command, succeeded: bool)

  /** A `pip.ini` file: a written configuration, or left empty because building it raised after the file was opened. */
  datatype IniFile = Written(config: Config) | Emptied

  /** The exceptions the operations raise. */
  datatype Error =
    | FileNotFound(path: Path)
    | CommandFailed(command: Command)
    | BadPipConfig(reason: BuildError)

  datatype Outcome = Done | Failed(error: Error)

  datatype World = World(paths: set<Path>, ini: map<Path, IniFile>, log: seq<Entry>, failing: set<Command>)

  /** The world after an operation and how the operation ended. */
  datatype Step = Step(world: World, outcome: Outcome)

  /** The conda env `Venv.run_create_cmd` builds for a venv: same project root and version. */
  function CondaOf(e: Env): Env {
    Env(Conda, e.projectRoot, e.version)
  }

  /**
   * `subprocess.run(..., check=True)`: one log entry for the command; it
   * succeeds exactly when it is not a failing one, and only then may it make
   * `creates` exist, with every directory above it. No `pip.ini` changes.
   */
  function Execute(w: World, cmd: Command, creates: Option<Path>): (r: Step)
    ensures Extends(w, r.world) && r.world.ini == w.ini
    ensures |r.world.log| == |w.log| + 1 && r.world.log[|w.log|] == Entry(cmd, r.outcome == Done)
    ensures r.outcome == Done <==> cmd !in w.failing
    ensures r.outcome.Failed? ==> r.outcome == Failed(CommandFailed(cmd)) && r.world.paths == w.paths
    ensures r.outcome == Done && creates.Some? ==> Ancestors(creates.value) <= r.world.paths
  {
    var ok := cmd !in w.failing;
    var paths := if ok && creates.Some? then w.paths + Ancestors(creates.value) else w.paths;
    Step(w.(paths := paths, log := w.log + [Entry(cmd, ok)]),
         if ok then Done else Failed(CommandFailed(cmd)))
  }

  /** What `add_pip_config` leaves in `pip.ini`. */
  function IniContent(s: Settings, e: Env): IniFile {
    match e.PipIniConfig(s.pipConfig)
    case Success(config) => Written(config)
    case Failure(_) => Emptied
  }

  /** How `add_pip_config` ends once the root exists. */
  function ConfigOutcome(s: Settings, e: Env): Outcome {
    match e.PipIniConfig(s.pipConfig)
    case Success(_) => Done
    case Failure(reason) => Failed(BadPipConfig(reason))
  }

  /**
   * `add_pip_config`: raises `FileNotFoundError` exactly when the root is
   * missing, and then changes nothing; otherwise `pip.ini` exists afterwards
   * and holds a configuration exactly when the call finishes. It runs no
   * command and touches no other `pip.ini`.
   */
  function AddPipConfig(s: Settings, e: Env, w: World): (r: Step)
    ensures r.world.log == w.log && Extends(w, r.world)
    ensures r.outcome == Failed(FileNotFound(e.Root())) <==> e.Root() !in w.paths
    ensures e.Root() !in w.paths ==> r.world == w
    ensures e.Root() in w.paths ==>
              && e.PipIni() in r.world.paths && e.PipIni() in r.world.ini
              && (r.outcome == Done <==> r.world.ini[e.PipIni()].Written?)
    ensures IniKeptExcept(w, r.world, {e.PipIni()})
  {
    if e.Root() !in w.paths then Step(w, Failed(FileNotFound(e.Root())))
    else Step(w.(paths := w.paths + {e.PipIni()}, ini := w.ini[e.PipIni() := IniContent(s, e)]),
              ConfigOutcome(s, e))
  }

  /** With its root in place, `add_pip_config` adds `pip.ini` with its content and ends as the configuration says. */
  lemma AddPipConfigWrites(s: Settings, e: Env, w: World)
    requires e.Root() in w.paths
    ensures AddPipConfig(s, e, w) ==
            Step(w.(paths := w.paths + {e.PipIni()}, ini := w.ini[e.PipIni() := IniContent(s, e)]), ConfigOutcome(s, e))
  {
  }

  /**
   * `create`: nothing at all if the interpreter exists; otherwise at least
   * one command is run. When it finishes the interpreter exists. Nothing is
   * ever removed.
   */
  function Create(s: Settings, e: Env, w: World, args: seq<string>): (r: Step)
    ensures Extends(w, r.world)
    ensures e.Python(s.onWindows) in w.paths ==> r == Step(w, Done)
    ensures e.Python(s.onWindows) !in w.paths ==> |r.world.log| > |w.log|
    ensures r.outcome == Done ==> e.Python(s.onWindows) in r.world.paths
    decreases Rank(e.kind), 1
  {
    AncestorsOf(e.Python(s.onWindows));
    if e.Python(s.onWindows) in w.paths then Step(w, Done)
    else
      var made := RunCreateCmd(s, e, w, args);
      if made.outcome.Failed? then made
      else AddPipConfig(s, e, made.world)
  }

  /**
   * `Conda.run_create_cmd` / `Venv.run_create_cmd`: always runs at least one
   * command; when it finishes, the last command run was this environment's
   * create command, it succeeded, and the interpreter with every directory
   * above it (for a venv, the conda interpreter too) exists. Nothing is ever
   * removed.
   */
  function RunCreateCmd(s: Settings, e: Env, w: World, args: seq<string>): (r: Step)
    ensures Extends(w, r.world)
    ensures |r.world.log| > |w.log|
    ensures r.outcome == Done ==>
              && Ancestors(e.Python(s.onWindows)) <= r.world.paths
              && (e.kind == Venv ==> CondaOf(e).Python(s.onWindows) in r.world.paths)
              && r.world.log[|r.world.log| - 1] ==
                   Entry(if e.kind == Conda then CondaCreate(e.Root(), e.version, args)
                         else VenvCreate(CondaOf(e).Python(s.onWindows), e.Root(), args), true)
    decreases Rank(e.kind), 0
  {
    AncestorsOf(e.Python(s.onWindows));
    match e.kind
    case Conda =>
      Execute(w, CondaCreate(e.Root(), e.version, args), Some(e.Python(s.onWindows)))
    case Venv =>
      var conda := CondaOf(e);
      var base := if conda.Python(s.onWindows) in w.paths then Step(w, Done)
                  else Create(s, conda, w, ["--no-default-packages"]);
      if base.outcome.Failed? then base
      else Execute(base.world, VenvCreate(conda.Python(s.onWindows), e.Root(), args), Some(e.Python(s.onWindows)))
  }

  /**
   * `run_update_cmd`: one `pip install` of the requirements with the
   * environment's own interpreter; no path or `pip.ini` changes.
   */
  function RunUpdateCmd(s: Settings, e: Env, w: World, requirements: Path): (r: Step)
    ensures r.world.paths == w.paths && r.world.ini == w.ini && r.world.failing == w.failing
    ensures r.world.log == w.log + [Entry(PipInstall(e.Python(s.onWindows), requirements), r.outcome == Done)]
  {
    Execute(w, PipInstall(e.Python(s.onWindows), requirements), None)
  }

  /**
   * `update`: it finishes only if the requirements file and the root exist
   * and `pip.ini` was written; it runs at most one command and removes
   * nothing.
   */
  function Update(s: Settings, e: Env, w: World, requirements: Option<Path>): (r: Step)
    ensures Extends(w, r.world)
    ensures |r.world.log| <= |w.log| + 1
    ensures r.outcome == Done ==>
              && (if requirements.Some? then requirements.value else e.Requirements(s.packageDir)) in w.paths
              && e.Root() in w.paths
              && IniContent(s, e).Written?
  {
    var req := if requirements.Some? then requirements.value else e.Requirements(s.packageDir);
    if req !in w.paths then Step(w, Failed(FileNotFound(req)))
    else
      var configured := AddPipConfig(s, e, w);
      if configured.outcome.Failed? then configured
      else RunUpdateCmd(s, e, configured.world, req)
  }

  /** Nothing is ever removed: paths, log entries and `pip.ini` files only accumulate. */
  predicate Extends(before: World, after: World) {
    && before.paths <= after.paths
    && before.log <= after.log
    && before.ini.Keys <= after.ini.Keys
    && after.failing == before.failing
  }

  /** `pip.ini` files other than those at `written` are untouched. */
  ghost predicate IniKeptExcept(before: World, after: World, written: set<Path>) {
    forall p :: p !in written ==>
      (p in after.ini <==> p in before.ini) && (p in before.ini ==> after.ini[p] == before.ini[p])
  }

  /** The existing paths form a tree: every directory above an existing path exists. */
  ghost predicate Consistent(w: World) {
    forall p, q :: p in w.paths && q in Ancestors(p) ==> q in w.paths
  }

  lemma ExecuteKeepsConsistent(w: World, cmd: Command, creates: Option<Path>)
    requires Consistent(w)
    ensures Consistent(Execute(w, cmd, creates).world)
  {
    var after := Execute(w, cmd, creates).world;
    forall p, q | p in after.paths && q in Ancestors(p) ensures q in after.paths {
      if p !in w.paths {
        AncestorsTransitive(creates.value, p);
      }
    }
  }

  lemma AddPipConfigKeepsConsistent(s: Settings, e: Env, w: World)
    requires Consistent(w)
    ensures Consistent(AddPipConfig(s, e, w).world)
  {
    if e.Root() in w.paths {
      var root, ini := e.Root(), e.PipIni();
      AddPipConfigWrites(s, e, w);
      assert ini == Join(root, "pip.ini");
      AncestorsOfJoin(root, "pip.ini");
      assert Ancestors(root) <= w.paths;
      ConsistentAdd(w, AddPipConfig(s, e, w).world, ini);
    }
  }

  /** Adding one path whose ancestors all exist keeps the paths a tree. */
  lemma ConsistentAdd(before: World, after: World, p: Path)
    requires Consistent(before) && after.paths == before.paths + {p}
    requires Ancestors(p) <= after.paths
    ensures Consistent(after)
  {
  }


  lemma {:induction false} CreateCmdKeepsConsistent(s: Settings, e: Env, w: World, args: seq<string>)
    requires Consistent(w)
    ensures Consistent(RunCreateCmd(s, e, w, args).world)
    decreases Rank(e.kind), 0
  {
    var conda := CondaOf(e);
    var py := e.Python(s.onWindows);
    if e.kind == Conda {
      ExecuteKeepsConsistent(w, CondaCreate(e.Root(), e.version, args), Some(py));
    } else if conda.Python(s.onWindows) in w.paths {
      ExecuteKeepsConsistent(w, VenvCreate(conda.Python(s.onWindows), e.Root(), args), Some(py));
    } else {
      var base := Create(s, conda, w, ["--no-default-packages"]);
      CreateKeepsConsistent(s, conda, w, ["--no-default-packages"]);
      if base.outcome.Done? {
        ExecuteKeepsConsistent(base.world, VenvCreate(conda.Python(s.onWindows), e.Root(), args), Some(py));
      }
    }
  }

  /** `create` keeps the existing paths a tree. */
  lemma {:induction false} CreateKeepsConsistent(s: Settings, e: Env, w: World, args: seq<string>)
    requires Consistent(w)
    ensures Consistent(Create(s, e, w, args).world)
    decreases Rank(e.kind), 1
  {
    if e.Python(s.onWindows) !in w.paths {
      CreateCmdKeepsConsistent(s, e, w, args);
      AddPipConfigKeepsConsistent(s, e, RunCreateCmd(s, e, w, args).world);
    }
  }

  /** `update` keeps the existing paths a tree. */
  lemma UpdateKeepsConsistent(s: Settings, e: Env, w: World, requirements: Option<Path>)
    requires Consistent(w)
    ensures Consistent(Update(s, e, w, requirements).world)
  {
    AddPipConfigKeepsConsistent(s, e, w);
    var req := if requirements.Some? then requirements.value else e.Requirements(s.packageDir);
    ExecuteKeepsConsistent(AddPipConfig(s, e, w).world, PipInstall(e.Python(s.onWindows), req), None);
  }

  /** The create command writes no `pip.ini` but, for a venv, its conda env's. */
  lemma {:induction false} CreateCmdWritesOnlyCondaConfig(s: Settings, e: Env, w: World, args: seq<string>)
    ensures IniKeptExcept(w, RunCreateCmd(s, e, w, args).world, {CondaOf(e).PipIni()})
    ensures e.kind == Conda ==> RunCreateCmd(s, e, w, args).world.ini == w.ini
    decreases Rank(e.kind), 0
  {
    var conda := CondaOf(e);
    if e.kind == Venv && conda.Python(s.onWindows) !in w.paths {
      CreateWritesOnlyOwnConfig(s, conda, w, ["--no-default-packages"]);
      assert {conda.PipIni(), CondaOf(conda).PipIni()} == {conda.PipIni()};
    }
  }

  /** `create` writes no `pip.ini` but its own and, for a venv, its conda env's. */
  lemma {:induction false} CreateWritesOnlyOwnConfig(s: Settings, e: Env, w: World, args: seq<string>)
    ensures IniKeptExcept(w, Create(s, e, w, args).world, {e.PipIni(), CondaOf(e).PipIni()})
    decreases Rank(e.kind), 1
  {
    CreateCmdWritesOnlyCondaConfig(s, e, w, args);
  }

  /** `create` is a no-op when the interpreter exists: no command, no write. */
  lemma CreateWhenPresent(s: Settings, e: Env, w: World, args: seq<string>)
    requires e.Python(s.onWindows) in w.paths
    ensures Create(s, e, w, args) == Step(w, Done)
  {
  }

  /**
   * A `create` that finishes leaves the interpreter in place and, if it had
   * to build the environment, a `pip.ini` holding the built configuration.
   */
  lemma {:induction false} CreateDoneMeansPresent(s: Settings, e: Env, w: World, args: seq<string>)
    ensures var r := Create(s, e, w, args);
            r.outcome == Done ==> e.Python(s.onWindows) in r.world.paths
    ensures var r := Create(s, e, w, args);
            r.outcome == Done && e.Python(s.onWindows) !in w.paths ==>
              e.Root() in r.world.paths && e.PipIniConfig(s.pipConfig).Success? &&
              e.PipIni() in r.world.ini && r.world.ini[e.PipIni()] == Written(e.PipIniConfig(s.pipConfig).value)
  {
    if e.Python(s.onWindows) !in w.paths && Create(s, e, w, args).outcome == Done {
      CreateDoneRanCmd(s, e, w, args);
      CreateDoneSteps(s, e, w, args);
    }
  }


  /** Creating twice runs no second command and writes nothing the second time. */
  lemma CreateIsIdempotent(s: Settings, e: Env, w: World, args: seq<string>, again: seq<string>)
    requires Create(s, e, w, args).outcome == Done
    ensures var r := Create(s, e, w, args);
            Create(s, e, r.world, again) == Step(r.world, Done)
  {
    CreateDoneMeansPresent(s, e, w, args);
  }

  /**
   * A conda `create` with no interpreter yet runs exactly
   * `conda create -p <root> python=<version> ... <args>`; on failure it
   * raises and writes no `pip.ini`, on success `add_pip_config` finds the
   * root and writes it.
   */
  lemma CondaCreateSteps(s: Settings, e: Env, w: World, args: seq<string>)
    requires e.kind == Conda && e.Python(s.onWindows) !in w.paths
    ensures var cmd := CondaCreate(e.Root(), e.version, args);
            var ok := cmd !in w.failing;
            var r := Create(s, e, w, args);
            && r.world.log == w.log + [Entry(cmd, ok)]
            && (!ok ==> r.outcome == Failed(CommandFailed(cmd)) && r.world.paths == w.paths && r.world.ini == w.ini)
            && (ok ==>
                  && r.outcome == ConfigOutcome(s, e)
                  && r.world.paths == w.paths + Ancestors(e.Python(s.onWindows)) + {e.PipIni()}
                  && r.world.ini == w.ini[e.PipIni() := IniContent(s, e)])
  {
    var cmd := CondaCreate(e.Root(), e.version, args);
    var made := RunCreateCmd(s, e, w, args);
    assert made == Execute(w, cmd, Some(e.Python(s.onWindows)));
    if cmd !in w.failing {
      InterpreterInRoot(e, s.onWindows);
      assert Create(s, e, w, args) == AddPipConfig(s, e, made.world);
    }
  }


  /**
   * With the conda interpreter in place, a venv `create` runs one command:
   * `<conda python> -m venv --copies <root> <args>`.
   */
  lemma VenvCreateWithConda(s: Settings, e: Env, w: World, args: seq<string>)
    requires e.kind == Venv && e.Python(s.onWindows) !in w.paths
    requires CondaOf(e).Python(s.onWindows) in w.paths
    ensures var venvCmd := VenvCreate(CondaOf(e).Python(s.onWindows), e.Root(), args);
            Create(s, e, w, args).world.log == w.log + [Entry(venvCmd, venvCmd !in w.failing)]
  {
  }

  /**
   * Without the conda interpreter, a venv `create` first runs the conda
   * create for the same project root and version with `--no-default-packages`.
   */
  lemma VenvCreateBuildsCondaFirst(s: Settings, e: Env, w: World, args: seq<string>)
    requires e.kind == Venv && e.Python(s.onWindows) !in w.paths
    requires CondaOf(e).Python(s.onWindows) !in w.paths
    ensures var r := Create(s, e, w, args);
            |r.world.log| > |w.log| &&
            r.world.log[|w.log|] == Entry(CondaCreate(CondaOf(e).Root(), e.version, ["--no-default-packages"]),
                                          r.world.log[|w.log|].succeeded)
  {
    var conda := CondaOf(e);
    var noDefaults: seq<string> := ["--no-default-packages"];
    CondaCreateSteps(s, conda, w, noDefaults);
    var base := Create(s, conda, w, noDefaults);
    var made := RunCreateCmd(s, e, w, args);
    var r := Create(s, e, w, args);
    assert base.world.log <= made.world.log;
    assert made.world.log == r.world.log;
    assert r.world.log[|w.log|] == base.world.log[|w.log|];
  }

  /** A venv `create` that finishes ran the venv command last, successfully, from an existing conda interpreter. */
  lemma VenvCreateDone(s: Settings, e: Env, w: World, args: seq<string>)
    requires e.kind == Venv && e.Python(s.onWindows) !in w.paths
    requires Create(s, e, w, args).outcome == Done
    ensures var r := Create(s, e, w, args);
            var venvCmd := VenvCreate(CondaOf(e).Python(s.onWindows), e.Root(), args);
            |r.world.log| > 0 && r.world.log[|r.world.log| - 1] == Entry(venvCmd, true)
            && CondaOf(e).Python(s.onWindows) in r.world.paths
  {
    CreateDoneRanCmd(s, e, w, args);
    CreateDoneSteps(s, e, w, args);
  }

  /**
   * A `create` that had to build the environment and whose create command
   * finished goes on to `add_pip_config` on the world the command left; the
   * root exists there, so the call ends as the configuration decides and
   * leaves `pip.ini` holding what was built, or emptied when building failed.
   */
  /** A `create` that had to build the environment and finished ran its create command to completion. */
  lemma CreateDoneRanCmd(s: Settings, e: Env, w: World, args: seq<string>)
    requires e.Python(s.onWindows) !in w.paths && Create(s, e, w, args).outcome == Done
    ensures RunCreateCmd(s, e, w, args).outcome == Done
  {
  }

  lemma CreateDoneSteps(s: Settings, e: Env, w: World, args: seq<string>)
    requires e.Python(s.onWindows) !in w.paths && RunCreateCmd(s, e, w, args).outcome == Done
    ensures Create(s, e, w, args) == AddPipConfig(s, e, RunCreateCmd(s, e, w, args).world)
    ensures e.Root() in RunCreateCmd(s, e, w, args).world.paths
    ensures Create(s, e, w, args).outcome == ConfigOutcome(s, e)
    ensures e.PipIni() in Create(s, e, w, args).world.ini
            && Create(s, e, w, args).world.ini[e.PipIni()] == IniContent(s, e)
  {
    InterpreterInRoot(e, s.onWindows);
  }



  /**
   * When building the conda env for a venv fails, a venv `create` raises that
   * same failure and runs no venv command; if it was the conda command that
   * failed, that command is the only one logged.
   */
  lemma VenvCreateCondaFails(s: Settings, e: Env, w: World, args: seq<string>)
    requires e.kind == Venv && e.Python(s.onWindows) !in w.paths
    requires CondaOf(e).Python(s.onWindows) !in w.paths
    requires Create(s, CondaOf(e), w, ["--no-default-packages"]).outcome.Failed?
    ensures Create(s, e, w, args) == Create(s, CondaOf(e), w, ["--no-default-packages"])
    ensures var condaCmd := CondaCreate(CondaOf(e).Root(), e.version, ["--no-default-packages"]);
            condaCmd in w.failing ==>
              Create(s, e, w, args) == Step(w.(log := w.log + [Entry(condaCmd, false)]), Failed(CommandFailed(condaCmd)))
  {
    var conda := CondaOf(e);
    var noDefaults: seq<string> := ["--no-default-packages"];
    assert RunCreateCmd(s, e, w, args) == Create(s, conda, w, noDefaults);
    CondaCreateSteps(s, conda, w, noDefaults);
  }

  /**
   * With the conda interpreter in place, a venv `create` whose venv command
   * fails raises that failure; the command is the only one logged and nothing
   * else changes.
   */
  lemma VenvCreateCmdFails(s: Settings, e: Env, w: World, args: seq<string>)
    requires e.kind == Venv && e.Python(s.onWindows) !in w.paths
    requires CondaOf(e).Python(s.onWindows) in w.paths
    requires VenvCreate(CondaOf(e).Python(s.onWindows), e.Root(), args) in w.failing
    ensures var venvCmd := VenvCreate(CondaOf(e).Python(s.onWindows), e.Root(), args);
            Create(s, e, w, args) == Step(w.(log := w.log + [Entry(venvCmd, false)]), Failed(CommandFailed(venvCmd)))
  {
  }

  /**
   * When the create command fails, `create` raises that failure and leaves
   * the environment's own `pip.ini` as it was.
   */
  lemma CreateFailureWritesNoConfig(s: Settings, e: Env, w: World, args: seq<string>)
    requires e.Python(s.onWindows) !in w.paths
    requires RunCreateCmd(s, e, w, args).outcome.Failed?
    ensures var r := Create(s, e, w, args);
            && r.outcome == RunCreateCmd(s, e, w, args).outcome
            && (e.PipIni() in r.world.ini <==> e.PipIni() in w.ini)
            && (e.PipIni() in w.ini ==> r.world.ini[e.PipIni()] == w.ini[e.PipIni()])
  {
    CreateCmdWritesOnlyCondaConfig(s, e, w, args);
    if e.kind == Venv {
      PipIniInRoot(e);
      assert e.PipIni() !in {CondaOf(e).PipIni()};
    }
  }

  /** `add_pip_config` refuses a missing root and otherwise overwrites `pip.ini` whatever it held. */
  lemma AddPipConfigOverwrites(s: Settings, e: Env, w: World, other: World)
    requires e.Root() in w.paths && e.Root() in other.paths
    ensures var r := AddPipConfig(s, e, w);
            r.world.ini[e.PipIni()] == AddPipConfig(s, e, other).world.ini[e.PipIni()]
            && r.world.ini - {e.PipIni()} == w.ini - {e.PipIni()}
            && r.world.log == w.log
            && (r.outcome == Done <==> r.world.ini[e.PipIni()].Written?)
            && (r.outcome == Done ==>
                  r.world.ini[e.PipIni()].config[GlobalSection][CacheDirOption] == AsPosix(e.PipCache()))
  {
  }

  /** Without its root, `add_pip_config` raises and changes nothing. */
  lemma AddPipConfigNeedsRoot(s: Settings, e: Env, w: World)
    requires e.Root() !in w.paths
    ensures AddPipConfig(s, e, w) == Step(w, Failed(FileNotFound(e.Root())))
  {
  }

  /**
   * `update` checks the requirements file before anything else; then
   * `add_pip_config` must find the root; only after `pip.ini` is written is
   * `<python> -m pip install -r <requirements>` run.
   */
  lemma UpdateSteps(s: Settings, e: Env, w: World, requirements: Option<Path>)
    ensures var req := if requirements.Some? then requirements.value else e.Requirements(s.packageDir);
            var r := Update(s, e, w, requirements);
            var install := PipInstall(e.Python(s.onWindows), req);
            && (req !in w.paths ==> r == Step(w, Failed(FileNotFound(req))))
            && (req in w.paths && e.Root() !in w.paths ==> r == Step(w, Failed(FileNotFound(e.Root()))))
            && (req in w.paths && e.Root() in w.paths ==>
                  && r.world.ini == w.ini[e.PipIni() := IniContent(s, e)]
                  && (ConfigOutcome(s, e).Failed? ==> r == Step(r.world, ConfigOutcome(s, e)) && r.world.log == w.log)
                  && (ConfigOutcome(s, e) == Done ==>
                        r.world.log == w.log + [Entry(install, install !in w.failing)]
                        && r.outcome == (if install in w.failing then Failed(CommandFailed(install)) else Done)))
  {
  }

  /**
   * Once `create` has finished, `update` with an existing requirements file
   * always gets past `add_pip_config`'s root check, and afterwards the
   * environment is still present, so a further `create` does nothing.
   */
  lemma UpdateAfterCreate(s: Settings, e: Env, w: World, args: seq<string>, requirements: Path)
    requires Consistent(w)
    requires Create(s, e, w, args).outcome == Done
    requires requirements in Create(s, e, w, args).world.paths
    ensures var made := Create(s, e, w, args).world;
            var r := Update(s, e, made, Some(requirements));
            && r.outcome != Failed(FileNotFound(e.Root()))
            && r.outcome != Failed(FileNotFound(requirements))
            && Create(s, e, r.world, args) == Step(r.world, Done)
  {
    CreateDoneMeansPresent(s, e, w, args);
    CreateKeepsConsistent(s, e, w, args);
    var made := Create(s, e, w, args).world;
    InterpreterInRoot(e, s.onWindows);
    assert e.Root() in made.paths;
  }
}
