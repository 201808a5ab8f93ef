/**
 * The environment objects as they run: `Conda` and `Venv` (one class,
 * `PipManaged`, tagged with its backend) acting on a `FileSystem`, and
 * `EnvPath`, which builds them lazily and caches them. Every operation is
 * proved to do exactly what module Lifecycle says.
 */
module Envs {
  import opened Wrappers
  import opened Paths
  import opened Layout
  import opened Lifecycle

  /** The outside world: existing paths, `pip.ini` contents, and the commands run so far. */
  class FileSystem {
    var paths: set<Path>
    var ini: map<Path, IniFile>
    var log: seq<Entry>
    /** The commands that exit with a non-zero status. */
    const failing: set<Command>

    function State(): World
      reads this
    {
      World(paths, ini, log, failing)
    }

    constructor(existing: set<Path>, failing: set<Command>)
      ensures State() == World(existing, map[], [], failing)
    {
      paths := existing;
      ini := map[];
      log := [];
      this.failing := failing;
    }

    /** Run an external command and wait for it; on success it makes `creates` exist. */
    method Run(cmd: Command, creates: Option<Path>) returns (ok: bool)
      modifies this
      ensures ok == (cmd !in failing)
      ensures State() == Execute(old(State()), cmd, creates).world
    {
      ok := cmd !in failing;
      if ok && creates.Some? {
        paths := paths + Ancestors(creates.value);
      }
      log := log + [Entry(cmd, ok)];
    }

    /** Open `file` for writing and leave `content` in it. */
    method Write(file: Path, content: IniFile)
      modifies this
      ensures State() == old(State()).(paths := old(paths) + {file}, ini := old(ini)[file := content])
    {
      paths := paths + {file};
      ini := ini[file := content];
    }
  }

  /** A `Conda` or a `Venv` environment. */
  class PipManaged {
    const env: Env
    const settings: Settings

    constructor(kind: Backend, projectRoot: Path, version: string, settings: Settings)
      ensures env == Env(kind, projectRoot, version) && this.settings == settings
    {
      env := Env(kind, projectRoot, version);
      this.settings := settings;
    }

    /** `add_pip_config`. */
    method AddPipConfig(fs: FileSystem) returns (outcome: Outcome)
      modifies fs
      ensures Step(fs.State(), outcome) == Lifecycle.AddPipConfig(settings, env, old(fs.State()))
    {
      var root := env.Root();
      if root !in fs.paths {
        return Failed(FileNotFound(root));
      }
      ghost var before := fs.State();
      // The file is opened, and so emptied, before the configuration is built.
      var file := env.PipIni();
      fs.Write(file, Emptied);
      var built := env.PipIniConfig(settings.pipConfig);
      if built.Success? {
        fs.Write(file, Written(built.value));
        outcome := Done;
        RewriteOverwrites(before, file, Emptied, Written(built.value));
        assert IniContent(settings, env) == Written(built.value);
      } else {
        outcome := Failed(BadPipConfig(built.error));
        assert IniContent(settings, env) == Emptied;
      }
      assert fs.State() == before.(paths := before.paths + {file}, ini := before.ini[file := IniContent(settings, env)]);
      AddPipConfigWrites(settings, env, before);
    }

    /** `create`. */
    method Create(fs: FileSystem, args: seq<string>) returns (outcome: Outcome)
      modifies fs
      ensures Step(fs.State(), outcome) == Lifecycle.Create(settings, env, old(fs.State()), args)
      decreases Rank(env.kind), 1
    {
      if env.Python(settings.onWindows) in fs.paths {
        return Done;
      }
      outcome := RunCreateCmd(fs, args);
      if outcome.Failed? {
        return;
      }
      outcome := AddPipConfig(fs);
    }

    /** `Conda.run_create_cmd` and `Venv.run_create_cmd`. */
    method RunCreateCmd(fs: FileSystem, args: seq<string>) returns (outcome: Outcome)
      modifies fs
      ensures Step(fs.State(), outcome) == Lifecycle.RunCreateCmd(settings, env, old(fs.State()), args)
      decreases Rank(env.kind), 0
    {
      match env.kind
      case Conda =>
        var cmd := CondaCreate(env.Root(), env.version, args);
        var ok := fs.Run(cmd, Some(env.Python(settings.onWindows)));
        outcome := if ok then Done else Failed(CommandFailed(cmd));
      case Venv =>
        // A venv needs an interpreter to copy: that of the conda env beside it.
        var conda := new PipManaged(Conda, env.projectRoot, env.version, settings);
        if conda.env.Python(settings.onWindows) !in fs.paths {
          outcome := conda.Create(fs, ["--no-default-packages"]);
          if outcome.Failed? {
            return;
          }
        }
        var cmd := VenvCreate(conda.env.Python(settings.onWindows), env.Root(), args);
        var ok := fs.Run(cmd, Some(env.Python(settings.onWindows)));
        outcome := if ok then Done else Failed(CommandFailed(cmd));
    }

    /** `run_update_cmd`. */
    method RunUpdateCmd(fs: FileSystem, requirements: Path) returns (outcome: Outcome)
      modifies fs
      ensures Step(fs.State(), outcome) == Lifecycle.RunUpdateCmd(settings, env, old(fs.State()), requirements)
    {
      var cmd := PipInstall(env.Python(settings.onWindows), requirements);
      var ok := fs.Run(cmd, None);
      outcome := if ok then Done else Failed(CommandFailed(cmd));
    }

    /** `update`, with the default requirements file when none is given. */
    method Update(fs: FileSystem, requirements: Option<Path>) returns (outcome: Outcome)
      modifies fs
      ensures Step(fs.State(), outcome) == Lifecycle.Update(settings, env, old(fs.State()), requirements)
    {
      var req := if requirements.Some? then requirements.value else env.Requirements(settings.packageDir);
      if req !in fs.paths {
        return Failed(FileNotFound(req));
      }
      outcome := AddPipConfig(fs);
      if outcome.Failed? {
        return;
      }
      outcome := RunUpdateCmd(fs, req);
    }
  }

  /** `EnvPath`: the environment named `envName`, with its `Conda` and `Venv` built on first use. */
  class EnvPath {
    const path: Path
    const version: string
    const settings: Settings
    /** `_conda` */
    var conda: PipManaged?
    /** `_venv` */
    var venv: PipManaged?

    /** A cached object always belongs to this environment, path and version. */
    ghost predicate Valid()
      reads this
    {
      && (conda != null ==> conda.env == Env(Conda, path, version) && conda.settings == settings)
      && (venv != null ==> venv.env == Env(Venv, path, version) && venv.settings == settings)
    }

    /** `EnvPath(envName, python_version=...)`: lives at `ROOT / envName`; nothing is built yet. */
    constructor(envName: string, pythonVersion: Option<string>, settings: Settings)
      ensures Valid()
      ensures path == ProjectRoot(settings.envsRoot, envName) && this.settings == settings
      ensures version == if pythonVersion.Some? then pythonVersion.value else settings.defaultVersion
      ensures conda == null && venv == null
    {
      path := ProjectRoot(settings.envsRoot, envName);
      version := if pythonVersion.Some? then pythonVersion.value else settings.defaultVersion;
      this.settings := settings;
      conda := null;
      venv := null;
    }

    /** `conda`: built on the first access, the same object on every later one. */
    method CondaEnv() returns (c: PipManaged)
      requires Valid()
      modifies this`conda
      ensures Valid() && conda == c
      ensures c.env == Env(Conda, path, version) && c.settings == settings
      ensures old(conda) != null ==> c == old(conda)
      ensures old(conda) == null ==> fresh(c)
    {
      if conda == null {
        conda := new PipManaged(Conda, path, version, settings);
      }
      c := conda;
    }

    /** `venv`: built on the first access, the same object on every later one. */
    method VenvEnv() returns (v: PipManaged)
      requires Valid()
      modifies this`venv
      ensures Valid() && venv == v
      ensures v.env == Env(Venv, path, version) && v.settings == settings
      ensures old(venv) != null ==> v == old(venv)
      ensures old(venv) == null ==> fresh(v)
    {
      if venv == null {
        venv := new PipManaged(Venv, path, version, settings);
      }
      v := venv;
    }

    /**
     * `python`: the venv's interpreter if it exists, else the conda env's,
     * whether or not that one exists. The conda object is only built when it
     * is needed.
     */
    method Python(fs: FileSystem) returns (p: Path)
      requires Valid()
      modifies this`conda, this`venv
      ensures Valid() && venv != null
      ensures var venvPython := Env(Venv, path, version).Python(settings.onWindows);
              var condaPython := Env(Conda, path, version).Python(settings.onWindows);
              && p == (if venvPython in fs.paths then venvPython else condaPython)
              && (old(venv) != null ==> venv == old(venv))
              && (old(venv) == null ==> fresh(venv))
              && (venvPython in fs.paths || old(conda) != null ==> conda == old(conda))
              && (venvPython !in fs.paths && old(conda) == null ==> conda != null && fresh(conda))
    {
      var v := VenvEnv();
      if v.env.Python(settings.onWindows) in fs.paths {
        p := v.env.Python(settings.onWindows);
      } else {
        var c := CondaEnv();
        p := c.env.Python(settings.onWindows);
      }
    }
  }

  /** Writing a file twice leaves only the second content. */
  lemma RewriteOverwrites(before: World, file: Path, first: IniFile, second: IniFile)
    ensures before.(paths := before.paths + {file}, ini := before.ini[file := first])
              .(paths := before.paths + {file} + {file}, ini := before.ini[file := first][file := second])
            == before.(paths := before.paths + {file}, ini := before.ini[file := second])
  {
    assert before.paths + {file} + {file} == before.paths + {file};
    assert before.ini[file := first][file := second] == before.ini[file := second];
  }
}
