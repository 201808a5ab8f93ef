/**
 * Where an environment lives on disk. `EnvPython.root` is the version
 * directory under the project root; `Conda` and `Venv` each put their own
 * root inside it, with the interpreter, `pip.ini` and the shared `pip_cache`
 * placed relative to that root.
 */
module Layout {
  import opened Wrappers
  import opened Paths
  import Versions
  import PipConfig

  /** The two concrete `PipManaged` classes. */
  datatype Backend = Conda | Venv

  /** A venv is built on a conda env, never the other way round. */
  function Rank(kind: Backend): nat {
    if kind == Venv then 1 else 0
  }

  /** A `Conda` or `Venv` object: its class, `project_root` and `version`. */
  datatype Env = Env(kind: Backend, projectRoot: Path, version: string) {

    /** `name`: the project root's own folder name, with no separator in it. */
    function Name(): (r: string)
      ensures WellFormed(projectRoot) && projectRoot.parts != [] ==> IsComponent(r)
      ensures WellFormed(projectRoot) ==> '/' !in r
      ensures WellFormed(projectRoot) && projectRoot.parts != [] ==> Join(Parent(projectRoot), r) == projectRoot
    {
      var r := Paths.Name(projectRoot);
      assert WellFormed(projectRoot) && projectRoot.parts != [] ==> Join(Parent(projectRoot), r) == projectRoot by {
        if WellFormed(projectRoot) && projectRoot.parts != [] {
          assert IsComponent(projectRoot.parts[|projectRoot.parts| - 1]);
          JoinComponent(Parent(projectRoot), r);
        }
      }
      r
    }

    /**
     * `EnvPython.root`: the project root with one more folder, named by the
     * version segment, whenever that segment is a usable folder name.
     */
    function VersionDir(): (r: Path)
      ensures IsComponent(Versions.Segment(version)) ==>
                r == Path(projectRoot.absolute, projectRoot.parts + [Versions.Segment(version)])
    {
      var seg := Versions.Segment(version);
      if IsComponent(seg) then
        JoinComponent(projectRoot, seg);
        Join(projectRoot, seg)
      else Join(projectRoot, seg)
    }

    /** `Conda.root` / `Venv.root`: the version directory with the backend's own folder added. */
    function Root(): (r: Path)
      ensures r == Path(VersionDir().absolute, VersionDir().parts + [RootName(kind)])
    {
      JoinComponent(VersionDir(), RootName(kind));
      Join(VersionDir(), RootName(kind))
    }

    /**
     * `python`: the interpreter file, `python` or `python.exe`, directly in
     * the root (conda on Windows) or one folder below it (`bin`, `Scripts`).
     */
    function Python(onWindows: bool): (r: Path)
      ensures r == Path(Root().absolute, Root().parts + InterpreterTail(kind, onWindows))
    {
      if !onWindows then
        InterpreterTwoDeep(Root(), "bin", "python");
        Join(Join(Root(), "bin"), "python")
      else if kind == Conda then
        JoinComponent(Root(), "python.exe");
        Join(Root(), "python.exe")
      else
        InterpreterTwoDeep(Root(), "Scripts", "python.exe");
        Join(Join(Root(), "Scripts"), "python.exe")
    }

    /** `pip_ini`: the file `pip.ini` directly in the root. */
    function PipIni(): (r: Path)
      ensures r == Path(Root().absolute, Root().parts + ["pip.ini"])
    {
      JoinComponent(Root(), "pip.ini");
      Join(Root(), "pip.ini")
    }

    /** `pip_cache`: the folder `pip_cache` beside the root, in the version directory. */
    function PipCache(): (r: Path)
      ensures r == Path(VersionDir().absolute, VersionDir().parts + ["pip_cache"])
    {
      assert Parent(Root()) == VersionDir();
      JoinComponent(Parent(Root()), "pip_cache");
      Join(Parent(Root()), "pip_cache")
    }

    /** `requirements`: the file `<name>.requirements.txt` in the package's `requirements` folder. */
    function Requirements(packageDir: Path): (r: Path)
      ensures '/' !in Name() ==>
                r == Path(packageDir.absolute, packageDir.parts + ["requirements", Name() + ".requirements.txt"])
    {
      var file := Name() + ".requirements.txt";
      if '/' !in Name() then
        RequirementsFileIsComponent(Name());
        JoinComponent(packageDir, "requirements");
        JoinComponent(Join(packageDir, "requirements"), file);
        assert packageDir.parts + ["requirements"] + [file] == packageDir.parts + ["requirements", file];
        Join(Join(packageDir, "requirements"), file)
      else Join(Join(packageDir, "requirements"), file)
    }

    /**
     * `pip_ini_config`: built exactly when `PIP_CONFIG` has a default entry,
     * an entry for this name, and that entry a `global` section; then
     * `cache-dir` is the cache's POSIX path.
     */
    function PipIniConfig(table: PipConfig.Table): (r: Result<PipConfig.Config, PipConfig.BuildError>)
      ensures r.Success? <==>
                PipConfig.DefaultEntry in table && Name() in table && PipConfig.GlobalSection in table[Name()]
      ensures r.Success? ==>
                && PipConfig.GlobalSection in r.value
                && PipConfig.CacheDirOption in r.value[PipConfig.GlobalSection]
                && r.value[PipConfig.GlobalSection][PipConfig.CacheDirOption] == AsPosix(PipCache())
    {
      PipConfig.Build(table, Name(), AsPosix(PipCache()))
    }
  }

  /** The folder name each backend uses inside the version directory. */
  function RootName(kind: Backend): string {
    if kind == Conda then "conda" else ".venv"
  }

  /** The interpreter's place below the root, per backend and platform. */
  function InterpreterTail(kind: Backend, onWindows: bool): seq<string> {
    if !onWindows then ["bin", "python"]
    else if kind == Conda then ["python.exe"]
    else ["Scripts", "python.exe"]
  }

  /**
   * `EnvPath.__new__`: an environment named `envName` lives in the folder of
   * that name directly in `ROOT`.
   */
  function ProjectRoot(envsRoot: Path, envName: string): (r: Path)
    ensures IsComponent(envName) ==> Parent(r) == envsRoot && Paths.Name(r) == envName
    ensures WellFormed(envsRoot) ==> WellFormed(r)
  {
    if IsComponent(envName) then
      JoinComponent(envsRoot, envName);
      Join(envsRoot, envName)
    else Join(envsRoot, envName)
  }

  /** Each backend's root is its own folder, `conda` or `.venv`, directly inside the version directory. */
  lemma RootInVersionDir(e: Env)
    ensures Parent(e.Root()) == e.VersionDir()
    ensures Paths.Name(e.Root()) == RootName(e.kind)
  {
    JoinComponent(e.VersionDir(), RootName(e.kind));
  }

  /**
   * The cache sits in the version directory, so a conda env and a venv with
   * the same project root and version share one `pip_cache`, distinct from
   * both roots.
   */
  lemma SharedPipCache(projectRoot: Path, version: string)
    ensures var conda := Env(Conda, projectRoot, version);
            var venv := Env(Venv, projectRoot, version);
            var dir := conda.VersionDir();
            && conda.PipCache() == venv.PipCache()
            && conda.PipCache() == Path(dir.absolute, dir.parts + ["pip_cache"])
            && conda.PipCache() != conda.Root() && conda.PipCache() != venv.Root()
  {
    var conda := Env(Conda, projectRoot, version);
    var venv := Env(Venv, projectRoot, version);
    RootInVersionDir(conda);
    RootInVersionDir(venv);
    JoinComponent(conda.VersionDir(), "pip_cache");
  }

  /** `pip.ini` lies directly in the root, so the two backends' files differ. */
  lemma PipIniInRoot(e: Env)
    ensures Parent(e.PipIni()) == e.Root() && Paths.Name(e.PipIni()) == "pip.ini"
    ensures Env(Conda, e.projectRoot, e.version).PipIni() != Env(Venv, e.projectRoot, e.version).PipIni()
  {
    JoinComponent(e.Root(), "pip.ini");
    var conda := Env(Conda, e.projectRoot, e.version);
    var venv := Env(Venv, e.projectRoot, e.version);
    assert Paths.Name(conda.Root()) != Paths.Name(venv.Root());
    assert Parent(conda.PipIni()) == conda.Root() && Parent(venv.PipIni()) == venv.Root();
  }

  lemma InterpreterTwoDeep(root: Path, dir: string, file: string)
    requires IsComponent(dir) && IsComponent(file)
    ensures Join(Join(root, dir), file) == Path(root.absolute, root.parts + [dir, file])
  {
    JoinComponent(root, dir);
    JoinComponent(Join(root, dir), file);
    assert root.parts + [dir] + [file] == root.parts + [dir, file];
  }

  /**
   * The interpreter sits below the root, so the root and the interpreter
   * are among its ancestors, and it is not `pip.ini`.
   */
  lemma InterpreterInRoot(e: Env, onWindows: bool)
    ensures e.Root() in Ancestors(e.Python(onWindows))
    ensures e.Python(onWindows) in Ancestors(e.Python(onWindows))
    ensures e.PipIni() != e.Python(onWindows)
  {
    var root := e.Root();
    var py := e.Python(onWindows);
    assert py.parts[..|root.parts|] == root.parts;
    AncestorsOf(py);
    assert py.parts[|root.parts|] != "pip.ini";
  }


  /**
   * Only the part of the version before its first `.*` matters: `3.8.*` and
   * `3.8` give the same root, interpreter, `pip.ini` and cache.
   */
  lemma WildcardSharesLayout(kind: Backend, projectRoot: Path, version: string, rest: string, onWindows: bool)
    ensures var exact := Env(kind, projectRoot, version);
            var wild := Env(kind, projectRoot, version + ".*" + rest);
            && wild.Root() == exact.Root()
            && wild.Python(onWindows) == exact.Python(onWindows)
            && wild.PipIni() == exact.PipIni()
            && wild.PipCache() == exact.PipCache()
  {
    Versions.SegmentCutsAtWildcard(version, rest);
  }

  /** The default requirements file is `requirements/<name>.requirements.txt`. */
  lemma DefaultRequirementsPath(e: Env, packageDir: Path)
    requires WellFormed(e.projectRoot)
    ensures e.Requirements(packageDir)
         == Path(packageDir.absolute, packageDir.parts + ["requirements", e.Name() + ".requirements.txt"])
  {
    if e.projectRoot.parts != [] {
      assert IsComponent(e.projectRoot.parts[|e.projectRoot.parts| - 1]);
    }
    RequirementsFileIsComponent(e.Name());
    JoinComponent(packageDir, "requirements");
    JoinComponent(Join(packageDir, "requirements"), e.Name() + ".requirements.txt");
  }

  lemma RequirementsFileIsComponent(name: string)
    requires '/' !in name
    ensures IsComponent(name + ".requirements.txt")
  {
    var suffix := ".requirements.txt";
    assert '/' !in suffix;
    assert forall c :: c in name + suffix ==> c in name || c in suffix;
  }

  /**
   * `EnvPath('proj')` under `/envs` with version `3.8.*`: the conda root is
   * `/envs/proj/3.8/conda`, the venv root `/envs/proj/3.8/.venv`, and both
   * cache in `/envs/proj/3.8/pip_cache`.
   */
  lemma ExampleLayout()
    ensures var root := ProjectRoot(Path(true, ["envs"]), "proj");
            && Env(Conda, root, "3.8.*").Root() == Path(true, ["envs", "proj", "3.8", "conda"])
            && Env(Venv, root, "3.8.*").Root() == Path(true, ["envs", "proj", "3.8", ".venv"])
            && Env(Conda, root, "3.8.*").PipCache() == Path(true, ["envs", "proj", "3.8", "pip_cache"])
            && Env(Venv, root, "3.8.*").PipCache() == Path(true, ["envs", "proj", "3.8", "pip_cache"])
  {
    var dir := ExampleVersionDir();
    var root := ProjectRoot(Path(true, ["envs"]), "proj");
    LayoutUnder(root, "3.8.*", dir);
    ExampleParts(dir);
  }

  lemma ExampleParts(dir: Path)
    requires dir == Path(true, ["envs", "proj", "3.8"])
    ensures Path(dir.absolute, dir.parts + ["conda"]) == Path(true, ["envs", "proj", "3.8", "conda"])
    ensures Path(dir.absolute, dir.parts + [".venv"]) == Path(true, ["envs", "proj", "3.8", ".venv"])
    ensures Path(dir.absolute, dir.parts + ["pip_cache"]) == Path(true, ["envs", "proj", "3.8", "pip_cache"])
  {
    assert dir.parts + ["conda"] == ["envs", "proj", "3.8", "conda"];
    assert dir.parts + [".venv"] == ["envs", "proj", "3.8", ".venv"];
    assert dir.parts + ["pip_cache"] == ["envs", "proj", "3.8", "pip_cache"];
  }

  lemma LayoutUnder(projectRoot: Path, version: string, dir: Path)
    requires Env(Conda, projectRoot, version).VersionDir() == dir
    ensures Env(Conda, projectRoot, version).Root() == Path(dir.absolute, dir.parts + ["conda"])
    ensures Env(Venv, projectRoot, version).Root() == Path(dir.absolute, dir.parts + [".venv"])
    ensures Env(Conda, projectRoot, version).PipCache() == Path(dir.absolute, dir.parts + ["pip_cache"])
    ensures Env(Venv, projectRoot, version).PipCache() == Path(dir.absolute, dir.parts + ["pip_cache"])
  {
    RootInVersionDir(Env(Conda, projectRoot, version));
    RootInVersionDir(Env(Venv, projectRoot, version));
    SharedPipCache(projectRoot, version);
  }

  lemma ExampleVersionDir() returns (dir: Path)
    ensures dir == Path(true, ["envs", "proj", "3.8"])
    ensures Env(Conda, ProjectRoot(Path(true, ["envs"]), "proj"), "3.8.*").VersionDir() == dir
    ensures Env(Venv, ProjectRoot(Path(true, ["envs"]), "proj"), "3.8.*").VersionDir() == dir
  {
    var envs := Path(true, ["envs"]);
    JoinComponent(envs, "proj");
    var root := Path(true, ["envs", "proj"]);
    assert ProjectRoot(envs, "proj") == root;
    Versions.WildcardPatchVersion();
    JoinComponent(root, "3.8");
    dir := Path(true, ["envs", "proj", "3.8"]);
  }
}
