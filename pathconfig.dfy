/**
 * The directory resolver shared by both command-line drivers: where the
 * migrations and the models live, decided from the command-line options,
 * an optional `.sequelizerc` module in the base directory, and defaults.
 * The process environment and the files on disk are explicit inputs.
 */
module PathConfig {
  import opened Common

  /** The part of the process environment the resolver reads (`PWD`, the working directory). */
  datatype Env = Env(pwd: Option<string>, cwd: string)

  /** The two path settings, as the command line or `.sequelizerc` give them. */
  datatype PathSettings = PathSettings(migrationsPath: Option<string>, modelsPath: Option<string>)

  /** What importing `.sequelizerc` yields: its default export, which may be missing. */
  datatype RcExport = Undefined | Exported(settings: PathSettings)

  datatype Dirs = Dirs(migrationsDir: string, modelsDir: string)

  /**
   * The environment after the call, and the resolved directories; `dirs` is None
   * when a value is read from an undefined `.sequelizerc` export, which throws.
   */
  datatype Resolution = Resolution(env: Env, dirs: Option<Dirs>)

  const NoSettings := PathSettings(None, None)

  /** `process.env.PWD || process.cwd()` */
  function BaseDir(env: Env): string {
    if Truthy(env.pwd) then env.pwd.value else env.cwd
  }

  function RcPath(env: Env): string {
    Join(BaseDir(env), ".sequelizerc")
  }

  /**
   * `sequelizercConfigs`: `{}` when no `.sequelizerc` exists in the base
   * directory, otherwise the default export of that module. `rcFiles` maps
   * each importable path on disk to its default export.
   */
  function LoadRc(env: Env, rcFiles: map<string, RcExport>): RcExport {
    if RcPath(env) in rcFiles then rcFiles[RcPath(env)] else Exported(NoSettings)
  }

  /** The settings read from the rc export; an undefined export reads as nothing here (the caller reports the throw). */
  function RcSettings(rc: RcExport): PathSettings {
    if rc.Exported? then rc.settings else NoSettings
  }

  /** One directory: a truthy CLI value joined onto the base, else a truthy rc value verbatim, else the default. */
  function Precedence(base: string, cli: Option<string>, rc: Option<string>, fallback: string): string {
    if Truthy(cli) then Join(base, cli.value)
    else if Truthy(rc) then rc.value
    else fallback
  }

  /**
   * The resolver. The rc value of a setting is read only when the CLI value is
   * falsy, so an undefined rc export throws exactly when some CLI value is falsy.
   */
  function Resolve(env: Env, options: PathSettings, rcFiles: map<string, RcExport>): (r: Resolution)
    ensures r.env == Env(Some(BaseDir(env)), env.cwd)
    ensures r.dirs.None? <==>
              LoadRc(env, rcFiles).Undefined? && !(Truthy(options.migrationsPath) && Truthy(options.modelsPath))
  {
    var base := BaseDir(env);
    var rc := LoadRc(env, rcFiles);
    var env' := Env(Some(base), env.cwd);
    if rc.Undefined? && !(Truthy(options.migrationsPath) && Truthy(options.modelsPath)) then
      Resolution(env', None)
    else
      var settings := RcSettings(rc);
      Resolution(env', Some(Dirs(
        Precedence(base, options.migrationsPath, settings.migrationsPath, Join(base, "migrations")),
        Precedence(base, options.modelsPath, settings.modelsPath, Join(base, "models")))))
  }

  /** The base directory is PWD when that is set and non-empty, otherwise the working directory; PWD is set to it. */
  lemma PwdFallsBackToCwd(env: Env, options: PathSettings, rcFiles: map<string, RcExport>)
    ensures Truthy(env.pwd) ==> BaseDir(env) == env.pwd.value
    ensures !Truthy(env.pwd) ==> BaseDir(env) == env.cwd
    ensures Resolve(env, options, rcFiles).env.pwd == Some(BaseDir(env))
    ensures Truthy(env.pwd) ==> Resolve(env, options, rcFiles).env == env
  {
  }

  /** With neither a CLI value nor an rc entry, both directories sit under the base directory. */
  lemma DefaultDirs(env: Env, rcFiles: map<string, RcExport>)
    requires RcPath(env) !in rcFiles
    ensures Resolve(env, NoSettings, rcFiles).dirs
            == Some(Dirs(Join(BaseDir(env), "migrations"), Join(BaseDir(env), "models")))
  {
  }

  /** A truthy CLI value decides the directory, joined onto the base, whatever the rc file says. */
  lemma CliOptionWins(env: Env, options: PathSettings, rcFiles: map<string, RcExport>)
    requires Resolve(env, options, rcFiles).dirs.Some?
    ensures Truthy(options.migrationsPath) ==>
              Resolve(env, options, rcFiles).dirs.value.migrationsDir == Join(BaseDir(env), options.migrationsPath.value)
    ensures Truthy(options.modelsPath) ==>
              Resolve(env, options, rcFiles).dirs.value.modelsDir == Join(BaseDir(env), options.modelsPath.value)
  {
  }

  /** Without a truthy CLI value, a truthy rc value is used verbatim, not joined onto the base. */
  lemma RcValueVerbatim(env: Env, options: PathSettings, rcFiles: map<string, RcExport>, rc: PathSettings)
    requires LoadRc(env, rcFiles) == Exported(rc)
    ensures !Truthy(options.migrationsPath) && Truthy(rc.migrationsPath) ==>
              Resolve(env, options, rcFiles).dirs == Some(Dirs(rc.migrationsPath.value,
                                                               Resolve(env, options, rcFiles).dirs.value.modelsDir))
    ensures !Truthy(options.modelsPath) && Truthy(rc.modelsPath) ==>
              Resolve(env, options, rcFiles).dirs == Some(Dirs(Resolve(env, options, rcFiles).dirs.value.migrationsDir,
                                                               rc.modelsPath.value))
    ensures !Truthy(options.migrationsPath) && !Truthy(rc.migrationsPath) ==>
              Resolve(env, options, rcFiles).dirs.value.migrationsDir == Join(BaseDir(env), "migrations")
    ensures !Truthy(options.modelsPath) && !Truthy(rc.modelsPath) ==>
              Resolve(env, options, rcFiles).dirs.value.modelsDir == Join(BaseDir(env), "models")
  {
  }

  /** The models directory does not depend on how the migrations directory was given, and vice versa. */
  lemma SettingsIndependent(env: Env, options: PathSettings, rcFiles: map<string, RcExport>, other: Option<string>)
    requires LoadRc(env, rcFiles).Exported?
    ensures Resolve(env, options.(migrationsPath := other), rcFiles).dirs.value.modelsDir
            == Resolve(env, options, rcFiles).dirs.value.modelsDir
    ensures Resolve(env, options.(modelsPath := other), rcFiles).dirs.value.migrationsDir
            == Resolve(env, options, rcFiles).dirs.value.migrationsDir
  {
  }

  /** An empty string is as good as no value: it falls through to the next source. */
  lemma EmptyValueFallsThrough(env: Env, options: PathSettings, rcFiles: map<string, RcExport>, rc: PathSettings)
    ensures Resolve(env, options.(migrationsPath := Some("")), rcFiles)
            == Resolve(env, options.(migrationsPath := None), rcFiles)
    ensures Resolve(env, options.(modelsPath := Some("")), rcFiles)
            == Resolve(env, options.(modelsPath := None), rcFiles)
    ensures Resolve(env, options, rcFiles[RcPath(env) := Exported(PathSettings(Some(""), rc.modelsPath))])
            == Resolve(env, options, rcFiles[RcPath(env) := Exported(PathSettings(None, rc.modelsPath))])
    ensures Resolve(env, options, rcFiles[RcPath(env) := Exported(PathSettings(rc.migrationsPath, Some("")))])
            == Resolve(env, options, rcFiles[RcPath(env) := Exported(PathSettings(rc.migrationsPath, None))])
  {
  }
}
