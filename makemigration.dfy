/**
 * The migration generator: it compares the models with the snapshot kept in
 * `_current.json`, and when they differ saves a backup of the snapshot, the
 * new snapshot with the next revision, and the new migration file, and may
 * run that migration. The diff engine (reverse-engineering the models,
 * diffing, sorting, rendering and writing the migration) is not part of this
 * model and is taken as functions; the files on disk are a `FileStore`.
 */
module MakeMigration {
  import opened Common
  import PathConfig

  /** An action record of the diff engine; its structure is not interpreted here. */
  type Action = string

  /** Table name to table definition, as the engine describes the schema. */
  type Tables = map<string, string>

  /** The document kept in `_current.json`. Only the built-in initial state carries a `version`. */
  datatype Snapshot = Snapshot(revision: int, version: Option<int>, tables: Tables)

  /** What `getMigration` returns: rendered up and down commands and the action summary. */
  datatype Migration = Migration(commandsUp: seq<string>, commandsDown: seq<string>, consoleOut: seq<string>)

  /** The migration file `writeMigration` produces: its name and its contents. */
  datatype Artifact = Artifact(filename: string, body: string)

  /** The functions of the diff engine the generator calls. */
  datatype Engine = Engine(
    parseDifference: (Tables, Tables) -> seq<Action>,
    sortActions: seq<Action> -> seq<Action>,
    getMigration: (seq<Action>, seq<Action>) -> Migration,
    writeMigration: (int, Migration, string, string, string) -> Artifact)

  /** `JSON.parse` (None when it throws) and `JSON.stringify` on the snapshot document. */
  datatype Codec = Codec(parse: string -> Option<Snapshot>, stringify: Snapshot -> string)

  /** The parsed options; flags not given are false. */
  datatype MakeArgs = MakeArgs(
    preview: bool, name: Option<string>, comment: Option<string>, execute: bool, help: bool,
    paths: PathConfig.PathSettings)

  /**
   * Everything the generator reads besides the files: environment, options,
   * `.sequelizerc` modules, the directories that exist, the tables
   * `reverseModels` extracts from the models, the engine and the JSON codec.
   */
  datatype MakeInputs = MakeInputs(
    env: PathConfig.Env, args: MakeArgs, rcFiles: map<string, PathConfig.RcExport>,
    existing: set<string>, currentTables: Tables, engine: Engine, codec: Codec)

  /** `MissingModelsIndex`: the import of `<models>/index.js` rejects, which ends the process with exit code 1. */
  datatype MakeStatus =
    HelpShown | ConfigError | MissingModels | MissingMigrations | MissingModelsIndex | NoChanges | Previewed | Saved

  /** How the command ends: its exit code, the revision saved, the migration file written, the execution requested. */
  datatype MakeReport = MakeReport(
    status: MakeStatus, exitCode: int, revision: Option<int>, artifact: Option<Artifact>,
    execution: Option<ExecuteCall>)

  datatype FileWrite = FileWrite(path: string, content: string)

  /** The outcome of one run: its report and the file writes it makes, in order. */
  datatype Plan = Plan(report: MakeReport, writes: seq<FileWrite>)

  function CurrentPath(dir: string): string {
    Join(dir, "_current.json")
  }

  function BackupPath(dir: string): string {
    Join(dir, "_current_bak.json")
  }

  /** The state assumed when there is no readable `_current.json`. */
  const InitialState := Snapshot(0, Some(1), map[])

  /** `_current.json` parsed, or the initial state when the file is missing or does not parse. */
  function PreviousState(files: map<string, string>, dir: string, codec: Codec): (s: Snapshot)
    ensures CurrentPath(dir) !in files ==> s == InitialState
    ensures CurrentPath(dir) in files && codec.parse(files[CurrentPath(dir)]).None? ==> s == InitialState
    ensures s != InitialState ==> CurrentPath(dir) in files && codec.parse(files[CurrentPath(dir)]) == Some(s)
    ensures CurrentPath(dir) in files && codec.parse(files[CurrentPath(dir)]).Some? ==> s == codec.parse(files[CurrentPath(dir)]).value
  {
    var cur := CurrentPath(dir);
    if cur in files && codec.parse(files[cur]).Some? then codec.parse(files[cur]).value else InitialState
  }

  /** Diff both ways, sort both action lists, render them. */
  function Generate(engine: Engine, previous: Tables, current: Tables): Migration {
    var up := engine.sortActions(engine.parseDifference(previous, current));
    var down := engine.sortActions(engine.parseDifference(current, previous));
    engine.getMigration(up, down)
  }

  /** The files after the writes, applied in order. */
  function ApplyWrites(files: map<string, string>, writes: seq<FileWrite>): map<string, string> {
    if writes == [] then files
    else
      var last := writes[|writes| - 1];
      ApplyWrites(files, writes[..|writes| - 1])[last.path := last.content]
  }

  function Paths(writes: seq<FileWrite>): (r: seq<string>)
    ensures |r| == |writes| && forall i :: 0 <= i < |writes| ==> r[i] == writes[i].path
  {
    seq(|writes|, i requires 0 <= i < |writes| => writes[i].path)
  }

  /** The run gets past help, directory resolution, the two existence checks and the import of the models. */
  predicate Prepared(inp: MakeInputs) {
    var res := PathConfig.Resolve(inp.env, inp.args.paths, inp.rcFiles);
    && !inp.args.help
    && res.dirs.Some?
    && res.dirs.value.modelsDir in inp.existing
    && res.dirs.value.migrationsDir in inp.existing
    && res.dirs.value.modelsDir + "/index.js" in inp.existing
  }

  function MigrationsDir(inp: MakeInputs): string
    requires Prepared(inp)
  {
    PathConfig.Resolve(inp.env, inp.args.paths, inp.rcFiles).dirs.value.migrationsDir
  }

  /** One run of the generator on the files `files`, as a specification. */
  function MakePlan(inp: MakeInputs, files: map<string, string>): (p: Plan)
    ensures p.report.status == HelpShown <==> inp.args.help
    ensures p.writes != [] <==> p.report.status == Saved
    ensures p.report.status == Saved ==> 2 <= |p.writes| <= 3 && p.report.revision.Some? && p.report.artifact.Some?
    ensures p.report.execution.Some? ==> p.report.status == Saved && inp.args.execute
  {
    var args := inp.args;
    if args.help then Plan(MakeReport(HelpShown, 0, None, None, None), [])
    else
      var res := PathConfig.Resolve(inp.env, args.paths, inp.rcFiles);
      if res.dirs.None? then Plan(MakeReport(ConfigError, 1, None, None, None), [])
      else if res.dirs.value.modelsDir !in inp.existing then Plan(MakeReport(MissingModels, 1, None, None, None), [])
      else if res.dirs.value.migrationsDir !in inp.existing then Plan(MakeReport(MissingMigrations, 1, None, None, None), [])
      else if res.dirs.value.modelsDir + "/index.js" !in inp.existing then
        Plan(MakeReport(MissingModelsIndex, 1, None, None, None), [])
      else
        var dir := res.dirs.value.migrationsDir;
        var previous := PreviousState(files, dir, inp.codec);
        var migration := Generate(inp.engine, previous.tables, inp.currentTables);
        if |migration.commandsUp| == 0 then Plan(MakeReport(NoChanges, 0, None, None, None), [])
        else if args.preview then Plan(MakeReport(Previewed, 0, None, None, None), [])
        else SavePlan(inp, files, dir, previous, migration)
  }

  /**
   * The saving part of a run: back up `_current.json` when it exists, save the
   * snapshot of the models with the next revision, write the migration file,
   * and request its execution with `--execute`.
   */
  function SavePlan(inp: MakeInputs, files: map<string, string>, dir: string, previous: Snapshot, migration: Migration)
    : (p: Plan)
    ensures p.report.status == Saved && p.report.exitCode == 0
    ensures p.report.revision == Some(previous.revision + 1) && p.report.artifact.Some?
    ensures |p.writes| == (if CurrentPath(dir) in files then 3 else 2)
  {
    var args := inp.args;
    var cur := CurrentPath(dir);
    var backup := if cur in files then [FileWrite(BackupPath(dir), files[cur])] else [];
    var saved := Snapshot(previous.revision + 1, None, inp.currentTables);
    var artifact := inp.engine.writeMigration(
      saved.revision, migration, dir, OrElse(args.name, "noname"), OrElse(args.comment, ""));
    var execution := if args.execute then Some(ExecuteCall(artifact.filename, true, 0, false)) else None;
    Plan(MakeReport(Saved, 0, Some(saved.revision), Some(artifact), execution),
         backup + [FileWrite(cur, inp.codec.stringify(saved)), FileWrite(artifact.filename, artifact.body)])
  }

  /** A plan that saves: the predicate the save lemmas below share. */
  predicate Saves(inp: MakeInputs, files: map<string, string>) {
    MakePlan(inp, files).report.status == Saved
  }

  /** `--help` ends the run with exit code 0 before anything else is looked at: directories, rc file, files. */
  lemma HelpComesFirst(inp: MakeInputs, files: map<string, string>, rcFiles: map<string, PathConfig.RcExport>)
    requires inp.args.help
    ensures MakePlan(inp, files).report.exitCode == 0 && MakePlan(inp, files).writes == []
    ensures MakePlan(inp, files) == MakePlan(inp.(existing := {}, rcFiles := rcFiles), map[])
  {
  }

  /**
   * Exit code 1 exactly for a configuration error, a missing directory or a models
   * module that cannot be imported, 0 otherwise;
   * only a run that saves writes any file.
   */
  lemma ExitCodes(inp: MakeInputs, files: map<string, string>)
    ensures var r := MakePlan(inp, files).report;
            r.exitCode == (if r.status in {ConfigError, MissingModels, MissingMigrations, MissingModelsIndex} then 1 else 0)
    ensures MakePlan(inp, files).report.status in {HelpShown, ConfigError, MissingModels, MissingMigrations, MissingModelsIndex}
            <==> !Prepared(inp)
    ensures MakePlan(inp, files).writes != [] <==> Saves(inp, files)
  {
  }

  /**
   * Past the checks, nothing is written exactly when the migration has no up
   * commands or `--preview` is given; the down commands play no part in it.
   */
  lemma NoWritesWithoutChangesOrOnPreview(inp: MakeInputs, files: map<string, string>)
    requires Prepared(inp)
    ensures var m := Generate(inp.engine, PreviousState(files, MigrationsDir(inp), inp.codec).tables, inp.currentTables);
            && (MakePlan(inp, files).writes == [] <==> |m.commandsUp| == 0 || inp.args.preview)
            && (MakePlan(inp, files).report.status == NoChanges <==> |m.commandsUp| == 0)
            && (MakePlan(inp, files).report.status == Previewed <==> |m.commandsUp| != 0 && inp.args.preview)
  {
  }

  /**
   * The writes of a saving run: the backup of `_current.json` first when that
   * file exists (and only then), then the new snapshot, then the migration file.
   */
  lemma SaveOrder(inp: MakeInputs, files: map<string, string>)
    requires Saves(inp, files)
    ensures Prepared(inp)
    ensures var dir := MigrationsDir(inp);
            var w := MakePlan(inp, files).writes;
            var a := MakePlan(inp, files).report.artifact;
            && a.Some?
            && |w| == (if CurrentPath(dir) in files then 3 else 2)
            && (CurrentPath(dir) in files ==> w[0] == FileWrite(BackupPath(dir), files[CurrentPath(dir)]))
            && w[|w| - 2].path == CurrentPath(dir)
            && w[|w| - 1] == FileWrite(a.value.filename, a.value.body)
  {
  }

  /** The two file names under one directory differ. */
  lemma CurrentIsNotBackup(dir: string)
    ensures CurrentPath(dir) != BackupPath(dir)
  {
    assert |CurrentPath(dir)| != |BackupPath(dir)|;
  }

  /** The files after a write that leaves `p` alone. */
  lemma ApplyWritesOther(files: map<string, string>, writes: seq<FileWrite>, p: string)
    requires forall i :: 0 <= i < |writes| ==> writes[i].path != p
    ensures (p in ApplyWrites(files, writes)) == (p in files)
    ensures p in files ==> ApplyWrites(files, writes)[p] == files[p]
  {
    if writes != [] {
      ApplyWritesOther(files, writes[..|writes| - 1], p);
    }
  }

  /**
   * After a save, the backup holds what `_current.json` held before, and
   * `_current.json` holds the new snapshot: the next revision, no `version`,
   * the models' tables (unless the migration file itself was given one of
   * those two names).
   */
  lemma SavedFiles(inp: MakeInputs, files: map<string, string>)
    requires Saves(inp, files)
    requires Prepared(inp)
    requires MakePlan(inp, files).report.artifact.value.filename !in
               {CurrentPath(MigrationsDir(inp)), BackupPath(MigrationsDir(inp))}
    ensures var dir := MigrationsDir(inp);
            var after := ApplyWrites(files, MakePlan(inp, files).writes);
            var rev := PreviousState(files, dir, inp.codec).revision + 1;
            && MakePlan(inp, files).report.revision == Some(rev)
            && CurrentPath(dir) in after
            && after[CurrentPath(dir)] == inp.codec.stringify(Snapshot(rev, None, inp.currentTables))
            && (CurrentPath(dir) in files ==> BackupPath(dir) in after && after[BackupPath(dir)] == files[CurrentPath(dir)])
            && (CurrentPath(dir) !in files ==> (BackupPath(dir) in after) == (BackupPath(dir) in files))
            && (CurrentPath(dir) !in files && BackupPath(dir) in files ==> after[BackupPath(dir)] == files[BackupPath(dir)])
  {
    var dir := MigrationsDir(inp);
    var w := MakePlan(inp, files).writes;
    CurrentIsNotBackup(dir);
    SaveOrder(inp, files);
    var n := |w|;
    assert w[..n - 1][..n - 2] == w[..n - 2];
    if CurrentPath(dir) in files {
      assert w[..n - 2] == [w[0]];
      assert w[..n - 2][..0] == [];
      var m1 := ApplyWrites(files, w[..1]);
      assert w[..1][..0] == [];
      assert ApplyWrites(files, w[..1][..0]) == files;
      assert w[..1][0] == w[0] == FileWrite(BackupPath(dir), files[CurrentPath(dir)]);
      assert m1 == files[BackupPath(dir) := files[CurrentPath(dir)]];
      assert ApplyWrites(files, w[..2]) == m1[CurrentPath(dir) := w[1].content];
      assert w[..3][..2] == w[..2];
    } else {
      assert w[..n - 2] == [];
      ApplyWritesOther(files, w, BackupPath(dir));
    }
  }

  /** Without a readable `_current.json` the first migration saved is revision 1. */
  lemma FirstRevisionIsOne(inp: MakeInputs, files: map<string, string>)
    requires Saves(inp, files)
    requires Prepared(inp)
    requires CurrentPath(MigrationsDir(inp)) !in files
             || inp.codec.parse(files[CurrentPath(MigrationsDir(inp))]).None?
    ensures MakePlan(inp, files).report.revision == Some(1)
  {
  }

  /**
   * Two runs in a row, the second on the files the first left: when the JSON
   * codec reads back what it wrote, the second run starts from the first run's
   * tables, saves the next revision, and reports no changes, writing nothing,
   * when the engine finds no up commands between the first run's tables and
   * the models' tables.
   */
  lemma ConsecutiveRuns(first: MakeInputs, second: MakeInputs, files: map<string, string>)
    requires Saves(first, files)
    requires Prepared(first) && Prepared(second)
    requires MigrationsDir(second) == MigrationsDir(first)
    requires MakePlan(first, files).report.artifact.value.filename !in
               {CurrentPath(MigrationsDir(first)), BackupPath(MigrationsDir(first))}
    requires forall s :: second.codec.parse(first.codec.stringify(s)) == Some(s)
    ensures var after := ApplyWrites(files, MakePlan(first, files).writes);
            var rev := MakePlan(first, files).report.revision.value;
            && PreviousState(after, MigrationsDir(second), second.codec) == Snapshot(rev, None, first.currentTables)
            && (Saves(second, after) ==> MakePlan(second, after).report.revision == Some(rev + 1))
            && (|Generate(second.engine, first.currentTables, second.currentTables).commandsUp| == 0 ==>
                  MakePlan(second, after).report.status == NoChanges && MakePlan(second, after).writes == [])
  {
    SavedFiles(first, files);
  }

  /**
   * The migration file and the execution: `writeMigration` gets the new
   * revision, the generated migration, the migrations directory, the name
   * (default "noname") and the comment (default ""); `--execute` runs the
   * written file forward from position 0 in a transaction.
   */
  lemma SavedArtifactAndExecution(inp: MakeInputs, files: map<string, string>)
    requires Saves(inp, files)
    requires Prepared(inp)
    ensures var dir := MigrationsDir(inp);
            var previous := PreviousState(files, dir, inp.codec);
            var r := MakePlan(inp, files).report;
            && r.artifact == Some(inp.engine.writeMigration(
                 previous.revision + 1, Generate(inp.engine, previous.tables, inp.currentTables), dir,
                 if Truthy(inp.args.name) then inp.args.name.value else "noname",
                 if Truthy(inp.args.comment) then inp.args.comment.value else ""))
            && (r.execution.Some? <==> inp.args.execute)
            && (inp.args.execute ==> r.execution == Some(ExecuteCall(r.artifact.value.filename, true, 0, false)))
  {
  }

  /** An empty or absent name both name the migration "noname"; the same holds for the comment and "". */
  lemma DefaultNameAndComment(inp: MakeInputs, files: map<string, string>)
    ensures MakePlan(inp.(args := inp.args.(name := Some(""))), files)
            == MakePlan(inp.(args := inp.args.(name := None)), files)
            == MakePlan(inp.(args := inp.args.(name := Some("noname"))), files)
    ensures MakePlan(inp.(args := inp.args.(comment := Some(""))), files)
            == MakePlan(inp.(args := inp.args.(comment := None)), files)
  {
  }

  /** The files on disk, as a mutable map from path to contents, with a log of the paths written. */
  class FileStore {
    var files: map<string, string>
    ghost var written: seq<string>

    constructor (initial: map<string, string>)
      ensures files == initial && written == []
    {
      files := initial;
      written := [];
    }

    /** `fs.existsSync` */
    method Exists(path: string) returns (b: bool)
      ensures b <==> path in files
    {
      b := path in files;
    }

    /** `fs.readFileSync` */
    method Read(path: string) returns (content: string)
      requires path in files
      ensures content == files[path]
    {
      content := files[path];
    }

    /** `fs.writeFileSync`: creates or overwrites one file. */
    method Write(path: string, content: string)
      modifies this
      ensures files == old(files)[path := content]
      ensures written == old(written) + [path]
    {
      files := files[path := content];
      written := written + [path];
    }
  }

  /**
   * The command, step by step on the store: help, resolve and check the
   * directories, load the previous state, generate, stop on "no changes" or
   * preview, back up `_current.json` if it exists, save the new snapshot,
   * write the migration, and request its execution with `--execute`.
   */
  method RunMakeMigration(store: FileStore, inp: MakeInputs) returns (report: MakeReport)
    modifies store
    ensures report == MakePlan(inp, old(store.files)).report
    ensures store.files == ApplyWrites(old(store.files), MakePlan(inp, old(store.files)).writes)
    ensures store.written == old(store.written) + Paths(MakePlan(inp, old(store.files)).writes)
  {
    ghost var files0 := store.files;
    var args := inp.args;
    if args.help {
      return MakeReport(HelpShown, 0, None, None, None);
    }
    var resolution := PathConfig.Resolve(inp.env, args.paths, inp.rcFiles);
    if resolution.dirs.None? {
      return MakeReport(ConfigError, 1, None, None, None);
    }
    var dirs := resolution.dirs.value;
    if dirs.modelsDir !in inp.existing {
      return MakeReport(MissingModels, 1, None, None, None);
    }
    if dirs.migrationsDir !in inp.existing {
      return MakeReport(MissingMigrations, 1, None, None, None);
    }
    var dir := dirs.migrationsDir;
    var cur := CurrentPath(dir);

    var previous := InitialState;
    var hasCurrent := store.Exists(cur);
    if hasCurrent {
      var text := store.Read(cur);
      var parsed := inp.codec.parse(text);
      if parsed.Some? {
        previous := parsed.value;
      }
    }
    assert previous == PreviousState(files0, dir, inp.codec);

    if dirs.modelsDir + "/index.js" !in inp.existing {
      return MakeReport(MissingModelsIndex, 1, None, None, None);
    }

    var migration := Generate(inp.engine, previous.tables, inp.currentTables);
    if |migration.commandsUp| == 0 {
      return MakeReport(NoChanges, 0, None, None, None);
    }
    if args.preview {
      return MakeReport(Previewed, 0, None, None, None);
    }

    report := Save(store, inp, dir, previous, migration);
  }

  /** The saving steps on the store, as `SavePlan` describes them. */
  method Save(store: FileStore, inp: MakeInputs, dir: string, previous: Snapshot, migration: Migration)
    returns (report: MakeReport)
    modifies store
    ensures report == SavePlan(inp, old(store.files), dir, previous, migration).report
    ensures store.files == ApplyWrites(old(store.files), SavePlan(inp, old(store.files), dir, previous, migration).writes)
    ensures store.written
            == old(store.written) + Paths(SavePlan(inp, old(store.files), dir, previous, migration).writes)
  {
    ghost var files0 := store.files;
    ghost var written0 := store.written;
    var args := inp.args;
    var cur := CurrentPath(dir);
    ghost var backup: seq<FileWrite> := [];
    var hasCurrent := store.Exists(cur);
    if hasCurrent {
      var contents := store.Read(cur);
      store.Write(BackupPath(dir), contents);
      backup := [FileWrite(BackupPath(dir), contents)];
    }
    assert store.files == ApplyWrites(files0, backup);

    var saved := Snapshot(previous.revision + 1, None, inp.currentTables);
    var snapshotWrite := FileWrite(cur, inp.codec.stringify(saved));
    store.Write(cur, snapshotWrite.content);
    assert (backup + [snapshotWrite])[..|backup|] == backup;
    assert store.files == ApplyWrites(files0, backup + [snapshotWrite]);

    var artifact := inp.engine.writeMigration(
      saved.revision, migration, dir, OrElse(args.name, "noname"), OrElse(args.comment, ""));
    var artifactWrite := FileWrite(artifact.filename, artifact.body);
    store.Write(artifact.filename, artifact.body);
    assert (backup + [snapshotWrite, artifactWrite])[..|backup| + 1] == backup + [snapshotWrite];
    assert store.files == ApplyWrites(files0, backup + [snapshotWrite, artifactWrite]);
    assert store.written == written0 + Paths(backup + [snapshotWrite, artifactWrite]);

    var execution := None;
    if args.execute {
      execution := Some(ExecuteCall(artifact.filename, true, 0, false));
    }
    report := MakeReport(Saved, 0, Some(saved.revision), Some(artifact), execution);
  }
}
