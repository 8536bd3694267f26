# sequelize-auto-migrations: the command-line drivers, in Dafny

This project models the two command-line drivers of the migration tool and the directory resolver they share:

- **`runmigration`** chooses the migration files to run:
  - it keeps the visible `.js` files whose numeric revision prefix is at least `--rev`;
  - it sorts them by revision, stably, descending on `--rollback`. This is the order the source gives only when every visible `.js` entry of the directory starts with a digit; see "## Left out".
- It then runs them one after another through `executeMigration`. Each call gets:
  - the current start position, which resets to 0 after a success;
  - the transaction flag;
  - the rollback flag.
- **`makemigration`** does the following, in order:
  - It loads the previous schema snapshot from `_current.json`, or the initial state.
  - It diffs that snapshot against the models in both directions.
  - It stops on "no changes" or `--preview`.
  - Otherwise it backs up `_current.json`, saves the new snapshot with the next revision and writes the migration file.
  - With `--execute` it then runs that file.
- **`pathconfig`** resolves the migrations and models directories:
  - a command-line option, joined onto the base directory, wins;
  - otherwise a `.sequelizerc` value is used verbatim;
  - otherwise the default under the base directory applies;
  - the base directory is `PWD`, falling back to the working directory.

Everything the drivers get from outside is an explicit input:
- the process environment;
- the files on disk and the directory listing;
- the `.sequelizerc` module;
- the diff engine of `lib/migrate.js`;
- the outcome of each migration run.

The observable results are the calls made, the files written and the exit code.

Modules:
- `Common` (`common.dfy`): optional values, JavaScript truthiness, path joining, the arguments of one migration run.
- `PathConfig` (`pathconfig.dfy`): the directory resolver, as functions.
- `RunMigration` (`runmigration.dfy`), which contains:
  - revision parsing;
  - file selection;
  - a stable insertion sort over any key;
  - the batch loop, as a method with loop invariants proved against a state-machine specification (`Positions`);
  - the command, as a method.
- `MakeMigration` (`makemigration.dfy`), which contains:
  - the specification function `MakePlan`: the report and the ordered file writes of one run;
  - a `FileStore` class, whose fields are the file map and a log of written paths;
  - the method `RunMakeMigration`, which performs the run on the store and is proved to end in exactly the state `MakePlan` describes;
  - lemmas about `MakePlan`.

Behaviour of the code worth knowing:
- A batch of migration files does not stop at the first failure. The failure is caught, and the next file runs with the position unchanged.
- The snapshot saved to `_current.json` has no version field. Only the built-in initial state has one (`version: 1`, bin/makemigration.js:57).
- `runmigration` checks the directories before `--help`, so a missing directory wins over help. `makemigration` handles `--help` first.
- `makemigration` checks only that the models directory exists; a missing `<models>/index.js` makes its import reject later, which ends the run with exit code 1 and no writes.

## Model

| member | source | states |
|---|---|---|
| PathConfig.Resolve | lib/pathconfig.js:4-36 | PWD is set to the base directory; the directories are missing (the rc module's undefined export is read and throws) exactly when `.sequelizerc` has no default export and some CLI value is falsy |
| PathConfig.PwdFallsBackToCwd | lib/pathconfig.js:6-16 | the base directory is a non-empty PWD, else the working directory; PWD becomes it and is left alone when already set |
| PathConfig.DefaultDirs | lib/pathconfig.js:17-18 | without CLI values or `.sequelizerc` the directories are `<base>/migrations` and `<base>/models` |
| PathConfig.CliOptionWins | lib/pathconfig.js:20-30 | a truthy CLI value decides its directory, joined onto the base, whatever `.sequelizerc` says |
| PathConfig.RcValueVerbatim | lib/pathconfig.js:20-30 | without a CLI value a truthy rc value is used as given; with neither, the default applies |
| PathConfig.SettingsIndependent | lib/pathconfig.js:20-30 | the models directory does not depend on the migrations setting and vice versa, when `.sequelizerc` is absent or has a default export |
| PathConfig.EmptyValueFallsThrough | lib/pathconfig.js:20-30 | an empty string behaves like an absent value, at the CLI and in `.sequelizerc` |
| RunMigration.RevisionField | bin/runmigration.js:63 | the field is the prefix of the name up to the first '-' (all of it when there is none) and contains no '-' |
| RunMigration.LeadingDigits | bin/runmigration.js:63 | the result is the longest all-digit prefix |
| RunMigration.RevOf | bin/runmigration.js:63-64 | a name has a revision (is not NaN) exactly when it starts with a digit; the revision is the value of the leading digits |
| RunMigration.RevOfNumberedName | bin/runmigration.js:68 | a decimal revision followed by text not starting with a digit parses back to that revision |
| RunMigration.Select | bin/runmigration.js:60-70 | an entry is kept exactly when it passes the visible-script and revision filters; nothing is added or duplicated |
| RunMigration.Insert | bin/runmigration.js:62-66 | insertion adds exactly the element to the multiset |
| RunMigration.InsertOrdered | bin/runmigration.js:62-66 | insertion into an ordered sequence keeps it ordered |
| RunMigration.SortBy | bin/runmigration.js:62-66 | the sort's result is a permutation of its input (same multiset); SortOrdered and SortKeepsTies prove it ordered and stable |
| RunMigration.SortOrdered | bin/runmigration.js:62-66 | the sort's result is ordered by the comparator, ascending or descending on rollback |
| RunMigration.InsertKeepsTies | bin/runmigration.js:62-66 | insertion puts the new element before those of equal key and keeps their order |
| RunMigration.SortKeepsTies | bin/runmigration.js:62-66 | the sort is stable: the elements of each key keep their input order |
| RunMigration.ReverseOfDistinctKeys | bin/runmigration.js:65 | with distinct keys the descending sort is the reverse of the ascending one |
| RunMigration.MigrationFiles | bin/runmigration.js:60-70 | the files to run, filtered and sorted: exactly the listed entries that pass both filters, each at most as often as listed |
| RunMigration.MigrationFilesSelection | bin/runmigration.js:60-70 | a file runs iff it is listed, does not start with '.', ends in ".js" and has a revision at least `--rev`; a NaN revision never runs |
| RunMigration.SelectKeepsOrder | bin/runmigration.js:67-70 | the filter keeps order: the selected entries of each revision are the selected ones among that revision's entries, in listing order |
| RunMigration.MigrationFilesOrder | bin/runmigration.js:62-66 | files run in non-decreasing revision order (non-increasing on rollback), and the files of each revision are that revision's selected entries in listing order |
| RunMigration.MigrationFilesFromListing | bin/runmigration.js:60-70 | every file run comes from the listing, at most as often as listed |
| RunMigration.RollbackOnlyReorders | bin/runmigration.js:65 | rollback runs the same files; with distinct revisions in exactly the reverse order |
| RunMigration.EqualRevisionsKeepListingOrder | bin/runmigration.js:62-66 | two runnable files of one revision run in listing order in both directions |
| RunMigration.TiesKeepListingOrderOnRollback | bin/runmigration.js:65 | "1-a.js", "1-b.js" are not reversed by rollback |
| RunMigration.Positions | bin/runmigration.js:79-105 | the `fromPos` state machine, one position per file: the first file starts at `--pos`, and every position is `--pos` or 0 |
| RunMigration.PositionsClosedForm | bin/runmigration.js:79-102 | file i starts at `--pos` until some earlier file has succeeded, at 0 from then on |
| RunMigration.RunBatch | bin/runmigration.js:79-111 | each file is executed in turn with the joined path, the transaction flag, the current position and the rollback flag; failures do not stop the batch; with `--one` only the first call is made and the batch never completes |
| RunMigration.RunMigrationCli | bin/runmigration.js:29-77 | configuration error and missing `<models>/index.js` or migrations directory give exit 1 before help is considered; help exits 0; `--list` lists and exits 0; otherwise the batch runs with transactions unless `--no-transaction` |
| RunMigration.DefaultsRunEverything | bin/runmigration.js:11-16 | with the default `--rev` and `--pos` of 0, every numbered script of the listing runs, the first from position 0 |
| MakeMigration.FileStore.Exists | bin/makemigration.js:96 | `fs.existsSync`: true exactly when the path is in the store |
| MakeMigration.FileStore.Read | bin/makemigration.js:62 | reading returns the file's contents and changes nothing |
| MakeMigration.FileStore.Write | bin/makemigration.js:97-100 | a write replaces exactly one file and logs its path |
| MakeMigration.PreviousState | bin/makemigration.js:55-65 | the initial state when `_current.json` is missing or does not parse, otherwise the parsed contents of `_current.json` |
| MakeMigration.MakePlan | bin/makemigration.js:25-139 | one run as report plus ordered writes: help is shown exactly on `--help`; files are written exactly when the run saves, two or three of them, with a revision and a migration file; an execution is requested only on a save with `--execute` |
| MakeMigration.SavePlan | bin/makemigration.js:95-139 | a save exits 0 with revision previous+1 and a migration file, and writes three files when `_current.json` exists, two otherwise |
| MakeMigration.Save | bin/makemigration.js:95-139 | the saving steps on the store return `SavePlan`'s report and leave exactly its writes applied, with their paths logged |
| MakeMigration.RunMakeMigration | bin/makemigration.js:25-139 | the step-by-step run returns `MakePlan`'s report and leaves the store holding exactly `MakePlan`'s writes applied in order, with their paths logged |
| MakeMigration.HelpComesFirst | bin/makemigration.js:25-32 | `--help` exits 0 with no writes, whatever the directories, `.sequelizerc` and files are |
| MakeMigration.ExitCodes | bin/makemigration.js:39-70 | exit 1 exactly on a configuration error, a missing models or migrations directory, or a missing `<models>/index.js` (its import rejects), otherwise 0; only a saving run writes files |
| MakeMigration.NoWritesWithoutChangesOrOnPreview | bin/makemigration.js:81-93 | past the checks nothing is written iff there are no up commands or `--preview` is given; the down commands play no part |
| MakeMigration.SaveOrder | bin/makemigration.js:95-117 | a save writes the backup first (only when `_current.json` exists), then the snapshot, then the migration file |
| MakeMigration.SavedFiles | bin/makemigration.js:95-108 | after a save the backup holds the old `_current.json` and `_current.json` holds the next revision with the models' tables and no version; without an old snapshot the backup is untouched |
| MakeMigration.FirstRevisionIsOne | bin/makemigration.js:55-65 | with no readable `_current.json` the first revision saved is 1 |
| MakeMigration.ConsecutiveRuns | bin/makemigration.js:61-108 | a second run starts from the first run's tables, saves the next revision, and reports no changes, writing nothing, when the engine finds no up commands between the first run's tables and the models' tables |
| MakeMigration.SavedArtifactAndExecution | bin/makemigration.js:111-139 | the migration file gets the new revision, the migration, the directory, the name (default "noname") and the comment (default ""); `--execute` runs it forward from position 0 in a transaction |
| MakeMigration.DefaultNameAndComment | bin/makemigration.js:115-116 | an empty or absent name means "noname"; an empty or absent comment means "" |

## Left out

- `lib/migrate.js` is not part of this model. `reverseModels`, `parseDifference`, `sortActions`, `getMigration` and `writeMigration` are function-valued inputs. `executeMigration` appears only as the record of the calls made to it, and its outcome for each file is an input.
- Console output is not modelled: the help text, the file list printed, the action summary and the beautified preview.
- `parseInt` is modelled on ASCII digits only, with an unbounded integer result. Leading whitespace, a sign and the `0x` prefix are not modelled, nor are non-integer or non-numeric `--rev` and `--pos` values. `parseInt` returns a double, so revision fields of 2^53 or more lose precision and can compare equal in the source; the model compares them exactly.
- The runner sorts before it filters. A visible `.js` entry with a NaN revision (such as `index.js`) makes the comparator answer NaN, which JavaScript treats as +0, "equal". The comparator is then inconsistent, and the order of the whole sorted array is implementation-defined, the numbered files included. For example, the listing `2-b.js`, `index.js`, `1-a.js` compares equal at both adjacent pairs, V8 keeps it as one run, and after the filter the source runs `2-b.js` before `1-a.js`. The model filters first, then sorts stably, and runs `1-a.js` first. Which files run is the same either way (MigrationFilesSelection does not depend on order); the order is modelled only for listings whose visible `.js` entries all start with a digit.
- RunMigration.MigrationFilesOrder: describes the source's order only for listings where every visible `.js` entry has a revision (starts with a digit); otherwise the source's order is implementation-defined, as above.
- RunMigration.RollbackOnlyReorders: the reverse-order half describes the source only for listings where every visible `.js` entry has a revision; the same-files half holds for every listing.
- RunMigration.EqualRevisionsKeepListingOrder: describes the source only for listings where every visible `.js` entry has a revision; the two-entry listings it is stated for are of that kind, since both entries are selected.
- `path.join` normalisation of `.`, `..` and doubled separators is not modelled. Joining is plain concatenation with '/'.
- `path.basename` is the identity here, because directory entries contain no separator.
- The text form of `JSON.stringify`/`JSON.parse` is taken as a codec input. A `_current.json` that parses but lacks `revision` or `tables` is not modelled: `Snapshot` always has both.
- A failure to import `.sequelizerc`, or a models `index.js` that exists but fails to load, is not modelled, nor is a failure of the diff engine; the models' tables are an input. A missing `index.js` is modelled (MissingModelsIndex).
- File-system failures are not modelled: `FileStore` reads and writes always succeed, whereas a failing `readFileSync`/`writeFileSync` (bin/makemigration.js:97-100, 105-108) or a `readdirSync` on a path that is not a directory (bin/runmigration.js:60) throws and ends the process with exit code 1.
- Asynchrony is not modelled. `await`, `Async.eachSeries` and the callback of `executeMigration` become a sequential loop. After `--execute` the exit code is 0 whatever the execution's outcome, as in the callback.
- RunMigration.RunBatch: with `--one` the first callback returns without settling its promise, so nothing further happens and `process.exit` is never called. The model records this as a halted run with no exit code. What the Node.js process does when its event loop drains is not modelled.
