/** Values shared by the two command-line drivers and the directory resolver. */
module Common {

  datatype Option<+T> = None | Some(value: T)

  /** JavaScript truthiness of an optional string: an absent value and "" are both falsy. */
  predicate Truthy(o: Option<string>) {
    o.Some? && o.value != ""
  }

  /** The JavaScript idiom `value || fallback` on an optional string. */
  function OrElse(o: Option<string>, fallback: string): string {
    if Truthy(o) then o.value else fallback
  }

  /** `path.join(dir, name)`, without the normalisation of `.`/`..` and doubled separators. */
  function Join(dir: string, name: string): string {
    dir + "/" + name
  }

  /** The arguments of one call to `migrate.executeMigration` (the query interface aside). */
  datatype ExecuteCall = ExecuteCall(
    migrationFile: string,
    useTransaction: bool,
    position: int,
    rollback: bool)
}
