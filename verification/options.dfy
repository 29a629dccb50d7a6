/** Optional values and the outcomes of foreign computations, shared by
    every module of the model. */
module Options {

  /** Python's `None` / JavaScript's `null`, or a value. */
  datatype Option<+T> = None | Some(value: T)

  /** The outcome of a foreign computation the model does not look inside:
      either its value or the text of the exception it raised. */
  datatype Result<+T> = Success(value: T) | Failure(message: string)

  predicate StartsWith(s: string, prefix: string) {
    |prefix| <= |s| && s[..|prefix|] == prefix
  }

  predicate EndsWith(s: string, suffix: string) {
    |suffix| <= |s| && s[|s| - |suffix|..] == suffix
  }
}
