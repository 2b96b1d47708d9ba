/** Environment variables as the handlers read them with `os.getenv`. */
module Env {
  import opened Wrappers

  /** A variable counts as set when it is present and non-empty, as `all([...])` tests it. */
  predicate Configured(v: Option<string>) {
    v.Some? && v.value != ""
  }
}
