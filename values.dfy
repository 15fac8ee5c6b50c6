/** The Ruby option hashes the plugin passes around: keys are symbol names,
    values are the few kinds of Ruby object the options take. */
module Values {
  import opened Text

  datatype Value =
    | Nil
    | Bool(b: bool)
    | Int(i: int)
    | Str(s: string)
    | List(items: seq<string>)

  /** An options hash, `{ :key => value }`, keyed by the symbol's name. */
  type Hash = map<string, Value>

  /** Ruby truthiness: everything except `nil` and `false`. */
  predicate Truthy(v: Value) {
    v != Nil && v != Bool(false)
  }

  /** `hash[key]`: `nil` for a missing key. */
  function Lookup(h: Hash, key: string): (v: Value)
    ensures key !in h ==> v == Nil
  {
    if key in h then h[key] else Nil
  }

  /** String interpolation `"#{v}"`, i.e. `v.to_s`; an array renders as its `inspect`. */
  function ToS(v: Value): string {
    match v
    case Nil => ""
    case Bool(b) => if b then "true" else "false"
    case Int(i) => IntToString(i)
    case Str(s) => s
    case List(items) => Inspect(items)
  }

  // Option keys of the plugin, as symbol names.
  const NOTIFICATIONS := "notifications"
  const RUN_ON_START := "run_on_start"
  const CHATTY := "chatty"
  const MIN_CONFIDENCE := "min_confidence"
  const QUIET := "quiet"
  const SUPPORT_RESCANNING := "support_rescanning"
  const SKIP_CHECKS := "skip_checks"
  const URL_SAFE_METHODS := "url_safe_methods"
  const OUTPUT_FILES := "output_files"
  const OUTPUT_FORMATS := "output_formats"
  const APP_PATH := "app_path"

  // Option keys of the runner, as symbol names.
  const MESSAGE := "message"
  const RVM := "rvm"
  const BUNDLER := "bundler"
  const CLI := "cli"
  const OUTPUT := "output"
  const NOTIFICATION := "notification"
}
