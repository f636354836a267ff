/** `env(key, fallback)` of `config/env.ts`: read a build-time setting, falling back when it
    is absent or blank, and failing when there is no fallback. */
module Env {
  import opened Wrappers
  import opened Text

  /** A build-time setting: absent, `null`, a string or a boolean. */
  datatype EnvValue = Undefined | Null | Str(s: string) | Bool(b: bool)

  /** `String(v)`. */
  function StringOf(v: EnvValue): string {
    match v
    case Undefined => "undefined"
    case Null => "null"
    case Str(s) => s
    case Bool(b) => if b then "true" else "false"
  }

  /** Absent, `null`, or whitespace only once converted to a string. */
  predicate IsBlank(v: EnvValue) {
    v.Undefined? || v.Null? || Trim(StringOf(v)) == ""
  }

  datatype EnvError = MissingEnvVar(key: string)

  function ValueOf(vars: map<string, EnvValue>, key: string): EnvValue {
    if key in vars then vars[key] else Undefined
  }

  /** `env(key, fallback)`. */
  function Lookup(vars: map<string, EnvValue>, key: string, fallback: Option<string>): (r: Result<string, EnvError>)
    ensures !IsBlank(ValueOf(vars, key)) ==> r == Ok(StringOf(ValueOf(vars, key)))
    ensures IsBlank(ValueOf(vars, key)) && fallback.Some? ==> r == Ok(fallback.value)
    ensures r.Err? <==> IsBlank(ValueOf(vars, key)) && fallback.None?
    ensures r.Err? ==> r.error == MissingEnvVar(key)
  {
    var v := ValueOf(vars, key);
    if v.Undefined? || v.Null? || Trim(StringOf(v)) == "" then
      if fallback.Some? then Ok(fallback.value) else Err(MissingEnvVar(key))
    else
      Ok(StringOf(v))
  }

  /** The value itself is returned, not its trimmed form: surrounding whitespace survives. */
  lemma LookupKeepsWhitespace(vars: map<string, EnvValue>, key: string, s: string, fallback: Option<string>)
    requires ValueOf(vars, key) == Str(s) && !AllWhitespace(s)
    ensures Lookup(vars, key, fallback) == Ok(s)
  {
    TrimBlank(s);
  }

  /** The fallback matters only when the setting is blank. */
  lemma FallbackIgnoredWhenSet(vars: map<string, EnvValue>, key: string, f1: Option<string>, f2: Option<string>)
    requires !IsBlank(ValueOf(vars, key))
    ensures Lookup(vars, key, f1) == Lookup(vars, key, f2)
  {
  }
}
