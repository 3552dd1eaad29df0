/** The start-up check `MonitoringSystem.validate_email_credentials`, identical
    in both versions of the monitor: every mail setting must be present in the
    process environment and non-empty, or start-up fails listing the missing
    ones in a fixed order. */
module Credentials {
  import opened Text

  /** The settings the mail sender needs, in the order they are reported. */
  const RequiredVars: seq<string> :=
    ["SMTP_SERVER", "SMTP_USERNAME", "SMTP_PASSWORD", "SENDER_EMAIL", "RECIPIENT_EMAIL"]

  const ErrorPrefix: string := "Missing required environment variables: "

  /** The process environment, from variable name to value. */
  type Environment = map<string, string>

  /** `not os.getenv(name)`: the variable is unset or set to the empty string. */
  predicate IsMissing(env: Environment, name: string)
  {
    name !in env || env[name] == ""
  }

  /** `xs` is `ys` with some elements dropped and the rest kept in order. */
  ghost predicate SubsequenceOf(xs: seq<string>, ys: seq<string>)
    decreases |ys|
  {
    if xs == [] then true
    else if ys == [] then false
    else if xs[0] == ys[0] then SubsequenceOf(xs[1..], ys[1..])
    else SubsequenceOf(xs, ys[1..])
  }

  /** The list comprehension `[var for var in names if not os.getenv(var)]`. */
  function MissingAmong(env: Environment, names: seq<string>): (missing: seq<string>)
    ensures forall v :: v in missing <==> v in names && IsMissing(env, v)
    ensures SubsequenceOf(missing, names)
  {
    if names == [] then []
    else if IsMissing(env, names[0]) then [names[0]] + MissingAmong(env, names[1..])
    else MissingAmong(env, names[1..])
  }

  /** Either start-up may go on, or it raises `EnvironmentError` naming the
      missing variables. */
  datatype Validation = Validated | EnvironmentError(missing: seq<string>)

  function ValidateEmailCredentials(env: Environment): (r: Validation)
    ensures r.Validated? <==> forall v :: v in RequiredVars ==> !IsMissing(env, v)
    ensures r.EnvironmentError? ==>
      && r.missing != []
      && (forall v :: v in r.missing <==> v in RequiredVars && IsMissing(env, v))
      && SubsequenceOf(r.missing, RequiredVars)
  {
    var missing := MissingAmong(env, RequiredVars);
    if missing == [] then Validated
    else assert missing[0] in missing; EnvironmentError(missing)
  }

  /** The text of the raised error. */
  function ErrorMessage(missing: seq<string>): string
  {
    ErrorPrefix + Join(missing, ", ")
  }

  /** With only the password unset or blank, start-up fails naming exactly it. */
  lemma OnlyPasswordMissing(env: Environment)
    requires !IsMissing(env, "SMTP_SERVER") && !IsMissing(env, "SMTP_USERNAME")
    requires !IsMissing(env, "SENDER_EMAIL") && !IsMissing(env, "RECIPIENT_EMAIL")
    requires IsMissing(env, "SMTP_PASSWORD")
    ensures ValidateEmailCredentials(env) == EnvironmentError(["SMTP_PASSWORD"])
    ensures ErrorMessage(ValidateEmailCredentials(env).missing) == ErrorPrefix + "SMTP_PASSWORD"
  {
    var rv := RequiredVars;
    assert MissingAmong(env, rv[4..]) == [] by { assert rv[4..][1..] == []; }
    assert MissingAmong(env, rv[3..]) == [] by { assert rv[3..][1..] == rv[4..]; }
    assert MissingAmong(env, rv[2..]) == ["SMTP_PASSWORD"] by { assert rv[2..][1..] == rv[3..]; }
    assert MissingAmong(env, rv[1..]) == ["SMTP_PASSWORD"] by { assert rv[1..][1..] == rv[2..]; }
  }
}
