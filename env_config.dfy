/**
 * The environment-configuration loader of the backend (backend/config/env.js).
 *
 * It builds a five-field record from the process environment, substituting
 * defaults for NODE_ENV, PORT and JWT_EXPIRE, copying MONGODB_URI and
 * JWT_SECRET through, and then checks the two required fields in a fixed
 * order, failing on the first one that is falsy. The environment is an input
 * map; a thrown error is an `Err` result.
 */
module EnvConfig {
  import opened Wrappers
  import opened JsValues

  type Environment = map<string, string>

  /** The five keys of the configuration record, in declaration order. */
  const Keys: seq<string> := ["NODE_ENV", "PORT", "MONGODB_URI", "JWT_SECRET", "JWT_EXPIRE"]

  /** The required variables, in the order they are checked. */
  const Required: seq<string> := ["MONGODB_URI", "JWT_SECRET"]

  const DefaultNodeEnv: string := "development"
  const DefaultPort: int := 5000
  const DefaultJwtExpire: string := "30d"

  /**
   * A variable that JavaScript reads as falsy: not set at all, or set to the
   * empty string. `process.env` only holds strings, so these are the only
   * two ways.
   */
  predicate MissingOrEmpty(env: Environment, key: string) {
    key !in env || env[key] == ""
  }

  /** The configuration record; every field holds a JavaScript value. */
  datatype EnvRecord = EnvRecord(
    nodeEnv: JsValue,
    port: JsValue,
    mongodbUri: JsValue,
    jwtSecret: JsValue,
    jwtExpire: JsValue)

  /**
   * Property access `record[name]` by a computed name, over the record's own
   * properties: the field with that key, and `undefined` for any other name.
   * Members inherited from `Object.prototype` are not modelled.
   */
  function Field(rec: EnvRecord, name: string): JsValue {
    if name == "NODE_ENV" then rec.nodeEnv
    else if name == "PORT" then rec.port
    else if name == "MONGODB_URI" then rec.mongodbUri
    else if name == "JWT_SECRET" then rec.jwtSecret
    else if name == "JWT_EXPIRE" then rec.jwtExpire
    else Undefined
  }

  /**
   * The record literal: each field is `process.env.KEY`, combined with `||`
   * and a default for the three optional keys. Its contract states each field
   * in terms of the environment map.
   */
  function BuildEnv(env: Environment): (r: EnvRecord)
    ensures r.nodeEnv == Str(if MissingOrEmpty(env, "NODE_ENV") then DefaultNodeEnv else env["NODE_ENV"])
    ensures r.port == if MissingOrEmpty(env, "PORT") then Num(DefaultPort) else Str(env["PORT"])
    ensures r.mongodbUri == if "MONGODB_URI" in env then Str(env["MONGODB_URI"]) else Undefined
    ensures r.jwtSecret == if "JWT_SECRET" in env then Str(env["JWT_SECRET"]) else Undefined
    ensures r.jwtExpire == Str(if MissingOrEmpty(env, "JWT_EXPIRE") then DefaultJwtExpire else env["JWT_EXPIRE"])
  {
    EnvRecord(
      nodeEnv := Or(Lookup(env, "NODE_ENV"), Str(DefaultNodeEnv)),
      port := Or(Lookup(env, "PORT"), Num(DefaultPort)),
      mongodbUri := Lookup(env, "MONGODB_URI"),
      jwtSecret := Lookup(env, "JWT_SECRET"),
      jwtExpire := Or(Lookup(env, "JWT_EXPIRE"), Str(DefaultJwtExpire)))
  }

  /**
   * The `forEach` over the required names that throws on the first falsy
   * field: the index of the first name whose field is falsy, or `None` when
   * every field is truthy.
   */
  function FirstMissing(rec: EnvRecord, names: seq<string>): (r: Option<nat>)
    ensures r.Some? ==> r.value < |names| && !Truthy(Field(rec, names[r.value]))
    ensures r.Some? ==> forall j :: 0 <= j < r.value ==> Truthy(Field(rec, names[j]))
    ensures r.None? <==> forall j :: 0 <= j < |names| ==> Truthy(Field(rec, names[j]))
  {
    if |names| == 0 then None
    else if !Truthy(Field(rec, names[0])) then Some(0)
    else match FirstMissing(rec, names[1..])
      case None => None
      case Some(i) => Some(i + 1)
  }

  /** The message of the error thrown for a missing variable. */
  function ErrorMessage(name: string): string {
    "Environment variable " + name + " is required"
  }

  /**
   * The validation step: the record itself when both required fields are
   * truthy, otherwise the error naming the first falsy one in list order.
   */
  function Validate(rec: EnvRecord): (r: Result<EnvRecord, string>)
    ensures r.Ok? <==> Truthy(rec.mongodbUri) && Truthy(rec.jwtSecret)
    ensures r.Ok? ==> r.value == rec
    ensures !Truthy(rec.mongodbUri) ==> r == Err(ErrorMessage("MONGODB_URI"))
    ensures Truthy(rec.mongodbUri) && !Truthy(rec.jwtSecret) ==> r == Err(ErrorMessage("JWT_SECRET"))
  {
    match FirstMissing(rec, Required)
    case None =>
      assert Field(rec, Required[0]) == rec.mongodbUri && Field(rec, Required[1]) == rec.jwtSecret;
      Ok(rec)
    case Some(i) => Err(ErrorMessage(Required[i]))
  }

  /**
   * Loading the module: build the record from the environment and validate
   * it. Failure happens exactly when a required variable is unset or empty,
   * and the error names MONGODB_URI whenever that one is missing.
   */
  function Load(env: Environment): (r: Result<EnvRecord, string>)
    ensures r.Err? <==> MissingOrEmpty(env, "MONGODB_URI") || MissingOrEmpty(env, "JWT_SECRET")
    ensures MissingOrEmpty(env, "MONGODB_URI") ==> r == Err(ErrorMessage("MONGODB_URI"))
    ensures !MissingOrEmpty(env, "MONGODB_URI") && MissingOrEmpty(env, "JWT_SECRET") ==> r == Err(ErrorMessage("JWT_SECRET"))
    ensures r.Ok? ==> r.value == BuildEnv(env)
  {
    Validate(BuildEnv(env))
  }

  /**
   * The optional variables never decide the outcome: two environments that
   * agree on the required variables load to the same error, or both succeed.
   */
  lemma OptionalNeverCauseFailure(env1: Environment, env2: Environment)
    requires forall k :: k in Required ==> (k in env1 <==> k in env2)
    requires forall k :: k in Required && k in env1 ==> env1[k] == env2[k]
    ensures Load(env1).Err? <==> Load(env2).Err?
    ensures Load(env1).Err? ==> Load(env1) == Load(env2)
  {
  }

  /**
   * On success the record has exactly the five own properties, each holding a
   * defined value, and the required ones hold non-empty strings taken unchanged from
   * the environment.
   */
  lemma LoadedRecordShape(env: Environment)
    requires Load(env).Ok?
    ensures forall name :: Field(Load(env).value, name) != Undefined <==> name in Keys
    ensures Load(env).value.mongodbUri == Str(env["MONGODB_URI"]) && env["MONGODB_URI"] != ""
    ensures Load(env).value.jwtSecret == Str(env["JWT_SECRET"]) && env["JWT_SECRET"] != ""
  {
  }

  /** The error message names its variable: distinct names give distinct messages. */
  lemma ErrorMessageInjective(a: string, b: string)
    requires ErrorMessage(a) == ErrorMessage(b)
    ensures a == b
  {
    var prefix := "Environment variable ";
    var m := ErrorMessage(a);
    assert |a| == |b|;
    assert m[|prefix|..|prefix| + |a|] == a;
    assert ErrorMessage(b)[|prefix|..|prefix| + |b|] == b;
  }
}
