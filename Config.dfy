/** The client configuration: each field read from the environment with a fallback,
    the "is this service configured" test, and the development-time warnings. */
module Config {
  import opened Js

  /** The environment variables the configuration reads; `None` is an unset variable. */
  datatype Environment = Environment(
    nextPublicApiUrl: Option<string>,
    mongodbUri: Option<string>,
    jwtSecret: Option<string>,
    gmailAppCode: Option<string>,
    geminiApiKey: Option<string>,
    nodeEnv: Option<string>)

  datatype Config = Config(
    apiUrl: string,
    mongodbUri: string,
    jwtSecret: string,
    gmailAppCode: string,
    geminiApiKey: Option<string>,
    isProduction: bool)

  /** The keys of a `Config`, the only arguments `isServiceConfigured` accepts. */
  datatype Key = ApiUrl | MongodbUri | JwtSecret | GmailAppCode | GeminiApiKey | IsProduction

  const DefaultApiUrl := "http://localhost:5000/api"
  const DefaultMongodbUri := "mongodb://localhost:27017/eduapp"
  const DefaultJwtSecret := "dev_jwt_secret_do_not_use_in_production"

  const MongodbWarning := "Warning: Using local MongoDB. Set MONGODB_URI for production."
  const JwtSecretWarning := "Warning: Using development JWT secret. Set JWT_SECRET for production."

  /** `env || fallback` for an environment string: an unset or empty variable gives the fallback. */
  function OrElse(env: Option<string>, fallback: Option<string>): (r: Option<string>)
    ensures Present(env) ==> r == env
    ensures !Present(env) ==> r == fallback
  {
    if Present(env) then env else fallback
  }

  /** The configuration object, built once from the environment. */
  function Load(env: Environment): (c: Config)
    ensures Present(env.nextPublicApiUrl) ==> c.apiUrl == env.nextPublicApiUrl.value
    ensures !Present(env.nextPublicApiUrl) ==> c.apiUrl == DefaultApiUrl
    ensures Present(env.mongodbUri) ==> c.mongodbUri == env.mongodbUri.value
    ensures !Present(env.mongodbUri) ==> c.mongodbUri == DefaultMongodbUri
    ensures Present(env.jwtSecret) ==> c.jwtSecret == env.jwtSecret.value
    ensures !Present(env.jwtSecret) ==> c.jwtSecret == DefaultJwtSecret
    ensures Present(env.gmailAppCode) ==> c.gmailAppCode == env.gmailAppCode.value
    ensures !Present(env.gmailAppCode) ==> c.gmailAppCode == ""
    ensures c.geminiApiKey == (if Present(env.geminiApiKey) then env.geminiApiKey else None)
    ensures c.isProduction <==> env.nodeEnv == Some("production")
  {
    Config(
      OrElse(env.nextPublicApiUrl, Some(DefaultApiUrl)).value,
      OrElse(env.mongodbUri, Some(DefaultMongodbUri)).value,
      OrElse(env.jwtSecret, Some(DefaultJwtSecret)).value,
      OrElse(env.gmailAppCode, Some("")).value,
      OrElse(env.geminiApiKey, None),
      env.nodeEnv == Some("production"))
  }

  /** `isServiceConfigured(key)`: outside production the three server settings always count as
      configured, in production exactly when they differ from their fallback; the two optional
      credentials count when they are set; any other key is not a service. */
  function IsServiceConfigured(c: Config, key: Key): (r: bool)
    ensures key in {ApiUrl, MongodbUri, JwtSecret} && !c.isProduction ==> r
    ensures key == ApiUrl && c.isProduction ==> (r <==> c.apiUrl != DefaultApiUrl)
    ensures key == MongodbUri && c.isProduction ==> (r <==> c.mongodbUri != DefaultMongodbUri)
    ensures key == JwtSecret && c.isProduction ==> (r <==> c.jwtSecret != DefaultJwtSecret)
    ensures key == GmailAppCode ==> (r <==> c.gmailAppCode != "")
    ensures key == GeminiApiKey ==> (r <==> Present(c.geminiApiKey))
    ensures key == IsProduction ==> !r
  {
    match key
    case ApiUrl => c.apiUrl != DefaultApiUrl || !c.isProduction
    case MongodbUri => c.mongodbUri != DefaultMongodbUri || !c.isProduction
    case JwtSecret => c.jwtSecret != DefaultJwtSecret || !c.isProduction
    case GmailAppCode => c.gmailAppCode != ""
    case GeminiApiKey => Present(c.geminiApiKey)
    case IsProduction => false
  }

  /** The warnings `logConfigWarnings` prints, in order. It only looks outside production,
      where `IsServiceConfigured` holds for both settings it asks about, so it prints nothing. */
  function ConfigWarnings(c: Config): (w: seq<string>)
    ensures w == []
  {
    if c.isProduction then []
    else
      (if !IsServiceConfigured(c, MongodbUri) then [MongodbWarning] else []) +
      (if !IsServiceConfigured(c, JwtSecret) then [JwtSecretWarning] else [])
  }

  /** The warnings as their wording means them: outside production, one for each server setting
      that still holds its development fallback. */
  function IntendedConfigWarnings(c: Config): (w: seq<string>)
    ensures MongodbWarning in w <==> !c.isProduction && c.mongodbUri == DefaultMongodbUri
    ensures JwtSecretWarning in w <==> !c.isProduction && c.jwtSecret == DefaultJwtSecret
    ensures c.isProduction ==> w == []
    ensures forall i :: 0 <= i < |w| ==> w[i] == MongodbWarning || w[i] == JwtSecretWarning
    ensures forall i, j :: 0 <= i < j < |w| ==> w[i] != w[j]
    ensures MongodbWarning in w && JwtSecretWarning in w ==> w == [MongodbWarning, JwtSecretWarning]
  {
    if c.isProduction then []
    else
      (if c.mongodbUri == DefaultMongodbUri then [MongodbWarning] else []) +
      (if c.jwtSecret == DefaultJwtSecret then [JwtSecretWarning] else [])
  }

  /** With no environment set, the development configuration triggers both intended warnings
      and none of the written ones. */
  lemma WarningsSilencedInDevelopment()
    ensures var c := Load(Environment(None, None, None, None, None, None));
      ConfigWarnings(c) == [] && IntendedConfigWarnings(c) == [MongodbWarning, JwtSecretWarning]
  {
  }
}
