/** The credential store: one JSON record in the user's home directory
    (`~/.spotify-mcp-tokens.json`), modelled as a string map, plus the process
    environment, modelled as another string map. Two generations exist:
    the newer one (build/core/configuracion.js) resolves the identity from the
    file first and merges on save; the older one (src/core/configuracion.ts)
    takes the identity from the environment only and saves the tokens alone. */
module CredentialStore {
  import opened Common

  /** ConfiguracionSpotify: tokens are `undefined` when absent. */
  datatype Config = Config(
    clientId: string,
    clientSecret: string,
    redirectUri: string,
    accessToken: Option<string>,
    refreshToken: Option<string>)

  /** The token file on disk: absent, present but not JSON, or a parsed record. */
  datatype FileState = Missing | Unparsable | Parsed(record: map<string, string>)

  type Env = map<string, string>

  /** Which generation of the store a caller is wired to. */
  datatype StoreVersion =
    | FileFirst   // build/core/configuracion.js
    | EnvOnly     // src/core/configuracion.ts

  const ClientIdKey := "clientId"
  const ClientSecretKey := "clientSecret"
  const RedirectUriKey := "redirectUri"
  const AccessTokenKey := "accessToken"
  const RefreshTokenKey := "refreshToken"
  const TokenKeys := {AccessTokenKey, RefreshTokenKey}
  const ConfigKeys := {ClientIdKey, ClientSecretKey, RedirectUriKey, AccessTokenKey, RefreshTokenKey}

  const EnvClientId := "SPOTIFY_CLIENT_ID"
  const EnvClientSecret := "SPOTIFY_CLIENT_SECRET"
  const EnvRedirectUri := "SPOTIFY_REDIRECT_URI"

  const FileFirstDefaultRedirect := "http://127.0.0.1:8000/callback"
  const EnvOnlyDefaultRedirect := "http://127.0.0.1:8080/callback"

  const FileFirstMissingIdentity := "Credenciales no configuradas. Usa spotifyAuth con accion=\"configurar\", clientId=\"tu_id\", clientSecret=\"tu_secret\""
  const EnvOnlyMissingIdentity := "Faltan SPOTIFY_CLIENT_ID y/o SPOTIFY_CLIENT_SECRET en las variables de entorno del mcp.json"

  /** `record.key`, `undefined` when the key is absent. */
  function Lookup(m: map<string, string>, key: string): Option<string> {
    if key in m then Some(m[key]) else None
  }

  /** cargarDatosGuardados / cargarTokens: a missing or unreadable file reads as `{}`. */
  function StoredRecord(f: FileState): (r: map<string, string>)
    ensures f.Parsed? ==> r == f.record
    ensures !f.Parsed? ==> r == map[]
  {
    if f.Parsed? then f.record else map[]
  }

  /** The keys `JSON.stringify` writes for the two tokens: an `undefined` token is dropped. */
  function TokenEntries(c: Config): (r: map<string, string>)
    ensures r.Keys <= TokenKeys
    ensures AccessTokenKey in r <==> c.accessToken.Some?
    ensures RefreshTokenKey in r <==> c.refreshToken.Some?
  {
    (if c.accessToken.Some? then map[AccessTokenKey := c.accessToken.value] else map[])
    + (if c.refreshToken.Some? then map[RefreshTokenKey := c.refreshToken.value] else map[])
  }

  // ---------------------------------------------------------------------------
  // Newer generation: file first, then environment, then default.

  /** cargarConfiguracion (build/core/configuracion.js) over an already read record. */
  function ResolveFileFirst(rec: map<string, string>, env: Env): (r: Result<Config, string>)
    ensures r.Success? <==>
      Truthy(OrElse(Lookup(rec, ClientIdKey), Lookup(env, EnvClientId)))
      && Truthy(OrElse(Lookup(rec, ClientSecretKey), Lookup(env, EnvClientSecret)))
    ensures r.Failure? ==> r.error == FileFirstMissingIdentity
    ensures r.Success? ==>
      && r.value.clientId != "" && r.value.clientSecret != "" && r.value.redirectUri != ""
      && (Truthy(Lookup(rec, ClientIdKey)) ==> r.value.clientId == rec[ClientIdKey])
      && (!Truthy(Lookup(rec, ClientIdKey)) ==> r.value.clientId == env[EnvClientId])
      && (Truthy(Lookup(rec, ClientSecretKey)) ==> r.value.clientSecret == rec[ClientSecretKey])
      && (!Truthy(Lookup(rec, ClientSecretKey)) ==> r.value.clientSecret == env[EnvClientSecret])
      && r.value.accessToken == Lookup(rec, AccessTokenKey)
      && r.value.refreshToken == Lookup(rec, RefreshTokenKey)
  {
    var clientId := OrElse(Lookup(rec, ClientIdKey), Lookup(env, EnvClientId));
    var clientSecret := OrElse(Lookup(rec, ClientSecretKey), Lookup(env, EnvClientSecret));
    var redirectUri := OrElse(OrElse(Lookup(rec, RedirectUriKey), Lookup(env, EnvRedirectUri)), Some(FileFirstDefaultRedirect));
    if !Truthy(clientId) || !Truthy(clientSecret) then
      Failure(FileFirstMissingIdentity)
    else
      Success(Config(clientId.value, clientSecret.value, redirectUri.value,
                     Lookup(rec, AccessTokenKey), Lookup(rec, RefreshTokenKey)))
  }

  /** The redirect URI resolves file, then environment, then the port-8000 default. */
  lemma RedirectPriority(rec: map<string, string>, env: Env)
    requires ResolveFileFirst(rec, env).Success?
    ensures var uri := ResolveFileFirst(rec, env).value.redirectUri;
      && (Truthy(Lookup(rec, RedirectUriKey)) ==> uri == rec[RedirectUriKey])
      && (!Truthy(Lookup(rec, RedirectUriKey)) && Truthy(Lookup(env, EnvRedirectUri)) ==> uri == env[EnvRedirectUri])
      && (!Truthy(Lookup(rec, RedirectUriKey)) && !Truthy(Lookup(env, EnvRedirectUri)) ==> uri == FileFirstDefaultRedirect)
  {
  }

  /** Tokens never come from the environment: two environments that agree on
      the identity yield the same configuration. */
  lemma TokensIgnoreEnvironment(rec: map<string, string>, env1: Env, env2: Env)
    requires ResolveFileFirst(rec, env1).Success? && ResolveFileFirst(rec, env2).Success?
    ensures ResolveFileFirst(rec, env1).value.accessToken == ResolveFileFirst(rec, env2).value.accessToken
    ensures ResolveFileFirst(rec, env1).value.refreshToken == ResolveFileFirst(rec, env2).value.refreshToken
  {
  }

  /** guardarConfiguracion (build): spread the current record, overwrite the five
      configuration keys; an `undefined` token removes that key from the file. */
  function MergedRecord(rec: map<string, string>, c: Config): (r: map<string, string>)
    ensures forall k :: k in rec && k !in ConfigKeys ==> k in r && r[k] == rec[k]
    ensures r.Keys == (rec.Keys - TokenKeys) + {ClientIdKey, ClientSecretKey, RedirectUriKey} + TokenEntries(c).Keys
    ensures r[ClientIdKey] == c.clientId && r[ClientSecretKey] == c.clientSecret && r[RedirectUriKey] == c.redirectUri
    ensures Lookup(r, AccessTokenKey) == c.accessToken && Lookup(r, RefreshTokenKey) == c.refreshToken
  {
    (rec - TokenKeys)
    + map[ClientIdKey := c.clientId, ClientSecretKey := c.clientSecret, RedirectUriKey := c.redirectUri]
    + TokenEntries(c)
  }

  /** Load after a merged save gives back the saved configuration, whatever the
      file held before and whatever the environment says. */
  lemma {:induction false} LoadAfterMergedSave(rec: map<string, string>, c: Config, env: Env)
    requires c.clientId != "" && c.clientSecret != "" && c.redirectUri != ""
    ensures ResolveFileFirst(MergedRecord(rec, c), env) == Success(c)
  {
    var m := MergedRecord(rec, c);
    assert Lookup(m, ClientIdKey) == Some(c.clientId);
    assert Lookup(m, ClientSecretKey) == Some(c.clientSecret);
    assert Lookup(m, RedirectUriKey) == Some(c.redirectUri);
  }

  /** Saving a configuration without tokens leaves no token in the file, so the
      next load reports none. */
  lemma SaveWithoutTokensForgetsTokens(rec: map<string, string>, c: Config, env: Env)
    requires c.accessToken.None? && c.refreshToken.None?
    ensures AccessTokenKey !in MergedRecord(rec, c) && RefreshTokenKey !in MergedRecord(rec, c)
    ensures ResolveFileFirst(MergedRecord(rec, c), env).Success? ==>
      ResolveFileFirst(MergedRecord(rec, c), env).value.accessToken.None?
      && ResolveFileFirst(MergedRecord(rec, c), env).value.refreshToken.None?
  {
  }

  // ---------------------------------------------------------------------------
  // Older generation: identity from the environment only, tokens from the file.

  /** cargarConfiguracion (src/core/configuracion.ts) over an already read record. */
  function ResolveEnvOnly(env: Env, rec: map<string, string>): (r: Result<Config, string>)
    ensures r.Success? <==> Truthy(Lookup(env, EnvClientId)) && Truthy(Lookup(env, EnvClientSecret))
    ensures r.Failure? ==> r.error == EnvOnlyMissingIdentity
    ensures r.Success? ==>
      && r.value.clientId == env[EnvClientId] && r.value.clientSecret == env[EnvClientSecret]
      && r.value.redirectUri == (if Truthy(Lookup(env, EnvRedirectUri)) then env[EnvRedirectUri] else EnvOnlyDefaultRedirect)
      && r.value.accessToken == Lookup(rec, AccessTokenKey)
      && r.value.refreshToken == Lookup(rec, RefreshTokenKey)
  {
    var clientId := Lookup(env, EnvClientId);
    var clientSecret := Lookup(env, EnvClientSecret);
    var redirectUri := OrElse(Lookup(env, EnvRedirectUri), Some(EnvOnlyDefaultRedirect));
    if !Truthy(clientId) || !Truthy(clientSecret) then
      Failure(EnvOnlyMissingIdentity)
    else
      Success(Config(clientId.value, clientSecret.value, redirectUri.value,
                     Lookup(rec, AccessTokenKey), Lookup(rec, RefreshTokenKey)))
  }

  /** The identity check comes before the token file is read: when it fails, the
      file's contents make no difference. */
  lemma EnvOnlyChecksIdentityFirst(env: Env, rec1: map<string, string>, rec2: map<string, string>)
    requires !Truthy(Lookup(env, EnvClientId)) || !Truthy(Lookup(env, EnvClientSecret))
    ensures ResolveEnvOnly(env, rec1) == ResolveEnvOnly(env, rec2) == Failure(EnvOnlyMissingIdentity)
  {
  }

  /** guardarConfiguracion (src): the file becomes exactly the two tokens. */
  function TokenRecord(c: Config): (r: map<string, string>)
    ensures r.Keys <= TokenKeys
    ensures Lookup(r, AccessTokenKey) == c.accessToken && Lookup(r, RefreshTokenKey) == c.refreshToken
  {
    TokenEntries(c)
  }

  /** With a fixed environment, load after a token save returns the saved tokens
      (and nothing of the saved identity). */
  lemma LoadAfterTokenSave(env: Env, c: Config)
    requires Truthy(Lookup(env, EnvClientId)) && Truthy(Lookup(env, EnvClientSecret))
    ensures var r := ResolveEnvOnly(env, TokenRecord(c));
      r.Success? && r.value.accessToken == c.accessToken && r.value.refreshToken == c.refreshToken
      && r.value.clientId == env[EnvClientId]
  {
  }

  /** Every configuration either loader produces carries a non-empty identity. */
  lemma LoadedIdentityPresent(v: StoreVersion, rec: map<string, string>, env: Env)
    ensures var r := Resolve(v, rec, env);
      r.Success? ==> r.value.clientId != "" && r.value.clientSecret != ""
  {
  }

  /** Either generation's load: the identity is non-empty on success, the
      tokens always come from the file, and a failure carries that
      generation's own message. */
  function Resolve(v: StoreVersion, rec: map<string, string>, env: Env): (r: Result<Config, string>)
    ensures r.Success? ==> r.value.clientId != "" && r.value.clientSecret != ""
    ensures r.Success? ==>
      r.value.accessToken == Lookup(rec, AccessTokenKey) && r.value.refreshToken == Lookup(rec, RefreshTokenKey)
    ensures r.Failure? ==> r.error == (if v == FileFirst then FileFirstMissingIdentity else EnvOnlyMissingIdentity)
  {
    match v
    case FileFirst => ResolveFileFirst(rec, env)
    case EnvOnly => ResolveEnvOnly(env, rec)
  }

  /** The record a save of `c` leaves in the file. */
  function SavedRecord(v: StoreVersion, before: FileState, c: Config): (r: map<string, string>)
    ensures Lookup(r, AccessTokenKey) == c.accessToken && Lookup(r, RefreshTokenKey) == c.refreshToken
    ensures v == EnvOnly ==> r.Keys <= TokenKeys
    ensures v == FileFirst ==>
      Lookup(r, ClientIdKey) == Some(c.clientId) && Lookup(r, ClientSecretKey) == Some(c.clientSecret)
      && Lookup(r, RedirectUriKey) == Some(c.redirectUri)
  {
    match v
    case FileFirst => MergedRecord(StoredRecord(before), c)
    case EnvOnly => TokenRecord(c)
  }

  /** The token file, which the store reads on every load and rewrites on every save. */
  class CredentialFile {
    var contents: FileState

    constructor (initial: FileState)
      ensures contents == initial
    {
      contents := initial;
    }

    /** cargarConfiguracion of the given generation against the current file. */
    function Load(v: StoreVersion, env: Env): (r: Result<Config, string>)
      reads this
      ensures !contents.Parsed? && r.Success? ==> r.value.accessToken.None? && r.value.refreshToken.None?
      ensures contents.Parsed? && r.Success? ==>
        r.value.accessToken == Lookup(contents.record, AccessTokenKey)
        && r.value.refreshToken == Lookup(contents.record, RefreshTokenKey)
    {
      Resolve(v, StoredRecord(contents), env)
    }

    /** guardarConfiguracion (build): read, merge, write back. */
    method SaveMerged(c: Config)
      modifies this
      ensures contents == Parsed(MergedRecord(StoredRecord(old(contents)), c))
      ensures c.clientId != "" && c.clientSecret != "" && c.redirectUri != "" ==>
        forall env :: Load(FileFirst, env) == Success(c)
    {
      var current := StoredRecord(contents);
      contents := Parsed(MergedRecord(current, c));
      forall env | c.clientId != "" && c.clientSecret != "" && c.redirectUri != ""
        ensures Load(FileFirst, env) == Success(c)
      {
        LoadAfterMergedSave(current, c, env);
      }
    }

    /** guardarConfiguracion (src): overwrite the file with the tokens only. */
    method SaveTokens(c: Config)
      modifies this
      ensures contents == Parsed(TokenRecord(c))
    {
      contents := Parsed(TokenRecord(c));
    }

    method Save(v: StoreVersion, c: Config)
      modifies this
      ensures contents == Parsed(SavedRecord(v, old(contents), c))
    {
      match v
      case FileFirst => SaveMerged(c);
      case EnvOnly => SaveTokens(c);
    }
  }
}
