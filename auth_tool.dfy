/** The consolidated authentication tool (`spotifyAuth` in src/tools/auth.ts):
    store the application identity, report the session state, gate the
    browser and child-process steps on a loaded identity, and forget the
    tokens on logout. The tool works against whichever generation of the
    credential store its import resolves to, so every operation takes the
    store generation as a parameter; the TypeScript file as written imports
    src/core/configuracion.ts, the environment-only generation. */
module AuthTool {
  import opened Common
  import opened CredentialStore
  import opened SpotifyClient

  const ToolDefaultRedirect := "http://127.0.0.1:8000/callback"
  /** The value the token file carries before any authorization has happened. */
  const TokenPlaceholder := "run-npm auth to get this"

  const NeedsIdentity := "❌ Requiere clientId y clientSecret"
  const StatusHeader := "# Estado de Autenticación\n\n"
  const MissingCredentialsText := "❌ **Credenciales**: No configuradas\n\nUsa accion=\"configurar\" con clientId y clientSecret."
  const ConnectedText := "✓ **Sesión**: Conectado"
  const DisconnectedText := "❌ **Sesión**: No conectado\n\nUsa accion=\"ejecutar\" para conectar."
  const NotConfiguredText := "❌" + " Sin configurar. Usa accion=\"configurar\" primero."
  const NoCredentialsText := "❌ Credenciales no configuradas!"
  const ClosedText := "✓ Sesión cerrada. Usa accion=\"ejecutar\" para reconectar."

  predicate EndsWith(s: string, suffix: string) {
    |suffix| <= |s| && s[|s| - |suffix|..] == suffix
  }

  function Min(a: int, b: int): int {
    if a < b then a else b
  }

  /** `id.substring(0, 8) + "..." + id.slice(-4)`: a short id shows whole on
      both sides, since `slice(-4)` of a string shorter than four starts at 0. */
  function ClientIdPreview(id: string): (p: string)
    ensures |p| == Min(|id|, 8) + 3 + Min(|id|, 4)
    ensures p[..Min(|id|, 8)] == id[..Min(|id|, 8)]
    ensures p[Min(|id|, 8)..Min(|id|, 8) + 3] == "..."
    ensures EndsWith(p, id[|id| - Min(|id|, 4)..])
  {
    var head := if |id| < 8 then id else id[..8];
    var tail := if |id| < 4 then id else id[|id| - 4..];
    assert (head + "..." + tail)[..|head|] == head;
    assert (head + "..." + tail)[|head|..|head| + 3] == "...";
    head + "..." + tail
  }

  /** A long id shows exactly its first eight and last four characters. */
  lemma {:induction false} LongIdPreview(id: string)
    requires |id| >= 12
    ensures |ClientIdPreview(id)| == 15
    ensures ClientIdPreview(id) == id[..8] + "..." + id[|id| - 4..]
  {
    var p := ClientIdPreview(id);
    assert p[..8] == id[..8];
    assert p[8..11] == "...";
    assert p[11..] == id[|id| - 4..];
    assert p == p[..8] + p[8..11] + p[11..];
  }

  // ---------------------------------------------------------------------------
  // Configure

  /** `args.redirectUri || default`: an empty redirect also takes the default. */
  function ToolRedirect(redirectUri: Option<string>): (r: string)
    ensures r != ""
    ensures Truthy(redirectUri) ==> r == redirectUri.value
    ensures !Truthy(redirectUri) ==> r == ToolDefaultRedirect
  {
    if Truthy(redirectUri) then redirectUri.value else ToolDefaultRedirect
  }

  /** The record a configure writes: every field is overwritten, tokens cleared. */
  function IdentityRecord(clientId: string, clientSecret: string, redirectUri: string): (c: Config)
    ensures c.accessToken.None? && c.refreshToken.None?
    ensures c.clientId == clientId && c.clientSecret == clientSecret && c.redirectUri == redirectUri
  {
    Config(clientId, clientSecret, redirectUri, None, None)
  }

  /** Shared by both configure tools: load (an empty configuration when the load
      throws), overwrite the identity, clear the tokens, save. */
  method SaveIdentity(file: CredentialFile, v: StoreVersion, env: Env,
                      clientId: string, clientSecret: string, redirectUri: string)
    modifies file
    ensures file.contents == Parsed(SavedRecord(v, old(file.contents), IdentityRecord(clientId, clientSecret, redirectUri)))
  {
    var config: Config;
    var loaded := file.Load(v, env);
    if loaded.Success? {
      config := loaded.value;
    } else {
      config := Config("", "", ToolDefaultRedirect, None, None);
    }
    config := config.(clientId := clientId, clientSecret := clientSecret, redirectUri := redirectUri,
                      accessToken := None, refreshToken := None);
    file.Save(v, config);
  }

  function ConfiguredText(clientId: string): (t: string)
    ensures Contains(t, ClientIdPreview(clientId))
  {
    ContainsMiddle("✓ Credenciales guardadas!\n\nClient ID: ", ClientIdPreview(clientId),
                   "\n\nUsa accion=\"ejecutar\" para conectar.");
    "✓ Credenciales guardadas!\n\nClient ID: " + ClientIdPreview(clientId) + "\n\nUsa accion=\"ejecutar\" para conectar."
  }

  /** case 'configurar' */
  method Configurar(file: CredentialFile, v: StoreVersion, env: Env,
                    clientId: Option<string>, clientSecret: Option<string>, redirectUri: Option<string>)
    returns (reply: string)
    modifies file
    ensures !Truthy(clientId) || !Truthy(clientSecret) ==>
      reply == NeedsIdentity && file.contents == old(file.contents)
    ensures Truthy(clientId) && Truthy(clientSecret) ==>
      && reply == ConfiguredText(clientId.value)
      && file.contents == Parsed(SavedRecord(v, old(file.contents),
                                             IdentityRecord(clientId.value, clientSecret.value, ToolRedirect(redirectUri))))
  {
    if !Truthy(clientId) || !Truthy(clientSecret) {
      return NeedsIdentity;
    }
    SaveIdentity(file, v, env, clientId.value, clientSecret.value, ToolRedirect(redirectUri));
    reply := ConfiguredText(clientId.value);
  }

  /** With the file-first store, whatever the file held and whatever the
      environment says, the next load returns exactly what was configured. */
  lemma {:induction false} ConfigureThenLoad(before: FileState, clientId: string, clientSecret: string,
                                             redirectUri: string, env: Env)
    requires clientId != "" && clientSecret != "" && redirectUri != ""
    ensures var c := IdentityRecord(clientId, clientSecret, redirectUri);
      Resolve(FileFirst, SavedRecord(FileFirst, before, c), env) == Success(c)
  {
    LoadAfterMergedSave(StoredRecord(before), IdentityRecord(clientId, clientSecret, redirectUri), env);
  }

  /** With the environment-only store, the configured identity is not written
      at all: the next load is what the environment alone gives, and with no
      identity in the environment it fails. */
  lemma {:induction false} ConfigureIgnoredByEnvOnlyStore(before: FileState, clientId: string, clientSecret: string,
                                                          redirectUri: string, env: Env)
    requires clientId != "" && clientSecret != ""
    ensures var loaded := Resolve(EnvOnly, SavedRecord(EnvOnly, before, IdentityRecord(clientId, clientSecret, redirectUri)), env);
      && loaded == ResolveEnvOnly(env, map[])
      && (loaded.Success? ==> loaded.value.clientId == env[EnvClientId])
      && (!Truthy(Lookup(env, EnvClientId)) ==> loaded == Failure(EnvOnlyMissingIdentity))
  {
    var c := IdentityRecord(clientId, clientSecret, redirectUri);
    assert TokenRecord(c) == map[] by {
      assert TokenRecord(c).Keys <= TokenKeys;
      assert AccessTokenKey !in TokenRecord(c) && RefreshTokenKey !in TokenRecord(c);
    }
  }

  /** The concrete case: configure "abcdefgh1234"/"s3cr3t" with an empty
      environment; the next load fails instead of returning that identity. */
  lemma ConfigureLostWithEmptyEnvironment(before: FileState)
    ensures var c := IdentityRecord("abcdefgh1234", "s3cr3t", ToolRedirect(None));
      Resolve(EnvOnly, SavedRecord(EnvOnly, before, c), map[]) == Failure(EnvOnlyMissingIdentity)
      && Resolve(FileFirst, SavedRecord(FileFirst, before, c), map[]) == Success(c)
  {
    ConfigureIgnoredByEnvOnlyStore(before, "abcdefgh1234", "s3cr3t", ToolRedirect(None), map[]);
    ConfigureThenLoad(before, "abcdefgh1234", "s3cr3t", ToolRedirect(None), map[]);
  }

  // ---------------------------------------------------------------------------
  // Status

  predicate HasCredentials(c: Config) {
    c.clientId != "" && c.clientSecret != ""
  }

  /** `tieneTokens`: both tokens non-empty and the access token not the placeholder. */
  predicate HasTokens(c: Config) {
    Truthy(c.accessToken) && Truthy(c.refreshToken) && c.accessToken.value != TokenPlaceholder
  }

  /** What the status report tells, before any text is produced. */
  datatype Status =
    | Unconfigured                              // the load threw
    | MissingCredentials                        // loaded, but id or secret empty
    | Configured(config: Config, connected: bool)

  function AuthStatus(loaded: Result<Config, string>): (s: Status)
    ensures s.Unconfigured? <==> loaded.Failure?
    ensures s.MissingCredentials? <==> loaded.Success? && !HasCredentials(loaded.value)
    ensures s.Configured? ==> s.config == loaded.value && HasCredentials(s.config)
    ensures s.Configured? ==> (s.connected <==> HasTokens(s.config))
  {
    match loaded
    case Failure(_) => Unconfigured
    case Success(c) => if !HasCredentials(c) then MissingCredentials else Configured(c, HasTokens(c))
  }

  function SessionText(connected: bool): string {
    if connected then ConnectedText else DisconnectedText
  }

  /** case 'verificar', rendered. */
  function StatusText(s: Status): (text: string)
    ensures s.Unconfigured? <==> text == NotConfiguredText
    ensures !s.Unconfigured? ==> StartsWith(text, StatusHeader)
    ensures s.MissingCredentials? ==> EndsWith(text, MissingCredentialsText)
    ensures s.Configured? ==> Contains(text, ClientIdPreview(s.config.clientId))
    ensures s.Configured? ==> EndsWith(text, SessionText(s.connected))
  {
    assert StatusHeader[0] == '#' && NotConfiguredText[0] == "❌"[0] != '#';
    match s
    case Unconfigured => NotConfiguredText
    case MissingCredentials =>
      HeaderedText(StatusHeader, "", MissingCredentialsText, NotConfiguredText);
      StatusHeader + "" + MissingCredentialsText
    case Configured(c, connected) =>
      var line := "✓ **Credenciales**: Configuradas\n  - Client ID: " + ClientIdPreview(c.clientId) + "\n\n";
      ContainsMiddle("✓ **Credenciales**: Configuradas\n  - Client ID: ", ClientIdPreview(c.clientId), "\n\n");
      HeaderedText(StatusHeader, line, SessionText(connected), NotConfiguredText);
      ContainsTransitive(StatusHeader + line + SessionText(connected), line, ClientIdPreview(c.clientId));
      StatusHeader + line + SessionText(connected)
  }

  /** A text made of a header, a body and a tail starts with the header, holds
      the body, ends with the tail, and differs from any text that opens with
      another character. */
  lemma HeaderedText(header: string, body: string, tail: string, other: string)
    requires |header| > 0 && |other| > 0 && header[0] != other[0]
    ensures var t := header + body + tail;
      t != other && StartsWith(t, header) && Contains(t, body) && EndsWith(t, tail)
  {
    var t := header + body + tail;
    assert t[0] == header[0];
    assert t[..|header|] == header;
    ContainsMiddle(header, body, tail);
    assert t[|t| - |tail|..] == tail;
  }

  /** Both stores refuse to load an empty id or secret, so the report can never
      take its "credentials missing" branch: it says unconfigured instead. */
  lemma {:induction false} MissingCredentialsUnreachable(v: StoreVersion, rec: map<string, string>, env: Env)
    ensures AuthStatus(Resolve(v, rec, env)) != MissingCredentials
  {
    LoadedIdentityPresent(v, rec, env);
  }

  /** A configure leaves the session disconnected: it clears the tokens. */
  lemma {:induction false} ConfigureThenDisconnected(before: FileState, clientId: string, clientSecret: string,
                                                     redirectUri: string, env: Env)
    requires clientId != "" && clientSecret != "" && redirectUri != ""
    ensures var c := IdentityRecord(clientId, clientSecret, redirectUri);
      AuthStatus(Resolve(FileFirst, SavedRecord(FileFirst, before, c), env)) == Configured(c, false)
  {
    ConfigureThenLoad(before, clientId, clientSecret, redirectUri, env);
  }

  // ---------------------------------------------------------------------------
  // Logout

  /** The configuration with both tokens set to `undefined`. */
  function Cleared(c: Config): (r: Config)
    ensures r.accessToken.None? && r.refreshToken.None?
    ensures r.clientId == c.clientId && r.clientSecret == c.clientSecret && r.redirectUri == c.redirectUri
  {
    c.(accessToken := None, refreshToken := None)
  }

  /** After a logout the next load keeps the identity and has no tokens, with
      either store, and the report says disconnected. */
  lemma {:induction false} LogoutKeepsIdentity(v: StoreVersion, before: FileState, env: Env, c: Config)
    requires Resolve(v, StoredRecord(before), env) == Success(c)
    ensures Resolve(v, SavedRecord(v, before, Cleared(c)), env) == Success(Cleared(c))
    ensures AuthStatus(Resolve(v, SavedRecord(v, before, Cleared(c)), env)) == Configured(Cleared(c), false)
  {
    LoadedIdentityPresent(v, StoredRecord(before), env);
    match v
    case FileFirst =>
      LoadAfterMergedSave(StoredRecord(before), Cleared(c), env);
    case EnvOnly =>
      assert TokenRecord(Cleared(c)) == map[] by {
        assert AccessTokenKey !in TokenRecord(Cleared(c)) && RefreshTokenKey !in TokenRecord(Cleared(c));
      }
  }

  /** Shared by both logout tools: load, drop the tokens, save. The error the
      load raises comes back as `Some(message)`, and then nothing is saved. */
  method ForgetTokens(file: CredentialFile, v: StoreVersion, env: Env) returns (failure: Option<string>)
    modifies file
    ensures old(file.Load(v, env)).Failure? ==>
      failure == Some(old(file.Load(v, env)).error) && file.contents == old(file.contents)
    ensures old(file.Load(v, env)).Success? ==>
      && failure.None?
      && file.contents == Parsed(SavedRecord(v, old(file.contents), Cleared(old(file.Load(v, env)).value)))
      && file.Load(v, env) == Success(Cleared(old(file.Load(v, env)).value))
  {
    var loaded := file.Load(v, env);
    if loaded.Failure? {
      return Some(loaded.error);
    }
    var config := loaded.value;
    ghost var before := file.contents;
    config := config.(accessToken := None);
    config := config.(refreshToken := None);
    file.Save(v, config);
    LogoutKeepsIdentity(v, before, env, loaded.value);
    failure := None;
  }

  /** case 'cerrar' */
  method Cerrar(file: CredentialFile, v: StoreVersion, env: Env) returns (reply: string)
    modifies file
    ensures old(file.Load(v, env)).Failure? ==>
      reply == "Error: " + old(file.Load(v, env)).error && file.contents == old(file.contents)
    ensures old(file.Load(v, env)).Success? ==>
      reply == ClosedText && file.Load(v, env) == Success(Cleared(old(file.Load(v, env)).value))
  {
    var failure := ForgetTokens(file, v, env);
    if failure.Some? {
      return "Error: " + failure.value;
    }
    reply := ClosedText;
  }

  // ---------------------------------------------------------------------------
  // Browser and child-process steps

  /** The refusal of a step that needs the loaded id and secret, or `None`
      when the step may go ahead. A load error is reported as `Error: <message>`. */
  function IdentityGuard(loaded: Result<Config, string>, refusal: string): (r: Option<string>)
    ensures r.None? <==> loaded.Success? && HasCredentials(loaded.value)
    ensures loaded.Failure? ==> r == Some("Error: " + loaded.error)
    ensures loaded.Success? && !HasCredentials(loaded.value) ==> r == Some(refusal)
  {
    match loaded
    case Failure(e) => Some("Error: " + e)
    case Success(c) => if c.clientId == "" || c.clientSecret == "" then Some(refusal) else None
  }

  /** The authorization URL only needs the client id. */
  function ClientIdGuard(loaded: Result<Config, string>, refusal: string): (r: Option<string>)
    ensures r.None? <==> loaded.Success? && loaded.value.clientId != ""
    ensures loaded.Failure? ==> r == Some("Error: " + loaded.error)
    ensures loaded.Success? && loaded.value.clientId == "" ==> r == Some(refusal)
  {
    match loaded
    case Failure(e) => Some("Error: " + e)
    case Success(c) => if c.clientId == "" then Some(refusal) else None
  }

  /** The URL guard is the weaker one: every configuration that may open the
      browser may also produce the URL, and one with an id but no secret only
      the URL. */
  lemma {:induction false} UrlGuardWeaker(loaded: Result<Config, string>, refusal: string)
    ensures IdentityGuard(loaded, refusal).None? ==> ClientIdGuard(loaded, refusal).None?
    ensures loaded.Success? && loaded.value.clientId != "" && loaded.value.clientSecret == "" ==>
      IdentityGuard(loaded, refusal) == Some(refusal) && ClientIdGuard(loaded, refusal).None?
  {
  }

  /** How the `npm run auth` child ended, whichever event came first. */
  datatype ChildEnd =
    | Closed(code: Option<int>, stdout: string, stderr: string)   // `close`; the code is null after a signal
    | TimedOut                                                    // the 120 s timer fired first
    | SpawnFailed(message: string)                                // `error`

  predicate Succeeded(end: ChildEnd) {
    end.Closed? && end.code == Some(0)
  }

  /** `${code}`: a null code prints as "null". */
  function CodeText(code: Option<int>): string {
    if code.Some? then IntToString(code.value) else "null"
  }

  /** The reply of case 'ejecutar' once the child has ended. */
  function RunReply(end: ChildEnd): (r: string)
    ensures |r| > 0
    ensures r[0] == '✅' <==> Succeeded(end)
    ensures end.Closed? && !Succeeded(end) ==> EndsWith(r, end.stderr)
  {
    match end
    case Closed(code, _, stderr) =>
      if code == Some(0) then "✅ ¡Autenticación completada!"
      else
        var head := "❌ Error (código " + CodeText(code) + ")\n\n";
        assert (head + stderr)[|head|..] == stderr;
        assert (head + stderr)[0] == '❌';
        head + stderr
    case TimedOut => "⏱️ Timeout (2 min). Intenta de nuevo."
    case SpawnFailed(m) =>
      assert ("❌ Error: " + m)[0] == '❌';
      "❌ Error: " + m
  }

  /** case 'ejecutar': the child process is a parameter; the client cache is
      dropped exactly when the child exits with code 0, so the next request
      rebuilds the client from the tokens the child wrote. */
  method Ejecutar(cache: ClientCache, file: CredentialFile, v: StoreVersion, env: Env, end: ChildEnd)
    returns (reply: string)
    modifies cache
    ensures IdentityGuard(file.Load(v, env), NoCredentialsText).Some? ==>
      reply == IdentityGuard(file.Load(v, env), NoCredentialsText).value && cache.api == old(cache.api)
    ensures IdentityGuard(file.Load(v, env), NoCredentialsText).None? ==>
      && reply == RunReply(end)
      && (Succeeded(end) ==> cache.api == null)
      && (!Succeeded(end) ==> cache.api == old(cache.api))
  {
    var refusal := IdentityGuard(file.Load(v, env), NoCredentialsText);
    if refusal.Some? {
      return refusal.value;
    }
    if Succeeded(end) {
      cache.Reset();
    }
    reply := RunReply(end);
  }

  /** After a successful run the next request loads the configuration afresh
      and builds its client from it. */
  method LoginThenGet(cache: ClientCache, file: CredentialFile, v: StoreVersion, env: Env, stdout: string, stderr: string)
    returns (reply: string, next: Result<ApiHandle, string>)
    modifies cache
    requires file.Load(v, env).Success? && HasCredentials(file.Load(v, env).value)
    ensures reply == RunReply(Closed(Some(0), stdout, stderr))
    ensures next.Success? && next.value.mode == ModeFor(file.Load(v, env).value)
  {
    reply := Ejecutar(cache, file, v, env, Closed(Some(0), stdout, stderr));
    next := cache.Get(file, v, env);
  }
}
