/** The older authentication tools (src/tools/autenticacion.ts), one
    registered tool per step. They share the consolidated tool's record
    updates and guards and differ in their texts, in the redirect default
    (applied only to an absent value) and in never dropping the client cache. */
module LegacyAuth {
  import opened Common
  import opened CredentialStore
  import opened SpotifyClient
  import opened AuthTool

  const LegacyDefaultRedirect := "http://127.0.0.1:8000/callback"
  const LegacyMissingCredentialsText := "❌ **Credenciales**: No configuradas\n\nUsa \"configurarCredenciales\" para agregar tu Client ID y Secret."
  const LegacyConnectedText := "✓ **Sesión**: Conectado\n\n¡Listo para usar Spotify!"
  const LegacyDisconnectedText := "❌ **Sesión**: No conectado\n\nUsa \"ejecutarAutenticacion\" para conectar."
  const LegacyNotConfiguredText := "❌ **Estado**: Sin configurar\n\nNo hay archivo de configuración. Usa \"configurarCredenciales\" primero."
  const LegacyNoCredentialsText := "❌ Credenciales no configuradas!\n\nUsa \"configurarCredenciales\" primero."
  // Each reply's leading mark is its own literal, so that the reply's first
  // character is visible to the proofs below.
  const LegacyDoneText := "✅" + " ¡Autenticación completada!\n\nYa puedes usar Spotify."
  const LegacyTimeoutText := "⏱" + "\U{FE0F} Timeout: La autenticación tardó demasiado (2 min).\n\nIntenta de nuevo y completa el login más rápido."
  const LegacyClosedText := "✓ Sesión cerrada. Tus credenciales siguen guardadas.\n\nUsa \"iniciarAutenticacion\" para conectar de nuevo."

  /** `{ redirectUri = default } = args`: the default replaces only an absent
      value, so an empty string is kept. */
  function LegacyRedirect(redirectUri: Option<string>): (r: string)
    ensures redirectUri.Some? ==> r == redirectUri.value
    ensures redirectUri.None? ==> r == LegacyDefaultRedirect
  {
    redirectUri.GetOr(LegacyDefaultRedirect)
  }

  /** The two generations pick the same redirect except for an empty one,
      which only the consolidated tool replaces by the default. */
  lemma {:induction false} RedirectDefaultsAgreeExceptEmpty(redirectUri: Option<string>)
    ensures LegacyRedirect(redirectUri) == ToolRedirect(redirectUri) <==> redirectUri != Some("")
  {
    if redirectUri == Some("") {
      assert LegacyRedirect(redirectUri) == "";
      assert ToolRedirect(redirectUri) != "";
    }
  }

  function CredentialsSavedText(clientId: string, redirectUri: string): (t: string)
    ensures Contains(t, ClientIdPreview(clientId))
    ensures Contains(t, redirectUri)
  {
    var lead := "✓ Credenciales guardadas!\n\nClient ID: ";
    var tail := "\n\nSiguiente paso: Usa \"iniciarAutenticacion\" para conectar con Spotify.";
    var middle := "\nRedirect URI: " + redirectUri;
    ContainsMiddle(lead, ClientIdPreview(clientId), middle + tail);
    ContainsMiddle("\nRedirect URI: ", redirectUri, "");
    assert "\nRedirect URI: " + redirectUri + "" == middle;
    ContainsPrefix(middle, tail, redirectUri);
    ContainsMiddle(lead + ClientIdPreview(clientId), middle + tail, "");
    assert lead + ClientIdPreview(clientId) + (middle + tail) + "" == lead + ClientIdPreview(clientId) + middle + tail;
    ContainsTransitive(lead + ClientIdPreview(clientId) + middle + tail, middle + tail, redirectUri);
    assert lead + ClientIdPreview(clientId) + (middle + tail) == lead + ClientIdPreview(clientId) + middle + tail;
    lead + ClientIdPreview(clientId) + middle + tail
  }

  /** configurarCredenciales: the schema makes id and secret required strings,
      but an empty one passes; nothing is checked before the save. */
  method ConfigurarCredenciales(file: CredentialFile, v: StoreVersion, env: Env,
                                clientId: string, clientSecret: string, redirectUri: Option<string>)
    returns (reply: string)
    modifies file
    ensures reply == CredentialsSavedText(clientId, LegacyRedirect(redirectUri))
    ensures file.contents == Parsed(SavedRecord(v, old(file.contents),
                                                IdentityRecord(clientId, clientSecret, LegacyRedirect(redirectUri))))
  {
    var redirect := LegacyRedirect(redirectUri);
    SaveIdentity(file, v, env, clientId, clientSecret, redirect);
    reply := CredentialsSavedText(clientId, redirect);
  }

  /** The configured identity survives the next load only with the file-first
      store; with the environment-only store the tool imports, the next load
      does not see it. */
  lemma {:induction false} ConfiguredCredentialsLostUnderEnvOnly(before: FileState, clientId: string, clientSecret: string)
    requires clientId != "" && clientSecret != ""
    ensures var c := IdentityRecord(clientId, clientSecret, LegacyRedirect(None));
      && Resolve(EnvOnly, SavedRecord(EnvOnly, before, c), map[]) == Failure(EnvOnlyMissingIdentity)
      && Resolve(FileFirst, SavedRecord(FileFirst, before, c), map[]) == Success(c)
  {
    ConfigureIgnoredByEnvOnlyStore(before, clientId, clientSecret, LegacyRedirect(None), map[]);
    ConfigureThenLoad(before, clientId, clientSecret, LegacyRedirect(None), map[]);
  }

  function CredentialsLine(c: Config): string {
    "✓ **Credenciales**: Configuradas\n  - Client ID: " + ClientIdPreview(c.clientId)
    + "\n  - Redirect URI: " + c.redirectUri + "\n\n"
  }

  /** verificarEstado: the report is built by appending to `estado`. */
  method VerificarEstado(file: CredentialFile, v: StoreVersion, env: Env) returns (estado: string)
    ensures AuthStatus(file.Load(v, env)).Unconfigured? ==> estado == LegacyNotConfiguredText
    ensures AuthStatus(file.Load(v, env)).MissingCredentials? ==>
      estado == StatusHeader + LegacyMissingCredentialsText
    ensures AuthStatus(file.Load(v, env)).Configured? ==>
      var c := file.Load(v, env).value;
      estado == StatusHeader + CredentialsLine(c)
                + (if HasTokens(c) then LegacyConnectedText else LegacyDisconnectedText)
  {
    var loaded := file.Load(v, env);
    if loaded.Failure? {
      return LegacyNotConfiguredText;
    }
    var config := loaded.value;
    var tieneCredenciales := config.clientId != "" && config.clientSecret != "";
    var tieneTokens := HasTokens(config);
    estado := StatusHeader;
    if !tieneCredenciales {
      estado := estado + LegacyMissingCredentialsText;
    } else {
      estado := estado + CredentialsLine(config);
      estado := estado + (if tieneTokens then LegacyConnectedText else LegacyDisconnectedText);
    }
  }

  /** The reply of ejecutarAutenticacion once the child has ended; a failed
      run shows the error output, or the standard output when that is empty. */
  function RunReplyLegacy(end: ChildEnd): (r: string)
    ensures |r| > 0
    ensures r[0] == '✅' <==> Succeeded(end)
    ensures end.Closed? && !Succeeded(end) && end.stderr != "" ==> EndsWith(r, end.stderr)
    ensures end.Closed? && !Succeeded(end) && end.stderr == "" ==> EndsWith(r, end.stdout)
  {
    match end
    case Closed(code, stdout, stderr) =>
      if code == Some(0) then
        assert LegacyDoneText[0] == "✅"[0];
        LegacyDoneText
      else
        var head := "❌" + (" Error (código " + CodeText(code) + ")\n\n");
        var shown := if stderr != "" then stderr else stdout;
        assert (head + shown)[|head|..] == shown;
        assert (head + shown)[0] == head[0] == '❌';
        head + shown
    case TimedOut =>
      assert LegacyTimeoutText[0] == "⏱"[0] != '✅';
      LegacyTimeoutText
    case SpawnFailed(m) =>
      assert ("❌" + (" Error al ejecutar: " + m))[0] == '❌';
      "❌" + (" Error al ejecutar: " + m)
  }

  /** ejecutarAutenticacion: the same identity guard as iniciarAutenticacion,
      then the child's outcome. It reaches no client cache at all. */
  function EjecutarAutenticacion(loaded: Result<Config, string>, end: ChildEnd): (r: string)
    ensures IdentityGuard(loaded, LegacyNoCredentialsText).Some? ==>
      r == IdentityGuard(loaded, LegacyNoCredentialsText).value
    ensures IdentityGuard(loaded, LegacyNoCredentialsText).None? ==> r == RunReplyLegacy(end)
  {
    match IdentityGuard(loaded, LegacyNoCredentialsText)
    case Some(refusal) => refusal
    case None => RunReplyLegacy(end)
  }

  /** A client built before the login (in client-credentials mode, as it is
      when the file has no tokens yet) is still the one every later request
      gets after a successful ejecutarAutenticacion, although the file now
      holds the tokens that would build a user-session client. */
  method LegacyLoginKeepsStaleClient(cache: ClientCache, file: CredentialFile, env: Env,
                                     stdout: string, stderr: string)
    returns (reply: string, next: Result<ApiHandle, string>)
    modifies cache
    requires cache.api != null && cache.api.mode.ClientCredentials?
    requires file.Load(EnvOnly, env).Success? && HasTokens(file.Load(EnvOnly, env).value)
    ensures reply == RunReplyLegacy(Closed(Some(0), stdout, stderr))
    ensures next == Success(old(cache.api)) && next.value.mode.ClientCredentials?
    ensures ModeFor(file.Load(EnvOnly, env).value).UserSession?
  {
    reply := EjecutarAutenticacion(file.Load(EnvOnly, env), Closed(Some(0), stdout, stderr));
    next := cache.Get(file, EnvOnly, env);
  }

  /** cerrarSesion */
  method CerrarSesion(file: CredentialFile, v: StoreVersion, env: Env) returns (reply: string)
    modifies file
    ensures old(file.Load(v, env)).Failure? ==>
      reply == "Error: " + old(file.Load(v, env)).error && file.contents == old(file.contents)
    ensures old(file.Load(v, env)).Success? ==>
      reply == LegacyClosedText && file.Load(v, env) == Success(Cleared(old(file.Load(v, env)).value))
  {
    var failure := ForgetTokens(file, v, env);
    if failure.Some? {
      return "Error: " + failure.value;
    }
    reply := LegacyClosedText;
  }
}
