/** The shared Spotify client (src/core/spotify.ts and its compiled twin
    build/core/spotify.js): a lazily built, module-level API handle, the two
    request executors that turn a remote failure into a value or a thrown error,
    and the duration formatter. */
module SpotifyClient {
  import opened Common
  import opened CredentialStore

  /** `expires_in` of the user-session token: thirty days, in seconds. */
  const TokenLifetimeSeconds: nat := 3600 * 24 * 30

  /** How the SDK client authenticates its requests. */
  datatype ClientMode =
    | UserSession(clientId: string, accessToken: string, refreshToken: string, expiresIn: nat)
    | ClientCredentials(clientId: string, clientSecret: string)

  /** The mode a freshly built handle takes from a loaded configuration. */
  function ModeFor(c: Config): (m: ClientMode)
    ensures m.UserSession? <==> Truthy(c.accessToken) && Truthy(c.refreshToken)
    ensures m.clientId == c.clientId
    ensures m.UserSession? ==>
      m.accessToken == c.accessToken.value && m.refreshToken == c.refreshToken.value
      && m.expiresIn == TokenLifetimeSeconds
    ensures m.ClientCredentials? ==> m.clientSecret == c.clientSecret
  {
    if Truthy(c.accessToken) && Truthy(c.refreshToken) then
      UserSession(c.clientId, c.accessToken.value, c.refreshToken.value, TokenLifetimeSeconds)
    else
      ClientCredentials(c.clientId, c.clientSecret)
  }

  /** A user session lasts thirty days. */
  lemma TokenLifetimeIsThirtyDays()
    ensures TokenLifetimeSeconds == 30 * 86400 == 2592000
  {
  }

  /** An SDK client object. Two handles are the same client only when they are
      the same object. */
  class ApiHandle {
    const mode: ClientMode

    constructor (m: ClientMode)
      ensures mode == m
    {
      mode := m;
    }
  }

  /** The result of a remote call made through the SDK: a value, or the
      message of the error it raised. */
  datatype Outcome<+T> = Ok(value: T) | Err(message: string)

  /** What `ejecutarPeticion` hands back to its caller: a value (`None` is
      `undefined`), or the error it re-throws. */
  datatype Completion<+T> = Returned(value: Option<T>) | Threw(message: string)

  /** The object `ejecutarPeticionPlayer` resolves to: `{ok: true, data}` or `{ok: false, error}`. */
  datatype PlayerResult<+T> = Done(data: Option<T>) | Refused(error: string)

  /** The compiled file carries a different no-active-device guidance text. */
  datatype Generation =
    | Source     // src/core/spotify.ts
    | Compiled   // build/core/spotify.js

  /** The remote call, run against a handle or against the error raised while
      getting one (both happen inside the same `try`). */
  function Attempt<T>(h: Result<ApiHandle, string>, action: ClientMode -> Outcome<T>): Outcome<T>
    reads if h.Success? then {h.value} else {}
  {
    match h
    case Success(api) => action(api.mode)
    case Failure(e) => Err(e)
  }

  /** The module-level `apiSpotify` variable and the operations on it. */
  class ClientCache {
    var api: ApiHandle?
    /** How many times a configuration has been loaded to build a handle. */
    ghost var loads: nat

    constructor ()
      ensures api == null && loads == 0
    {
      api := null;
      loads := 0;
    }

    /** resetearApiSpotify */
    method Reset()
      modifies this
      ensures api == null
      ensures loads == old(loads)
    {
      api := null;
    }

    /** obtenerApiSpotify: the cached handle when there is one; otherwise load the
        configuration (which may throw) and build and cache a fresh handle. */
    method Get(file: CredentialFile, v: StoreVersion, env: Env) returns (r: Result<ApiHandle, string>)
      modifies this
      ensures old(api) != null ==> r == Success(old(api)) && api == old(api) && loads == old(loads)
      ensures old(api) == null ==> loads == old(loads) + 1
      ensures old(api) == null && file.Load(v, env).Failure? ==>
        r == Failure(file.Load(v, env).error) && api == null
      ensures old(api) == null && file.Load(v, env).Success? ==>
        r.Success? && fresh(r.value) && api == r.value && r.value.mode == ModeFor(file.Load(v, env).value)
    {
      if api != null {
        return Success(api);
      }
      loads := loads + 1;
      var config := file.Load(v, env);
      if config.Failure? {
        return Failure(config.error);
      }
      var handle := new ApiHandle(ModeFor(config.value));
      api := handle;
      r := Success(handle);
    }

    /** ejecutarPeticion: get the handle, run the call, swallow the three parse artifacts. */
    method Execute<T>(file: CredentialFile, v: StoreVersion, env: Env, action: ClientMode -> Outcome<T>)
      returns (r: Completion<T>)
      modifies this
      ensures old(api) != null ==> r == RequestOutcome(action(old(api).mode)) && api == old(api)
      ensures old(api) == null ==>
        r == RequestOutcome(match file.Load(v, env)
                            case Success(c) => action(ModeFor(c))
                            case Failure(e) => Err(e))
      ensures old(api) != null ==> api == old(api) && loads == old(loads)
      ensures old(api) == null ==> loads == old(loads) + 1
      ensures old(api) == null && file.Load(v, env).Failure? ==> api == null
      ensures old(api) == null && file.Load(v, env).Success? ==>
        api != null && fresh(api) && api.mode == ModeFor(file.Load(v, env).value)
    {
      var h := Get(file, v, env);
      r := RequestOutcome(Attempt(h, action));
    }

    /** ejecutarPeticionPlayer: as Execute, but every failure becomes a value. */
    method ExecutePlayer<T>(file: CredentialFile, v: StoreVersion, env: Env, gen: Generation,
                            action: ClientMode -> Outcome<T>, name: string)
      returns (r: PlayerResult<T>)
      modifies this
      ensures old(api) != null ==> r == PlayerOutcome(gen, action(old(api).mode), name) && api == old(api)
      ensures old(api) == null ==>
        r == PlayerOutcome(gen, match file.Load(v, env)
                                case Success(c) => action(ModeFor(c))
                                case Failure(e) => Err(e), name)
      ensures old(api) != null ==> api == old(api) && loads == old(loads)
      ensures old(api) == null ==> loads == old(loads) + 1
      ensures old(api) == null && file.Load(v, env).Failure? ==> api == null
      ensures old(api) == null && file.Load(v, env).Success? ==>
        api != null && fresh(api) && api.mode == ModeFor(file.Load(v, env).value)
    {
      var h := Get(file, v, env);
      r := PlayerOutcome(gen, Attempt(h, action), name);
    }
  }

  /** Two gets with no reset between them give the same object, and only the
      first one loads the configuration. */
  method GetTwice(cache: ClientCache, file: CredentialFile, v: StoreVersion, env: Env)
    returns (first: Result<ApiHandle, string>, second: Result<ApiHandle, string>)
    modifies cache
    ensures first.Success? ==> second == first && cache.loads <= old(cache.loads) + 1
  {
    first := cache.Get(file, v, env);
    second := cache.Get(file, v, env);
  }

  /** After a reset the next get rebuilds from whatever the file holds then. */
  method ResetThenGet(cache: ClientCache, file: CredentialFile, v: StoreVersion, env: Env)
    returns (r: Result<ApiHandle, string>)
    modifies cache
    ensures cache.loads == old(cache.loads) + 1
    ensures file.Load(v, env).Success? ==>
      r.Success? && fresh(r.value) && r.value.mode == ModeFor(file.Load(v, env).value)
  {
    cache.Reset();
    r := cache.Get(file, v, env);
  }

  // ---------------------------------------------------------------------------
  // Failure classification

  const UnexpectedToken := "Unexpected token"
  const UnexpectedCharacter := "Unexpected non-whitespace character"
  const MissingExponent := "Exponent part is missing a number in JSON"

  /** An error the SDK raises while parsing an empty or non-JSON success body:
      the body's three substring tests are the definition. The ensures is only
      a length bound used by the proofs about the guidance texts. */
  predicate IsParseArtifact(msg: string)
    ensures IsParseArtifact(msg) ==> |msg| >= |UnexpectedToken|
  {
    ContainsLength(msg, UnexpectedToken);
    ContainsLength(msg, UnexpectedCharacter);
    ContainsLength(msg, MissingExponent);
    Contains(msg, UnexpectedToken) || Contains(msg, UnexpectedCharacter) || Contains(msg, MissingExponent)
  }

  /** ejecutarPeticion once the call has settled. */
  function RequestOutcome<T>(o: Outcome<T>): (c: Completion<T>)
    ensures o.Ok? ==> c == Returned(Some(o.value))
    ensures o.Err? ==> (c.Returned? <==> IsParseArtifact(o.message))
    ensures c.Returned? && c.value.None? ==> o.Err?
    ensures c.Threw? ==> o == Err(c.message)
    ensures o.Err? && IsParseArtifact(o.message) ==> c == Returned(None)
  {
    match o
    case Ok(v) => Returned(Some(v))
    case Err(m) => if IsParseArtifact(m) then Returned(None) else Threw(m)
  }

  /** The categories of `ejecutarPeticionPlayer`, in the order they are tried. */
  datatype Guidance = NoActiveDevice | PremiumRequired | NotFound | Unauthorized | Unclassified

  const NoDeviceNeedle := "No active device"
  const PlayerCommandFailed := "Player command failed: "
  const NoDeviceLongNeedle := "Player command failed: No active device"

  /** The substrings that select each category. */
  function Needles(g: Guidance): seq<string> {
    match g
    case NoActiveDevice => [NoDeviceNeedle, NoDeviceLongNeedle]
    case PremiumRequired => ["Restriction violated", "PREMIUM_REQUIRED"]
    case NotFound => ["Not found", "404"]
    case Unauthorized => ["Unauthorized", "401", "access token"]
    case Unclassified => []
  }

  predicate MatchesAny(msg: string, needles: seq<string>) {
    exists k :: 0 <= k < |needles| && Contains(msg, needles[k])
  }

  /** The if-chain of ejecutarPeticionPlayer. */
  function Classify(msg: string): (g: Guidance)
    ensures g != Unclassified ==> g in Rules && MatchesAny(msg, Needles(g))
    ensures g == Unclassified <==> forall r :: r in Rules ==> !MatchesAny(msg, Needles(r))
  {
    MatchesTwo(msg, NoDeviceNeedle, NoDeviceLongNeedle);
    MatchesTwo(msg, "Restriction violated", "PREMIUM_REQUIRED");
    MatchesTwo(msg, "Not found", "404");
    MatchesThree(msg, "Unauthorized", "401", "access token");
    if Contains(msg, NoDeviceNeedle) || Contains(msg, NoDeviceLongNeedle) then NoActiveDevice
    else if Contains(msg, "Restriction violated") || Contains(msg, "PREMIUM_REQUIRED") then PremiumRequired
    else if Contains(msg, "Not found") || Contains(msg, "404") then NotFound
    else if Contains(msg, "Unauthorized") || Contains(msg, "401") || Contains(msg, "access token") then Unauthorized
    else Unclassified
  }

  /** The same table written as an ordered list of rules. */
  const Rules: seq<Guidance> := [NoActiveDevice, PremiumRequired, NotFound, Unauthorized]

  /** The first rule whose needles occur in the message, scanning in order. */
  function FirstMatch(rules: seq<Guidance>, msg: string): (g: Guidance)
    ensures g == Unclassified || g in rules
    decreases |rules|
  {
    if |rules| == 0 then Unclassified
    else if MatchesAny(msg, Needles(rules[0])) then rules[0]
    else FirstMatch(rules[1..], msg)
  }

  lemma MatchesTwo(msg: string, a: string, b: string)
    ensures MatchesAny(msg, [a, b]) <==> Contains(msg, a) || Contains(msg, b)
  {
    if Contains(msg, a) { assert [a, b][0] == a; }
    if Contains(msg, b) { assert [a, b][1] == b; }
  }

  lemma MatchesThree(msg: string, a: string, b: string, c: string)
    ensures MatchesAny(msg, [a, b, c]) <==> Contains(msg, a) || Contains(msg, b) || Contains(msg, c)
  {
    if Contains(msg, a) { assert [a, b, c][0] == a; }
    if Contains(msg, b) { assert [a, b, c][1] == b; }
    if Contains(msg, c) { assert [a, b, c][2] == c; }
  }

  /** Classify is the first-match scan of the rule table. */
  lemma {:induction false} ClassifyIsFirstMatch(msg: string)
    ensures Classify(msg) == FirstMatch(Rules, msg)
  {
    var r := Rules;
    assert r[1..] == [PremiumRequired, NotFound, Unauthorized];
    assert r[1..][1..] == [NotFound, Unauthorized];
    assert r[1..][1..][1..] == [Unauthorized];
    assert r[1..][1..][1..][1..] == [];
    MatchesTwo(msg, NoDeviceNeedle, NoDeviceLongNeedle);
    MatchesTwo(msg, "Restriction violated", "PREMIUM_REQUIRED");
    MatchesTwo(msg, "Not found", "404");
    MatchesThree(msg, "Unauthorized", "401", "access token");
  }

  /** Position of a category in the chain. */
  function Rank(g: Guidance): nat {
    match g
    case NoActiveDevice => 0
    case PremiumRequired => 1
    case NotFound => 2
    case Unauthorized => 3
    case Unclassified => 4
  }

  /** The category chosen matches the message, and no earlier category does. */
  lemma ClassifyFirstMatchOrder(msg: string, earlier: Guidance)
    requires Rank(earlier) < Rank(Classify(msg))
    ensures !MatchesAny(msg, Needles(earlier))
    ensures Classify(msg) != Unclassified ==> MatchesAny(msg, Needles(Classify(msg)))
  {
    ClassifyIsFirstMatch(msg);
    var g := Classify(msg);
    if g != Unclassified {
      assert Needles(g)[0] in Needles(g);
      if !Contains(msg, Needles(g)[0]) {
        assert Contains(msg, Needles(g)[1]) || Contains(msg, Needles(g)[|Needles(g)| - 1]);
      }
    }
  }

  /** The longer no-device needle never changes the outcome: whatever contains it
      contains the shorter one. */
  lemma {:induction false} LongNoDeviceNeedleSubsumed(msg: string)
    requires Contains(msg, NoDeviceLongNeedle)
    ensures Contains(msg, NoDeviceNeedle)
  {
    assert NoDeviceLongNeedle == PlayerCommandFailed + NoDeviceNeedle + "";
    ContainsMiddle(PlayerCommandFailed, NoDeviceNeedle, "");
    ContainsTransitive(msg, NoDeviceLongNeedle, NoDeviceNeedle);
  }

  // Guidance texts. Each opens with a marker; the no-device texts are split at
  // the tool calls they name, so that the order of the remedies can be stated.

  const NoDeviceMarker := "📵"
  const PremiumMarker := "⭐"
  const ErrorMarker := "❌"
  const SessionMarker := "🔐"

  const DevicesStep := "spotifyInfo(accion=\"devices\")"
  const TransferStep := "spotifyPlayer(accion=\"transfer\", dispositivo=\"ID_DEL_DISPOSITIVO\")"
  const OpenAppStep := "spotifyPlayer(accion=\"openApp\")"
  const ManualStep := "pide al usuario que reproduzca algo manualmente en Spotify"

  const SourceLead := " No hay dispositivo activo. SIGUIENTE: Usa "
  const SourceAfterDevices := " para verificar dispositivos. Si no hay ninguno, usa "
  const SourceTail := " para abrir Spotify. IMPORTANTE: Después de abrir, pide al usuario que REPRODUZCA MANUALMENTE cualquier canción para activar la sesión del reproductor. Una vez que haya música sonando, las herramientas funcionarán."

  const SourceNoDeviceBody := SourceLead + (DevicesStep + (SourceAfterDevices + (OpenAppStep + SourceTail)))
  const SourceNoDeviceText := NoDeviceMarker + SourceNoDeviceBody

  const CompiledLead := " No hay dispositivo activo. SIGUIENTE: 1) Usa "
  const CompiledAfterDevices := " para obtener lista de dispositivos. 2) Si hay dispositivos, usa "
  const CompiledAfterTransfer := " para activar uno. 3) Si no hay dispositivos, usa "
  const CompiledAfterOpenApp := " para abrir Spotify, espera a que cargue, luego repite desde el paso 1. 4) Si transfer falla, "
  const CompiledTail := " para activar la sesion."

  const CompiledNoDeviceBody :=
    CompiledLead + (DevicesStep + (CompiledAfterDevices + (TransferStep + (CompiledAfterTransfer
    + (OpenAppStep + (CompiledAfterOpenApp + (ManualStep + CompiledTail)))))))
  const CompiledNoDeviceText := NoDeviceMarker + CompiledNoDeviceBody

  const PremiumBody := " Se requiere Spotify Premium para controlar reproducción. El usuario necesita una cuenta Premium para usar play/pause/next/prev/volume/etc."
  const PremiumText := PremiumMarker + PremiumBody

  const SessionBody := " Sesión expirada o no autenticado. SIGUIENTE: Usa spotifyAuth(accion=\"verificar\") para ver estado, luego spotifyAuth(accion=\"ejecutar\") para reconectar."
  const UnauthorizedText := SessionMarker + SessionBody

  const NotFoundLead := " No se encontró el recurso para "
  const NotFoundTail := ". SIGUIENTE: Verifica que el ID sea correcto usando spotifyInfo(accion=\"search\")."

  function NotFoundText(name: string): string {
    ErrorMarker + NotFoundLead + name + NotFoundTail
  }

  const GenericLead := " Error en "

  function GenericText(name: string, msg: string): string {
    ErrorMarker + GenericLead + name + ": " + msg
  }

  /** The marker each category's text opens with. */
  function Marker(g: Guidance): string {
    match g
    case NoActiveDevice => NoDeviceMarker
    case PremiumRequired => PremiumMarker
    case NotFound => ErrorMarker
    case Unauthorized => SessionMarker
    case Unclassified => ErrorMarker
  }

  /** The `error` text for a classified failure: it opens with the category's
      marker, and the unclassified text carries the raw message. */
  function GuidanceText(gen: Generation, g: Guidance, name: string, msg: string): (s: string)
    ensures StartsWith(s, Marker(g))
    ensures g == Unclassified ==> Contains(s, msg)
  {
    NoDeviceTextsMarked();
    NamedTextsMarked(name, msg);
    StartsWithConcat(PremiumMarker, PremiumBody);
    StartsWithConcat(SessionMarker, SessionBody);
    GenericKeepsMessage(name, msg);
    match g
    case NoActiveDevice => if gen == Source then SourceNoDeviceText else CompiledNoDeviceText
    case PremiumRequired => PremiumText
    case NotFound => NotFoundText(name)
    case Unauthorized => UnauthorizedText
    case Unclassified => GenericText(name, msg)
  }

  /** ejecutarPeticionPlayer once the call has settled. */
  function PlayerOutcome<T>(gen: Generation, o: Outcome<T>, name: string): (r: PlayerResult<T>)
    ensures o.Ok? ==> r == Done(Some(o.value))
    ensures o.Err? ==> (r.Done? <==> IsParseArtifact(o.message))
    ensures r.Refused? ==> o.Err? && r.error == GuidanceText(gen, Classify(o.message), name, o.message)
    ensures o.Err? && IsParseArtifact(o.message) ==> r == Done(None)
  {
    match o
    case Ok(v) => Done(Some(v))
    case Err(m) =>
      if IsParseArtifact(m) then Done(None)
      else Refused(GuidanceText(gen, Classify(m), name, m))
  }

  /** The player executor never throws, and it agrees with the plain executor on
      every call the plain one does not re-throw. */
  lemma PlayerAgreesWithRequest<T>(gen: Generation, o: Outcome<T>, name: string)
    ensures RequestOutcome(o).Returned? <==> PlayerOutcome(gen, o, name).Done?
    ensures RequestOutcome(o).Returned? ==> PlayerOutcome(gen, o, name).data == RequestOutcome(o).value
    ensures RequestOutcome(o).Threw? ==> PlayerOutcome(gen, o, name).Refused?
  {
  }

  /** The parse-artifact check wins over every category, whatever else the
      message holds. */
  lemma ArtifactWinsOverClassification<T>(gen: Generation, prefix: string, suffix: string, name: string)
    ensures PlayerOutcome<T>(gen, Err(prefix + UnexpectedToken + suffix), name) == Done(None)
  {
    ContainsMiddle(prefix, UnexpectedToken, suffix);
  }

  /** Only the not-found and generic texts mention the action name; the other
      three are the same whatever the name. */
  lemma NameOnlyInNotFoundAndGeneric(gen: Generation, g: Guidance, name: string, other: string, msg: string)
    ensures g == NotFound || g == Unclassified ==> Contains(GuidanceText(gen, g, name, msg), name)
    ensures g != NotFound && g != Unclassified ==>
      GuidanceText(gen, g, name, msg) == GuidanceText(gen, g, other, msg)
  {
    if g == NotFound {
      ContainsMiddle(ErrorMarker + NotFoundLead, name, NotFoundTail);
    } else if g == Unclassified {
      ContainsMiddle(ErrorMarker + GenericLead, name, ": " + msg);
      assert GenericText(name, msg) == ErrorMarker + GenericLead + name + (": " + msg);
    }
  }

  /** The generic text carries the original error message at its end. */
  lemma GenericKeepsMessage(name: string, msg: string)
    ensures Contains(GenericText(name, msg), msg)
  {
    ContainsMiddle(ErrorMarker + GenericLead + name + ": ", msg, "");
    assert GenericText(name, msg) == ErrorMarker + GenericLead + name + ": " + msg + "";
  }

  /** Four pieces that stand one after another in a concatenation occur in that order. */
  lemma {:induction false} FourInOrder(p0: string, s1: string, p1: string, s2: string, p2: string,
                                       s3: string, p3: string, s4: string, p4: string)
    ensures var t := p0 + (s1 + (p1 + (s2 + (p2 + (s3 + (p3 + (s4 + p4)))))));
      && OccursAt(t, s1, |p0|)
      && OccursAt(t, s2, |p0| + |s1| + |p1|)
      && OccursAt(t, s3, |p0| + |s1| + |p1| + |s2| + |p2|)
      && OccursAt(t, s4, |p0| + |s1| + |p1| + |s2| + |p2| + |s3| + |p3|)
  {
    var r4 := s4 + p4;
    var r3 := s3 + (p3 + r4);
    var r2 := s2 + (p2 + r3);
    var r1 := s1 + (p1 + r2);
    PieceAfterPairs(p0, s1, p1, s2, p2, s3, p3, s4, p4);
    StartsAt(s3, p3 + r4);
    LiftPair(s2, p2, r3, s3, 0);
    LiftPair(s1, p1, r2, s3, |s2| + |p2|);
    OccursAfterPrefix(p0, r1, s3, |s1| + |p1| + |s2| + |p2|);
    StartsAt(s2, p2 + r3);
    LiftPair(s1, p1, r2, s2, 0);
    OccursAfterPrefix(p0, r1, s2, |s1| + |p1|);
    StartsAt(s1, p1 + r2);
    OccursAfterPrefix(p0, r1, s1, 0);
  }

  /** The last of the four pieces, at the end of the nested concatenation. */
  lemma {:induction false} PieceAfterPairs(p0: string, s1: string, p1: string, s2: string, p2: string,
                                           s3: string, p3: string, s4: string, p4: string)
    ensures OccursAt(p0 + (s1 + (p1 + (s2 + (p2 + (s3 + (p3 + (s4 + p4))))))), s4,
                     |p0| + |s1| + |p1| + |s2| + |p2| + |s3| + |p3|)
  {
    var r4 := s4 + p4;
    var r3 := s3 + (p3 + r4);
    var r2 := s2 + (p2 + r3);
    var r1 := s1 + (p1 + r2);
    StartsAt(s4, p4);
    LiftPair(s3, p3, r4, s4, 0);
    LiftPair(s2, p2, r3, s4, |s3| + |p3|);
    LiftPair(s1, p1, r2, s4, |s2| + |p2| + |s3| + |p3|);
    OccursAfterPrefix(p0, r1, s4, |s1| + |p1| + |s2| + |p2| + |s3| + |p3|);
  }

  /** An occurrence seen through two more leading pieces. */
  lemma LiftPair(s: string, p: string, b: string, x: string, i: int)
    requires OccursAt(b, x, i)
    ensures OccursAt(s + (p + b), x, |s| + |p| + i)
  {
    OccursAfterPrefix(p, b, x, i);
    OccursAfterPrefix(s, p + b, x, |p| + i);
  }

  /** A text stands at the start of any extension of it. */
  lemma StartsAt(x: string, rest: string)
    ensures OccursAt(x + rest, x, 0)
  {
    assert (x + rest)[0..|x|] == x;
  }

  /** An occurrence in the second part of a concatenation, seen from the whole. */
  lemma OccursAfterPrefix(a: string, b: string, x: string, i: int)
    requires OccursAt(b, x, i)
    ensures OccursAt(a + b, x, |a| + i)
  {
    assert (a + b)[|a| + i..|a| + i + |x|] == b[i..i + |x|];
  }

  /** The compiled no-device text names the four remedies in order: list
      devices, transfer, open the app, play something by hand. */
  lemma CompiledStepsInOrder()
    ensures exists i1, i2, i3, i4 ::
      i1 < i2 < i3 < i4
      && OccursAt(CompiledNoDeviceText, DevicesStep, i1)
      && OccursAt(CompiledNoDeviceText, TransferStep, i2)
      && OccursAt(CompiledNoDeviceText, OpenAppStep, i3)
      && OccursAt(CompiledNoDeviceText, ManualStep, i4)
  {
    assert |DevicesStep| > 0 && |TransferStep| > 0 && |OpenAppStep| > 0;
    FourInOrderAfter(NoDeviceMarker, CompiledLead, DevicesStep, CompiledAfterDevices, TransferStep,
                     CompiledAfterTransfer, OpenAppStep, CompiledAfterOpenApp, ManualStep, CompiledTail);
  }

  /** The same four pieces, behind a leading marker, at strictly increasing positions. */
  lemma {:induction false} FourInOrderAfter(marker: string, p0: string, s1: string, p1: string, s2: string,
                                            p2: string, s3: string, p3: string, s4: string, p4: string)
    requires |s1| > 0 && |s2| > 0 && |s3| > 0
    ensures var t := marker + (p0 + (s1 + (p1 + (s2 + (p2 + (s3 + (p3 + (s4 + p4))))))));
      exists i1, i2, i3, i4 ::
        i1 < i2 < i3 < i4
        && OccursAt(t, s1, i1) && OccursAt(t, s2, i2) && OccursAt(t, s3, i3) && OccursAt(t, s4, i4)
  {
    var body := p0 + (s1 + (p1 + (s2 + (p2 + (s3 + (p3 + (s4 + p4)))))));
    FourInOrder(p0, s1, p1, s2, p2, s3, p3, s4, p4);
    var j1 := |p0|;
    var j2 := j1 + |s1| + |p1|;
    var j3 := j2 + |s2| + |p2|;
    var j4 := j3 + |s3| + |p3|;
    OccursAfterPrefix(marker, body, s1, j1);
    OccursAfterPrefix(marker, body, s2, j2);
    OccursAfterPrefix(marker, body, s3, j3);
    OccursAfterPrefix(marker, body, s4, j4);
    var m := |marker|;
    assert m + j1 < m + j2 < m + j3 < m + j4;
  }

  /** The source text sends the user to the devices listing, then to opening the app. */
  lemma SourceStepsInOrder()
    ensures exists i1, i2 ::
      i1 < i2
      && OccursAt(SourceNoDeviceText, DevicesStep, i1)
      && OccursAt(SourceNoDeviceText, OpenAppStep, i2)
  {
    var rest := SourceAfterDevices + (OpenAppStep + SourceTail);
    StartsAt(DevicesStep, rest);
    OccursAfterPrefix(SourceLead, DevicesStep + rest, DevicesStep, 0);
    StartsAt(OpenAppStep, SourceTail);
    OccursAfterPrefix(SourceAfterDevices, OpenAppStep + SourceTail, OpenAppStep, 0);
    OccursAfterPrefix(DevicesStep, rest, OpenAppStep, |SourceAfterDevices|);
    OccursAfterPrefix(SourceLead, DevicesStep + rest, OpenAppStep, |DevicesStep| + |SourceAfterDevices|);
    var j1 := |SourceLead|;
    var j2 := j1 + |DevicesStep| + |SourceAfterDevices|;
    OccursAfterPrefix(NoDeviceMarker, SourceNoDeviceBody, DevicesStep, j1);
    OccursAfterPrefix(NoDeviceMarker, SourceNoDeviceBody, OpenAppStep, j2);
    assert |NoDeviceMarker| + j1 < |NoDeviceMarker| + j2;
  }

  lemma {:induction false} NoDeviceTextsMarked()
    ensures StartsWith(SourceNoDeviceText, NoDeviceMarker)
    ensures StartsWith(CompiledNoDeviceText, NoDeviceMarker)
  {
    StartsWithConcat(NoDeviceMarker, SourceNoDeviceBody);
    StartsWithConcat(NoDeviceMarker, CompiledNoDeviceBody);
  }

  lemma {:induction false} NamedTextsMarked(name: string, msg: string)
    ensures StartsWith(NotFoundText(name), ErrorMarker)
    ensures StartsWith(GenericText(name, msg), ErrorMarker)
  {
    StartsWithConcat(ErrorMarker, NotFoundLead + name + NotFoundTail);
    assert NotFoundText(name) == ErrorMarker + (NotFoundLead + name + NotFoundTail);
    StartsWithConcat(ErrorMarker, GenericLead + name + ": " + msg);
    assert GenericText(name, msg) == ErrorMarker + (GenericLead + name + ": " + msg);
  }

  // ---------------------------------------------------------------------------
  // formatearDuracion

  /** The seconds field as written: the remainder below a minute, divided by
      1000 and rounded half-up by `toFixed(0)`. */
  function SecondsField(ms: nat): nat {
    (ms % 60000 + 500) / 1000
  }

  /** formatearDuracion, as written. */
  function FormatDuration(ms: nat): (s: string)
    ensures |s| >= 4 && s[|s| - 3] == ':'
    ensures s[..|s| - 3] == NatToString(ms / 60000)
    ensures s[|s| - 2..] == PadStart2(NatToString(SecondsField(ms)))
  {
    SecondsFieldRange(ms);
    PaddedTwoDigits(SecondsField(ms));
    NatToString(ms / 60000) + ":" + PadStart2(NatToString(SecondsField(ms)))
  }

  /** The seconds field never exceeds 60, and it reaches 60 exactly in the last
      half second of every minute. */
  lemma SecondsFieldRange(ms: nat)
    ensures SecondsField(ms) <= 60
    ensures SecondsField(ms) == 60 <==> ms % 60000 >= 59500
  {
  }

  /** 59.5 seconds renders as "0:60". */
  lemma {:induction false} FormatDurationShowsSixty()
    ensures FormatDuration(59500) == "0:60"
  {
    assert SecondsField(59500) == 60;
    assert NatToString(60) == NatToString(6) + [DigitChar(0)];
    assert NatToString(0) == "0";
  }

  /** formatearDuracion as evidently intended: round to whole seconds first,
      then split into minutes and seconds. */
  function FormatDurationRounded(ms: nat): (s: string)
    ensures |s| >= 4 && s[|s| - 3] == ':'
    ensures s[..|s| - 3] == NatToString((ms + 500) / 1000 / 60)
    ensures s[|s| - 2..] == PadStart2(NatToString((ms + 500) / 1000 % 60))
  {
    RoundedFieldsInRange(ms);
    var total := (ms + 500) / 1000;
    NatToString(total / 60) + ":" + PadStart2(NatToString(total % 60))
  }

  /** The intended seconds field is always two digits below 60 and, with the
      minutes, adds up to the duration rounded to whole seconds. */
  lemma RoundedFieldsInRange(ms: nat)
    ensures (ms + 500) / 1000 % 60 < 60
    ensures |PadStart2(NatToString((ms + 500) / 1000 % 60))| == 2
    ensures (ms + 500) / 1000 / 60 * 60 + (ms + 500) / 1000 % 60 == (ms + 500) / 1000
  {
    PaddedTwoDigits((ms + 500) / 1000 % 60);
  }

  /** The two agree everywhere except the last half second of each minute. */
  lemma {:induction false} RoundedAgreesBelowLastHalfSecond(ms: nat)
    requires ms % 60000 < 59500
    ensures FormatDurationRounded(ms) == FormatDuration(ms)
  {
    RoundedFieldsAgree(ms);
  }

  /** Below the last half second, rounding first changes neither field. */
  lemma {:induction false} RoundedFieldsAgree(ms: nat)
    requires ms % 60000 < 59500
    ensures (ms + 500) / 1000 / 60 == ms / 60000
    ensures (ms + 500) / 1000 % 60 == SecondsField(ms)
  {
    var q, r := ms / 60000, ms % 60000;
    assert ms == 60000 * q + r;
    var s := (r + 500) / 1000;
    assert s < 60;
    assert ms + 500 == 1000 * (60 * q + s) + (r + 500) % 1000;
    assert (ms + 500) / 1000 == 60 * q + s;
    assert (60 * q + s) / 60 == q && (60 * q + s) % 60 == s;
  }

  /** At 59.5 seconds the intended form reads "1:00". */
  lemma {:induction false} RoundedCarriesIntoMinutes()
    ensures FormatDurationRounded(59500) == "1:00"
  {
    assert (59500 + 500) / 1000 == 60;
    assert NatToString(1) == "1";
    assert NatToString(0) == "0";
  }
}
