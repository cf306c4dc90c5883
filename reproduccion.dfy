/** The older, one-tool-per-action playback tools (src/tools/reproduccion.ts),
    which are the ones the server registers. Their argument schemas already
    restrict volume to 0..100 and positions to non-negative numbers. */
module LegacyPlayback {
  import opened Common
  import opened SpotifyClient
  import opened Playback
  import Player

  const TargetMissing := "Error: Debes proporcionar un URI o un tipo con ID"
  const QueueTargetMissing := "Error: Proporciona un URI o tipo con ID"

  /** `dispositivoId || ''` */
  function DeviceOr(dispositivoId: Option<string>): (d: string)
    ensures Truthy(dispositivoId) ==> d == dispositivoId.value
    ensures !Truthy(dispositivoId) ==> d == ""
  {
    if Truthy(dispositivoId) then dispositivoId.value else ""
  }

  function PlayingText(tipo: Option<Kind>, id: Option<string>): string {
    "▶️ Reproduciendo " + (if tipo.Some? then KindName(tipo.value) else "música") + " "
    + (if Truthy(id) then "(ID: " + id.value + ")" else "")
  }

  function AlbumText(a: AlbumStart): string {
    "▶️ Reproduciendo \"" + a.trackName + "\" en contexto del álbum \"" + a.albumName + "\""
  }

  /** The closure of `reproducir`, which still handles an undefined URI by a
      bare resume. */
  function LegacyClosure(api: PlaybackApi, spotifyUri: Option<string>, tipo: Option<Kind>, id: Option<string>,
                         inContext: bool, device: string): Steps
  {
    if spotifyUri.None? then
      var resume := StartResume(device, None, None, None);
      Steps([resume], if api.command(resume).Err? then Some(api.command(resume).message) else None, None)
    else ContextPlay(api, spotifyUri.value, tipo, id, inContext, device)
  }

  method RunLegacyClosure(api: PlaybackApi, spotifyUri: Option<string>, tipo: Option<Kind>, id: Option<string>,
                          inContext: bool, device: string) returns (s: Steps)
    ensures s == LegacyClosure(api, spotifyUri, tipo, id, inContext, device)
  {
    if spotifyUri.None? {
      var resume := StartResume(device, None, None, None);
      var done := api.command(resume);
      return Steps([resume], if done.Err? then Some(done.message) else None, None);
    }
    s := RunContextPlay(api, spotifyUri.value, tipo, id, inContext, device);
  }

  /** `reproducir`, as a specification. */
  function ReproducirRun(api: PlaybackApi, uri: Option<string>, tipo: Option<Kind>, id: Option<string>,
                         dispositivoId: Option<string>, enContexto: Option<bool>): Run
  {
    if !(Truthy(uri) || (tipo.Some? && Truthy(id))) then Run(Said(TargetMissing), [])
    else
      var s := LegacyClosure(api, TargetUri(uri, tipo, id), tipo, id, enContexto.GetOr(true), DeviceOr(dispositivoId));
      Run(Settle(s, if s.albumStart.Some? then AlbumText(s.albumStart.value) else PlayingText(tipo, id)), s.trace)
  }

  /** `reproducir`: guard, build the URI, start with the generic message and
      replace it when the track starts inside its album. */
  method Reproducir(api: PlaybackApi, uri: Option<string>, tipo: Option<Kind>, id: Option<string>,
                    dispositivoId: Option<string>, enContexto: Option<bool>)
    returns (reply: Reply, trace: seq<Call>)
    ensures Run(reply, trace) == ReproducirRun(api, uri, tipo, id, dispositivoId, enContexto)
  {
    if !(Truthy(uri) || (tipo.Some? && Truthy(id))) {
      return Said(TargetMissing), [];
    }
    var spotifyUri := TargetUri(uri, tipo, id);
    var mensaje := PlayingText(tipo, id);
    var s := RunLegacyClosure(api, spotifyUri, tipo, id, enContexto.GetOr(true), DeviceOr(dispositivoId));
    if s.albumStart.Some? {
      mensaje := AlbumText(s.albumStart.value);
    }
    reply := Settle(s, mensaje);
    trace := s.trace;
  }

  /** Without a URI or a kind with an id, nothing is sent. */
  lemma ReproducirGuard(api: PlaybackApi, uri: Option<string>, tipo: Option<Kind>, id: Option<string>,
                        dispositivoId: Option<string>, enContexto: Option<bool>)
    ensures ReproducirRun(api, uri, tipo, id, dispositivoId, enContexto).trace == []
      <==> !(Truthy(uri) || (tipo.Some? && Truthy(id)))
  {
    if Truthy(uri) || (tipo.Some? && Truthy(id)) {
      ClosureEndsPlayingTarget(api, TargetUri(uri, tipo, id).value, tipo, id, enContexto.GetOr(true), DeviceOr(dispositivoId));
    }
  }

  /** Once the guard has passed the URI is always defined, so the bare-resume
      branch of the closure never runs: no call of `reproducir` is a start
      without context and without tracks. */
  lemma {:induction false} BareResumeUnreachable(api: PlaybackApi, uri: Option<string>, tipo: Option<Kind>, id: Option<string>,
                                                 dispositivoId: Option<string>, enContexto: Option<bool>)
    ensures forall c :: c in ReproducirRun(api, uri, tipo, id, dispositivoId, enContexto).trace ==>
      !(c.StartResume? && c.context.None? && c.uris.None?)
  {
    if Truthy(uri) || (tipo.Some? && Truthy(id)) {
      var target := TargetUri(uri, tipo, id);
      assert target.Some?;
      var s := ContextPlay(api, target.value, tipo, id, enContexto.GetOr(true), DeviceOr(dispositivoId));
      assert LegacyClosure(api, target, tipo, id, enContexto.GetOr(true), DeviceOr(dispositivoId)) == s;
    }
  }

  /** The legacy and consolidated play tools issue the same calls for the same arguments. */
  lemma ReproducirMatchesConsolidated(api: PlaybackApi, uri: Option<string>, tipo: Option<Kind>, id: Option<string>,
                                      dispositivoId: Option<string>, enContexto: Option<bool>)
    ensures ReproducirRun(api, uri, tipo, id, dispositivoId, enContexto).trace
      == Player.PlayRun(api, Player.PlayerArgs(Player.Play, uri, tipo, id, None, dispositivoId, enContexto)).trace
  {
  }

  // ---------------------------------------------------------------------------
  // Single-call tools

  /** `pausar`: one pause command, to the given device or the active one (""). */
  function Pausar(api: PlaybackApi, dispositivoId: Option<string>): (r: Run)
    ensures r.trace == [PausePlayback(DeviceOr(dispositivoId))]
    ensures r.reply.Said? ==> r.reply.text == "⏸️ Reproducción pausada"
    ensures r.reply.Raised? <==> api.command(r.trace[0]).Err? && !IsParseArtifact(api.command(r.trace[0]).message)
  {
    SingleRun(api, PausePlayback(DeviceOr(dispositivoId)), "⏸️ Reproducción pausada")
  }

  /** `reanudar`: one start command without context, uris or offset. */
  function Reanudar(api: PlaybackApi, dispositivoId: Option<string>): (r: Run)
    ensures r.trace == [StartResume(DeviceOr(dispositivoId), None, None, None)]
    ensures r.reply.Said? ==> r.reply.text == "▶️ Reproducción reanudada"
    ensures r.reply.Raised? <==> api.command(r.trace[0]).Err? && !IsParseArtifact(api.command(r.trace[0]).message)
  {
    SingleRun(api, StartResume(DeviceOr(dispositivoId), None, None, None), "▶️ Reproducción reanudada")
  }

  /** `siguiente`: one skip-to-next command. */
  function Siguiente(api: PlaybackApi, dispositivoId: Option<string>): (r: Run)
    ensures r.trace == [SkipNext(DeviceOr(dispositivoId))]
    ensures r.reply.Said? ==> r.reply.text == "⏭️ Siguiente canción"
    ensures r.reply.Raised? <==> api.command(r.trace[0]).Err? && !IsParseArtifact(api.command(r.trace[0]).message)
  {
    SingleRun(api, SkipNext(DeviceOr(dispositivoId)), "⏭️ Siguiente canción")
  }

  /** `anterior`: one skip-to-previous command. */
  function Anterior(api: PlaybackApi, dispositivoId: Option<string>): (r: Run)
    ensures r.trace == [SkipPrevious(DeviceOr(dispositivoId))]
    ensures r.reply.Said? ==> r.reply.text == "⏮️ Canción anterior"
    ensures r.reply.Raised? <==> api.command(r.trace[0]).Err? && !IsParseArtifact(api.command(r.trace[0]).message)
  {
    SingleRun(api, SkipPrevious(DeviceOr(dispositivoId)), "⏮️ Canción anterior")
  }

  /** `ajustarVolumen`: the schema keeps the volume in 0..100; it is sent as given. */
  function AjustarVolumen(api: PlaybackApi, volumen: int, dispositivoId: Option<string>): (r: Run)
    requires 0 <= volumen <= 100
    ensures r.trace == [SetVolume(volumen, DeviceOr(dispositivoId))]
  {
    SingleRun(api, SetVolume(volumen, DeviceOr(dispositivoId)), VolumeText(volumen))
  }

  /** Within the schema's range the legacy and consolidated volume tools agree. */
  lemma VolumeMatchesConsolidated(api: PlaybackApi, volumen: int, dispositivoId: Option<string>)
    requires 0 <= volumen <= 100
    ensures AjustarVolumen(api, volumen, dispositivoId)
      == Player.PlanRun(api, Player.PlanFor(Player.PlayerArgs(Player.Volume, None, None, None,
                                                             Some(Player.NumberValue(volumen)), dispositivoId, None)))
  {
  }

  /** `activarAleatorio`: one shuffle command; the reply says which way it went. */
  function ActivarAleatorio(api: PlaybackApi, activar: bool, dispositivoId: Option<string>): (r: Run)
    ensures r.trace == [ToggleShuffle(activar, DeviceOr(dispositivoId))]
    ensures r.reply.Said? ==> r.reply.text == "🔀 Aleatorio " + (if activar then "activado" else "desactivado")
    ensures r.reply.Raised? <==> api.command(r.trace[0]).Err? && !IsParseArtifact(api.command(r.trace[0]).message)
  {
    SingleRun(api, ToggleShuffle(activar, DeviceOr(dispositivoId)), ShuffleText(activar))
  }

  /** `modoRepeticion`: the schema admits only the three modes. */
  function ModoRepeticion(api: PlaybackApi, modo: RepeatMode, dispositivoId: Option<string>): (r: Run)
    ensures r.trace == [SetRepeat(modo, DeviceOr(dispositivoId))]
    ensures r.reply.Said? ==> r.reply.text == "🔁 Repetición: " + RepeatLabel(modo)
  {
    SingleRun(api, SetRepeat(modo, DeviceOr(dispositivoId)), RepeatText(modo))
  }

  /** `cambiarDispositivo`: transfer to the one device, playing unless told not to. */
  function CambiarDispositivo(api: PlaybackApi, dispositivoId: string, reproducir: Option<bool>): (r: Run)
    ensures r.trace == [TransferPlayback([dispositivoId], reproducir != Some(false))]
  {
    SingleRun(api, TransferPlayback([dispositivoId], reproducir.GetOr(true)), TransferText)
  }

  /** `saltarAPosicion`: the schema keeps the position non-negative. */
  function SaltarAPosicion(api: PlaybackApi, posicionMs: int, dispositivoId: Option<string>): (r: Run)
    requires posicionMs >= 0
    ensures r.trace == [SeekTo(posicionMs, DeviceOr(dispositivoId))]
    ensures r.reply.Said? ==> r.reply.text == SeekLabel(posicionMs)
  {
    SingleRun(api, SeekTo(posicionMs, DeviceOr(dispositivoId)), SeekLabel(posicionMs))
  }

  /** `agregarACola` */
  function AgregarACola(api: PlaybackApi, uri: Option<string>, tipo: Option<Kind>, id: Option<string>,
                        dispositivoId: Option<string>): (r: Run)
    ensures r.trace == [] <==> TargetUri(uri, tipo, id).None?
    ensures r.trace == [] ==> r.reply == Said(QueueTargetMissing)
    ensures Truthy(uri) ==> r.trace == [AddToQueue(uri.value, DeviceOr(dispositivoId))]
    ensures TargetUri(uri, tipo, id).Some? ==>
      r.trace == [AddToQueue(TargetUri(uri, tipo, id).value, DeviceOr(dispositivoId))]
    ensures TargetUri(uri, tipo, id).Some? && r.reply.Said? ==> r.reply.text == QueuedText
    ensures !Truthy(uri) && TargetUri(uri, tipo, id).Some? ==>
      r.trace == [AddToQueue("spotify:" + KindName(tipo.value) + ":" + id.value, DeviceOr(dispositivoId))]
  {
    var spotifyUri := TargetUri(uri, tipo, id);
    if spotifyUri.None? then Run(Said(QueueTargetMissing), [])
    else SingleRun(api, AddToQueue(spotifyUri.value, DeviceOr(dispositivoId)), QueuedText)
  }

  function MeGustaText(aleatorio: Option<bool>): string {
    "💚 Reproduciendo tus canciones guardadas" + (if aleatorio == Some(true) then " (aleatorio)" else "")
  }

  /** `reproducirMeGusta` */
  method ReproducirMeGusta(api: PlaybackApi, aleatorio: Option<bool>, dispositivoId: Option<string>)
    returns (reply: Reply, trace: seq<Call>)
    ensures var s := LikedSteps(api, aleatorio == Some(true), DeviceOr(dispositivoId));
      trace == s.trace && reply == Settle(s, MeGustaText(aleatorio))
    ensures api.profileId.Ok? ==>
      (ToggleShuffle(true, DeviceOr(dispositivoId)) in trace <==> aleatorio == Some(true))
  {
    var s := RunLiked(api, aleatorio == Some(true), DeviceOr(dispositivoId));
    if api.profileId.Ok? {
      LikedOrder(api, aleatorio == Some(true), DeviceOr(dispositivoId));
    }
    reply := Settle(s, MeGustaText(aleatorio));
    trace := s.trace;
  }
}
