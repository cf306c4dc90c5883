/** The consolidated playback tool `spotifyPlayer` (src/tools/player.ts): one
    `accion` argument selects the action; an untyped `valor` is coerced per
    action; each action runs its remote calls through `ejecutarPeticion`. */
module Player {
  import opened Common
  import opened SpotifyClient
  import opened Playback

  /** The actions of the tool, except `openApp`, which starts an operating
      system process. */
  datatype PlayerAction =
    | Play | Pause | Resume | Next | Prev | Volume | Shuffle | Repeat | Seek | Queue | Transfer | PlayLiked

  /** `valor`: a number, a boolean or a string. */
  datatype Valor = NumberValue(n: int) | BoolValue(b: bool) | StringValue(s: string)

  datatype PlayerArgs = PlayerArgs(
    action: PlayerAction,
    uri: Option<string>,
    tipo: Option<Kind>,
    id: Option<string>,
    valor: Option<Valor>,
    dispositivo: Option<string>,
    enContexto: Option<bool>)

  const TargetMissing := "Error: Proporciona uri o tipo+id"
  const DeviceMissing := "Error: Proporciona dispositivo"

  /** `dispositivo || ''` */
  function DeviceOf(args: PlayerArgs): (d: string)
    ensures Truthy(args.dispositivo) ==> d == args.dispositivo.value
    ensures !Truthy(args.dispositivo) ==> d == ""
  {
    if Truthy(args.dispositivo) then args.dispositivo.value else ""
  }

  /** `typeof valor === 'number' ? valor : fallback` */
  function NumberOr(valor: Option<Valor>, fallback: int): (r: int)
    ensures valor.Some? && valor.value.NumberValue? ==> r == valor.value.n
    ensures !(valor.Some? && valor.value.NumberValue?) ==> r == fallback
  {
    if valor.Some? && valor.value.NumberValue? then valor.value.n else fallback
  }

  /** `typeof valor === 'boolean' ? valor : fallback` */
  function BoolOr(valor: Option<Valor>, fallback: bool): (r: bool)
    ensures valor.Some? && valor.value.BoolValue? ==> r == valor.value.b
    ensures !(valor.Some? && valor.value.BoolValue?) ==> r == fallback
  {
    if valor.Some? && valor.value.BoolValue? then valor.value.b else fallback
  }

  /** `Math.min(100, Math.max(0, v))` */
  function Clamp100(v: int): (r: int)
    ensures 0 <= r <= 100
    ensures 0 <= v <= 100 ==> r == v
    ensures v < 0 ==> r == 0
    ensures v > 100 ==> r == 100
  {
    if v < 0 then 0 else if v > 100 then 100 else v
  }

  /** The repeat mode named by a string `valor`, `off` for anything else. */
  function RepeatOf(valor: Option<Valor>): (m: RepeatMode)
    ensures m == RepeatTrack <==> valor == Some(StringValue("track"))
    ensures m == RepeatContext <==> valor == Some(StringValue("context"))
  {
    if valor == Some(StringValue("track")) then RepeatTrack
    else if valor == Some(StringValue("context")) then RepeatContext
    else RepeatOff
  }

  /** A single-call action, once its arguments have been checked: either the
      validation message, or the call to make and the text to reply with. */
  datatype Plan = Reject(text: string) | Issue(call: Call, text: string)

  predicate IsSingleCall(a: PlayerAction) {
    a != Play && a != PlayLiked
  }

  /** The commands addressed to the device the caller named (or the active one). */
  predicate OnDevice(c: Call) {
    !c.GetTrack? && !c.GetProfile? && !c.TransferPlayback?
  }

  /** A single-call action is refused exactly when its arguments are, with
      that refusal's text; otherwise its one command goes to the requested
      device, with the volume clamped and the queued item's built uri. */
  function PlanFor(args: PlayerArgs): (p: Plan)
    requires IsSingleCall(args.action)
    ensures p.Reject? <==> Rejected(args)
    ensures p.Reject? ==> p.text == RejectionText(args)
    ensures p.Issue? && args.action != Transfer ==> OnDevice(p.call) && p.call.device == DeviceOf(args)
    ensures args.action == Volume ==> p.Issue? && p.call.SetVolume? && 0 <= p.call.percent <= 100
    ensures args.action == Queue && p.Issue? ==>
      p.call.AddToQueue? && TargetUri(args.uri, args.tipo, args.id) == Some(p.call.uri)
    ensures args.action == Transfer && p.Issue? ==>
      p.call.TransferPlayback? && p.call.devices == [args.dispositivo.value] && p.call.play
  {
    var device := DeviceOf(args);
    match args.action
    case Pause => Issue(PausePlayback(device), "⏸️ Pausado")
    case Resume => Issue(StartResume(device, None, None, None), "▶️ Reanudado")
    case Next => Issue(SkipNext(device), "⏭️ Siguiente")
    case Prev => Issue(SkipPrevious(device), "⏮️ Anterior")
    case Volume =>
      var vol := NumberOr(args.valor, 50);
      Issue(SetVolume(Clamp100(vol), device), VolumeText(vol))
    case Shuffle =>
      var on := BoolOr(args.valor, true);
      Issue(ToggleShuffle(on, device), ShuffleText(on))
    case Repeat =>
      var mode := RepeatOf(args.valor);
      Issue(SetRepeat(mode, device), RepeatText(mode))
    case Seek =>
      var posMs := NumberOr(args.valor, 0);
      Issue(SeekTo(posMs, device), SeekLabel(posMs))
    case Queue =>
      var queueUri := TargetUri(args.uri, args.tipo, args.id);
      if queueUri.None? then Reject(TargetMissing) else Issue(AddToQueue(queueUri.value, device), QueuedText)
    case Transfer =>
      if !Truthy(args.dispositivo) then Reject(DeviceMissing)
      else Issue(TransferPlayback([args.dispositivo.value], true), TransferText)
  }

  function PlanRun(api: PlaybackApi, p: Plan): Run {
    match p
    case Reject(t) => Run(Said(t), [])
    case Issue(c, t) => SingleRun(api, c, t)
  }

  /** The arguments an action refuses before any remote call. */
  predicate Rejected(args: PlayerArgs)
    ensures Rejected(args) ==> args.action in {Play, Queue, Transfer}
  {
    || ((args.action == Play || args.action == Queue) && TargetUri(args.uri, args.tipo, args.id).None?)
    || (args.action == Transfer && !Truthy(args.dispositivo))
  }

  function RejectionText(args: PlayerArgs): string {
    if args.action == Transfer then DeviceMissing else TargetMissing
  }

  function PlayingText(tipo: Option<Kind>): string {
    "▶️ Reproduciendo " + (if tipo.Some? then KindName(tipo.value) else "música")
  }

  function AlbumText(a: AlbumStart): string {
    "▶️ \"" + a.trackName + "\" en álbum \"" + a.albumName + "\""
  }

  /** The `play` action: the closure's calls, and the message it leaves behind. */
  function PlayRun(api: PlaybackApi, args: PlayerArgs): Run {
    var target := TargetUri(args.uri, args.tipo, args.id);
    if target.None? then Run(Said(TargetMissing), [])
    else
      var s := ContextPlay(api, target.value, args.tipo, args.id, args.enContexto.GetOr(true), DeviceOf(args));
      Run(Settle(s, if s.albumStart.Some? then AlbumText(s.albumStart.value) else PlayingText(args.tipo)), s.trace)
  }

  function LikedText(shuffle: bool): string {
    "💚 Reproduciendo Me gusta" + (if shuffle then " (aleatorio)" else "")
  }

  /** The `playLiked` action. */
  function LikedRun(api: PlaybackApi, args: PlayerArgs): Run {
    var shuffle := BoolOr(args.valor, false);
    var s := LikedSteps(api, shuffle, DeviceOf(args));
    Run(Settle(s, LikedText(shuffle)), s.trace)
  }

  /** `case 'play'`: the message starts as the generic one and is replaced when
      the track starts inside its album. */
  method PlayAction(api: PlaybackApi, args: PlayerArgs) returns (reply: Reply, trace: seq<Call>)
    ensures Run(reply, trace) == PlayRun(api, args)
  {
    if !(Truthy(args.uri) || (args.tipo.Some? && Truthy(args.id))) {
      return Said(TargetMissing), [];
    }
    var device := DeviceOf(args);
    var spotifyUri := TargetUri(args.uri, args.tipo, args.id).value;
    var mensaje := PlayingText(args.tipo);
    var s := RunContextPlay(api, spotifyUri, args.tipo, args.id, args.enContexto.GetOr(true), device);
    if s.albumStart.Some? {
      mensaje := AlbumText(s.albumStart.value);
    }
    reply := Settle(s, mensaje);
    trace := s.trace;
  }

  /** `case 'playLiked'` */
  method PlayLikedAction(api: PlaybackApi, args: PlayerArgs) returns (reply: Reply, trace: seq<Call>)
    ensures Run(reply, trace) == LikedRun(api, args)
  {
    var shuffle := BoolOr(args.valor, false);
    var s := RunLiked(api, shuffle, DeviceOf(args));
    reply := Settle(s, LikedText(shuffle));
    trace := s.trace;
  }

  /** spotifyPlayer.ejecutar: validation comes before the network, every
      accepted action reaches it, and each action behaves as its own
      specification says. */
  method Execute(api: PlaybackApi, args: PlayerArgs) returns (reply: Reply, trace: seq<Call>)
    ensures trace == [] <==> Rejected(args)
    ensures Rejected(args) ==> reply == Said(RejectionText(args))
    ensures args.action == Play ==> Run(reply, trace) == PlayRun(api, args)
    ensures args.action == PlayLiked ==> Run(reply, trace) == LikedRun(api, args)
    ensures IsSingleCall(args.action) ==> Run(reply, trace) == PlanRun(api, PlanFor(args))
  {
    match args.action {
      case Play =>
        reply, trace := PlayAction(api, args);
        ghost var target := TargetUri(args.uri, args.tipo, args.id);
        if target.Some? {
          ClosureEndsPlayingTarget(api, target.value, args.tipo, args.id, args.enContexto.GetOr(true), DeviceOf(args));
        }
      case PlayLiked =>
        reply, trace := PlayLikedAction(api, args);
      case _ =>
        var run := PlanRun(api, PlanFor(args));
        reply, trace := run.reply, run.trace;
    }
  }

  // ---------------------------------------------------------------------------
  // Properties of the coercions

  /** Without a numeric `valor` the volume is 50, and the reply reads "50%". */
  lemma {:induction false} VolumeDefault(device: Option<string>)
    ensures var p := PlanFor(PlayerArgs(Volume, None, None, None, None, device, None));
      p == Issue(SetVolume(50, if Truthy(device) then device.value else ""), "🔊 Volumen: 50%")
  {
    assert NatToString(50) == NatToString(5) + [DigitChar(0)];
  }

  /** The volume sent is always within 0..100 and equals the request when that
      is in range; the reply echoes the request as given, even out of range. */
  lemma VolumeSentAndEchoed(v: int, device: Option<string>)
    ensures var p := PlanFor(PlayerArgs(Volume, None, None, None, Some(NumberValue(v)), device, None));
      p.Issue? && p.call.SetVolume? && 0 <= p.call.percent <= 100
      && (0 <= v <= 100 <==> p.call.percent == v)
      && p.text == VolumeText(v)
  {
  }

  /** Shuffle is switched on unless `valor` is the boolean false. */
  lemma ShuffleDefaultsOn(valor: Option<Valor>, device: Option<string>)
    ensures var p := PlanFor(PlayerArgs(Shuffle, None, None, None, valor, device, None));
      p.call.on <==> valor != Some(BoolValue(false))
  {
  }

  /** Any `valor` other than the three mode names sets repeat off. */
  lemma RepeatFallsBackToOff(valor: Option<Valor>, device: Option<string>)
    requires valor != Some(StringValue("track")) && valor != Some(StringValue("context"))
    ensures PlanFor(PlayerArgs(Repeat, None, None, None, valor, device, None)).call.mode == RepeatOff
  {
  }

  /** Play and queue aim at the same URI for the same arguments: queue adds it,
      and a play whose calls all succeed ends by starting it. */
  lemma PlayAndQueueShareTarget(api: PlaybackApi, args: PlayerArgs)
    requires args.action == Play && !Rejected(args)
    ensures var target := TargetUri(args.uri, args.tipo, args.id).value;
      var s := ContextPlay(api, target, args.tipo, args.id, args.enContexto.GetOr(true), DeviceOf(args));
      && PlanFor(args.(action := Queue)) == Issue(AddToQueue(target, DeviceOf(args)), QueuedText)
      && PlayRun(api, args).trace == s.trace
      && (s.failure.None? ==>
            var last := s.trace[|s.trace| - 1];
            last.StartResume?
            && (last.offset == Some(target) || last.uris == Some([target]) || last.context == Some(target)))
  {
    ClosureEndsPlayingTarget(api, TargetUri(args.uri, args.tipo, args.id).value, args.tipo, args.id,
                             args.enContexto.GetOr(true), DeviceOf(args));
  }

  /** A parse artifact raised by the track lookup is swallowed like any other:
      the tool reports that it is playing although no start command was sent. */
  lemma ArtifactOnLookupReportsPlaying(api: PlaybackApi, id: string, device: Option<string>)
    requires id != "" && api.track(id) == Err(UnexpectedToken)
    ensures var run := PlayRun(api, PlayerArgs(Play, None, Some(Track), Some(id), None, device, None));
      run.trace == [GetTrack(id)] && run.reply == Said("▶️ Reproduciendo track")
  {
    ContainsMiddle("", UnexpectedToken, "");
    assert "" + UnexpectedToken + "" == UnexpectedToken;
  }

  /** A transfer always asks to keep playing on the one device given. */
  lemma TransferKeepsPlaying(args: PlayerArgs)
    requires args.action == Transfer && Truthy(args.dispositivo)
    ensures PlanFor(args).call == TransferPlayback([args.dispositivo.value], true)
  {
  }

  /** Liked Songs shuffles only on a boolean `valor` of true. */
  lemma LikedShuffleOnlyWhenAsked(api: PlaybackApi, args: PlayerArgs)
    requires api.profileId.Ok?
    ensures ToggleShuffle(true, DeviceOf(args)) in LikedRun(api, args).trace <==> args.valor == Some(BoolValue(true))
  {
    LikedOrder(api, BoolOr(args.valor, false), DeviceOf(args));
    assert BoolOr(args.valor, false) <==> args.valor == Some(BoolValue(true));
  }
}
