/** Vocabulary shared by both generations of the playback tools
    (src/tools/player.ts and src/tools/reproduccion.ts): the remote player
    calls, the abstract SDK they go through, the play-in-album-context closure,
    the target URI, and the labels both print. */
module Playback {
  import opened Common
  import opened SpotifyClient

  /** `tipo` of the play and queue arguments. */
  datatype Kind = Track | Album | Artist | Playlist

  function KindName(k: Kind): (s: string)
    ensures s != ""
  {
    match k
    case Track => "track"
    case Album => "album"
    case Artist => "artist"
    case Playlist => "playlist"
  }

  datatype RepeatMode = RepeatTrack | RepeatContext | RepeatOff

  /** One remote call, as the SDK method and the arguments it was given. */
  datatype Call =
    | GetTrack(trackId: string)
    | GetProfile
    | StartResume(device: string, context: Option<string>, uris: Option<seq<string>>, offset: Option<string>)
    | PausePlayback(device: string)
    | SkipNext(device: string)
    | SkipPrevious(device: string)
    | SetVolume(percent: int, device: string)
    | ToggleShuffle(on: bool, device: string)
    | SetRepeat(mode: RepeatMode, device: string)
    | SeekTo(positionMs: int, device: string)
    | AddToQueue(uri: string, device: string)
    | TransferPlayback(devices: seq<string>, play: bool)

  datatype AlbumRef = AlbumRef(uri: Option<string>, name: string)
  datatype TrackInfo = TrackInfo(name: string, album: Option<AlbumRef>)

  /** A track started inside its album: the two names the message quotes. */
  datatype AlbumStart = AlbumStart(trackName: string, albumName: string)

  /** The part of the remote service the playback tools use: what `tracks.get`
      answers for an id, what `currentUser.profile` answers, and how each player
      command settles. */
  datatype PlaybackApi = PlaybackApi(
    track: string -> Outcome<TrackInfo>,
    profileId: Outcome<string>,
    command: Call -> Outcome<()>)

  /** What one tool invocation gives back, with the remote calls it made in order. */
  datatype Run = Run(reply: Reply, trace: seq<Call>)

  /** How a closure passed to `ejecutarPeticion` ended: the calls it issued, the
      error that stopped it (if any), and the track it started in its album
      (when the album branch ran to the end). */
  datatype Steps = Steps(trace: seq<Call>, failure: Option<string>, albumStart: Option<AlbumStart>)

  /** The outcome the closure's promise settles with. */
  function ClosureOutcome(s: Steps): Outcome<()> {
    if s.failure.Some? then Err(s.failure.value) else Ok(())
  }

  /** `await ejecutarPeticion(closure)` followed by `return text`: the text unless
      the executor re-throws. */
  function Settle(s: Steps, text: string): (r: Reply)
    ensures r.Raised? <==> s.failure.Some? && !IsParseArtifact(s.failure.value)
    ensures r.Said? ==> r.text == text
    ensures r.Raised? ==> r.message == s.failure.value
  {
    match RequestOutcome(ClosureOutcome(s))
    case Returned(_) => Said(text)
    case Threw(m) => Raised(m)
  }

  /** A tool whose closure issues exactly one command. */
  function SingleRun(api: PlaybackApi, c: Call, text: string): (r: Run)
    ensures r.trace == [c]
    ensures r.reply.Said? ==> r.reply.text == text
    ensures r.reply.Raised? <==> api.command(c).Err? && !IsParseArtifact(api.command(c).message)
  {
    var s := Steps([c], if api.command(c).Err? then Some(api.command(c).message) else None, None);
    Run(Settle(s, text), [c])
  }

  /** `uri || (tipo && id ? \`spotify:${tipo}:${id}\` : undefined)` */
  function TargetUri(uri: Option<string>, tipo: Option<Kind>, id: Option<string>): (r: Option<string>)
    ensures r.Some? <==> Truthy(uri) || (tipo.Some? && Truthy(id))
    ensures Truthy(uri) ==> r == uri
    ensures !Truthy(uri) && r.Some? ==> r.value == "spotify:" + KindName(tipo.value) + ":" + id.value
  {
    if Truthy(uri) then uri
    else if tipo.Some? && Truthy(id) then Some("spotify:" + KindName(tipo.value) + ":" + id.value)
    else None
  }

  /** A URI built from `tipo` and `id` names the kind and ends with the id. */
  lemma BuiltUriParts(tipo: Kind, id: string)
    requires id != ""
    ensures var u := TargetUri(None, Some(tipo), Some(id)).value;
      StartsWith(u, "spotify:" + KindName(tipo) + ":") && u[|u| - |id|..] == id
  {
    var u := "spotify:" + KindName(tipo) + ":" + id;
    StartsWithConcat("spotify:" + KindName(tipo) + ":", id);
    assert u[|u| - |id|..] == id;
  }

  /** The decision the play closure makes for a track played in its album. */
  predicate InAlbumContext(tipo: Option<Kind>, id: Option<string>, inContext: bool) {
    tipo == Some(Track) && Truthy(id) && inContext
  }

  /** The command that plays the target without album context: a track as a
      one-element `uris` list, anything else as the context URI. */
  function DirectStart(device: string, target: string, tipo: Option<Kind>): (c: Call)
    ensures c.StartResume? && c.offset.None? && c.device == device
    ensures tipo == Some(Track) ==> c.context.None? && c.uris == Some([target])
    ensures tipo != Some(Track) ==> c.context == Some(target) && c.uris.None?
  {
    if tipo == Some(Track) then StartResume(device, None, Some([target]), None)
    else StartResume(device, Some(target), None, None)
  }

  /** The play closure of both generations, given a defined target. */
  function ContextPlay(api: PlaybackApi, target: string, tipo: Option<Kind>, id: Option<string>,
                       inContext: bool, device: string): (s: Steps)
    ensures |s.trace| >= 1
    ensures s.trace[0].GetTrack? <==> InAlbumContext(tipo, id, inContext)
    ensures InAlbumContext(tipo, id, inContext) ==> s.trace[0] == GetTrack(id.value)
    ensures s.albumStart.Some? ==> InAlbumContext(tipo, id, inContext) && s.failure.None?
    ensures s.failure.Some? ==> s.failure == CallError(api, s.trace[|s.trace| - 1])
  {
    var direct := DirectStart(device, target, tipo);
    if InAlbumContext(tipo, id, inContext) then
      var fetch := GetTrack(id.value);
      match api.track(id.value)
      case Err(m) => Steps([fetch], Some(m), None)
      case Ok(t) =>
        if t.album.Some? && Truthy(t.album.value.uri) then
          var start := StartResume(device, t.album.value.uri, None, Some(target));
          if api.command(start).Err? then Steps([fetch, start], Some(api.command(start).message), None)
          else Steps([fetch, start], None, Some(AlbumStart(t.name, t.album.value.name)))
        else if api.command(direct).Err? then Steps([fetch, direct], Some(api.command(direct).message), None)
        else Steps([fetch, direct], None, None)
    else if api.command(direct).Err? then Steps([direct], Some(api.command(direct).message), None)
    else Steps([direct], None, None)
  }

  /** The error a call fails with, if any. */
  function CallError(api: PlaybackApi, c: Call): Option<string> {
    if c.GetTrack? then (if api.track(c.trackId).Err? then Some(api.track(c.trackId).message) else None)
    else if api.command(c).Err? then Some(api.command(c).message) else None
  }

  /** The closure, as the sequence of awaited calls it is. */
  method RunContextPlay(api: PlaybackApi, target: string, tipo: Option<Kind>, id: Option<string>,
                        inContext: bool, device: string) returns (s: Steps)
    ensures s == ContextPlay(api, target, tipo, id, inContext, device)
  {
    var trace: seq<Call> := [];
    if tipo == Some(Track) && Truthy(id) && inContext {
      trace := trace + [GetTrack(id.value)];
      var fetched := api.track(id.value);
      if fetched.Err? {
        return Steps(trace, Some(fetched.message), None);
      }
      var track := fetched.value;
      if track.album.Some? && Truthy(track.album.value.uri) {
        var start := StartResume(device, track.album.value.uri, None, Some(target));
        trace := trace + [start];
        var started := api.command(start);
        if started.Err? {
          return Steps(trace, Some(started.message), None);
        }
        return Steps(trace, None, Some(AlbumStart(track.name, track.album.value.name)));
      }
    }
    var direct := DirectStart(device, target, tipo);
    trace := trace + [direct];
    var done := api.command(direct);
    s := Steps(trace, if done.Err? then Some(done.message) else None, None);
  }

  /** A track with an album URI is started inside its album, at the track. */
  lemma AlbumContextChosen(api: PlaybackApi, target: string, id: string, device: string)
    requires id != ""
    requires api.track(id).Ok? && api.track(id).value.album.Some? && Truthy(api.track(id).value.album.value.uri)
    ensures var s := ContextPlay(api, target, Some(Track), Some(id), true, device);
      var album := api.track(id).value.album.value;
      s.trace == [GetTrack(id), StartResume(device, album.uri, None, Some(target))]
      && (s.albumStart.Some? <==> api.command(s.trace[1]).Ok?)
  {
  }

  /** A track without an album URI falls back to playing the track alone. */
  lemma AlbumFallback(api: PlaybackApi, target: string, id: string, device: string)
    requires id != ""
    requires api.track(id).Ok? && !(api.track(id).value.album.Some? && Truthy(api.track(id).value.album.value.uri))
    ensures var s := ContextPlay(api, target, Some(Track), Some(id), true, device);
      s.trace == [GetTrack(id), StartResume(device, None, Some([target]), None)] && s.albumStart.None?
  {
  }

  /** Without the in-context decision, exactly one start command is issued. */
  lemma DirectPlayOnly(api: PlaybackApi, target: string, tipo: Option<Kind>, id: Option<string>,
                       inContext: bool, device: string)
    requires !InAlbumContext(tipo, id, inContext)
    ensures var s := ContextPlay(api, target, tipo, id, inContext, device);
      s.trace == [DirectStart(device, target, tipo)] && s.albumStart.None?
  {
  }

  /** Every run of the closure ends with a start command that plays the target:
      as the album offset, as the only listed track, or as the context. */
  lemma ClosureEndsPlayingTarget(api: PlaybackApi, target: string, tipo: Option<Kind>, id: Option<string>,
                                 inContext: bool, device: string)
    ensures var s := ContextPlay(api, target, tipo, id, inContext, device);
      1 <= |s.trace| <= 2
      && (s.failure.None? ==>
            var last := s.trace[|s.trace| - 1];
            last.StartResume? && last.device == device
            && (last.offset == Some(target) || last.uris == Some([target]) || last.context == Some(target)))
      && (s.albumStart.Some? ==> s.failure.None? && |s.trace| == 2 && s.trace[1].offset == Some(target))
  {
  }

  // ---------------------------------------------------------------------------
  // Labels

  /** JavaScript `a % b` for a positive divisor: the sign follows the dividend. */
  function JsRem(a: int, b: int): (r: int)
    requires b > 0
    ensures a >= 0 ==> r == a % b
    ensures a >= 0 ==> 0 <= r < b
    ensures a <= 0 ==> -b < r <= 0
    ensures a < 0 ==> r == -((-a) % b)
  {
    if a >= 0 then a % b else -((-a) % b)
  }

  /** `⏩ Posición: ${min}:${seg}` with `Math.floor` and JavaScript `%`. */
  function SeekLabel(ms: int): (s: string)
    ensures StartsWith(s, "⏩ Posición: ")
    ensures ms >= 0 ==> s[|s| - 3] == ':'
  {
    var minutes := ms / 60000;                  // Math.floor(ms / 60000)
    var seconds := JsRem(ms, 60000) / 1000;     // Math.floor((ms % 60000) / 1000)
    var text := "⏩ Posición: " + IntToString(minutes) + ":" + PadStart2(IntToString(seconds));
    StartsWithConcat("⏩ Posición: ", IntToString(minutes) + ":" + PadStart2(IntToString(seconds)));
    assert text == "⏩ Posición: " + (IntToString(minutes) + ":" + PadStart2(IntToString(seconds)));
    if ms >= 0 then PaddedTwoDigits(seconds); text else text
  }

  /** For a non-negative position the label shows whole minutes and a two-digit
      seconds field below 60 that together make the position truncated to seconds. */
  lemma {:induction false} SeekLabelFields(ms: int)
    requires ms >= 0
    ensures var minutes, seconds := ms / 60000, JsRem(ms, 60000) / 1000;
      && 0 <= seconds < 60
      && minutes * 60 + seconds == ms / 1000
      && |PadStart2(IntToString(seconds))| == 2
      && SeekLabel(ms) == "⏩ Posición: " + NatToString(minutes) + ":" + PadStart2(NatToString(seconds))
  {
    var q, r := ms / 60000, ms % 60000;
    assert ms == 60000 * q + r;
    assert ms / 1000 == 60 * q + r / 1000;
    PaddedTwoDigits(r / 1000);
  }

  /** `modos[modo]` */
  function RepeatLabel(m: RepeatMode): (s: string)
    ensures s != ""
    ensures s == "desactivado" <==> m == RepeatOff
  {
    match m
    case RepeatTrack => "canción"
    case RepeatContext => "álbum/playlist"
    case RepeatOff => "desactivado"
  }

  /** The three modes have three different labels. */
  lemma RepeatLabelsDistinct(a: RepeatMode, b: RepeatMode)
    ensures RepeatLabel(a) == RepeatLabel(b) ==> a == b
  {
  }

  function RepeatText(m: RepeatMode): string {
    "🔁 Repetición: " + RepeatLabel(m)
  }

  function ShuffleText(on: bool): string {
    "🔀 Aleatorio " + (if on then "activado" else "desactivado")
  }

  function VolumeText(v: int): string {
    "🔊 Volumen: " + IntToString(v) + "%"
  }

  const TransferText := "📱 Reproducción transferida"
  const QueuedText := "➕ Agregado a la cola"

  /** The Liked Songs collection of a user. */
  function LikedSongsUri(userId: string): string {
    "spotify:user:" + userId + ":collection"
  }

  /** The Liked Songs closure of both generations: profile, optional shuffle,
      then start the collection. */
  function LikedSteps(api: PlaybackApi, shuffle: bool, device: string): (s: Steps)
    ensures |s.trace| > 0 && s.trace[0] == GetProfile && s.albumStart.None?
    ensures api.profileId.Err? ==> s.trace == [GetProfile] && s.failure == Some(api.profileId.message)
  {
    match api.profileId
    case Err(m) => Steps([GetProfile], Some(m), None)
    case Ok(userId) =>
      var start := StartResume(device, Some(LikedSongsUri(userId)), None, None);
      var toggle := ToggleShuffle(true, device);
      if shuffle then
        if api.command(toggle).Err? then Steps([GetProfile, toggle], Some(api.command(toggle).message), None)
        else if api.command(start).Err? then Steps([GetProfile, toggle, start], Some(api.command(start).message), None)
        else Steps([GetProfile, toggle, start], None, None)
      else if api.command(start).Err? then Steps([GetProfile, start], Some(api.command(start).message), None)
      else Steps([GetProfile, start], None, None)
  }

  /** The Liked Songs closure, as the sequence of awaited calls it is. */
  method RunLiked(api: PlaybackApi, shuffle: bool, device: string) returns (s: Steps)
    ensures s == LikedSteps(api, shuffle, device)
  {
    var trace := [GetProfile];
    var profile := api.profileId;
    if profile.Err? {
      return Steps(trace, Some(profile.message), None);
    }
    var likedSongsUri := LikedSongsUri(profile.value);
    if shuffle {
      var toggle := ToggleShuffle(true, device);
      trace := trace + [toggle];
      var toggled := api.command(toggle);
      if toggled.Err? {
        return Steps(trace, Some(toggled.message), None);
      }
    }
    var start := StartResume(device, Some(likedSongsUri), None, None);
    trace := trace + [start];
    var started := api.command(start);
    s := Steps(trace, if started.Err? then Some(started.message) else None, None);
  }

  /** Shuffle is switched on only when asked for, always before the collection
      starts, and the collection is the user's own. */
  lemma LikedOrder(api: PlaybackApi, shuffle: bool, device: string)
    requires api.profileId.Ok?
    ensures var s := LikedSteps(api, shuffle, device);
      (ToggleShuffle(true, device) in s.trace <==> shuffle)
      && (shuffle ==> s.trace[1] == ToggleShuffle(true, device))
      && (s.failure.None? ==>
            s.trace[|s.trace| - 1] == StartResume(device, Some(LikedSongsUri(api.profileId.value)), None, None))
  {
  }
}
