/**
 * The older query tools, one registered tool per query. None of them
 * validates its arguments beyond the schema: each issues exactly one
 * request, with its own defaults, sentinels and placeholders.
 */
module LegacyQueries {
  import opened Common
  import opened SpotifyClient
  import opened Playback
  import opened Catalog
  import Info

  datatype QueryRun = QueryRun(output: Output, trace: seq<Request>)

  /** The schema's bound on `limite` (1 to 50). */
  predicate LimitInRange(limite: Option<int>) {
    limite.Some? ==> 1 <= limite.value <= 50
  }

  /** `limite ?? d` */
  function LimitOr(limite: Option<int>, d: int): (n: int)
    requires LimitInRange(limite) && 1 <= d <= 50
    ensures limite.None? ==> n == d
    ensures limite.Some? ==> n == limite.value
    ensures 1 <= n <= 50
  {
    limite.GetOr(d)
  }

  /** buscar: ten results unless told otherwise; a null playlist hit shows
      "Sin nombre". */
  function Buscar(consulta: string, tipo: Kind, limite: Option<int>, api: CatalogApi): (r: QueryRun)
    requires LimitInRange(limite)
    ensures r.trace == [SearchFor(consulta, tipo, LimitOr(limite, 10))]
    ensures r.output.Message? ==> r.output.text == "Sin resultados"
    ensures r.output.Listing? ==> |r.output.lines| >= 1
    ensures var req := SearchFor(consulta, tipo, LimitOr(limite, 10));
      var empty := match tipo
        case Track => EmptyResponse(api.tracks(req))
        case Album => EmptyResponse(api.tracks(req))
        case Artist => EmptyResponse(api.artists(req))
        case Playlist => EmptyResponse(api.playlists(req));
      empty ==> r.output == Message("Sin resultados")
    ensures var req := SearchFor(consulta, tipo, LimitOr(limite, 10));
      var filled := match tipo
        case Track => FilledResponse(api.tracks(req))
        case Album => FilledResponse(api.tracks(req))
        case Artist => FilledResponse(api.artists(req))
        case Playlist => FilledResponse(api.playlists(req));
      filled ==> r.output.Listing?
  {
    var req := SearchFor(consulta, tipo, LimitOr(limite, 10));
    var header := "# Resultados: \"" + consulta + "\"\n\n";
    var o :=
      match tipo
      case Track =>
        Listed(RequestOutcome(api.tracks(req)), ItemsOptional, "Sin resultados",
               p => header, 1, None, TimedSongBody)
      case Album =>
        Listed(RequestOutcome(api.tracks(req)), ItemsOptional, "Sin resultados",
               p => header, 1, None, (t: Item) => SongBody(t.name, t.artists, t.id))
      case Artist =>
        Listed(RequestOutcome(api.artists(req)), ItemsOptional, "Sin resultados",
               p => header, 1, None, ArtistBody)
      case Playlist =>
        Listed(RequestOutcome(api.playlists(req)), ItemsOptional, "Sin resultados",
               p => header, 1, None, p => FoundPlaylistBody(p, "Sin nombre"));
    QueryRun(o, [req])
  }

  const NothingPlaying := "🔇 No hay nada reproduciéndose"
  const PodcastPlaying := "🎙️ Reproduciendo podcast"

  /** The card of the track now playing: it names the track and ends with
      the track's id. */
  function NowPlayingCard(p: Playing): (s: string)
    requires EsCancion(p.item)
    ensures StartsWith(s, "# ") && Contains(s, p.item.value.name)
    ensures Contains(s, "**ID**: " + p.item.value.id)
  {
    var item := p.item.value;
    var deco := (if p.isPlaying then "▶️ Reproduciendo" else "⏸️ Pausado") + "\n\n" + "**Canción**: ";
    var body := "\n**Artista**: " + Artists(item.artists.value) + "\n"
      + "**Álbum**: " + item.albumName.value
      + "\n**Progreso**: " + FormatDuration(p.progressMs.GetOr(0))
      + " / " + FormatDuration(item.durationMs) + "\n";
    CardPieces("# ", deco, item.name, body, "**ID**: " + item.id);
    "# " + deco + item.name + body + ("**ID**: " + item.id)
  }

  /** obtenerReproduccionActual: nothing, a podcast, or the song card. */
  function ReproduccionActual(api: CatalogApi): (r: QueryRun)
    ensures r.trace == [CurrentlyPlaying]
    ensures api.playing.Ok? && api.playing.value.item.None? ==> r.output == Message(NothingPlaying)
    ensures api.playing.Ok? && api.playing.value.item.Some? && !EsCancion(api.playing.value.item) ==>
              r.output == Message(PodcastPlaying)
    ensures api.playing.Ok? && api.playing.value.item.Some? && EsCancion(api.playing.value.item) ==>
              r.output == Message(NowPlayingCard(api.playing.value))
    ensures api.playing.Err? && IsParseArtifact(api.playing.message) ==> r.output == Message(NothingPlaying)
    ensures api.playing.Err? && !IsParseArtifact(api.playing.message) ==> r.output == Failed(api.playing.message)
  {
    var o :=
      match RequestOutcome(api.playing)
      case Threw(m) => Failed(m)
      case Returned(p) =>
        if p.None? || p.value.item.None? then Message(NothingPlaying)
        else if !EsCancion(p.value.item) then Message(PodcastPlaying)
        else Message(NowPlayingCard(p.value));
    QueryRun(o, [CurrentlyPlaying])
  }

  /** obtenerMisPlaylists: up to 50 playlists unless told otherwise. */
  function MisPlaylists(limite: Option<int>, api: CatalogApi): (r: QueryRun)
    requires LimitInRange(limite)
    ensures r.trace == [OwnPlaylists(LimitOr(limite, 50))]
    ensures r.output.Message? ==> r.output.text == "📭 No tienes playlists"
    ensures r.output.Listing? ==> |r.output.lines| >= 1
    ensures EmptyResponse(api.ownPlaylists(OwnPlaylists(LimitOr(limite, 50)))) ==> r.output == Message("📭 No tienes playlists")
    ensures FilledResponse(api.ownPlaylists(OwnPlaylists(LimitOr(limite, 50)))) ==> r.output.Listing?
  {
    var req := OwnPlaylists(LimitOr(limite, 50));
    QueryRun(Listed(RequestOutcome(api.ownPlaylists(req)), Strict, "📭 No tienes playlists",
                    p => "# Tus Playlists\n\n", 1, None, OwnPlaylistBody), [req])
  }

  /** A playlist entry: removed track, song, or anything else. */
  function PlaylistEntryBody(track: Option<Media>): (s: string)
    ensures track.None? ==> s == "[Eliminada]"
    ensures track.Some? && !EsCancion(track) ==> s == "Desconocido"
    ensures EsCancion(track) ==> s == SongBody(track.value.name, track.value.artists.value, track.value.id)
  {
    if track.None? then "[Eliminada]" else MediaBody(track, "Desconocido")
  }

  /** obtenerCancionesPlaylist */
  function CancionesPlaylist(playlistId: string, limite: Option<int>, api: CatalogApi): (r: QueryRun)
    requires LimitInRange(limite)
    ensures r.trace == [PlaylistItems(playlistId, LimitOr(limite, 50))]
    ensures r.output.Message? ==> r.output.text == "📭 Playlist vacía"
    ensures r.output.Listing? ==> |r.output.lines| >= 1
    ensures EmptyResponse(api.media(PlaylistItems(playlistId, LimitOr(limite, 50)))) ==> r.output == Message("📭 Playlist vacía")
    ensures FilledResponse(api.media(PlaylistItems(playlistId, LimitOr(limite, 50)))) ==> r.output.Listing?
  {
    var req := PlaylistItems(playlistId, LimitOr(limite, 50));
    QueryRun(Listed(RequestOutcome(api.media(req)), ItemsOptional, "📭 Playlist vacía",
                    p => "# Canciones de Playlist\n\n", 1, None, PlaylistEntryBody), [req])
  }

  /** obtenerHistorial */
  function Historial(limite: Option<int>, api: CatalogApi): (r: QueryRun)
    requires LimitInRange(limite)
    ensures r.trace == [RecentlyPlayed(LimitOr(limite, 50))]
    ensures r.output.Message? ==> r.output.text == "📭 Sin historial"
    ensures r.output.Listing? ==> |r.output.lines| >= 1
    ensures EmptyResponse(api.media(RecentlyPlayed(LimitOr(limite, 50)))) ==> r.output == Message("📭 Sin historial")
    ensures FilledResponse(api.media(RecentlyPlayed(LimitOr(limite, 50)))) ==> r.output.Listing?
  {
    var req := RecentlyPlayed(LimitOr(limite, 50));
    QueryRun(Listed(RequestOutcome(api.media(req)), Strict, "📭 Sin historial",
                    p => "# Reproducidas Recientemente\n\n", 1, None,
                    m => MediaBody(m, "Desconocido")), [req])
  }

  /** obtenerCancionesGuardadas: 50 from offset 0 unless told otherwise. */
  function CancionesGuardadas(limite: Option<int>, offset: Option<int>, api: CatalogApi): (r: QueryRun)
    requires LimitInRange(limite) && (offset.Some? ==> offset.value >= 0)
    ensures r.trace == [SavedTracks(LimitOr(limite, 50), offset.GetOr(0))]
    ensures r.output.Message? ==> r.output.text == "📭 Sin canciones guardadas"
    ensures r.output.Listing? ==> |r.output.lines| >= 1
    ensures EmptyResponse(api.media(SavedTracks(LimitOr(limite, 50), offset.GetOr(0)))) ==> r.output == Message("📭 Sin canciones guardadas")
    ensures FilledResponse(api.media(SavedTracks(LimitOr(limite, 50), offset.GetOr(0)))) ==> r.output.Listing?
  {
    var from := offset.GetOr(0);
    var req := SavedTracks(LimitOr(limite, 50), from);
    QueryRun(Listed(RequestOutcome(api.media(req)), Strict, "📭 Sin canciones guardadas",
                    p => SavedHeader(from, p), from + 1, None,
                    m => MediaBody(m, "Desconocido")), [req])
  }

  /** ` | Vol: v%` only when the device reports a volume. */
  function VolumePart(d: DeviceInfo): (s: string)
    ensures s == "" <==> d.volume.None?
    ensures d.volume.Some? ==> s == " | Vol: " + IntToString(d.volume.value) + "%"
  {
    if d.volume.Some? then " | Vol: " + IntToString(d.volume.value) + "%" else ""
  }

  /** A device line: name and type first, the active mark when active, and
      the id last. */
  function DeviceBody(d: DeviceInfo): (s: string)
    ensures StartsWith(s, d.name + " (" + d.kind + ")")
    ensures d.active ==> Contains(s, " (Activo)")
    ensures Contains(s, " | ID: " + d.id)
  {
    var active := if d.active then " (Activo)" else "";
    CardPieces(d.name + " (" + d.kind + ")", "", active, VolumePart(d), " | ID: " + d.id);
    d.name + " (" + d.kind + ")" + "" + active + VolumePart(d) + (" | ID: " + d.id)
  }

  /** obtenerDispositivos */
  function Dispositivos(api: CatalogApi): (r: QueryRun)
    ensures r.trace == [AvailableDevices]
    ensures r.output.Message? ==> r.output.text == "📵 Sin dispositivos. Abre Spotify."
    ensures r.output.Listing? ==> |r.output.lines| >= 1
    ensures EmptyResponse(api.devices) ==> r.output == Message("📵 Sin dispositivos. Abre Spotify.")
    ensures FilledResponse(api.devices) ==> r.output.Listing?
  {
    QueryRun(Listed(RequestOutcome(api.devices), Optional, "📵 Sin dispositivos. Abre Spotify.",
                    p => "# Dispositivos\n\n", 1, None, DeviceBody), [AvailableDevices])
  }

  /** The profile card: it names the user, shows the follower count (0 when
      absent) and ends with the user's id. */
  function ProfileCard(p: ProfileInfo): (s: string)
    ensures StartsWith(s, "# Tu Perfil") && Contains(s, p.displayName) && Contains(s, "**ID**: " + p.id)
  {
    var body := "\n**Email**: " + p.email + "\n**País**: " + p.country + "\n**Plan**: " + p.product
      + "\n**Seguidores**: " + IntToString(p.followers.GetOr(0)) + "\n";
    CardPieces("# Tu Perfil", "\n\n**Nombre**: ", p.displayName, body, "**ID**: " + p.id);
    "# Tu Perfil" + "\n\n**Nombre**: " + p.displayName + body + ("**ID**: " + p.id)
  }

  /** obtenerPerfil: a swallowed parse artifact is read through. */
  function Perfil(api: CatalogApi): (r: QueryRun)
    ensures r.trace == [CurrentProfile]
    ensures api.profile.Ok? ==> r.output == Message(ProfileCard(api.profile.value))
    ensures api.profile.Err? ==> r.output.Failed?
  {
    var o :=
      match RequestOutcome(api.profile)
      case Threw(m) => Failed(m)
      case Returned(p) => if p.None? then Failed(UndefinedRead) else Message(ProfileCard(p.value));
    QueryRun(o, [CurrentProfile])
  }

  /** obtenerTopCanciones: medium term and 20 items unless told otherwise. */
  function TopCanciones(periodo: Option<Period>, limite: Option<int>, api: CatalogApi): (r: QueryRun)
    requires LimitInRange(limite)
    ensures r.trace == [TopTrackItems(periodo.GetOr(MediumTerm), LimitOr(limite, 20))]
    ensures r.output.Message? ==> r.output.text == "📭 Sin datos"
    ensures r.output.Listing? ==> Contains(r.output.header, PeriodLabel(periodo.GetOr(MediumTerm)))
    ensures EmptyResponse(api.tracks(TopTrackItems(periodo.GetOr(MediumTerm), LimitOr(limite, 20)))) ==> r.output == Message("📭 Sin datos")
    ensures FilledResponse(api.tracks(TopTrackItems(periodo.GetOr(MediumTerm), LimitOr(limite, 20)))) ==> r.output.Listing?
  {
    var period := periodo.GetOr(MediumTerm);
    var req := TopTrackItems(period, LimitOr(limite, 20));
    QueryRun(Listed(RequestOutcome(api.tracks(req)), Optional, "📭 Sin datos",
                    p => TopHeader(TopTracksLead, period), 1, None,
                    (t: Item) => SongBody(t.name, t.artists, t.id)), [req])
  }

  /** obtenerTopArtistas */
  function TopArtistas(periodo: Option<Period>, limite: Option<int>, api: CatalogApi): (r: QueryRun)
    requires LimitInRange(limite)
    ensures r.trace == [TopArtistItems(periodo.GetOr(MediumTerm), LimitOr(limite, 20))]
    ensures r.output.Message? ==> r.output.text == "📭 Sin datos"
    ensures r.output.Listing? ==> Contains(r.output.header, PeriodLabel(periodo.GetOr(MediumTerm)))
    ensures EmptyResponse(api.artists(TopArtistItems(periodo.GetOr(MediumTerm), LimitOr(limite, 20)))) ==> r.output == Message("📭 Sin datos")
    ensures FilledResponse(api.artists(TopArtistItems(periodo.GetOr(MediumTerm), LimitOr(limite, 20)))) ==> r.output.Listing?
  {
    var period := periodo.GetOr(MediumTerm);
    var req := TopArtistItems(period, LimitOr(limite, 20));
    QueryRun(Listed(RequestOutcome(api.artists(req)), Optional, "📭 Sin datos",
                    p => TopHeader(TopArtistsLead, period), 1, None, TopArtistBody), [req])
  }

  /** obtenerCancionesAlbum: at most `limite ?? 50` tracks of the album. */
  function CancionesAlbum(albumId: string, limite: Option<int>, api: CatalogApi): (r: QueryRun)
    requires LimitInRange(limite)
    ensures r.trace == [AlbumById(albumId)]
    ensures r.output.Message? ==> r.output.text == "📭 Sin canciones"
    ensures r.output.Listing? ==> 1 <= |r.output.lines| <= LimitOr(limite, 50)
    ensures EmptyResponse(api.tracks(AlbumById(albumId))) ==> r.output == Message("📭 Sin canciones")
    ensures FilledResponse(api.tracks(AlbumById(albumId))) ==> r.output.Listing?
  {
    QueryRun(Listed(RequestOutcome(api.tracks(AlbumById(albumId))), Optional, "📭 Sin canciones",
                    (p: Page<Item>) => "# Álbum: " + p.name + "\n\n", 1,
                    Some(LimitOr(limite, 50) as nat), TimedSongBody), [AlbumById(albumId)])
  }

  /** obtenerTopCancionesArtista: market "ES" unless told otherwise. */
  function TopCancionesArtista(artistaId: string, mercado: Option<string>, api: CatalogApi): (r: QueryRun)
    ensures r.trace == [ArtistTopTracks(artistaId, mercado.GetOr("ES"))]
    ensures r.output.Message? ==> r.output.text == "📭 Sin canciones"
    ensures r.output.Listing? ==> |r.output.lines| >= 1
    ensures EmptyResponse(api.tracks(ArtistTopTracks(artistaId, mercado.GetOr("ES")))) ==> r.output == Message("📭 Sin canciones")
    ensures FilledResponse(api.tracks(ArtistTopTracks(artistaId, mercado.GetOr("ES")))) ==> r.output.Listing?
  {
    var req := ArtistTopTracks(artistaId, mercado.GetOr("ES"));
    QueryRun(Listed(RequestOutcome(api.tracks(req)), Optional, "📭 Sin canciones",
                    p => "# Top del Artista\n\n", 1, None, TimedBody), [req])
  }

  /** `e.device?.name || '?'` and `e.device?.type || '?'` */
  function DeviceField(d: Option<DeviceInfo>, name: bool): (s: string)
    ensures s != ""
  {
    var v := if d.None? then "" else if name then d.value.name else d.value.kind;
    if v == "" then "?" else v
  }

  /** The playback-state card: it names the device and its type (or "?") and
      ends with whether something is playing. */
  function StateCard(e: StateInfo): (s: string)
    ensures StartsWith(s, "# Estado") && Contains(s, DeviceField(e.device, true))
    ensures Contains(s, "**Reproduciendo**: " + (if e.isPlaying then "Sí" else "No"))
  {
    var body := " (" + DeviceField(e.device, false) + ")"
      + "\n**Volumen**: "
      + (if e.device.Some? && e.device.value.volume.Some? then IntToString(e.device.value.volume.value) else "N/A")
      + "%\n**Aleatorio**: " + (if e.shuffle then "Sí" else "No")
      + "\n**Repetición**: " + RepeatStateLabel(e.repeatState) + "\n";
    var playing := "**Reproduciendo**: " + (if e.isPlaying then "Sí" else "No");
    CardPieces("# Estado", "\n\n**Dispositivo**: ", DeviceField(e.device, true), body, playing);
    "# Estado" + "\n\n**Dispositivo**: " + DeviceField(e.device, true) + body + playing
  }

  /** obtenerEstadoReproduccion */
  function EstadoReproduccion(api: CatalogApi): (r: QueryRun)
    ensures r.trace == [PlaybackState]
    ensures api.state == Ok(None) ==> r.output == Message("📵 Sin sesión activa")
    ensures api.state.Ok? && api.state.value.Some? ==> r.output == Message(StateCard(api.state.value.value))
  {
    var o :=
      match RequestOutcome(api.state)
      case Threw(m) => Failed(m)
      case Returned(e) =>
        if e.None? || e.value.None? then Message("📵 Sin sesión activa") else Message(StateCard(e.value.value));
    QueryRun(o, [PlaybackState])
  }

  /** The fixed length of the queue listing. */
  const QueueShown: nat := 20

  /** obtenerCola: the first twenty queued items. */
  function Cola(api: CatalogApi): (r: QueryRun)
    ensures r.trace == [UsersQueue]
    ensures r.output.Message? ==> r.output.text == "📭 Cola vacía"
    ensures r.output.Listing? ==> 1 <= |r.output.lines| <= QueueShown
    ensures EmptyResponse(api.media(UsersQueue)) ==> r.output == Message("📭 Cola vacía")
    ensures FilledResponse(api.media(UsersQueue)) ==> r.output.Listing?
  {
    QueryRun(Listed(RequestOutcome(api.media(UsersQueue)), Optional, "📭 Cola vacía",
                    QueueHeader, 1, Some(QueueShown), m => MediaBody(m, "Desconocido")), [UsersQueue])
  }

  /** Saved tracks are numbered from offset+1, and the header shows that
      range and the library total. */
  lemma {:induction false} SavedNumberedFromOffset(limite: Option<int>, offset: Option<int>, api: CatalogApi)
    requires LimitInRange(limite) && (offset.Some? ==> offset.value >= 0)
    ensures var o := CancionesGuardadas(limite, offset, api).output;
            var from := offset.GetOr(0);
            var c := RequestOutcome(api.media(SavedTracks(LimitOr(limite, 50), from)));
            o.Listing? ==>
              && c.Returned? && c.value.Some? && c.value.value.items.Some?
              && |o.lines| == |c.value.value.items.value|
              && (forall i :: 0 <= i < |o.lines| ==> o.lines[i].number == from + 1 + i)
              && o.header == "# Guardadas (" + IntToString(from + 1) + "-"
                             + IntToString(from + |o.lines|) + " de "
                             + IntToString(c.value.value.total) + ")\n\n"
  {
    var from := offset.GetOr(0);
    var c := RequestOutcome(api.media(SavedTracks(LimitOr(limite, 50), from)));
    SavedListingNumbered(c, "📭 Sin canciones guardadas", from, m => MediaBody(m, "Desconocido"));
  }

  /** In a playlist listing "[Eliminada]" marks exactly the removed tracks
      and "Desconocido" exactly the entries that are present but not songs. */
  lemma {:induction false} PlaylistPlaceholders(playlistId: string, limite: Option<int>, api: CatalogApi)
    requires LimitInRange(limite)
    ensures var o := CancionesPlaylist(playlistId, limite, api).output;
            var c := RequestOutcome(api.media(PlaylistItems(playlistId, LimitOr(limite, 50))));
            o.Listing? ==>
              && c.Returned? && c.value.Some? && c.value.value.items.Some?
              && |o.lines| == |c.value.value.items.value|
              && forall i :: 0 <= i < |o.lines| ==>
                   && (o.lines[i].body == "[Eliminada]" <==> c.value.value.items.value[i].None?)
                   && (o.lines[i].body == "Desconocido" <==>
                         c.value.value.items.value[i].Some? && !EsCancion(c.value.value.items.value[i]))
  {
    var o := CancionesPlaylist(playlistId, limite, api).output;
    var c := RequestOutcome(api.media(PlaylistItems(playlistId, LimitOr(limite, 50))));
    assert o == Listed(c, ItemsOptional, "📭 Playlist vacía", p => "# Canciones de Playlist\n\n", 1, None,
                       PlaylistEntryBody);
    if o.Listing? {
      var items := c.value.value.items.value;
      forall i | 0 <= i < |o.lines|
        ensures o.lines[i].body == "[Eliminada]" <==> items[i].None?
        ensures o.lines[i].body == "Desconocido" <==> items[i].Some? && !EsCancion(items[i])
      {
        assert o.lines[i].body == PlaylistEntryBody(items[i]);
        if EsCancion(items[i]) {
          var t := items[i].value;
          assert o.lines[i].body[0] == '"';
        }
      }
    }
  }

  /** The queue lists the same items as the consolidated tool's queue at its
      default limit (20): same numbering, same song lines, and only the
      placeholder differs ("Desconocido" here, "?" there). */
  lemma {:induction false} QueueMatchesConsolidatedDefault(api: CatalogApi, a: Info.InfoArgs)
    requires Info.SchemaValid(a) && a.action == Info.Queue && a.limite.None?
    ensures var mine := Cola(api).output;
            var theirs := Info.Execute(a, api).output;
            && mine.Listing? == theirs.Listing?
            && (mine.Message? <==> theirs.Message?)
            && (mine.Listing? ==>
                  && mine.header == theirs.header
                  && |mine.lines| == |theirs.lines|
                  && forall i :: 0 <= i < |mine.lines| ==>
                       && mine.lines[i].number == theirs.lines[i].number
                       && (mine.lines[i].body == "Desconocido" <==> theirs.lines[i].body == "?")
                       && (mine.lines[i].body != "Desconocido" ==> mine.lines[i].body == theirs.lines[i].body))
  {
    var c := RequestOutcome(api.media(UsersQueue));
    var mine := Cola(api).output;
    var theirs := Info.Execute(a, api).output;
    assert mine == Listed(c, Optional, "📭 Cola vacía", QueueHeader, 1, Some(QueueShown),
                          m => MediaBody(m, "Desconocido"));
    assert theirs == Listed(c, Optional, "📭 Cola vacía", QueueHeader, 1, Some(20),
                            m => MediaBody(m, "?"));
    if mine.Listing? {
      var items := c.value.value.items.value;
      forall i | 0 <= i < |mine.lines|
        ensures mine.lines[i].body == "Desconocido" <==> theirs.lines[i].body == "?"
        ensures mine.lines[i].body != "Desconocido" ==> mine.lines[i].body == theirs.lines[i].body
      {
        PlaceholderIffNotSong(items[i], "Desconocido");
        PlaceholderIffNotSong(items[i], "?");
      }
    }
  }
}
