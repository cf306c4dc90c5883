/**
 * The consolidated information tool (`spotifyInfo`): one action per call,
 * validated before its single request, with defaults for the optional
 * arguments and a sentinel text for every empty result.
 */
module Info {
  import opened Common
  import opened SpotifyClient
  import opened Playback
  import opened Catalog

  datatype InfoAction =
    | Search | NowPlaying | Devices | Profile | Queue | History | Saved | Playlists
    | PlaylistTracks | AlbumTracks | ArtistTop | TopTracks | TopArtists | State
    | Unknown  // any action name outside the schema's enumeration

  datatype InfoArgs = InfoArgs(action: InfoAction, consulta: Option<string>, tipo: Option<Kind>,
                               id: Option<string>, limite: Option<int>, offset: Option<int>,
                               periodo: Option<Period>, mercado: Option<string>)

  /** The bounds the argument schema enforces before the tool runs. */
  predicate SchemaValid(a: InfoArgs) {
    && (a.limite.Some? ==> 1 <= a.limite.value <= 50)
    && (a.offset.Some? ==> a.offset.value >= 0)
  }

  // The destructuring defaults: each applies only when the argument is absent.

  function Limit(a: InfoArgs): (n: int)
    ensures a.limite.None? ==> n == 20
    ensures a.limite.Some? ==> n == a.limite.value
    ensures SchemaValid(a) ==> 1 <= n <= 50
  {
    a.limite.GetOr(20)
  }

  function Offset(a: InfoArgs): (n: int)
    ensures a.offset.None? ==> n == 0
    ensures a.offset.Some? ==> n == a.offset.value
    ensures SchemaValid(a) ==> n >= 0
  {
    a.offset.GetOr(0)
  }

  function PeriodOf(a: InfoArgs): (p: Period)
    ensures a.periodo.None? ==> p == MediumTerm
    ensures a.periodo.Some? ==> p == a.periodo.value
  {
    a.periodo.GetOr(MediumTerm)
  }

  function Market(a: InfoArgs): (m: string)
    ensures a.mercado.None? ==> m == "ES"
    ensures a.mercado.Some? ==> m == a.mercado.value
  {
    a.mercado.GetOr("ES")
  }

  /** The calls that answer without any request: a search without query or
      type, an id-based action without id, and an unknown action. */
  predicate Rejected(a: InfoArgs)
    ensures Rejected(a) ==> a.action in {Search, PlaylistTracks, AlbumTracks, ArtistTop, Unknown}
    ensures a.action == Unknown ==> Rejected(a)
    ensures a.action in {PlaylistTracks, AlbumTracks, ArtistTop} && !Rejected(a) ==>
      a.id.Some? && a.id.value != ""
    ensures a.action == Search && !Rejected(a) ==> a.consulta.Some? && a.consulta.value != "" && a.tipo.Some?
  {
    match a.action
    case Search => !Truthy(a.consulta) || a.tipo.None?
    case PlaylistTracks => !Truthy(a.id)
    case AlbumTracks => !Truthy(a.id)
    case ArtistTop => !Truthy(a.id)
    case Unknown => true
    case _ => false
  }

  function RejectionText(a: InfoArgs): string
    requires Rejected(a)
  {
    match a.action
    case Search => "Error: Requiere consulta y tipo"
    case PlaylistTracks => "Error: Requiere id de playlist"
    case AlbumTracks => "Error: Requiere id de álbum"
    case ArtistTop => "Error: Requiere id de artista"
    case Unknown => "❌ Acción no válida"
  }

  /** The single request an accepted call issues. */
  function RequestFor(a: InfoArgs): (r: Request)
    requires !Rejected(a)
    ensures HasLimit(r) && SchemaValid(a) ==> 1 <= r.limit <= 50
    ensures HasLimit(r) && a.limite.None? ==> r.limit == 20
    ensures r.SavedTracks? ==> r.offset == Offset(a)
    ensures r.PlaylistItems? ==> a.id.Some? && r.playlistId == a.id.value && r.playlistId != ""
    ensures r.AlbumById? ==> a.id.Some? && r.albumId == a.id.value && r.albumId != ""
    ensures r.ArtistTopTracks? ==> a.id.Some? && r.artistId == a.id.value && r.artistId != ""
    ensures r.ArtistTopTracks? ==> r.market == Market(a)
    ensures a.action == Queue ==> r == UsersQueue
  {
    match a.action
    case Search => SearchFor(a.consulta.value, a.tipo.value, Limit(a))
    case NowPlaying => CurrentlyPlaying
    case Devices => AvailableDevices
    case Profile => CurrentProfile
    case Queue => UsersQueue
    case History => RecentlyPlayed(Limit(a))
    case Saved => SavedTracks(Limit(a), Offset(a))
    case Playlists => OwnPlaylists(Limit(a))
    case PlaylistTracks => PlaylistItems(a.id.value, Limit(a))
    case AlbumTracks => AlbumById(a.id.value)
    case ArtistTop => ArtistTopTracks(a.id.value, Market(a))
    case TopTracks => TopTrackItems(PeriodOf(a), Limit(a))
    case TopArtists => TopArtistItems(PeriodOf(a), Limit(a))
    case State => PlaybackState
  }

  /** The requests that carry the call's `limite`. */
  predicate HasLimit(r: Request) {
    r.SearchFor? || r.RecentlyPlayed? || r.SavedTracks? || r.OwnPlaylists? || r.PlaylistItems?
    || r.TopTrackItems? || r.TopArtistItems?
  }

  /** The actions that answer with a numbered listing. */
  predicate IsList(act: InfoAction) {
    act in {Search, Devices, Queue, History, Saved, Playlists, PlaylistTracks,
            AlbumTracks, ArtistTop, TopTracks, TopArtists}
  }

  /** Each list action's own text for an empty result. */
  function Sentinel(act: InfoAction): (s: string)
    requires IsList(act)
    ensures s != ""
  {
    match act
    case Search => "Sin resultados"
    case Devices => "📵 Sin dispositivos. Abre Spotify."
    case Queue => "📭 Cola vacía"
    case History => "📭 Sin historial"
    case Saved => "📭 Sin guardadas"
    case Playlists => "📭 Sin playlists"
    case PlaylistTracks => "📭 Playlist vacía"
    case AlbumTracks => "📭 Sin canciones"
    case ArtistTop => "📭 Sin canciones"
    case TopTracks => "📭 Sin datos"
    case TopArtists => "📭 Sin datos"
  }

  /** Whether the response to an accepted list action holds an array that is
      present and empty (`empty`), or present and non-empty (otherwise). */
  predicate ListResponse(a: InfoArgs, api: CatalogApi, empty: bool)
    requires !Rejected(a) && IsList(a.action)
  {
    var req := RequestFor(a);
    match a.action
    case Search =>
      (match a.tipo.value
       case Track => if empty then EmptyResponse(api.tracks(req)) else FilledResponse(api.tracks(req))
       case Album => if empty then EmptyResponse(api.tracks(req)) else FilledResponse(api.tracks(req))
       case Artist => if empty then EmptyResponse(api.artists(req)) else FilledResponse(api.artists(req))
       case Playlist => if empty then EmptyResponse(api.playlists(req)) else FilledResponse(api.playlists(req)))
    case Devices => if empty then EmptyResponse(api.devices) else FilledResponse(api.devices)
    case Playlists => if empty then EmptyResponse(api.ownPlaylists(req)) else FilledResponse(api.ownPlaylists(req))
    case Queue => if empty then EmptyResponse(api.media(req)) else FilledResponse(api.media(req))
    case History => if empty then EmptyResponse(api.media(req)) else FilledResponse(api.media(req))
    case Saved => if empty then EmptyResponse(api.media(req)) else FilledResponse(api.media(req))
    case PlaylistTracks => if empty then EmptyResponse(api.media(req)) else FilledResponse(api.media(req))
    case AlbumTracks => if empty then EmptyResponse(api.tracks(req)) else FilledResponse(api.tracks(req))
    case ArtistTop => if empty then EmptyResponse(api.tracks(req)) else FilledResponse(api.tracks(req))
    case TopTracks => if empty then EmptyResponse(api.tracks(req)) else FilledResponse(api.tracks(req))
    case TopArtists => if empty then EmptyResponse(api.artists(req)) else FilledResponse(api.artists(req))
  }

  const NothingPlaying := "🔇 Nada reproduciéndose"
  const PodcastPlaying := "🎙️ Reproduciendo podcast"
  const NoSession := "📵 Sin sesión activa"

  /** The line of an available device; a null volume prints as "null". */
  function DeviceBody(d: DeviceInfo): string {
    d.name + " (" + d.kind + ")" + (if d.active then " ✓" else "")
      + " | Vol: " + (if d.volume.Some? then IntToString(d.volume.value) else "null")
      + "% | ID: " + d.id
  }

  /** The card of the track now playing: its title line names the track, and
      the card ends with the track's id. */
  function NowPlayingCard(p: Playing): (s: string)
    requires EsCancion(p.item)
    ensures StartsWith(s, "# ") && Contains(s, p.item.value.name)
    ensures Contains(s, "**ID**: " + p.item.value.id)
  {
    var item := p.item.value;
    var icon := (if p.isPlaying then "▶️" else "⏸️") + " ";
    var body := "\n\n**Artista**: " + Artists(item.artists.value)
      + "\n**Álbum**: " + item.albumName.value
      + "\n**Progreso**: " + FormatDuration(p.progressMs.GetOr(0))
      + " / " + FormatDuration(item.durationMs) + "\n";
    var id := "**ID**: " + item.id;
    CardPieces("# ", icon, item.name, body, id);
    "# " + icon + item.name + body + id
  }

  function ProfileCard(p: ProfileInfo): (s: string)
    ensures StartsWith(s, "# Perfil") && Contains(s, p.displayName) && Contains(s, "**ID**: " + p.id)
  {
    var body := "\n**Email**: " + p.email + "\n**País**: " + p.country + "\n**Plan**: " + p.product + "\n";
    CardPieces("# Perfil", "\n\n**Nombre**: ", p.displayName, body, "**ID**: " + p.id);
    "# Perfil" + "\n\n**Nombre**: " + p.displayName + body + ("**ID**: " + p.id)
  }

  function YesNo(b: bool): string {
    if b then "Sí" else "No"
  }

  /** `e.device?.name || '?'` */
  function DeviceName(d: Option<DeviceInfo>): (s: string)
    ensures s != ""
  {
    if d.Some? && d.value.name != "" then d.value.name else "?"
  }

  /** `e.device?.volume_percent ?? 'N/A'` */
  function DeviceVolume(d: Option<DeviceInfo>): string {
    if d.Some? && d.value.volume.Some? then IntToString(d.value.volume.value) else "N/A"
  }

  /** The playback-state card: it names the device (or "?") and ends with
      whether something is playing. */
  function StateCard(e: StateInfo): (s: string)
    ensures StartsWith(s, "# Estado") && Contains(s, DeviceName(e.device))
    ensures Contains(s, "**Reproduciendo**: " + YesNo(e.isPlaying))
  {
    var body := "\n**Volumen**: " + DeviceVolume(e.device)
      + "%\n**Aleatorio**: " + YesNo(e.shuffle)
      + "\n**Repetición**: " + RepeatStateLabel(e.repeatState) + "\n";
    var playing := "**Reproduciendo**: " + YesNo(e.isPlaying);
    CardPieces("# Estado", "\n\n**Dispositivo**: ", DeviceName(e.device), body, playing);
    "# Estado" + "\n\n**Dispositivo**: " + DeviceName(e.device) + body + playing
  }

  function SearchHeader(q: string): string {
    "# Resultados: \"" + q + "\"\n\n"
  }

  /** The `search` branch of the answer: one listing per item type. */
  function SearchAnswer(a: InfoArgs, api: CatalogApi): (o: Output)
    requires SchemaValid(a) && !Rejected(a) && a.action == Search
    ensures o.Listing? ==> |o.lines| >= 1
    ensures o.Message? ==> o.text == Sentinel(Search)
    ensures ListResponse(a, api, true) ==> o == Message(Sentinel(Search))
    ensures ListResponse(a, api, false) ==> o.Listing?
  {
    var req := RequestFor(a);
    var q := a.consulta.value;
    match a.tipo.value
    case Track =>
      Listed(RequestOutcome(api.tracks(req)), ItemsOptional, Sentinel(Search),
             p => SearchHeader(q), 1, None, TimedSongBody)
    case Album =>
      Listed(RequestOutcome(api.tracks(req)), ItemsOptional, Sentinel(Search),
             p => SearchHeader(q), 1, None, (t: Item) => SongBody(t.name, t.artists, t.id))
    case Artist =>
      Listed(RequestOutcome(api.artists(req)), ItemsOptional, Sentinel(Search),
             p => SearchHeader(q), 1, None, ArtistBody)
    case Playlist =>
      Listed(RequestOutcome(api.playlists(req)), ItemsOptional, Sentinel(Search),
             p => SearchHeader(q), 1, None, p => FoundPlaylistBody(p, "?"))
  }

  /** The branches of the answer that list untyped items. */
  function MediaAnswer(a: InfoArgs, api: CatalogApi): (o: Output)
    requires SchemaValid(a) && !Rejected(a) && MediaAction(a.action)
    ensures o.Listing? ==> |o.lines| >= 1
    ensures o.Message? ==> o.text == Sentinel(a.action)
    ensures ListResponse(a, api, true) ==> o == Message(Sentinel(a.action))
    ensures ListResponse(a, api, false) ==> o.Listing?
  {
    var c := RequestOutcome(api.media(RequestFor(a)));
    if a.action == Queue then
      Listed(c, Optional, Sentinel(Queue), QueueHeader, 1, Some(Limit(a) as nat), m => MediaBody(m, "?"))
    else if a.action == History then
      Listed(c, Strict, Sentinel(History), p => "# Historial\n\n", 1, None, m => MediaBody(m, "?"))
    else if a.action == Saved then
      var offset := Offset(a);
      Listed(c, Strict, Sentinel(Saved), p => SavedHeader(offset, p), offset + 1, None, m => MediaBody(m, "?"))
    else
      Listed(c, ItemsOptional, Sentinel(PlaylistTracks),
             p => "# Canciones de Playlist\n\n", 1, None, m => MediaBody(m, "?"))
  }

  /** What an accepted call answers, given the remote side. */
  function Answer(a: InfoArgs, api: CatalogApi): (o: Output)
    requires SchemaValid(a) && !Rejected(a)
    ensures o.Listing? ==> IsList(a.action) && |o.lines| >= 1
    ensures IsList(a.action) && o.Message? ==> o.text == Sentinel(a.action)
    ensures IsList(a.action) && ListResponse(a, api, true) ==> o == Message(Sentinel(a.action))
    ensures IsList(a.action) && ListResponse(a, api, false) ==> o.Listing?
  {
    var req := RequestFor(a);
    match a.action
    case Search => SearchAnswer(a, api)
    case NowPlaying =>
      (match RequestOutcome(api.playing)
       case Threw(m) => Failed(m)
       case Returned(p) =>
         if p.None? || p.value.item.None? then Message(NothingPlaying)
         else if !EsCancion(p.value.item) then Message(PodcastPlaying)
         else Message(NowPlayingCard(p.value)))
    case Devices =>
      Listed(RequestOutcome(api.devices), Optional, Sentinel(Devices),
             p => "# Dispositivos\n\n", 1, None, DeviceBody)
    case Profile =>
      (match RequestOutcome(api.profile)
       case Threw(m) => Failed(m)
       case Returned(p) => if p.None? then Failed(UndefinedRead) else Message(ProfileCard(p.value)))
    case Queue => MediaAnswer(a, api)
    case History => MediaAnswer(a, api)
    case Saved => MediaAnswer(a, api)
    case Playlists =>
      Listed(RequestOutcome(api.ownPlaylists(req)), Strict, Sentinel(Playlists),
             p => "# Tus Playlists\n\n", 1, None, OwnPlaylistBody)
    case PlaylistTracks => MediaAnswer(a, api)
    case AlbumTracks =>
      Listed(RequestOutcome(api.tracks(req)), Optional, Sentinel(AlbumTracks),
             (p: Page<Item>) => "# Álbum: " + p.name + "\n\n", 1, Some(Limit(a) as nat), TimedBody)
    case ArtistTop =>
      Listed(RequestOutcome(api.tracks(req)), Optional, Sentinel(ArtistTop),
             p => "# Top del Artista\n\n", 1, None, TimedBody)
    case TopTracks =>
      var period := PeriodOf(a);
      Listed(RequestOutcome(api.tracks(req)), Optional, Sentinel(TopTracks),
             p => TopHeader(TopTracksLead, period), 1, None, (t: Item) => SongBody(t.name, t.artists, t.id))
    case TopArtists =>
      var period := PeriodOf(a);
      Listed(RequestOutcome(api.artists(req)), Optional, Sentinel(TopArtists),
             p => TopHeader(TopArtistsLead, period), 1, None, TopArtistBody)
    case State =>
      (match RequestOutcome(api.state)
       case Threw(m) => Failed(m)
       case Returned(e) =>
         if e.None? || e.value.None? then Message(NoSession) else Message(StateCard(e.value.value)))
  }

  datatype InfoRun = InfoRun(output: Output, trace: seq<Request>)

  /** spotifyInfo.ejecutar: validation first, then exactly one request. */
  function Execute(a: InfoArgs, api: CatalogApi): (r: InfoRun)
    requires SchemaValid(a)
    ensures r.trace == [] <==> Rejected(a)
    ensures Rejected(a) ==> r.output == Message(RejectionText(a))
    ensures !Rejected(a) ==> r.trace == [RequestFor(a)]
    ensures r.output.Listing? ==> |r.output.lines| >= 1
    ensures IsList(a.action) && !Rejected(a) && r.output.Message? ==> r.output.text == Sentinel(a.action)
    ensures IsList(a.action) && !Rejected(a) && ListResponse(a, api, true) ==>
      r.output == Message(Sentinel(a.action))
    ensures IsList(a.action) && !Rejected(a) && ListResponse(a, api, false) ==> r.output.Listing?
  {
    if Rejected(a) then InfoRun(Message(RejectionText(a)), [])
    else InfoRun(Answer(a, api), [RequestFor(a)])
  }

  /** The response an accepted listing of untyped items is built from. */
  predicate MediaAction(act: InfoAction) {
    act in {Queue, History, Saved, PlaylistTracks}
  }

  /** `saved` numbers its lines offset+1 .. offset+n, one per saved item,
      and its header shows that range and the library total. */
  lemma {:induction false} SavedNumbering(a: InfoArgs, api: CatalogApi)
    requires SchemaValid(a) && a.action == Saved
    ensures var o := Execute(a, api).output;
            var c := RequestOutcome(api.media(SavedTracks(Limit(a), Offset(a))));
            o.Listing? ==>
              && c.Returned? && c.value.Some? && c.value.value.items.Some?
              && |o.lines| == |c.value.value.items.value|
              && (forall i :: 0 <= i < |o.lines| ==> o.lines[i].number == Offset(a) + 1 + i)
              && o.header == "# Guardadas (" + IntToString(Offset(a) + 1) + "-"
                             + IntToString(Offset(a) + |o.lines|) + " de "
                             + IntToString(c.value.value.total) + ")\n\n"
  {
    var c := RequestOutcome(api.media(SavedTracks(Limit(a), Offset(a))));
    var offset := Offset(a);
    assert !Rejected(a) && RequestFor(a) == SavedTracks(Limit(a), offset);
    SavedListingNumbered(c, Sentinel(Saved), offset, m => MediaBody(m, "?"));
  }

  /** `queue` and `albumTracks` list at most `limite` entries. */
  lemma {:induction false} ListingsCappedByLimit(a: InfoArgs, api: CatalogApi)
    requires SchemaValid(a) && a.action in {Queue, AlbumTracks}
    ensures var o := Execute(a, api).output;
            o.Listing? ==> |o.lines| <= Limit(a)
  {
    var c := RequestOutcome(api.media(UsersQueue));
    if a.action == Queue {
      assert Execute(a, api).output == Listed(c, Optional, Sentinel(Queue), QueueHeader, 1,
                                              Some(Limit(a) as nat), m => MediaBody(m, "?"));
    }
  }

  /** In the listings of untyped items a line reads "?" exactly when its
      item is not a song, and otherwise shows that item. */
  lemma {:induction false} NonSongsShowPlaceholder(a: InfoArgs, api: CatalogApi)
    requires SchemaValid(a) && !Rejected(a) && MediaAction(a.action)
    ensures var o := Execute(a, api).output;
            var c := RequestOutcome(api.media(RequestFor(a)));
            o.Listing? ==>
              && c.Returned? && c.value.Some? && c.value.value.items.Some?
              && |o.lines| <= |c.value.value.items.value|
              && forall i :: 0 <= i < |o.lines| ==>
                   && (o.lines[i].body == "?" <==> !EsCancion(c.value.value.items.value[i]))
                   && (EsCancion(c.value.value.items.value[i]) ==>
                         o.lines[i].body == MediaBody(c.value.value.items.value[i], "?"))
  {
    var o := Execute(a, api).output;
    var c := RequestOutcome(api.media(RequestFor(a)));
    if o.Listing? {
      var items := c.value.value.items.value;
      forall i | 0 <= i < |o.lines|
        ensures o.lines[i].body == "?" <==> !EsCancion(items[i])
      {
        assert o.lines[i].body == MediaBody(items[i], "?");
        PlaceholderIffNotSong(items[i], "?");
      }
    }
  }

  /** Every accepted media listing whose response holds an empty array
      answers with the action's sentinel, never with an empty listing. */
  lemma {:induction false} EmptyMediaGivesSentinel(a: InfoArgs, api: CatalogApi, page: Page<Option<Media>>)
    requires SchemaValid(a) && !Rejected(a) && MediaAction(a.action)
    requires api.media(RequestFor(a)) == Ok(page) && page.items == Some([])
    ensures Execute(a, api).output == Message(Sentinel(a.action))
  {
    assert CheckPage(Strict, Some(page)).Empty?;
  }

  /** `history` reads `h.items` without optional chaining: a swallowed parse
      artifact surfaces as a TypeError there, while `queue` answers its
      sentinel. */
  lemma {:induction false} ArtifactStrictVersusOptional(a: InfoArgs, api: CatalogApi, m: string)
    requires SchemaValid(a) && a.action in {History, Queue}
    requires api.media(RequestFor(a)) == Err(m) && IsParseArtifact(m)
    ensures a.action == History ==> Execute(a, api).output == Failed(UndefinedRead)
    ensures a.action == Queue ==> Execute(a, api).output == Message("📭 Cola vacía")
  {
    assert RequestOutcome(api.media(RequestFor(a))) == Returned(None);
  }

  /** The top lists name their period in the header; absent a period that is
      "6 meses". */
  lemma {:induction false} TopListsShowPeriod(a: InfoArgs, api: CatalogApi)
    requires SchemaValid(a) && a.action in {TopTracks, TopArtists}
    ensures var o := Execute(a, api).output;
            o.Listing? ==>
              && Contains(o.header, PeriodLabel(PeriodOf(a)))
              && Contains(Render(o).text, PeriodLabel(PeriodOf(a)))
    ensures a.periodo.None? ==> PeriodLabel(PeriodOf(a)) == "6 meses"
  {
    var o := Execute(a, api).output;
    if o.Listing? {
      assert o.header == TopHeader(if a.action == TopTracks then TopTracksLead else TopArtistsLead, PeriodOf(a));
      var rest := RenderLines(o.lines);
      assert Render(o).text == o.header + rest;
      ContainsPrefix(o.header, rest, PeriodLabel(PeriodOf(a)));
    }
  }

  /** A response holding one playlist lists exactly that playlist, and its
      line shows the playlist's id. */
  lemma {:induction false} OnePlaylistListed(a: InfoArgs, api: CatalogApi, page: Page<PlaylistInfo>, p: PlaylistInfo)
    requires SchemaValid(a) && a.action == Playlists
    requires api.ownPlaylists(OwnPlaylists(Limit(a))) == Ok(page) && page.items == Some([p])
    ensures Execute(a, api).output == Listing("# Tus Playlists\n\n", [Line(1, OwnPlaylistBody(p))])
    ensures Contains(Render(Execute(a, api).output).text, p.id)
  {
    var o := Execute(a, api).output;
    assert o.Listing? && |o.lines| == 1 && o.lines[0] == Line(1, OwnPlaylistBody(p));
    assert o.lines == [Line(1, OwnPlaylistBody(p))];
    var lead := "\"" + p.name + "\" (" + IntToString(p.trackTotal.GetOr(0)) + " canciones) | ID: ";
    assert OwnPlaylistBody(p) == lead + p.id + "";
    ContainsMiddle(lead, p.id, "");
    var head := "# Tus Playlists\n\n" + IntToString(1) + ". ";
    assert RenderLines(o.lines) == Join([IntToString(1) + ". " + OwnPlaylistBody(p)], "\n");
    assert Render(o).text == head + OwnPlaylistBody(p) + "";
    ContainsMiddle(head, OwnPlaylistBody(p), "");
    ContainsTransitive(Render(o).text, OwnPlaylistBody(p), p.id);
  }
}
