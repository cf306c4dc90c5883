/**
 * What the information tools read from the Spotify Web API and how they turn
 * it into numbered listings. The responses are abstract values: every shape
 * below keeps only the fields the tools print or test.
 */
module Catalog {
  import opened Common
  import opened SpotifyClient
  import opened Playback

  /** A playable item handed back without a static type (the player queue,
      the recently-played list, saved tracks, playlist entries, the item now
      playing). `artists` is `None` when the value is not an array. */
  datatype Media = Media(kind: string, name: string, id: string,
                         artists: Option<seq<string>>, albumName: Option<string>,
                         durationMs: nat)

  /** esCancion: a non-null value whose type is "track", whose artists field
      is an array and whose album name is truthy. */
  predicate EsCancion(item: Option<Media>)
    ensures item.Some? && item.value.kind != "track" ==> !EsCancion(item)
    ensures EsCancion(item) ==>
      && item.Some? && item.value.kind == "track" && item.value.artists.Some?
      && item.value.albumName.Some? && item.value.albumName.value != ""
  {
    && item.Some?
    && item.value.kind == "track"
    && item.value.artists.Some?
    && Truthy(item.value.albumName)
  }

  /** Typed track and album records (search results, album tracks, top tracks). */
  datatype Item = Item(name: string, id: string, artists: seq<string>, durationMs: nat)

  datatype ArtistInfo = ArtistInfo(name: string, id: string, genres: Option<seq<string>>)

  datatype PlaylistInfo = PlaylistInfo(name: string, owner: Option<string>, id: string,
                                       trackTotal: Option<int>)

  datatype DeviceInfo = DeviceInfo(name: string, kind: string, active: bool,
                                   volume: Option<int>, id: string)

  /** One listing response. `items` is `None` when the array itself is absent;
      `total` is the saved-track total, `name` the album name and `current`
      the queue's currently playing item, for the responses that carry them. */
  datatype Page<+T> = Page(items: Option<seq<T>>, total: int, name: string, current: Option<Media>)

  datatype Playing = Playing(item: Option<Media>, isPlaying: bool, progressMs: Option<nat>)

  datatype ProfileInfo = ProfileInfo(displayName: string, email: string, country: string,
                                     product: string, id: string, followers: Option<int>)

  datatype StateInfo = StateInfo(device: Option<DeviceInfo>, shuffle: bool,
                                 repeatState: string, isPlaying: bool)

  datatype Period = ShortTerm | MediumTerm | LongTerm

  /** The remote requests the information tools issue, with their parameters. */
  datatype Request =
    | SearchFor(query: string, kind: Kind, limit: int)
    | CurrentlyPlaying
    | AvailableDevices
    | CurrentProfile
    | UsersQueue
    | RecentlyPlayed(limit: int)
    | SavedTracks(limit: int, offset: int)
    | OwnPlaylists(limit: int)
    | PlaylistItems(playlistId: string, limit: int)
    | AlbumById(albumId: string)
    | ArtistTopTracks(artistId: string, market: string)
    | TopTrackItems(period: Period, limit: int)
    | TopArtistItems(period: Period, limit: int)
    | PlaybackState

  /** The remote side, one total function per response shape. A search for
      tracks or albums answers on `tracks`, one for playlists on `playlists`;
      the page's items are the section for the requested type. */
  datatype CatalogApi = CatalogApi(
    tracks: Request -> Outcome<Page<Item>>,
    media: Request -> Outcome<Page<Option<Media>>>,
    artists: Request -> Outcome<Page<ArtistInfo>>,
    playlists: Request -> Outcome<Page<Option<PlaylistInfo>>>,
    ownPlaylists: Request -> Outcome<Page<PlaylistInfo>>,
    devices: Outcome<Page<DeviceInfo>>,
    playing: Outcome<Playing>,
    profile: Outcome<ProfileInfo>,
    state: Outcome<Option<StateInfo>>)

  /** The labels of the listening periods. */
  function PeriodLabel(p: Period): (s: string)
    ensures s != ""
  {
    match p
    case ShortTerm => "4 semanas"
    case MediumTerm => "6 meses"
    case LongTerm => "siempre"
  }

  lemma PeriodLabelsDistinct(p: Period, q: Period)
    ensures PeriodLabel(p) == PeriodLabel(q) <==> p == q
  {
  }

  /** `{track: 'Canción', context: 'Álbum/Playlist', off: 'No'}[s] || s` */
  function RepeatStateLabel(s: string): (shown: string)
    ensures s == "track" ==> shown == "Canción"
    ensures s == "context" ==> shown == "Álbum/Playlist"
    ensures s == "off" ==> shown == "No"
    ensures s != "track" && s != "context" && s != "off" ==> shown == s
  {
    if s == "track" then "Canción"
    else if s == "context" then "Álbum/Playlist"
    else if s == "off" then "No"
    else s
  }

  /** One numbered line of a listing, before rendering. */
  datatype Line = Line(number: int, body: string)

  /** What a tool answers: a plain text (sentinels, validation errors, cards),
      a numbered listing under a header, or an error that escapes the tool. */
  datatype Output =
    | Message(text: string)
    | Listing(header: string, lines: seq<Line>)
    | Failed(message: string)

  /** The message of the TypeError raised when a property of `undefined` is read. */
  const UndefinedRead := "TypeError: Cannot read properties of undefined"

  /** How a tool tests its response before listing it:
      `!x.items.length` (Strict), `!x.items?.length` (ItemsOptional) or
      `!x?.items?.length` (Optional). */
  datatype Guard = Strict | ItemsOptional | Optional

  datatype Check<+T> = Broken | Empty | Filled(page: Page<T>, items: seq<T>)

  /** The outcome of the guard on a response (`None` is `undefined`). */
  function CheckPage<T>(guard: Guard, p: Option<Page<T>>): (k: Check<T>)
    ensures k.Filled? <==> p.Some? && p.value.items.Some? && |p.value.items.value| > 0
    ensures k.Filled? ==> p == Some(k.page) && k.page.items == Some(k.items)
    ensures k.Broken? <==>
              || (guard != Optional && p.None?)
              || (guard == Strict && p.Some? && p.value.items.None?)
  {
    match p
    case None => if guard == Optional then Empty else Broken
    case Some(page) =>
      match page.items
      case None => if guard == Strict then Broken else Empty
      case Some(items) => if |items| == 0 then Empty else Filled(page, items)
  }

  /** A card built as marker, decoration, title, body and trailer starts with
      its marker and holds its title and its trailer. */
  lemma CardPieces(marker: string, deco: string, title: string, body: string, trailer: string)
    ensures var s := marker + deco + title + body + trailer;
      StartsWith(s, marker) && Contains(s, title) && Contains(s, trailer)
  {
    var s := marker + deco + title + body + trailer;
    assert s[..|marker|] == marker;
    ContainsMiddle(marker + deco, title, body + trailer);
    assert s == marker + deco + title + (body + trailer);
    ContainsMiddle(marker + deco + title + body, trailer, "");
    assert s == marker + deco + title + body + trailer + "";
  }

  /** A response that settled with its array present and empty. */
  predicate EmptyResponse<T>(o: Outcome<Page<T>>) {
    o.Ok? && o.value.items == Some([])
  }

  /** A response that settled with its array present and holding items. */
  predicate FilledResponse<T>(o: Outcome<Page<T>>) {
    o.Ok? && o.value.items.Some? && |o.value.items.value| > 0
  }

  /** `items.map((x, i) => `${first + i}. ...`)`: numbers consecutive lines
      from `first`. */
  function NumberLines<T>(items: seq<T>, first: int, body: T -> string): (r: seq<Line>)
    ensures |r| == |items|
    ensures forall i :: 0 <= i < |r| ==> r[i] == Line(first + i, body(items[i]))
    decreases |items|
  {
    if |items| == 0 then []
    else [Line(first, body(items[0]))] + NumberLines(items[1..], first + 1, body)
  }

  /** `items.slice(0, limit)`, or the whole array when there is no limit. */
  function Take<T>(items: seq<T>, limit: Option<nat>): (r: seq<T>)
    ensures limit.None? ==> r == items
    ensures limit.Some? ==> |r| == (if limit.value < |items| then limit.value else |items|)
    ensures r == items[..|r|]
  {
    if limit.Some? && limit.value < |items| then items[..limit.value] else items
  }

  /** The common shape of every list tool: the error the request re-throws,
      the TypeError of a guard that reads through `undefined`, the tool's
      sentinel for an empty result, or the numbered listing. */
  function Listed<T>(c: Completion<Page<T>>, guard: Guard, sentinel: string,
                     header: Page<T> -> string, first: int, limit: Option<nat>,
                     body: T -> string): (o: Output)
    requires limit.Some? ==> limit.value >= 1
    ensures c.Threw? ==> o == Failed(c.message)
    ensures o.Failed? && c.Returned? ==> o == Failed(UndefinedRead)
    ensures o.Message? <==> c.Returned? && CheckPage(guard, c.value).Empty?
    ensures o.Message? ==> o.text == sentinel
    ensures o.Listing? ==>
      && c.Returned? && c.value.Some? && c.value.value.items.Some?
      && var items := c.value.value.items.value;
      && o.header == header(c.value.value)
      && 1 <= |o.lines| <= |items|
      && (limit.None? || limit.value >= |items| ==> |o.lines| == |items|)
      && (limit.Some? ==> |o.lines| <= limit.value)
      && forall i :: 0 <= i < |o.lines| ==> o.lines[i] == Line(first + i, body(items[i]))
  {
    match c
    case Threw(m) => Failed(m)
    case Returned(p) =>
      match CheckPage(guard, p)
      case Broken => Failed(UndefinedRead)
      case Empty => Message(sentinel)
      case Filled(page, items) => Listing(header(page), NumberLines(Take(items, limit), first, body))
  }

  /** A listing's lines as the tool joins them. */
  function RenderLines(lines: seq<Line>): string {
    Join(seq(|lines|, i requires 0 <= i < |lines| => IntToString(lines[i].number) + ". " + lines[i].body), "\n")
  }

  /** The reply the host receives. */
  function Render(o: Output): (r: Reply)
    ensures r.Raised? <==> o.Failed?
    ensures o.Message? ==> r == Said(o.text)
    ensures o.Listing? ==> r.Said? && StartsWith(r.text, o.header)
  {
    match o
    case Message(t) => Said(t)
    case Listing(h, lines) => StartsWithConcat(h, RenderLines(lines)); Said(h + RenderLines(lines))
    case Failed(m) => Raised(m)
  }

  // ---- line bodies shared by both generations of the tools ----

  function Artists(names: seq<string>): string {
    Join(names, ", ")
  }

  /** `"name" - a, b | ID: id` */
  function SongBody(name: string, artists: seq<string>, id: string): (s: string)
    ensures |s| > 0 && s[0] == '"'
  {
    "\"" + name + "\" - " + Artists(artists) + " | ID: " + id
  }

  /** The line of an untyped item: the song when esCancion holds, the
      placeholder otherwise. */
  function MediaBody(item: Option<Media>, placeholder: string): (s: string)
    ensures EsCancion(item) ==> s == SongBody(item.value.name, item.value.artists.value, item.value.id)
    ensures !EsCancion(item) ==> s == placeholder
  {
    if EsCancion(item) then SongBody(item.value.name, item.value.artists.value, item.value.id)
    else placeholder
  }

  /** A song line is never mistaken for a placeholder that does not start
      with a quote: the line shows the placeholder exactly when the item is
      not a song. */
  lemma PlaceholderIffNotSong(item: Option<Media>, placeholder: string)
    requires placeholder == "" || placeholder[0] != '"'
    ensures MediaBody(item, placeholder) == placeholder <==> !EsCancion(item)
  {
  }

  /** `"name" (m:ss) | ID: id` */
  function TimedBody(t: Item): string {
    "\"" + t.name + "\" (" + FormatDuration(t.durationMs) + ") | ID: " + t.id
  }

  /** `"name" - a, b (m:ss) | ID: id` */
  function TimedSongBody(t: Item): string {
    "\"" + t.name + "\" - " + Artists(t.artists) + " (" + FormatDuration(t.durationMs) + ") | ID: " + t.id
  }

  /** `name | ID: id` */
  function ArtistBody(a: ArtistInfo): string {
    a.name + " | ID: " + a.id
  }

  /** A playlist search hit, which may be null:
      `"${p?.name ?? missing}" por ${p?.owner?.display_name ?? '?'} | ID: ${p?.id}`. */
  function FoundPlaylistBody(p: Option<PlaylistInfo>, missing: string): (s: string)
    ensures p.None? ==> s == "\"" + missing + "\" por ? | ID: undefined"
  {
    match p
    case None => "\"" + missing + "\" por ? | ID: undefined"
    case Some(q) => "\"" + q.name + "\" por " + q.owner.GetOr("?") + " | ID: " + q.id
  }

  /** `"name" (n canciones) | ID: id`, with `tracks?.total || 0`. */
  function OwnPlaylistBody(p: PlaylistInfo): string {
    "\"" + p.name + "\" (" + IntToString(p.trackTotal.GetOr(0)) + " canciones) | ID: " + p.id
  }

  /** `genres?.slice(0, 3).join(', ') || 'N/A'` */
  function GenresText(genres: Option<seq<string>>): (s: string)
    ensures s != ""
    ensures genres.None? ==> s == "N/A"
  {
    match genres
    case None => "N/A"
    case Some(g) =>
      var shown := Join(if |g| < 3 then g else g[..3], ", ");
      if shown == "" then "N/A" else shown
  }

  /** `name | Géneros: ... | ID: id` */
  function TopArtistBody(a: ArtistInfo): string {
    a.name + " | Géneros: " + GenresText(a.genres) + " | ID: " + a.id
  }

  /** The "now playing" line of the queue header: present exactly when the
      current item is a song. */
  function NowLine(current: Option<Media>): (s: string)
    ensures s == "" <==> !EsCancion(current)
    ensures EsCancion(current) ==>
      s == "**Ahora**: \"" + current.value.name + "\" - " + Artists(current.value.artists.value) + "\n\n"
  {
    if EsCancion(current) then
      "**Ahora**: \"" + current.value.name + "\" - " + Artists(current.value.artists.value) + "\n\n"
    else ""
  }

  /** `# Cola\n\n${actual}**Siguiente:**\n` */
  function QueueHeader<T>(p: Page<T>): string {
    "# Cola\n\n" + NowLine(p.current) + "**Siguiente:**\n"
  }

  /** `# Guardadas (${offset + 1}-${offset + n} de ${total})\n\n` */
  function SavedHeader<T>(offset: int, p: Page<T>): string {
    var n := |p.items.GetOr([])|;
    "# Guardadas (" + IntToString(offset + 1) + "-" + IntToString(offset + n)
      + " de " + IntToString(p.total) + ")\n\n"
  }

  /** A saved-tracks listing numbers its lines from offset+1, one per item,
      and its header shows that range and the library total. */
  lemma SavedListingNumbered<T>(c: Completion<Page<T>>, sentinel: string, offset: int, body: T -> string)
    ensures var o := Listed(c, Strict, sentinel, p => SavedHeader(offset, p), offset + 1, None, body);
            o.Listing? ==>
              && c.Returned? && c.value.Some? && c.value.value.items.Some?
              && |o.lines| == |c.value.value.items.value|
              && (forall i :: 0 <= i < |o.lines| ==> o.lines[i].number == offset + 1 + i)
              && o.header == "# Guardadas (" + IntToString(offset + 1) + "-"
                             + IntToString(offset + |o.lines|) + " de "
                             + IntToString(c.value.value.total) + ")\n\n"
  {
  }

  /** `# Top Canciones (label)\n\n` and `# Top Artistas (label)\n\n`, split
      around the label. */
  const TopTracksLead := "# Top Canciones ("
  const TopArtistsLead := "# Top Artistas ("
  const TopTail := ")\n\n"

  /** Header of a top list: its lead, the period label, and the tail. */
  function TopHeader(lead: string, period: Period): (h: string)
    ensures Contains(h, PeriodLabel(period))
  {
    ContainsMiddle(lead, PeriodLabel(period), TopTail);
    lead + PeriodLabel(period) + TopTail
  }
}
