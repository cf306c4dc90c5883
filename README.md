# Spotify MCP server: client, credential store and tools

This project models the core of an MCP server that exposes Spotify as tools.

**Shared client.** The server keeps one cached Spotify SDK client (`apiSpotify`). It builds that client from a stored configuration, in user-session mode when both tokens are present and in client-credentials mode otherwise.

**Executors.** Every tool runs its remote calls through one of two executors:
- `ejecutarPeticion` swallows the SDK's JSON-parse artifacts and re-throws every other error.
- `ejecutarPeticionPlayer` turns every error into a classified guidance text.

**Credential store.** The configuration lives in a JSON record in the user's home directory. Two generations of the store are modelled side by side:
- The compiled `build/core/configuracion.js` (**FileFirst**) reads the identity from the file, then from the environment. Its save merges the new configuration into the record.
- The source `src/core/configuracion.ts` (**EnvOnly**) reads the identity from the environment only. Its save overwrites the file with the two tokens.

**Tools.** On top of this sit two generations of tools:
- The consolidated tools: `spotifyPlayer`, `spotifyInfo`, `spotifyLibrary` and `spotifyAuth`.
- The older one-tool-per-action files: `reproduccion`, `consultas`, `biblioteca` and `autenticacion`.

**Modelling choices.**
- Remote calls are abstract: the Spotify Web API is a value of total functions from request to outcome.
- A tool answers with its reply together with the sequence of requests it issued, in order.
- The credential file is a class whose contents the saves reassign.
- The client cache is a class whose `api` field is the module-level variable.
- The auth tools take the store generation as a parameter. Both TypeScript auth tool files import the EnvOnly store, and the FileFirst store is the behaviour the compiled server ships.

Files:
- `common.dfy`: Option/Result, JavaScript truthiness, substring predicates and number text.
- `credential_store.dfy`: both store generations.
- `spotify_client.dfy`: the client cache, both executors, the error classification and `formatearDuracion`.
- `playback.dfy`, `player.dfy`, `reproduccion.dfy`: the playback tools.
- `catalog.dfy`, `info.dfy`, `consultas.dfy`: the information tools.
- `library.dfy`, `biblioteca.dfy`: the library tools.
- `auth_tool.dfy`, `autenticacion.dfy`: the authentication tools.

## Model

| member | source | states |
|---|---|---|
| CredentialStore.StoredRecord | src/core/configuracion.ts:21-30 | a missing or unparsable file reads as the empty record; a parsed file gives its record |
| CredentialStore.TokenEntries | build/core/configuracion.js:38-49 | the serialised record holds a token key exactly when that token is defined, and no other keys |
| CredentialStore.ResolveFileFirst | build/core/configuracion.js:20-37 | load succeeds iff the id and secret are truthy in the file or the environment; the error text on failure; file wins over environment; tokens come from the file only |
| CredentialStore.RedirectPriority | build/core/configuracion.js:24-26 | the redirect URI is the file's, else the environment's, else the port-8000 default |
| CredentialStore.TokensIgnoreEnvironment | build/core/configuracion.js:34-35 | two environments give the same tokens for the same file |
| CredentialStore.MergedRecord | build/core/configuracion.js:38-49 | the merge save keeps every unrelated key, overwrites the three identity keys and writes a token key exactly when that token is defined |
| CredentialStore.LoadAfterMergedSave | build/core/configuracion.js:20-49 | load after a merged save of a complete configuration gives it back, whatever the environment |
| CredentialStore.SaveWithoutTokensForgetsTokens | build/core/configuracion.js:38-49 | saving without tokens removes both token keys, so the next load has none |
| CredentialStore.ResolveEnvOnly | src/core/configuracion.ts:36-56 | load succeeds iff id and secret are truthy in the environment; the error text; tokens come from the file |
| CredentialStore.EnvOnlyChecksIdentityFirst | src/core/configuracion.ts:37-45 | without an environment identity the file's contents do not matter |
| CredentialStore.TokenRecord | src/core/configuracion.ts:58-63 | the save writes exactly the defined tokens |
| CredentialStore.LoadAfterTokenSave | src/core/configuracion.ts:36-63 | with a fixed environment, load after a token save returns the saved tokens |
| CredentialStore.LoadedIdentityPresent | src/core/configuracion.ts:37-39 | every configuration either generation loads has a non-empty id and secret |
| CredentialStore.Resolve | build/core/configuracion.js:20-37 | whichever generation loads, a success has a non-empty id and secret and the file's tokens, and a failure that generation's message |
| CredentialStore.SavedRecord | build/core/configuracion.js:38-49 | a save of either generation writes the configuration's tokens; the environment-only save writes nothing else, and the file-first save also writes the identity |
| CredentialStore.CredentialFile.constructor | src/core/configuracion.ts:21-30 | the file starts with the given contents |
| CredentialStore.CredentialFile.Load | src/core/configuracion.ts:21-56 | a missing or unreadable file loads with no tokens; a parsed file's tokens are loaded as stored |
| CredentialStore.CredentialFile.SaveMerged | build/core/configuracion.js:38-49 | the file becomes the merged record, and a complete configuration loads back unchanged |
| CredentialStore.CredentialFile.SaveTokens | src/core/configuracion.ts:58-63 | the file becomes the token record |
| CredentialStore.CredentialFile.Save | src/core/configuracion.ts:58-63 | the save of the given generation |
| SpotifyClient.ModeFor | src/core/spotify.ts:18-35 | user-session mode iff both tokens are truthy, with the 30-day lifetime; client-credentials otherwise |
| SpotifyClient.TokenLifetimeIsThirtyDays | src/core/spotify.ts:22 | the token lifetime is 2592000 seconds |
| SpotifyClient.ApiHandle.constructor | src/core/spotify.ts:18-35 | a new handle has the given mode |
| SpotifyClient.ClientCache.constructor | src/core/spotify.ts:4 | the cache starts empty |
| SpotifyClient.ClientCache.Reset | src/core/spotify.ts:7-9 | the cached handle is dropped |
| SpotifyClient.ClientCache.Get | src/core/spotify.ts:11-36 | a cached handle is returned as is without a load; otherwise one load builds a fresh handle in ModeFor mode, or the load error is returned |
| SpotifyClient.ClientCache.Execute | src/core/spotify.ts:38-56 | the call's outcome through RequestOutcome; a cached handle is used without a load and kept; otherwise one load either builds a fresh handle in ModeFor mode or leaves the cache empty and fails |
| SpotifyClient.ClientCache.ExecutePlayer | src/core/spotify.ts:59-95 | the call's outcome through PlayerOutcome, with the same cache and load behaviour as Execute; it never throws |
| SpotifyClient.GetTwice | src/core/spotify.ts:11-14 | two gets without a reset give the same handle and at most one load |
| SpotifyClient.ResetThenGet | src/core/spotify.ts:7-36 | after a reset the next get loads once and builds from the current file |
| SpotifyClient.RequestOutcome | src/core/spotify.ts:38-56 | a value is returned; an error is swallowed as undefined iff it is a parse artifact, otherwise re-thrown unchanged |
| SpotifyClient.IsParseArtifact | src/core/spotify.ts:63-66 | an artifact message is at least as long as the shortest artifact text, so an empty error is never swallowed |
| SpotifyClient.FirstMatch | src/core/spotify.ts:79-93 | the first rule of the table whose needles occur, or Unclassified |
| SpotifyClient.Classify | src/core/spotify.ts:79-93 | a chosen category is one of the rule table's and one of its needles occurs in the message; Unclassified iff no rule's needles occur |
| SpotifyClient.ClassifyIsFirstMatch | src/core/spotify.ts:79-93 | the if-chain equals the first-match scan of the rule table |
| SpotifyClient.ClassifyFirstMatchOrder | src/core/spotify.ts:79-93 | the chosen category matches and no earlier category does |
| SpotifyClient.LongNoDeviceNeedleSubsumed | src/core/spotify.ts:80-81 | the longer no-device needle is redundant: its matches all contain the short one |
| SpotifyClient.PlayerOutcome | src/core/spotify.ts:59-95 | a value is Done; a parse artifact is Done(undefined); any other error is refused with the classified guidance text |
| SpotifyClient.PlayerAgreesWithRequest | src/core/spotify.ts:38-95 | both executors agree on what is returned, and the player executor refuses exactly what the other re-throws |
| SpotifyClient.ArtifactWinsOverClassification | src/core/spotify.ts:63-66 | an artifact message is swallowed even when it would also match a category |
| SpotifyClient.NameOnlyInNotFoundAndGeneric | src/core/spotify.ts:86-93 | only the not-found and generic texts carry the action name |
| SpotifyClient.GenericKeepsMessage | src/core/spotify.ts:93 | the generic text contains the original error message |
| SpotifyClient.CompiledStepsInOrder | build/core/spotify.js:58-59 | the compiled no-device text names its four remedies in order |
| SpotifyClient.SourceStepsInOrder | src/core/spotify.ts:80-81 | the source no-device text sends to the device list, then to opening the app |
| SpotifyClient.NoDeviceTextsMarked | src/core/spotify.ts:80-81 | both no-device texts start with their marker |
| SpotifyClient.NamedTextsMarked | src/core/spotify.ts:86-93 | the not-found and generic texts start with the error marker |
| SpotifyClient.GuidanceText | src/core/spotify.ts:79-93 | each category's text opens with its own marker, and the unclassified text carries the raw error message |
| SpotifyClient.SecondsFieldRange | src/core/spotify.ts:97-101 | as written, the seconds field is at most 60, and is 60 iff the position is in the last half second of a minute |
| SpotifyClient.FormatDuration | src/core/spotify.ts:97-101 | as written: the whole minutes, a colon, then the padded seconds field, which is two characters |
| SpotifyClient.FormatDurationShowsSixty | src/core/spotify.ts:97-101 | 59500 ms renders as "0:60" |
| SpotifyClient.RoundedFieldsInRange | src/core/spotify.ts:97-101 | the rounded form has a two-digit seconds field below 60, and minutes and seconds recompose the rounded total |
| SpotifyClient.FormatDurationRounded | src/core/spotify.ts:97-101 | as intended: the minutes and the two-digit seconds of the duration rounded to whole seconds |
| SpotifyClient.RoundedAgreesBelowLastHalfSecond | src/core/spotify.ts:97-101 | the rounded form agrees with the code as written outside the last half second of each minute |
| SpotifyClient.RoundedFieldsAgree | src/core/spotify.ts:97-101 | outside the last half second of a minute, rounding first changes neither the minutes nor the seconds |
| SpotifyClient.RoundedCarriesIntoMinutes | src/core/spotify.ts:97-101 | 59500 ms renders as "1:00" in the rounded form |
| Playback.KindName | src/tools/player.ts:43 | each kind has a non-empty name |
| Playback.Settle | src/core/spotify.ts:38-56 | the tool's text, unless the closure failed with an error that is not a parse artifact, which is raised unchanged |
| Playback.SingleRun | src/tools/player.ts:64-78 | exactly the one command is sent, and the reply is the text unless the command failed with a non-artifact error |
| Playback.TargetUri | src/tools/player.ts:43 | a URI is defined iff the uri is truthy or a kind and a truthy id are given; the uri wins; otherwise `spotify:kind:id` |
| Playback.BuiltUriParts | src/tools/player.ts:43 | a built URI starts with "spotify:" and ends with the id |
| Playback.DirectStart | src/tools/player.ts:55-59 | a track is started as a one-URI list, anything else as a context, with no offset |
| Playback.ContextPlay | src/tools/player.ts:46-60 | the track lookup comes first exactly in the album-context case; an album start implies that case and no failure; a failure is the error of the last call made |
| Playback.RunContextPlay | src/tools/player.ts:46-60 | the closure's awaited calls are the specified steps |
| Playback.AlbumContextChosen | src/tools/player.ts:47-53 | a track whose album has a URI is started in that album, at the track, after one lookup |
| Playback.AlbumFallback | src/tools/player.ts:55-59 | a track without an album URI is played alone after the lookup |
| Playback.DirectPlayOnly | src/tools/player.ts:55-59 | without the in-context decision exactly one start command is sent |
| Playback.ClosureEndsPlayingTarget | src/tools/player.ts:46-60 | every completed run of the closure ends with one start command that plays the target |
| Playback.JsRem | src/tools/player.ts:102-104 | JavaScript remainder: Euclidean for a non-negative dividend; for a negative one, minus the remainder of its magnitude |
| Playback.SeekLabel | src/tools/player.ts:102-104 | the label opens with "⏩ Posición: ", and for a non-negative position ends with a colon and two seconds digits |
| Playback.SeekLabelFields | src/tools/player.ts:102-104 | for a non-negative position the label shows whole minutes and a two-digit seconds field below 60 |
| Playback.RepeatLabel | src/tools/player.ts:95 | every label is non-empty, and "desactivado" is the label of the off mode only |
| Playback.RepeatLabelsDistinct | src/tools/player.ts:95 | the three repeat modes have different labels |
| Playback.LikedSteps | src/tools/player.ts:120-128 | the profile is fetched first; a profile error stops the closure there |
| Playback.RunLiked | src/tools/player.ts:120-128 | the Liked Songs closure's awaited calls are the specified steps |
| Playback.LikedOrder | src/tools/player.ts:121-127 | shuffle is switched on only when asked, and before the collection is started |
| Player.DeviceOf | src/tools/player.ts:36 | a truthy device is used, otherwise the empty string |
| Player.NumberOr | src/tools/player.ts:81 | a numeric valor is used, otherwise the fallback |
| Player.BoolOr | src/tools/player.ts:87 | a boolean valor is used, otherwise the fallback |
| Player.Clamp100 | src/tools/player.ts:81-83 | the result is within 0..100, equals the input in range and saturates outside it |
| Player.RepeatOf | src/tools/player.ts:93 | track and context are chosen exactly by those strings; anything else is off |
| Player.Rejected | src/tools/player.ts:39-118 | only play, queue and transfer refuse their arguments |
| Player.PlanFor | src/tools/player.ts:64-118 | refused exactly when the arguments are, with their text; otherwise one command to the requested device, a volume within 0..100, the queue's built target, or a playing transfer to the one device given |
| Player.PlayAction | src/tools/player.ts:39-62 | the reply and the calls are those of the play specification |
| Player.PlayLikedAction | src/tools/player.ts:120-128 | the reply and the calls are those of the Liked Songs specification |
| Player.Execute | src/tools/player.ts:35-128 | no request iff the arguments are refused, with the refusal text; otherwise the action's specified reply and calls |
| Player.VolumeDefault | src/tools/player.ts:80-84 | without a numeric valor the volume sent is 50 and the reply says "50%" |
| Player.VolumeSentAndEchoed | src/tools/player.ts:80-84 | the volume sent is the request clamped to 0..100, equal to it iff it is in range, while the reply echoes the raw valor |
| Player.ShuffleDefaultsOn | src/tools/player.ts:86-90 | shuffle is switched on unless valor is the boolean false |
| Player.RepeatFallsBackToOff | src/tools/player.ts:92-97 | any other valor sets repeat off |
| Player.PlayAndQueueShareTarget | src/tools/player.ts:43 | play and queue aim at the same URI for the same arguments |
| Player.ArtifactOnLookupReportsPlaying | src/tools/player.ts:46-60 | a parse artifact raised by the track lookup ends the closure and the tool still reports playing |
| Player.TransferKeepsPlaying | src/tools/player.ts:114-118 | a transfer targets the one device given and keeps playing |
| Player.LikedShuffleOnlyWhenAsked | src/tools/player.ts:120-128 | shuffle is requested iff valor is the boolean true |
| LegacyPlayback.DeviceOr | src/tools/reproduccion.ts:33 | a truthy device id is used, otherwise the empty string |
| LegacyPlayback.RunLegacyClosure | src/tools/reproduccion.ts:36-60 | the closure's awaited calls are the specified steps |
| LegacyPlayback.Reproducir | src/tools/reproduccion.ts:26-63 | the reply and the calls are those of the reproducir specification |
| LegacyPlayback.ReproducirGuard | src/tools/reproduccion.ts:29-31 | without a URI or a kind with an id nothing is sent |
| LegacyPlayback.BareResumeUnreachable | src/tools/reproduccion.ts:55-59 | once the guard has passed, no start command without a target is ever sent |
| LegacyPlayback.ReproducirMatchesConsolidated | src/tools/reproduccion.ts:26-63 | reproducir issues the same calls as the consolidated play action |
| LegacyPlayback.Pausar | src/tools/reproduccion.ts:70-75 | one pause command to the given device or the active one; the fixed reply unless it fails with a non-artifact error |
| LegacyPlayback.Reanudar | src/tools/reproduccion.ts:82-87 | one start command without context, uris or offset; the fixed reply unless it fails with a non-artifact error |
| LegacyPlayback.Siguiente | src/tools/reproduccion.ts:94-99 | one skip-to-next command; the fixed reply unless it fails with a non-artifact error |
| LegacyPlayback.Anterior | src/tools/reproduccion.ts:106-111 | one skip-to-previous command; the fixed reply unless it fails with a non-artifact error |
| LegacyPlayback.AjustarVolumen | src/tools/reproduccion.ts:124-129 | the schema-bounded volume is sent unchanged |
| LegacyPlayback.VolumeMatchesConsolidated | src/tools/reproduccion.ts:124-129 | in range, the old and the consolidated volume tools send the same call |
| LegacyPlayback.ActivarAleatorio | src/tools/reproduccion.ts:142-147 | one shuffle command with the requested state; the reply says "activado" or "desactivado" accordingly |
| LegacyPlayback.ModoRepeticion | src/tools/reproduccion.ts:160-166 | the mode is sent and named in the reply |
| LegacyPlayback.CambiarDispositivo | src/tools/reproduccion.ts:179-184 | a transfer to the one device, playing unless reproducir is false |
| LegacyPlayback.SaltarAPosicion | src/tools/reproduccion.ts:197-204 | the position is sent and shown as minutes and seconds |
| LegacyPlayback.AgregarACola | src/tools/reproduccion.ts:221-233 | nothing is sent iff there is no target, with the refusal text; otherwise one queue command for the target (a truthy uri as given, else spotify:kind:id) and the queued reply |
| LegacyPlayback.ReproducirMeGusta | src/tools/reproduccion.ts:301-321 | the Liked Songs steps; shuffle is requested iff aleatorio is true |
| Catalog.PeriodLabel | src/tools/info.ts:136 | each period has a non-empty label |
| Catalog.PeriodLabelsDistinct | src/tools/info.ts:136 | two periods have the same label iff they are equal |
| Catalog.RepeatStateLabel | src/tools/info.ts:152 | the three known states get their labels, and any other state is shown as is |
| Catalog.EsCancion | src/tools/info.ts:9-11 | only a track can be a song, and a song has an artists array and a non-empty album name |
| Catalog.CheckPage | src/tools/info.ts:78 | a response lists iff its array is present and non-empty; under strict reading an absent array raises, otherwise it is empty |
| Catalog.NumberLines | src/tools/info.ts:83 | one line per item, numbered consecutively from the first number |
| Catalog.Take | src/tools/info.ts:83 | the prefix of at most the limit's length, or everything without a limit |
| Catalog.Listed | src/tools/info.ts:76-99 | an error is re-thrown; the sentinel iff the response is empty; otherwise one numbered line per shown item |
| Catalog.Render | src/tools/info.ts:83 | only a failure raises; a listing's text starts with its header |
| Catalog.SongBody | src/tools/info.ts:83 | a song line opens with its quoted name |
| Catalog.MediaBody | src/tools/info.ts:9-11 | the song line when esCancion holds, the placeholder otherwise |
| Catalog.PlaceholderIffNotSong | src/tools/info.ts:83 | the placeholder is shown exactly for the items that are not songs |
| Catalog.FoundPlaylistBody | src/tools/info.ts:51 | a null playlist hit prints with "?" and an undefined id |
| Catalog.GenresText | src/tools/info.ts:145 | never empty, and "N/A" without genres |
| Catalog.NowLine | src/tools/info.ts:80-82 | the now-playing line is present iff the current item is a song, and then quotes its name and lists its artists, with no id |
| Catalog.TopHeader | src/tools/info.ts:138 | the header contains the period label |
| Info.Limit | src/tools/info.ts:37 | the default limit is 20, and the schema keeps it within 1..50 |
| Info.Offset | src/tools/info.ts:37 | the default offset is 0, and it is non-negative |
| Info.PeriodOf | src/tools/info.ts:37 | the default period is medium term |
| Info.Market | src/tools/info.ts:37 | the default market is "ES" |
| Info.Rejected | src/tools/info.ts:40-157 | only search, the id-based actions and an unknown action answer without a request; an accepted search has a non-empty query and a type, an accepted id action a non-empty id |
| Info.RequestFor | src/tools/info.ts:37-152 | a limited request carries limite (20 by default, within 1..50 under the schema); saved carries the offset; the id actions carry the non-empty id, and artistTop the market |
| Info.Sentinel | src/tools/info.ts:58-145 | every list action has its own non-empty text for an empty result |
| Info.DeviceName | src/tools/info.ts:153 | the state card never shows an empty device name |
| Info.NowPlayingCard | src/tools/info.ts:61 | the card opens with a heading holding the track's name and shows the track's id |
| Info.ProfileCard | src/tools/info.ts:73 | the card opens with "# Perfil" and shows the user's name and id |
| Info.StateCard | src/tools/info.ts:149-154 | the card opens with "# Estado", names the device (or "?") and ends with whether something is playing |
| Info.Answer | src/tools/info.ts:40-154 | a listing only for list actions, never empty; a present and empty response array answers the action's sentinel, a non-empty one a listing |
| Info.Execute | src/tools/info.ts:36-157 | no request iff the call is refused, with the refusal text; otherwise exactly the action's one request; an empty response array answers the sentinel, a non-empty one a listing |
| Info.SavedNumbering | src/tools/info.ts:94-99 | saved lines are numbered offset+1 onwards, one per saved item |
| Info.ListingsCappedByLimit | src/tools/info.ts:76-85 | queue and album listings have at most limite lines |
| Info.NonSongsShowPlaceholder | src/tools/info.ts:83 | in untyped listings a line reads "?" exactly when its item is not a song |
| Info.EmptyMediaGivesSentinel | src/tools/info.ts:78 | an empty response array gives the action's sentinel |
| Info.ArtifactStrictVersusOptional | src/tools/info.ts:76-92 | a swallowed artifact makes history raise, while queue answers its sentinel |
| Info.TopListsShowPeriod | src/tools/info.ts:133-147 | the top lists name their period in the header, "6 meses" by default |
| Info.OnePlaylistListed | src/tools/info.ts:101-106 | a one-playlist response lists that playlist on line 1, and the rendered text contains its id |
| LegacyQueries.LimitOr | src/tools/consultas.ts:30 | the default is used only when limite is absent, and the result stays within 1..50 |
| LegacyQueries.Buscar | src/tools/consultas.ts:29-51 | one search with limit 10 by default; the empty text; a listing is never empty; a present and empty array gives its empty text, a non-empty one a listing |
| LegacyQueries.NowPlayingCard | src/tools/consultas.ts:64-72 | the card opens with a heading, names the track and shows its id |
| LegacyQueries.ReproduccionActual | src/tools/consultas.ts:60-74 | one request; nothing playing (also for an unreadable reply), a podcast, or the song card for a song; any other error fails with its message |
| LegacyQueries.MisPlaylists | src/tools/consultas.ts:82-87 | one request with limit 50 by default; its empty text; a present and empty array gives its empty text, a non-empty one a listing |
| LegacyQueries.PlaylistEntryBody | src/tools/consultas.ts:101-105 | a removed track, a song line, or "Desconocido" |
| LegacyQueries.CancionesPlaylist | src/tools/consultas.ts:98-107 | one request with limit 50 by default; its empty text; a present and empty array gives its empty text, a non-empty one a listing |
| LegacyQueries.Historial | src/tools/consultas.ts:115-123 | one request with limit 50 by default; its empty text; a present and empty array gives its empty text, a non-empty one a listing |
| LegacyQueries.CancionesGuardadas | src/tools/consultas.ts:134-143 | one request with limit 50 and offset 0 by default; its empty text; a present and empty array gives its empty text, a non-empty one a listing |
| LegacyQueries.VolumePart | src/tools/consultas.ts:157 | the volume part is present iff the device reports a volume |
| LegacyQueries.DeviceBody | src/tools/consultas.ts:155-158 | a device line opens with the name and type, carries the active mark when active and shows the id |
| LegacyQueries.Dispositivos | src/tools/consultas.ts:152-161 | one request; its empty text; a present and empty array gives its empty text, a non-empty one a listing |
| LegacyQueries.ProfileCard | src/tools/consultas.ts:174 | the card opens with "# Tu Perfil" and shows the user's name and id |
| LegacyQueries.Perfil | src/tools/consultas.ts:169-177 | the profile card, or a failure when the request fails |
| LegacyQueries.TopCanciones | src/tools/consultas.ts:191-198 | medium term and 20 by default; the header names the period; a present and empty array gives its empty text, a non-empty one a listing |
| LegacyQueries.TopArtistas | src/tools/consultas.ts:212-219 | medium term and 20 by default; the header names the period; a present and empty array gives its empty text, a non-empty one a listing |
| LegacyQueries.CancionesAlbum | src/tools/consultas.ts:230-236 | the album is fetched, and at most limite tracks (50 by default) are listed; a present and empty array gives its empty text, a non-empty one a listing |
| LegacyQueries.TopCancionesArtista | src/tools/consultas.ts:247-252 | market "ES" by default; its empty text; a present and empty array gives its empty text, a non-empty one a listing |
| LegacyQueries.DeviceField | src/tools/consultas.ts:267 | the device name and type are never shown empty |
| LegacyQueries.StateCard | src/tools/consultas.ts:267 | the card opens with "# Estado", names the device (or "?") and ends with whether something is playing |
| LegacyQueries.EstadoReproduccion | src/tools/consultas.ts:260-270 | no session, or the state card |
| LegacyQueries.Cola | src/tools/consultas.ts:278-290 | one request; at most twenty lines; a present and empty array gives its empty text, a non-empty one a listing |
| LegacyQueries.SavedNumberedFromOffset | src/tools/consultas.ts:134-143 | saved lines are numbered from offset+1, one per item |
| LegacyQueries.PlaylistPlaceholders | src/tools/consultas.ts:101-105 | "[Eliminada]" marks exactly the removed tracks and "Desconocido" exactly the non-songs |
| LegacyQueries.QueueMatchesConsolidatedDefault | src/tools/consultas.ts:278-290 | the queue tool lists the same items as the consolidated queue at its default limit, with "Desconocido" in place of "?" |
| Library.Marks | build/tools/library.js:43-49 | the i-th flag says whether the i-th id is saved |
| Library.Effect | build/tools/library.js:27-42 | a save adds the ids, a removal deletes them, and every other call leaves the library unchanged |
| Library.Perform | build/tools/library.js:27-94 | an accepted call answers and takes effect; a failed call that is not an artifact changes nothing |
| Library.Normalize | build/tools/library.js:62 | a "spotify:" id is kept; any other id gets the track prefix; the result always starts with "spotify:" |
| Library.Normalized | build/tools/library.js:62 | every id is normalised, in order |
| Library.NormalizedIdempotent | build/tools/library.js:62 | normalising twice is normalising once |
| Library.Rejected | build/tools/library.js:27-94 | an unknown action is refused; an accepted id action has a non-empty id list, an accepted playlist action a truthy playlist id, and create and rename a truthy name |
| Library.RejectionText | build/tools/library.js:27-94 | every refusal of a known action starts with "Error: Requiere ", and an unknown action gets "❌ Acción no válida" |
| Library.CheckLines | build/tools/library.js:46-48 | one line per id, marked saved or not as its flag says |
| Library.Single | build/tools/library.js:27-42 | the one call is sent, and the reply is its text unless the call re-throws |
| Library.CreateClosure | build/tools/library.js:53-56 | the profile is fetched first; the playlist is created under that user only when the profile succeeds |
| Library.Execute | build/tools/library.js:25-94 | no request iff the call is refused, with the refusal text; only save and remove change the library |
| Library.CheckReportsLibrary | build/tools/library.js:43-48 | an accepted check sends one request, changes nothing, and reports one line per id, marked "✓ Guardada" exactly when that id is in the library |
| Library.SaveCheckRemoveCheck | build/__tests__/library.test.js:62-87 | save, check, remove, check: the first check marks every id saved, the second none |
| Library.RenameChecksPlaylistFirst | build/tools/library.js:84-87 | a rename without a playlist id is refused before the name is checked |
| Library.CreatePlaylistDefaults | build/tools/library.js:50-58 | the profile, then the playlist under the user's id with the given name and description, private unless publica says otherwise; the reply reports the new id |
| Library.PlaylistEditsSendNormalizedIds | build/tools/library.js:59-74 | both playlist edits send the normalised ids, in input order |
| Library.SuccessReportsCount | build/tools/library.js:27-74 | the id-list actions confirm with the number of ids given |
| LegacyLibrary.GuardarCancion | src/tools/biblioteca.ts:11-16 | the ids are saved as given, even none |
| LegacyLibrary.EliminarCancion | src/tools/biblioteca.ts:25-30 | the ids are removed as given |
| LegacyLibrary.VerificarGuardadas | src/tools/biblioteca.ts:39-49 | one check that changes nothing; line i pairs the i-th id with the i-th flag; a failed check raises its error, except an unreadable answer, which raises the TypeError of reading undefined only when there is an id to read a flag for and otherwise replies the bare header |
| LegacyLibrary.CrearPlaylist | src/tools/biblioteca.ts:64-75 | the profile first, then a private playlist by default; on success the reply names the playlist and its new id, and a failed call raises its error (an unreadable reply raises the TypeError of reading `.id` on undefined) |
| LegacyLibrary.TrackUris | src/tools/biblioteca.ts:91 | every id gets the track prefix, in order |
| LegacyLibrary.AgregarAPlaylist | src/tools/biblioteca.ts:90-98 | the prefixed ids are added at the given position |
| LegacyLibrary.Wrapped | src/tools/biblioteca.ts:113-115 | each URI is wrapped in its own entry, in order |
| LegacyLibrary.EliminarDePlaylist | src/tools/biblioteca.ts:111-119 | the wrapped URIs are removed |
| LegacyLibrary.EmptySaveDiffers | src/tools/biblioteca.ts:11-16 | the old tool sends an empty save, while the consolidated tool refuses it without a request |
| LegacyLibrary.PrefixAgreesOnPlainIds | src/tools/biblioteca.ts:91 | both generations agree on plain ids, and differ on ids already qualified with "spotify:" |
| LegacyLibrary.ChecksAgree | src/tools/biblioteca.ts:39-49 | both check tools report the same flags |
| AuthTool.ClientIdPreview | src/tools/auth.ts:59 | the first eight characters, "...", and the last four characters, with short ids shown whole on each side |
| AuthTool.LongIdPreview | src/tools/auth.ts:59 | a long id shows exactly its first eight and last four characters, 15 in all |
| AuthTool.ToolRedirect | src/tools/auth.ts:57 | a truthy redirect is kept; an absent or empty one takes the default |
| AuthTool.IdentityRecord | src/tools/auth.ts:53-57 | configure overwrites the identity and clears both tokens |
| AuthTool.SaveIdentity | src/tools/auth.ts:52-58 | the file becomes the saved record of the new identity |
| AuthTool.ConfiguredText | src/tools/auth.ts:59 | the reply shows the id preview |
| AuthTool.Configurar | src/tools/auth.ts:47-60 | without a truthy id and secret it refuses and leaves the file unchanged; otherwise it saves the identity and replies with the preview |
| AuthTool.ConfigureThenLoad | build/core/configuracion.js:20-49 | with the file-first store the next load gives back the configured identity |
| AuthTool.ConfigureIgnoredByEnvOnlyStore | src/core/configuracion.ts:36-63 | with the environment-only store the next load ignores the configured identity |
| AuthTool.ConfigureLostWithEmptyEnvironment | src/tools/auth.ts:58 | the concrete case in which a configured identity fails to load under the environment-only store |
| AuthTool.AuthStatus | src/tools/auth.ts:62-78 | unconfigured iff the load fails; missing credentials iff id or secret is empty; connected iff both tokens are set and the access token is not the placeholder |
| AuthTool.StatusText | src/tools/auth.ts:62-78 | the report's texts for each status, with the preview and the session line |
| AuthTool.MissingCredentialsUnreachable | src/tools/auth.ts:68-69 | no load of either generation ever reports missing credentials |
| AuthTool.ConfigureThenDisconnected | src/tools/auth.ts:47-78 | after a configure the report says configured and not connected |
| AuthTool.Cleared | src/tools/auth.ts:141 | the identity is kept and both tokens are dropped |
| AuthTool.LogoutKeepsIdentity | src/tools/auth.ts:135-145 | after a logout the next load keeps the identity, has no tokens and reports disconnected |
| AuthTool.ForgetTokens | src/tools/auth.ts:137-144 | a load error is reported and the file is left alone; otherwise the next load is the old configuration with its tokens cleared |
| AuthTool.Cerrar | src/tools/auth.ts:135-145 | the load error, or the closed text with the tokens forgotten |
| AuthTool.IdentityGuard | src/tools/auth.ts:101-104 | it passes iff the load succeeds with an id and a secret, and otherwise gives the load error or the refusal |
| AuthTool.ClientIdGuard | src/tools/auth.ts:127 | it passes iff the load succeeds with an id |
| AuthTool.UrlGuardWeaker | src/tools/auth.ts:124-133 | every configuration the identity guard passes also passes the URL guard, and a missing secret separates them |
| AuthTool.RunReply | src/tools/auth.ts:109-121 | the reply starts with ✅ iff the child exited with code 0, and a failure ends with the error output |
| AuthTool.Ejecutar | src/tools/auth.ts:99-122 | a refused call leaves the cache alone; otherwise the reply, with the cache dropped exactly on success |
| AuthTool.LoginThenGet | src/tools/auth.ts:112-114 | after a successful login the next request builds a client from the file's tokens |
| LegacyAuth.LegacyRedirect | src/tools/autenticacion.ts:28 | the default replaces only an absent redirect |
| LegacyAuth.RedirectDefaultsAgreeExceptEmpty | src/tools/autenticacion.ts:28 | the two generations pick the same redirect iff it is not the empty string |
| LegacyAuth.CredentialsSavedText | src/tools/autenticacion.ts:45 | the reply shows the id preview and the redirect |
| LegacyAuth.ConfigurarCredenciales | src/tools/autenticacion.ts:27-53 | the identity is saved with no check first |
| LegacyAuth.ConfiguredCredentialsLostUnderEnvOnly | src/tools/autenticacion.ts:41 | the saved identity is lost to the environment-only store and kept by the file-first store |
| LegacyAuth.VerificarEstado | src/tools/autenticacion.ts:61-84 | the report for each status, accumulated in order |
| LegacyAuth.RunReplyLegacy | src/tools/autenticacion.ts:154-187 | the reply starts with ✅ iff the exit code is 0; a failure shows the error output, or the standard output when that is empty |
| LegacyAuth.EjecutarAutenticacion | src/tools/autenticacion.ts:135-187 | the identity guard, then the child's outcome |
| LegacyAuth.LegacyLoginKeepsStaleClient | src/tools/autenticacion.ts:163-174 | after a successful login the cached client-credentials client is still returned, although the file would build a user session |
| LegacyAuth.CerrarSesion | src/tools/autenticacion.ts:229-241 | the load error, or the closed text with the tokens forgotten |

## Left out

- `openApp` and `abrirSpotify` (src/tools/player.ts:130-160, src/tools/reproduccion.ts:236-289) are left out. They start an operating-system process to open the app.
- The browser launch in `iniciar`, `iniciarAutenticacion`, `urlAuth` and `obtenerUrlAuth` is left out, and so is the URL text they build with `URLSearchParams`. Only their guards are modelled, by `AuthTool.IdentityGuard` and `AuthTool.ClientIdGuard`.
- The `npm run auth` child process and the two-minute timer are parameters. The model receives only the event that ended the wait, as `AuthTool.ChildEnd`.
- The OAuth flow in src/auth.ts and the internals of the Spotify SDK are not part of this model.
- Tool registration in src/index.ts and the types in src/core/tipos.ts are not part of this model. The tests are used only as statements of intent.
- Reading and writing the JSON file are left out: the file is a parsed record, absent, or unparsable. Write errors are not modelled.
- Non-integer `valor` and `limite` values are not modelled. Floating-point formatting is not modelled either.
- The cards' contracts state their heading and the name and id they show. The rest of their prose is not stated by any contract, for example with a null `display_name`.
- The exact text of a JavaScript TypeError is a single constant (`UndefinedRead`).
- The `default` branches of `spotifyPlayer` (src/tools/player.ts:150-151) and `spotifyAuth` (src/tools/auth.ts:147-148) are not modelled: those actions are closed enumerations here. The information and library tools do model an action outside the schema, as `Unknown`, answered with "❌ Acción no válida".
- SpotifyClient.FormatDuration: negative durations are not modelled (the argument is a `nat`).
- The tool models print durations with `FormatDuration`, as written, so that their texts match the source. `FormatDurationRounded` is the corrected form of the finding, and its agreement with the as-written form is proved.
- Library: playlist contents are not tracked. Only the saved-tracks library is state.
- Player, Info, Library, LegacyPlayback, LegacyQueries, LegacyLibrary: tool models take the remote side directly. Acquiring the client handle is modelled once, by `SpotifyClient.ClientCache.Execute`/`ExecutePlayer`.
- The `isError: true` flag that src/tools/reproduccion.ts:30 and :225 attach to their refusal texts is not modelled: `Reply` has only the text (`Said`) or a raised error (`Raised`), and those refusals are `Said` with the same text. The flag sits inside the content item, not on the tool result.

## Findings

| source | as written | input that shows it | evidently intended | confidence | as-written member | corrected member |
|---|---|---|---|---|---|---|
| src/core/spotify.ts:97-101 | the seconds are rounded after taking the remainder below a minute, so they can reach 60 | 59500 ms renders "0:60" | round first, then split into minutes and seconds: "1:00" | not executed | SpotifyClient.FormatDurationShowsSixty | SpotifyClient.RoundedCarriesIntoMinutes |
| src/tools/auth.ts:58 | `configurar` saves through the environment-only store, which writes only the tokens and reads the identity from the environment | configure "abcdefgh1234" / "s3cr3t" with an empty environment; the next load fails | the configured identity is loaded back, as the file-first store does and as its own error message asks the user to configure it | not executed | AuthTool.ConfigureLostWithEmptyEnvironment | AuthTool.ConfigureThenLoad |
| src/tools/autenticacion.ts:163-174 | `ejecutarAutenticacion` never resets the cached client after a successful login | a client built in client-credentials mode before the login is still returned afterwards | drop the cache so that the next request uses the new tokens, as src/tools/auth.ts:112-114 does | not executed | LegacyAuth.LegacyLoginKeepsStaleClient | AuthTool.LoginThenGet |
