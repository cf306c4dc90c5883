/**
 * The older library tools, one registered tool per operation. They take
 * their arrays as given: no empty-array guard, no id normalisation.
 */
module LegacyLibrary {
  import opened Common
  import opened SpotifyClient
  import opened Library

  /** guardarCancion: saves whatever ids it is given, even none. */
  function GuardarCancion(ids: seq<string>, remote: Remote, saved: set<string>): (r: LibRun)
    ensures r.trace == [PutSavedTracks(ids)]
    ensures remote.fault(PutSavedTracks(ids)).None? ==>
              r.reply == Said(CountText(Save, |ids|)) && r.saved == saved + (set id | id in ids)
  {
    Single(remote, saved, PutSavedTracks(ids), CountText(Save, |ids|))
  }

  /** eliminarCancion */
  function EliminarCancion(ids: seq<string>, remote: Remote, saved: set<string>): (r: LibRun)
    ensures r.trace == [DeleteSavedTracks(ids)]
    ensures remote.fault(DeleteSavedTracks(ids)).None? ==>
              r.reply == Said(CountText(Remove, |ids|)) && r.saved == saved - (set id | id in ids)
  {
    Single(remote, saved, DeleteSavedTracks(ids), CountText(Remove, |ids|))
  }

  function StatusReport(ids: seq<string>, marks: seq<bool>): string {
    "# Estado de Canciones\n\n" + Join(CheckLines(ids, marks), "\n")
  }

  /** verificarGuardadas: pairs ids[i] with the i-th flag the remote answers.
      An unreadable answer fails only once a flag is read, so an empty id
      list still gets the bare header. */
  function VerificarGuardadas(ids: seq<string>, remote: Remote, saved: set<string>): (r: LibRun)
    ensures r.trace == [HasSavedTracks(ids)] && r.saved == saved
    ensures remote.fault(HasSavedTracks(ids)).None? ==>
              r.reply == Said(StatusReport(ids, Marks(ids, saved)))
    ensures var f := remote.fault(HasSavedTracks(ids));
            f.Some? && !IsParseArtifact(f.value) ==> r.reply == Raised(f.value)
    ensures var f := remote.fault(HasSavedTracks(ids));
            f.Some? && IsParseArtifact(f.value) ==>
              r.reply == (if |ids| == 0 then Said("# Estado de Canciones\n\n") else Raised(UndefinedRead))
  {
    var call := HasSavedTracks(ids);
    var reply :=
      match RequestOutcome(Perform(remote, saved, call).0)
      case Threw(m) => Raised(m)
      case Returned(None) =>
        // mapping an empty id list never reads the undefined result
        if |ids| == 0 then Said(StatusReport(ids, [])) else Raised(UndefinedRead)
      case Returned(Some(answer)) => Said(StatusReport(ids, answer.marks));
    LibRun(reply, [call], saved)
  }

  /** crearPlaylist: the same closure as the consolidated tool, with no
      check on the name. */
  function CrearPlaylist(nombre: string, descripcion: Option<string>, publica: Option<bool>,
                         remote: Remote, saved: set<string>): (r: LibRun)
    ensures r.saved == saved && 1 <= |r.trace| <= 2 && r.trace[0] == FetchProfile
    ensures |r.trace| == 2 ==> r.trace[1] == CreateNewPlaylist(remote.userId, nombre, descripcion, publica.GetOr(false))
    ensures var create := CreateNewPlaylist(remote.userId, nombre, descripcion, publica.GetOr(false));
            remote.fault(FetchProfile).None? && remote.fault(create).None? ==>
              r.reply == Said("✓ Playlist \"" + nombre + "\" creada\nID: " + remote.createdId)
    ensures var create := CreateNewPlaylist(remote.userId, nombre, descripcion, publica.GetOr(false));
            var failed := if remote.fault(FetchProfile).Some? then remote.fault(FetchProfile) else remote.fault(create);
            failed.Some? ==>
              r.reply == Raised(if IsParseArtifact(failed.value) then UndefinedRead else failed.value)
  {
    var (o, calls) := CreateClosure(remote, saved, nombre, descripcion, publica.GetOr(false));
    var reply :=
      match RequestOutcome(o)
      case Threw(m) => Raised(m)
      case Returned(None) => Raised(UndefinedRead)
      case Returned(Some(created)) => Said("✓ Playlist \"" + nombre + "\" creada\nID: " + created.id);
    LibRun(reply, calls, saved)
  }

  /** `cancionIds.map(id => `spotify:track:${id}`)` */
  function TrackUris(ids: seq<string>): (uris: seq<string>)
    ensures |uris| == |ids|
    ensures forall i :: 0 <= i < |ids| ==> uris[i] == "spotify:track:" + ids[i]
  {
    seq(|ids|, i requires 0 <= i < |ids| => "spotify:track:" + ids[i])
  }

  /** agregarAPlaylist */
  function AgregarAPlaylist(playlistId: string, cancionIds: seq<string>, posicion: Option<int>,
                            remote: Remote, saved: set<string>): (r: LibRun)
    ensures r.trace == [AddItems(playlistId, TrackUris(cancionIds), posicion)] && r.saved == saved
    ensures remote.fault(r.trace[0]).None? ==>
              r.reply == Said("➕ " + NatToString(|cancionIds|) + " canción(es) agregada(s) a la playlist")
  {
    Single(remote, saved, AddItems(playlistId, TrackUris(cancionIds), posicion),
           "➕ " + NatToString(|cancionIds|) + " canción(es) agregada(s) a la playlist")
  }

  /** `uris.map(uri => ({uri}))` */
  function Wrapped(uris: seq<string>): (refs: seq<UriRef>)
    ensures |refs| == |uris|
    ensures forall i :: 0 <= i < |uris| ==> refs[i].uri == uris[i]
  {
    seq(|uris|, i requires 0 <= i < |uris| => UriRef(uris[i]))
  }

  /** eliminarDePlaylist */
  function EliminarDePlaylist(playlistId: string, uris: seq<string>, remote: Remote, saved: set<string>): (r: LibRun)
    ensures r.trace == [RemoveItems(playlistId, Wrapped(uris))] && r.saved == saved
    ensures remote.fault(r.trace[0]).None? ==>
              r.reply == Said("🗑️ " + NatToString(|uris|) + " canción(es) eliminada(s) de la playlist")
  {
    Single(remote, saved, RemoveItems(playlistId, Wrapped(uris)),
           "🗑️ " + NatToString(|uris|) + " canción(es) eliminada(s) de la playlist")
  }

  /** The consolidated tool refuses an empty array before any request; the
      older tool sends it and confirms "0 canción(es)". */
  lemma {:induction false} EmptySaveDiffers(remote: Remote, saved: set<string>)
    requires remote.fault(PutSavedTracks([])).None?
    ensures GuardarCancion([], remote, saved) == LibRun(Said(CountText(Save, 0)), [PutSavedTracks([])], saved)
    ensures Execute(IdsArgs(Save, []), remote, saved) == LibRun(Said("Error: Requiere ids"), [], saved)
  {
    assert (set id: string | id in []) == {};
  }

  /** The two generations agree on plain ids and part on qualified ones:
      the older tool prefixes "spotify:track:" even to an id that already
      is a URI, where the consolidated one keeps it. */
  lemma {:induction false} PrefixAgreesOnPlainIds(id: string)
    ensures !StartsWith(id, "spotify:") ==> TrackUris([id])[0] == Normalize(id)
    ensures StartsWith(id, "spotify:") ==> TrackUris([id])[0] != Normalize(id)
  {
    if StartsWith(id, "spotify:") {
      assert |TrackUris([id])[0]| == |"spotify:track:"| + |id| > |id|;
    }
  }

  /** Both check tools report the same flags, under different headers. */
  lemma {:induction false} ChecksAgree(ids: seq<string>, remote: Remote, saved: set<string>)
    requires |ids| > 0 && remote.fault(HasSavedTracks(ids)).None?
    ensures VerificarGuardadas(ids, remote, saved).reply == Said(StatusReport(ids, Marks(ids, saved)))
    ensures Execute(IdsArgs(Check, ids), remote, saved).reply == Said(CheckReport(ids, Marks(ids, saved)))
  {
  }
}
