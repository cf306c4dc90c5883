/**
 * The consolidated library tool (`spotifyLibrary`): saved tracks ("Me
 * gusta") and playlist management. The remote library of saved tracks is a
 * set handed in and handed back, so that a sequence of calls can be followed.
 */
module Library {
  import opened Common
  import opened SpotifyClient

  datatype LibAction =
    | Save | Remove | Check | CreatePlaylist | AddToPlaylist | RemoveFromPlaylist
    | DeletePlaylist | RenamePlaylist
    | Unknown  // any action name outside the schema's enumeration

  datatype LibArgs = LibArgs(action: LibAction, ids: Option<seq<string>>, playlistId: Option<string>,
                             nombre: Option<string>, descripcion: Option<string>,
                             publica: Option<bool>, posicion: Option<int>)

  /** `{uri}`, the shape of one entry in a playlist removal. */
  datatype UriRef = UriRef(uri: string)

  /** The remote requests, with their parameters. */
  datatype LibCall =
    | PutSavedTracks(ids: seq<string>)
    | DeleteSavedTracks(ids: seq<string>)
    | HasSavedTracks(ids: seq<string>)
    | FetchProfile
    | CreateNewPlaylist(userId: string, name: string, description: Option<string>, isPublic: bool)
    | AddItems(playlistId: string, uris: seq<string>, position: Option<int>)
    | RemoveItems(playlistId: string, tracks: seq<UriRef>)
    | UnfollowPlaylist(playlistId: string)
    | ChangeDetails(playlistId: string, name: string, description: Option<string>)

  /** The remote side: which calls fail and with what message, the current
      user's id, and the id a newly created playlist receives. */
  datatype Remote = Remote(fault: LibCall -> Option<string>, userId: string, createdId: string)

  /** What a call answers: the saved flags of a check, or an id. */
  datatype Answer = Answer(marks: seq<bool>, id: string)

  /** `ids.map(id => saved.has(id))`, as the remote answers a check. */
  function Marks(ids: seq<string>, saved: set<string>): (m: seq<bool>)
    ensures |m| == |ids|
    ensures forall i :: 0 <= i < |ids| ==> (m[i] <==> ids[i] in saved)
  {
    seq(|ids|, i requires 0 <= i < |ids| => ids[i] in saved)
  }

  /** The library after a call the server accepted. */
  function Effect(saved: set<string>, call: LibCall): (after: set<string>)
    ensures call.PutSavedTracks? ==> after == saved + (set id | id in call.ids)
    ensures call.DeleteSavedTracks? ==> after == saved - (set id | id in call.ids)
    ensures !call.PutSavedTracks? && !call.DeleteSavedTracks? ==> after == saved
  {
    match call
    case PutSavedTracks(ids) => saved + (set id | id in ids)
    case DeleteSavedTracks(ids) => saved - (set id | id in ids)
    case _ => saved
  }

  function Response(remote: Remote, saved: set<string>, call: LibCall): Answer {
    match call
    case HasSavedTracks(ids) => Answer(Marks(ids, saved), "")
    case FetchProfile => Answer([], remote.userId)
    case CreateNewPlaylist(_, _, _, _) => Answer([], remote.createdId)
    case _ => Answer([], "")
  }

  /** One remote call. A parse artifact is an error raised while reading the
      (empty) reply of a request the server did carry out, so its effect
      stays; any other failure leaves the library as it was. */
  function Perform(remote: Remote, saved: set<string>, call: LibCall): (r: (Outcome<Answer>, set<string>))
    ensures remote.fault(call).None? ==> r == (Ok(Response(remote, saved, call)), Effect(saved, call))
    ensures remote.fault(call).Some? ==> r.0 == Err(remote.fault(call).value)
    ensures remote.fault(call).Some? && !IsParseArtifact(remote.fault(call).value) ==> r.1 == saved
  {
    match remote.fault(call)
    case None => (Ok(Response(remote, saved, call)), Effect(saved, call))
    case Some(m) => (Err(m), if IsParseArtifact(m) then Effect(saved, call) else saved)
  }

  /** `id.startsWith('spotify:') ? id : `spotify:track:${id}`` */
  function Normalize(id: string): (u: string)
    ensures StartsWith(id, "spotify:") ==> u == id
    ensures !StartsWith(id, "spotify:") ==> u == "spotify:track:" + id
    ensures StartsWith(u, "spotify:")
  {
    if StartsWith(id, "spotify:") then id
    else
      assert ("spotify:track:" + id)[..8] == "spotify:";
      "spotify:track:" + id
  }

  /** `ids.map(Normalize)` */
  function Normalized(ids: seq<string>): (us: seq<string>)
    ensures |us| == |ids|
    ensures forall i :: 0 <= i < |ids| ==> us[i] == Normalize(ids[i])
  {
    seq(|ids|, i requires 0 <= i < |ids| => Normalize(ids[i]))
  }

  /** Normalising twice is normalising once. */
  lemma {:induction false} NormalizedIdempotent(ids: seq<string>)
    ensures Normalized(Normalized(ids)) == Normalized(ids)
  {
    var once := Normalized(ids);
    forall i | 0 <= i < |ids|
      ensures Normalized(once)[i] == once[i]
    {
      assert StartsWith(once[i], "spotify:");
    }
  }

  /** `!ids?.length` */
  predicate NoIds(ids: Option<seq<string>>) {
    ids.None? || |ids.value| == 0
  }

  /** The calls answered with an error and no request. */
  predicate Rejected(a: LibArgs)
    ensures a.action == Unknown ==> Rejected(a)
    ensures !Rejected(a) && a.action in {Save, Remove, Check, AddToPlaylist, RemoveFromPlaylist} ==>
      a.ids.Some? && |a.ids.value| > 0
    ensures !Rejected(a) && a.action in {AddToPlaylist, RemoveFromPlaylist, DeletePlaylist, RenamePlaylist} ==>
      a.playlistId.Some? && a.playlistId.value != ""
    ensures !Rejected(a) && a.action in {CreatePlaylist, RenamePlaylist} ==> a.nombre.Some? && a.nombre.value != ""
  {
    match a.action
    case Save => NoIds(a.ids)
    case Remove => NoIds(a.ids)
    case Check => NoIds(a.ids)
    case CreatePlaylist => !Truthy(a.nombre)
    case AddToPlaylist => !Truthy(a.playlistId) || NoIds(a.ids)
    case RemoveFromPlaylist => !Truthy(a.playlistId) || NoIds(a.ids)
    case DeletePlaylist => !Truthy(a.playlistId)
    case RenamePlaylist => !Truthy(a.playlistId) || !Truthy(a.nombre)
    case Unknown => true
  }

  function RejectionText(a: LibArgs): (s: string)
    requires Rejected(a)
    ensures a.action != Unknown ==> StartsWith(s, "Error: Requiere ")
    ensures a.action == Unknown ==> s == "❌ Acción no válida"
  {
    match a.action
    case Save => "Error: Requiere ids"
    case Remove => "Error: Requiere ids"
    case Check => "Error: Requiere ids"
    case CreatePlaylist => "Error: Requiere nombre"
    case AddToPlaylist => "Error: Requiere playlistId e ids"
    case RemoveFromPlaylist => "Error: Requiere playlistId e ids (URIs)"
    case DeletePlaylist => "Error: Requiere playlistId"
    case RenamePlaylist =>
      if !Truthy(a.playlistId) then "Error: Requiere playlistId" else "Error: Requiere nombre"
    case Unknown => "❌ Acción no válida"
  }

  /** The message of the TypeError raised when an `undefined` result is read. */
  const UndefinedRead := "TypeError: Cannot read properties of undefined"

  function Mark(saved: bool): string {
    if saved then "✓ Guardada" else "✗ No guardada"
  }

  /** `ids.map((id, i) => `${id}: ${resultados[i] ? ... : ...}`)`: one line
      per id, in input order; a missing flag reads as not saved. */
  function CheckLines(ids: seq<string>, marks: seq<bool>): (lines: seq<string>)
    ensures |lines| == |ids|
    ensures forall i :: 0 <= i < |ids| ==>
              lines[i] == ids[i] + ": " + Mark(i < |marks| && marks[i])
  {
    seq(|ids|, i requires 0 <= i < |ids| => ids[i] + ": " + Mark(i < |marks| && marks[i]))
  }

  function CheckReport(ids: seq<string>, marks: seq<bool>): string {
    "# Estado\n\n" + Join(CheckLines(ids, marks), "\n")
  }

  /** The confirmation of the id-list actions, which report `ids.length`. */
  function CountText(act: LibAction, n: nat): string {
    match act
    case Save => "💚 " + NatToString(n) + " canción(es) guardada(s)"
    case Remove => "🗑️ " + NatToString(n) + " canción(es) eliminada(s)"
    case AddToPlaylist => "➕ " + NatToString(n) + " canción(es) agregada(s)"
    case _ => "🗑️ " + NatToString(n) + " canción(es) eliminada(s) de playlist"
  }

  datatype LibRun = LibRun(reply: Reply, trace: seq<LibCall>, saved: set<string>)

  /** A single request through `ejecutarPeticion` whose value the tool does
      not read: the error is re-thrown unless it is a parse artifact. */
  function Single(remote: Remote, saved: set<string>, call: LibCall, text: string): (r: LibRun)
    ensures r.trace == [call]
    ensures remote.fault(call).None? ==> r.reply == Said(text)
    ensures r.reply.Said? <==> RequestOutcome(Perform(remote, saved, call).0).Returned?
    ensures r.saved == Perform(remote, saved, call).1
  {
    var (o, after) := Perform(remote, saved, call);
    match RequestOutcome(o)
    case Threw(m) => LibRun(Raised(m), [call], after)
    case Returned(_) => LibRun(Said(text), [call], after)
  }

  /** createPlaylist's closure: the profile, then the creation under the
      user's id; a failure of the first call skips the second. */
  function CreateClosure(remote: Remote, saved: set<string>, name: string,
                         description: Option<string>, isPublic: bool): (r: (Outcome<Answer>, seq<LibCall>))
    ensures 1 <= |r.1| <= 2 && r.1[0] == FetchProfile
    ensures |r.1| == 2 <==> remote.fault(FetchProfile).None?
    ensures |r.1| == 2 ==> r.1[1] == CreateNewPlaylist(remote.userId, name, description, isPublic)
  {
    var (profile, _) := Perform(remote, saved, FetchProfile);
    match profile
    case Err(m) => (Err(m), [FetchProfile])
    case Ok(p) =>
      var call := CreateNewPlaylist(p.id, name, description, isPublic);
      (Perform(remote, saved, call).0, [FetchProfile, call])
  }

  /** spotifyLibrary.ejecutar */
  function Execute(a: LibArgs, remote: Remote, saved: set<string>): (r: LibRun)
    ensures r.trace == [] <==> Rejected(a)
    ensures Rejected(a) ==> r.reply == Said(RejectionText(a)) && r.saved == saved
    ensures r.saved != saved ==> a.action in {Save, Remove}
  {
    if Rejected(a) then LibRun(Said(RejectionText(a)), [], saved)
    else
      match a.action
      case Save =>
        Single(remote, saved, PutSavedTracks(a.ids.value), CountText(Save, |a.ids.value|))
      case Remove =>
        Single(remote, saved, DeleteSavedTracks(a.ids.value), CountText(Remove, |a.ids.value|))
      case Check =>
        var call := HasSavedTracks(a.ids.value);
        var reply :=
          match RequestOutcome(Perform(remote, saved, call).0)
          case Threw(m) => Raised(m)
          case Returned(None) => Raised(UndefinedRead)
          case Returned(Some(answer)) => Said(CheckReport(a.ids.value, answer.marks));
        LibRun(reply, [call], saved)
      case CreatePlaylist =>
        var name := a.nombre.value;
        var (o, calls) := CreateClosure(remote, saved, name, a.descripcion, a.publica.GetOr(false));
        var reply :=
          match RequestOutcome(o)
          case Threw(m) => Raised(m)
          case Returned(None) => Raised(UndefinedRead)
          case Returned(Some(created)) => Said("✓ Playlist \"" + name + "\" creada\nID: " + created.id);
        LibRun(reply, calls, saved)
      case AddToPlaylist =>
        Single(remote, saved, AddItems(a.playlistId.value, Normalized(a.ids.value), a.posicion),
               CountText(AddToPlaylist, |a.ids.value|))
      case RemoveFromPlaylist =>
        var uris := Normalized(a.ids.value);
        Single(remote, saved,
               RemoveItems(a.playlistId.value, seq(|uris|, i requires 0 <= i < |uris| => UriRef(uris[i]))),
               CountText(RemoveFromPlaylist, |a.ids.value|))
      case DeletePlaylist =>
        Single(remote, saved, UnfollowPlaylist(a.playlistId.value), "🗑️ Playlist eliminada")
      case RenamePlaylist =>
        Single(remote, saved, ChangeDetails(a.playlistId.value, a.nombre.value, a.descripcion),
               "✏️ Playlist renombrada a \"" + a.nombre.value + "\"")
  }

  /** A remote on which no call fails. */
  ghost predicate Reliable(remote: Remote) {
    forall c :: remote.fault(c).None?
  }

  /** The arguments of an id-list action and nothing else. */
  function IdsArgs(act: LibAction, ids: seq<string>): LibArgs {
    LibArgs(act, Some(ids), None, None, None, None, None)
  }

  /** An accepted check whose request succeeds reports one line per id,
      marked "✓ Guardada" exactly when that id is in the library. */
  lemma {:induction false} CheckReportsLibrary(a: LibArgs, remote: Remote, saved: set<string>)
    requires a.action == Check && !Rejected(a) && remote.fault(HasSavedTracks(a.ids.value)).None?
    ensures var ids := a.ids.value;
            var lines := CheckLines(ids, Marks(ids, saved));
            && Execute(a, remote, saved) == LibRun(Said(CheckReport(ids, Marks(ids, saved))), [HasSavedTracks(ids)], saved)
            && |lines| == |ids|
            && forall i :: 0 <= i < |ids| ==> (lines[i] == ids[i] + ": " + Mark(true) <==> ids[i] in saved)
  {
    var ids := a.ids.value;
    var lines := CheckLines(ids, Marks(ids, saved));
    forall i | 0 <= i < |ids|
      ensures lines[i] == ids[i] + ": " + Mark(true) <==> ids[i] in saved
    {
      if ids[i] !in saved {
        assert |lines[i]| != |ids[i] + ": " + Mark(true)|;
      }
    }
  }

  /** Save, check, remove, check: the first check marks every id saved, the
      second marks every id not saved. */
  lemma {:induction false} SaveCheckRemoveCheck(remote: Remote, before: set<string>, ids: seq<string>)
    requires Reliable(remote) && |ids| > 0
    ensures var afterSave := Execute(IdsArgs(Save, ids), remote, before).saved;
            var afterRemove := Execute(IdsArgs(Remove, ids), remote, afterSave).saved;
            && Execute(IdsArgs(Check, ids), remote, afterSave).reply
                 == Said(CheckReport(ids, seq(|ids|, i => true)))
            && Execute(IdsArgs(Check, ids), remote, afterRemove).reply
                 == Said(CheckReport(ids, seq(|ids|, i => false)))
  {
    var afterSave := Execute(IdsArgs(Save, ids), remote, before).saved;
    assert remote.fault(PutSavedTracks(ids)).None?;
    assert afterSave == before + (set id | id in ids);
    var afterRemove := Execute(IdsArgs(Remove, ids), remote, afterSave).saved;
    assert remote.fault(DeleteSavedTracks(ids)).None?;
    assert afterRemove == afterSave - (set id | id in ids);
    assert remote.fault(HasSavedTracks(ids)).None?;
    assert Marks(ids, afterSave) == seq(|ids|, i => true);
    assert Marks(ids, afterRemove) == seq(|ids|, i => false);
  }

  /** renamePlaylist checks the playlist id before the name. */
  lemma RenameChecksPlaylistFirst(a: LibArgs, remote: Remote, saved: set<string>)
    requires a.action == RenamePlaylist && !Truthy(a.playlistId)
    ensures Execute(a, remote, saved) == LibRun(Said("Error: Requiere playlistId"), [], saved)
  {
  }

  /** A created playlist is private unless `publica` says otherwise, is
      created under the current user's id, and its id is reported. */
  lemma CreatePlaylistDefaults(a: LibArgs, remote: Remote, saved: set<string>)
    requires a.action == CreatePlaylist && Truthy(a.nombre) && Reliable(remote)
    ensures var r := Execute(a, remote, saved);
            && r.trace == [FetchProfile, CreateNewPlaylist(remote.userId, a.nombre.value, a.descripcion,
                                                           a.publica.GetOr(false))]
            && (a.publica.None? ==> !r.trace[1].isPublic)
            && r.reply == Said("✓ Playlist \"" + a.nombre.value + "\" creada\nID: " + remote.createdId)
  {
    assert remote.fault(FetchProfile).None?;
    assert remote.fault(CreateNewPlaylist(remote.userId, a.nombre.value, a.descripcion,
                                          a.publica.GetOr(false))).None?;
  }

  /** Both playlist edits send the normalised ids, in input order; the
      removal wraps each as `{uri}`. */
  lemma PlaylistEditsSendNormalizedIds(a: LibArgs, remote: Remote, saved: set<string>)
    requires a.action in {AddToPlaylist, RemoveFromPlaylist} && !Rejected(a)
    ensures var call := Execute(a, remote, saved).trace[0];
            && (a.action == AddToPlaylist ==> call == AddItems(a.playlistId.value, Normalized(a.ids.value), a.posicion))
            && (a.action == RemoveFromPlaylist ==>
                  && call.RemoveItems? && |call.tracks| == |a.ids.value|
                  && forall i :: 0 <= i < |a.ids.value| ==> call.tracks[i] == UriRef(Normalize(a.ids.value[i])))
  {
  }

  /** The id-list actions confirm with the number of ids given. */
  lemma SuccessReportsCount(a: LibArgs, remote: Remote, saved: set<string>)
    requires a.action in {Save, Remove, AddToPlaylist, RemoveFromPlaylist} && !Rejected(a) && Reliable(remote)
    ensures Execute(a, remote, saved).reply == Said(CountText(a.action, |a.ids.value|))
  {
    assert remote.fault(Execute(a, remote, saved).trace[0]).None?;
  }
}
