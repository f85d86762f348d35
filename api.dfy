/**
 * The older Api client: its call-failure policy, the library and playlist
 * listings, change_playlist's backup-and-revert control flow, and the upload
 * path that converts non-MP3 files and retries upload sessions. Server
 * replies, ffmpeg runs and temporary file names are parameters.
 */
module Api {
  import opened Py
  import opened Text
  import Clients
  import MmProtocol

  // ------------------------------------------------------------------
  // _wc_call

  /**
   * _wc_call's policy: an unsuccessful reply raises CallFailure (naming the
   * calling function) unless failures are suppressed; otherwise the reply
   * comes back. The schema check's outcome is only logged.
   */
  function WcCall(caller: string, res: Value, succeeded: bool, suppressFailure: bool, validation: Result<()>): (r: Result<Value>)
    ensures r.Ok? <==> succeeded || suppressFailure
    ensures r.Ok? ==> r.value == res
    ensures r.Err? ==> r.error == CallFailure(caller)
  {
    if !succeeded && !suppressFailure then Err(CallFailure(caller))
    else
      // a schema mismatch (validation.Err?) is logged and ignored
      Ok(res)
  }

  /** A reply that fails its schema is returned all the same: the outcome never depends on validation. */
  lemma WcCallIgnoresSchema(caller: string, res: Value, succeeded: bool, suppressFailure: bool, v1: Result<()>, v2: Result<()>)
    ensures WcCall(caller, res, succeeded, suppressFailure, v1) == WcCall(caller, res, succeeded, suppressFailure, v2)
    ensures succeeded ==> WcCall(caller, res, succeeded, suppressFailure, Err(ValueError("schema"))) == Ok(res)
  {
  }

  // ------------------------------------------------------------------
  // get_all_songs

  /**
   * get_all_songs: each chunk's playlist is added while the chunk carries a
   * token, then the final chunk's; the same songs, in the same order, as the
   * clients' chunk loop.
   */
  method GetAllSongs(replies: seq<Clients.Chunk<Value>>) returns (library: seq<Value>)
    requires Clients.Ends(replies)
    ensures library == Clients.Flatten(replies[..Clients.ChunksRead(replies)], x => x)
  {
    var n := Clients.ChunksRead(replies);
    library := [];
    var i := 0;
    var libChunk := replies[0];
    while libChunk.token.Some?
      invariant 0 <= i < n
      invariant libChunk == replies[i]
      invariant library == Clients.Flatten(replies[..i], x => x)
      decreases n - i
    {
      FlattenSongsSnoc(replies[..i], libChunk);
      assert replies[..i + 1] == replies[..i] + [libChunk];
      library := library + libChunk.songs;
      i := i + 1;
      libChunk := replies[i];
    }
    FlattenSongsSnoc(replies[..i], libChunk);
    assert replies[..i + 1] == replies[..i] + [libChunk];
    library := library + libChunk.songs;
  }

  /** Flattening without conversion appends a chunk's songs as they are. */
  lemma FlattenSongsSnoc(chunks: seq<Clients.Chunk<Value>>, c: Clients.Chunk<Value>)
    ensures Clients.Flatten(chunks + [c], x => x) == Clients.Flatten(chunks, x => x) + c.songs
  {
    Clients.FlattenSnoc(chunks, c, x => x);
    var songs := seq(|c.songs|, i requires 0 <= i < |c.songs| => (x => x)(c.songs[i]));
    assert songs == c.songs;
  }

  // ------------------------------------------------------------------
  // get_all_playlist_ids

  /** The hard-coded auto playlists, by name. */
  const AutoPlaylists: map<Value, Value> := map[
    Str("Thumbs up") := Str("auto-playlist-thumbs-up"),
    Str("Last added") := Str("auto-playlist-recent"),
    Str("Free and purchased") := Str("auto-playlist-promo")]

  /** `if len(id_list) == 1: p_dict[name] = id_list[0]` for one value. */
  function Collapsed(v: Value): Value
  {
    match v
    case Arr(items) => if |items| == 1 then items[0] else v
    // a one-character string's first character is the same string
    case _ => v
  }

  /** The id list a collapsed value stands for. */
  function Expanded(v: Value): seq<Value>
  {
    if v.Arr? then v.items else [v]
  }

  /** Collapsing loses nothing when ids are strings: a non-empty id list is recovered from its collapsed form. */
  lemma CollapsedRoundTrip(ids: seq<Value>)
    requires |ids| >= 1 && forall i :: 0 <= i < |ids| ==> ids[i].Str?
    ensures Expanded(Collapsed(Arr(ids))) == ids
    ensures |ids| == 1 <==> Collapsed(Arr(ids)) == ids[0]
  {
  }

  /** The singleton-breaking loop over one sub-dictionary, in its own iteration order. */
  method CollapseSingletons(d: map<Value, Value>) returns (e: map<Value, Value>)
    ensures e.Keys == d.Keys
    ensures forall name :: name in d ==> e[name] == Collapsed(d[name])
  {
    e := d;
    var todo := d.Keys;
    while todo != {}
      invariant todo <= d.Keys && e.Keys == d.Keys
      invariant forall name :: name in d ==> e[name] == (if name in todo then d[name] else Collapsed(d[name]))
      decreases todo
    {
      var name :| name in todo;
      e := e[name := Collapsed(e[name])];
      todo := todo - {name};
    }
  }

  /** The auto playlists keep their ids whatever always_id_lists says. */
  lemma AutoPlaylistsUncollapsed()
    ensures forall name :: name in AutoPlaylists ==> Collapsed(AutoPlaylists[name]) == AutoPlaylists[name]
  {
  }

  /** A grouping as a dictionary of id lists. */
  function AsLists(grouped: map<Value, seq<Value>>): (d: map<Value, Value>)
    ensures d.Keys == grouped.Keys
  {
    map name | name in grouped :: Arr(grouped[name])
  }

  /**
   * get_all_playlist_ids(auto, user, always_id_lists): the loadplaylist call
   * is made whatever is asked for, and its failure propagates; then 'auto'
   * and 'user' each present exactly when asked for; with always_id_lists
   * every title maps to its id list, otherwise a title with one id maps to
   * that id.
   */
  method GetAllPlaylistIds(auto: bool, user: bool, alwaysIdLists: bool, reply: Result<map<string, Value>>) returns (r: Result<map<string, map<Value, Value>>>)
    ensures reply.Err? ==> r == Err(reply.error)
    ensures r.Ok? ==> ("auto" in r.value <==> auto) && ("user" in r.value <==> user)
    ensures r.Ok? && auto ==> r.value["auto"] == AutoPlaylists
    ensures reply.Ok? && user && "playlists" !in reply.value ==> r == Err(KeyError("playlists"))
    ensures reply.Ok? && user && "playlists" in reply.value ==>
      var items := Clients.PlaylistItems(reply.value["playlists"]);
      && (items.Err? ==> r == Err(items.error))
      && (items.Ok? ==> var g := Clients.Grouped(items.value);
        && (r.Ok? <==> g.Ok?)
        && (r.Ok? ==> r.value["user"].Keys == g.value.Keys)
        && (r.Ok? && alwaysIdLists ==> r.value["user"] == AsLists(g.value))
        && (r.Ok? && !alwaysIdLists ==> forall name :: name in g.value ==> r.value["user"][name] == Collapsed(Arr(g.value[name]))))
    ensures !user ==> (r.Ok? <==> reply.Ok?)
  {
    if reply.Err? {
      return Err(reply.error);
    }
    var res := reply.value;
    var playlists: map<string, map<Value, Value>> := map[];
    if auto {
      playlists := playlists["auto" := AutoPlaylists];
    }
    if user {
      if "playlists" !in res {
        return Err(KeyError("playlists"));
      }
      var items := Clients.PlaylistItems(res["playlists"]);
      if items.Err? {
        return Err(items.error);
      }
      var grouped := Clients.PlaylistListToDict(items.value);
      if grouped.Err? {
        return Err(grouped.error);
      }
      playlists := playlists["user" := AsLists(grouped.value)];
    }
    if !alwaysIdLists {
      if auto {
        var a := CollapseSingletons(playlists["auto"]);
        AutoPlaylistsUncollapsed();
        playlists := playlists["auto" := a];
      }
      if user {
        var u := CollapseSingletons(playlists["user"]);
        playlists := playlists["user" := u];
      }
    }
    return Ok(playlists);
  }

  // ------------------------------------------------------------------
  // change_playlist

  /** What one server call inside change_playlist did. */
  datatype CallReply = Succeeded | Failed(caller: string) | Raised(error: Error)

  /** A run of calls through _wc_call: the first failure that raises ends it. */
  function CallsOutcome(calls: seq<CallReply>, suppressFailure: bool): Result<()>
  {
    if |calls| == 0 then Ok(())
    else
      var _ :- CallsOutcome(calls[..|calls| - 1], suppressFailure);
      match calls[|calls| - 1]
      case Succeeded => Ok(())
      case Failed(caller) => if suppressFailure then Ok(()) else Err(CallFailure(caller))
      case Raised(e) => Err(e)
  }

  /** With failures suppressed, only an exception raised outside _wc_call stops a run of calls. */
  lemma {:induction false} SuppressedNeverFails(calls: seq<CallReply>)
    ensures CallsOutcome(calls, true).Ok? <==> forall i :: 0 <= i < |calls| ==> !calls[i].Raised?
  {
    if |calls| > 0 {
      var init := calls[..|calls| - 1];
      SuppressedNeverFails(init);
      assert forall i :: 0 <= i < |init| ==> init[i] == calls[i];
    }
  }

  /** Unsuppressed, a run of calls fails exactly when some call did not succeed. */
  lemma {:induction false} UnsuppressedFails(calls: seq<CallReply>)
    ensures CallsOutcome(calls, false).Ok? <==> forall i :: 0 <= i < |calls| ==> calls[i].Succeeded?
  {
    if |calls| > 0 {
      var init := calls[..|calls| - 1];
      UnsuppressedFails(init);
      assert forall i :: 0 <= i < |init| ==> init[i] == calls[i];
    }
  }

  lemma {:induction false} CallsPrefixErr(calls: seq<CallReply>, i: nat, suppressFailure: bool)
    requires i <= |calls| && CallsOutcome(calls[..i], suppressFailure).Err?
    ensures CallsOutcome(calls, suppressFailure) == CallsOutcome(calls[..i], suppressFailure)
    decreases |calls| - i
  {
    if i < |calls| {
      assert calls[..i + 1][..i] == calls[..i];
      CallsPrefixErr(calls, i + 1, suppressFailure);
    } else {
      assert calls[..i] == calls;
    }
  }

  /** Where change_playlist ends: the id of the backup when the changes failed and were reverted, else the playlist's own. */
  function ChangedPlaylistId(playlistId: string, backupId: string, safe: bool, body: Result<()>, revert: Result<()>): (id: string)
    ensures id == playlistId || id == backupId
    ensures id != playlistId ==> safe && body.Err? && body.error.CallFailure? && revert.Ok?
  {
    if safe && body.Err? && body.error.CallFailure? && revert.Ok? then backupId else playlistId
  }

  class Api {
    var suppressFailure: bool

    /** Api(suppress_failure=False). */
    constructor (suppressFailure: bool := false)
      ensures this.suppressFailure == suppressFailure
    {
      this.suppressFailure := suppressFailure;
    }

    /** Calls made through _wc_call under the current suppression setting. */
    method RunCalls(calls: seq<CallReply>) returns (r: Result<()>)
      ensures r == CallsOutcome(calls, suppressFailure)
    {
      for i := 0 to |calls|
        invariant CallsOutcome(calls[..i], suppressFailure) == Ok(())
      {
        assert calls[..i + 1][..i] == calls[..i];
        match calls[i]
        case Succeeded =>
        case Failed(caller) =>
          if !suppressFailure {
            CallsPrefixErr(calls, i + 1, suppressFailure);
            return Err(CallFailure(caller));
          }
        case Raised(e) =>
          CallsPrefixErr(calls, i + 1, suppressFailure);
          return Err(e);
      }
      assert calls[..|calls|] == calls;
      return Ok(());
    }

    /**
     * change_playlist: the steps before the `with` block (reading the
     * playlist and, when safe, making the backup) can raise; after that the
     * `finally: return` swallows every exception, so the playlist's id comes
     * back, or the backup's once a failed change was reverted. Failures are
     * unsuppressed inside the block and the setting is restored afterwards.
     */
    method ChangePlaylist(playlistId: string, prelude: Result<string>, safe: bool, body: seq<CallReply>, revert: seq<CallReply>)
      returns (r: Result<string>)
      modifies this
      ensures suppressFailure == old(suppressFailure)
      ensures prelude.Err? ==> r == Err(prelude.error)
      ensures prelude.Ok? ==> r == Ok(ChangedPlaylistId(playlistId, prelude.value, safe, CallsOutcome(body, false), CallsOutcome(revert, false)))
    {
      if prelude.Err? {
        return Err(prelude.error);
      }
      var backupId := prelude.value;
      var orig := suppressFailure;
      suppressFailure := false;
      var result := playlistId;
      var changed := RunCalls(body);
      if changed.Err? && changed.error.CallFailure? && safe {
        var reverted := RunCalls(revert);
        if reverted.Ok? {
          result := backupId;
        }
      }
      suppressFailure := orig;
      return Ok(result);
    }
  }

  /** A change that fails with safe=False still returns the playlist's id instead of raising. */
  lemma UnsafeFailureSwallowed(playlistId: string, backupId: string, body: Result<()>, revert: Result<()>)
    ensures ChangedPlaylistId(playlistId, backupId, false, body, revert) == playlistId
  {
  }

  // ------------------------------------------------------------------
  // _temp_mp3_conversion

  const SupportedUploadFiletypes: seq<string> := ["mp3", "m4a", "ogg", "flac", "wma"]

  /** A filename's extension: its last '.'-separated piece, lower-cased. */
  function Extension(fn: string): string
  {
    Lower(LastPiece(fn, '.'))
  }

  /** A name whose last dot precedes the extension has that extension, lower-cased. */
  lemma ExtensionOf(stem: string, ext: string)
    requires '.' !in ext
    ensures Extension(stem + "." + ext) == Lower(ext)
  {
    assert stem + "." + ext == stem + ['.'] + ext;
    LastPieceAfter(stem, '.', ext);
  }

  /** What the conversion does with a file. */
  datatype Handling = PassThrough | Convert | Skip

  function HandlingOf(fn: string): (h: Handling)
    ensures h == PassThrough <==> Extension(fn) == "mp3"
    ensures h == Convert <==> Extension(fn) in SupportedUploadFiletypes && Extension(fn) != "mp3"
    ensures h == Skip <==> Extension(fn) !in SupportedUploadFiletypes
  {
    var ext := Extension(fn);
    if ext == "mp3" then PassThrough else if ext in SupportedUploadFiletypes then Convert else Skip
  }

  /** The files to upload, their original names, and every temporary file made (all deleted afterwards). */
  datatype Conversion = Conversion(handles: seq<string>, tempToOrig: map<string, string>, temps: seq<string>)

  /**
   * The conversion loop: an MP3 passes under its own name; a supported
   * non-MP3 gets the next temporary file, and is kept only when ffmpeg
   * succeeded; anything else is skipped.
   */
  function Converted(filenames: seq<string>, ffmpegOk: string -> bool, tempName: nat -> string): Conversion
  {
    if |filenames| == 0 then Conversion([], map[], [])
    else
      var c := Converted(filenames[..|filenames| - 1], ffmpegOk, tempName);
      var fn := filenames[|filenames| - 1];
      match HandlingOf(fn)
      case PassThrough => c.(handles := c.handles + [fn], tempToOrig := c.tempToOrig[fn := fn])
      case Convert =>
        var t := tempName(|c.temps|);
        var c' := c.(temps := c.temps + [t]);
        if ffmpegOk(fn) then c'.(handles := c'.handles + [t], tempToOrig := c'.tempToOrig[t := fn]) else c'
      case Skip => c
  }

  /** Every file handed on has an original name. */
  lemma {:induction false} ConvertedHandlesMapped(filenames: seq<string>, ffmpegOk: string -> bool, tempName: nat -> string)
    ensures forall h :: h in Converted(filenames, ffmpegOk, tempName).handles ==> h in Converted(filenames, ffmpegOk, tempName).tempToOrig
  {
    if |filenames| > 0 {
      ConvertedHandlesMapped(filenames[..|filenames| - 1], ffmpegOk, tempName);
    }
  }

  /** Every original name in the map is one of the inputs, and not of a skipped type. */
  predicate OriginalsFrom(tempToOrig: map<string, string>, filenames: seq<string>)
  {
    forall t :: t in tempToOrig ==> tempToOrig[t] in filenames && HandlingOf(tempToOrig[t]) != Skip
  }

  /** Every original name is one of the inputs, and not of a skipped type. */
  lemma {:induction false} ConvertedOriginals(filenames: seq<string>, ffmpegOk: string -> bool, tempName: nat -> string)
    ensures OriginalsFrom(Converted(filenames, ffmpegOk, tempName).tempToOrig, filenames)
  {
    if |filenames| > 0 {
      var init := filenames[..|filenames| - 1];
      var fn := filenames[|filenames| - 1];
      ConvertedOriginals(init, ffmpegOk, tempName);
      var before := Converted(init, ffmpegOk, tempName).tempToOrig;
      var after := Converted(filenames, ffmpegOk, tempName).tempToOrig;
      assert forall f :: f in init ==> f in filenames;
      assert fn in filenames;
      forall t | t in after ensures after[t] in filenames && HandlingOf(after[t]) != Skip {
        if t in before && before[t] == after[t] {
          assert before[t] in init;
        } else {
          assert after[t] == fn && HandlingOf(fn) != Skip;
        }
      }
    }
  }

  /** Every MP3 input is handed on under its own name. */
  lemma {:induction false} ConvertedKeepsMp3s(filenames: seq<string>, ffmpegOk: string -> bool, tempName: nat -> string)
    ensures forall i :: 0 <= i < |filenames| && HandlingOf(filenames[i]) == PassThrough ==> filenames[i] in Converted(filenames, ffmpegOk, tempName).handles
  {
    if |filenames| > 0 {
      var init := filenames[..|filenames| - 1];
      ConvertedKeepsMp3s(init, ffmpegOk, tempName);
      assert forall i :: 0 <= i < |init| ==> init[i] == filenames[i];
    }
  }

  /** The temporary files are named in order, so distinct names mean none is left undeleted. */
  lemma {:induction false} ConvertedTemps(filenames: seq<string>, ffmpegOk: string -> bool, tempName: nat -> string)
    ensures var temps := Converted(filenames, ffmpegOk, tempName).temps;
      forall k :: 0 <= k < |temps| ==> temps[k] == tempName(k)
  {
    if |filenames| > 0 {
      ConvertedTemps(filenames[..|filenames| - 1], ffmpegOk, tempName);
    }
  }

  /** The conversion loop over the filenames. */
  method TempMp3Conversion(filenames: seq<string>, ffmpegOk: string -> bool, tempName: nat -> string) returns (c: Conversion)
    ensures c == Converted(filenames, ffmpegOk, tempName)
  {
    var handles: seq<string> := [];
    var tempToOrig: map<string, string> := map[];
    var temps: seq<string> := [];
    for i := 0 to |filenames|
      invariant Converted(filenames[..i], ffmpegOk, tempName) == Conversion(handles, tempToOrig, temps)
    {
      assert filenames[..i + 1][..i] == filenames[..i];
      var origFn := filenames[i];
      var ext := Extension(origFn);
      if ext == "mp3" {
        handles := handles + [origFn];
        tempToOrig := tempToOrig[origFn := origFn];
      } else if ext in SupportedUploadFiletypes {
        var t := tempName(|temps|);
        temps := temps + [t];
        if ffmpegOk(origFn) {
          handles := handles + [t];
          tempToOrig := tempToOrig[t := origFn];
        }
      }
    }
    assert filenames[..|filenames|] == filenames;
    return Conversion(handles, tempToOrig, temps);
  }

  // ------------------------------------------------------------------
  // _upload_mp3s

  /** What a /uploadsj/rupio reply held: a session, an error response code, or neither. */
  datatype RupioReply = SessionStatus | ErrorCode(code: int) | Uninterpretable

  /** How the session attempts for one file ended. */
  datatype RupioOutcome = Session | AlreadyUploaded | NoUpload

  const MaxRupioAttempts: nat := 3

  /**
   * The retry loop from reply i with `attempts` counted: a session or code
   * 200 ends it; 503 is retried without counting; anything else counts, up
   * to three. Running out of replies ends it without an upload.
   */
  function RupioRun(replies: seq<RupioReply>, i: nat, attempts: nat): RupioOutcome
    decreases |replies| - i
  {
    if attempts >= MaxRupioAttempts || i >= |replies| then NoUpload
    else match replies[i]
      case SessionStatus => Session
      case ErrorCode(code) =>
        if code == 200 then AlreadyUploaded
        else if code == 503 then RupioRun(replies, i + 1, attempts)
        else RupioRun(replies, i + 1, attempts + 1)
      case Uninterpretable => RupioRun(replies, i + 1, attempts + 1)
  }

  /** Syncing replies (503) cost nothing: a run of them in front changes no outcome. */
  lemma {:induction false} SyncingIsFree(syncing: seq<RupioReply>, rest: seq<RupioReply>, attempts: nat)
    requires forall k :: 0 <= k < |syncing| ==> syncing[k] == ErrorCode(503)
    ensures RupioRun(syncing + rest, 0, attempts) == RupioRun(rest, 0, attempts)
  {
    SyncingShift(syncing, rest, 0, attempts);
  }

  lemma {:induction false} SyncingShift(syncing: seq<RupioReply>, rest: seq<RupioReply>, i: nat, attempts: nat)
    requires i <= |syncing|
    requires forall k :: 0 <= k < |syncing| ==> syncing[k] == ErrorCode(503)
    ensures RupioRun(syncing + rest, i, attempts) == RupioRun(rest, 0, attempts)
    decreases |syncing| - i
  {
    if i < |syncing| {
      SyncingShift(syncing, rest, i + 1, attempts);
    } else {
      RupioShift(syncing, rest, 0, attempts);
    }
  }

  lemma {:induction false} RupioShift(front: seq<RupioReply>, rest: seq<RupioReply>, j: nat, attempts: nat)
    ensures RupioRun(front + rest, |front| + j, attempts) == RupioRun(rest, j, attempts)
    decreases |rest| - j
  {
    if attempts < MaxRupioAttempts && j < |rest| {
      assert (front + rest)[|front| + j] == rest[j];
      RupioShift(front, rest, j + 1, attempts);
      RupioShift(front, rest, j + 1, attempts + 1);
    }
  }

  /** Three counted failures end the attempts, whatever follows. */
  lemma ThreeStrikes(a: RupioReply, b: RupioReply, c: RupioReply, rest: seq<RupioReply>)
    requires a == Uninterpretable || (a.ErrorCode? && a.code != 200 && a.code != 503)
    requires b == Uninterpretable || (b.ErrorCode? && b.code != 200 && b.code != 503)
    requires c == Uninterpretable || (c.ErrorCode? && c.code != 200 && c.code != 503)
    ensures RupioRun([a, b, c] + rest, 0, 0) == NoUpload
  {
    var s := [a, b, c] + rest;
    assert s[0] == a && s[1] == b && s[2] == c;
    assert RupioRun(s, 3, 3) == NoUpload;
    assert RupioRun(s, 2, 2) == NoUpload;
    assert RupioRun(s, 1, 1) == NoUpload;
  }

  /** The session loop for one file. */
  method GetRupioSession(replies: seq<RupioReply>) returns (outcome: RupioOutcome)
    ensures outcome == RupioRun(replies, 0, 0)
  {
    var success := false;
    var alreadyUploaded := false;
    var attempts: int := 0;
    var i := 0;
    while !success && attempts < MaxRupioAttempts && i < |replies|
      invariant 0 <= attempts <= MaxRupioAttempts && 0 <= i <= |replies|
      invariant !success ==> RupioRun(replies, 0, 0) == RupioRun(replies, i, attempts)
      invariant !success ==> !alreadyUploaded
      invariant success ==> RupioRun(replies, 0, 0) == (if alreadyUploaded then AlreadyUploaded else Session)
      decreases |replies| - i
    {
      var res := replies[i];
      assert RupioRun(replies, i, attempts) == match res
        case SessionStatus => Session
        case ErrorCode(code) =>
          if code == 200 then AlreadyUploaded
          else if code == 503 then RupioRun(replies, i + 1, attempts)
          else RupioRun(replies, i + 1, attempts + 1)
        case Uninterpretable => RupioRun(replies, i + 1, attempts + 1);
      i := i + 1;
      match res {
        case SessionStatus =>
          success := true;
        case ErrorCode(code) =>
          if code == 503 {
            // still syncing: retried without penalty
            attempts := attempts - 1;
          } else if code == 200 {
            success := true;
            alreadyUploaded := true;
          }
        case Uninterpretable =>
      }
      if !success {
        attempts := attempts + 1;
      }
    }
    outcome := if !success then NoUpload else if alreadyUploaded then AlreadyUploaded else Session;
  }

  /** A file's upload succeeded: a session and a FINALIZED upload, or already on the server. */
  predicate UploadDone(outcome: RupioOutcome, finalizedState: bool)
  {
    (outcome == Session && finalizedState) || outcome == AlreadyUploaded
  }

  /** The filename to server id map after the given session requests. */
  function FnSidMap(requests: seq<(string, string)>, replies: seq<seq<RupioReply>>, finalized: seq<bool>): map<string, string>
    requires |replies| == |requests| == |finalized|
  {
    if |requests| == 0 then map[]
    else
      var n := |requests| - 1;
      var before := FnSidMap(requests[..n], replies[..n], finalized[..n]);
      if UploadDone(RupioRun(replies[n], 0, 0), finalized[n]) then before[requests[n].0 := requests[n].1] else before
  }

  /**
   * A filename is in the result exactly when one of its requests succeeded,
   * and it maps to the server id of such a request.
   */
  lemma {:induction false} FnSidMapExactly(requests: seq<(string, string)>, replies: seq<seq<RupioReply>>, finalized: seq<bool>, fn: string)
    requires |replies| == |requests| == |finalized|
    ensures var m := FnSidMap(requests, replies, finalized);
      && (fn in m <==> exists i :: 0 <= i < |requests| && requests[i].0 == fn && UploadDone(RupioRun(replies[i], 0, 0), finalized[i]))
      && (fn in m ==> exists i :: 0 <= i < |requests| && requests[i] == (fn, m[fn]) && UploadDone(RupioRun(replies[i], 0, 0), finalized[i]))
  {
    if |requests| > 0 {
      var n := |requests| - 1;
      FnSidMapExactly(requests[..n], replies[..n], finalized[..n], fn);
      assert forall i :: 0 <= i < n ==> requests[..n][i] == requests[i] && replies[..n][i] == replies[i] && finalized[..n][i] == finalized[i];
    }
  }

  /** The first of the files that a test refuses, if any. */
  function FirstRefused(files: seq<string>, accepts: string -> bool): (r: Option<string>)
    ensures r.None? <==> forall i :: 0 <= i < |files| ==> accepts(files[i])
    ensures r.Some? ==> exists i :: 0 <= i < |files| && files[i] == r.value && !accepts(files[i]) && forall j :: 0 <= j < i ==> accepts(files[j])
  {
    if |files| == 0 then None
    else if !accepts(files[0]) then Some(files[0])
    else
      var rest := FirstRefused(files[1..], accepts);
      assert rest.Some? ==> exists i :: 1 <= i < |files| && files[i] == rest.value && !accepts(files[i]) && forall j :: 0 <= j < i ==> accepts(files[j]) by {
        if rest.Some? {
          var i :| 0 <= i < |files[1..]| && files[1..][i] == rest.value && !accepts(files[1..][i]) && forall j :: 0 <= j < i ==> accepts(files[1..][j]);
          assert forall j :: 1 <= j < i + 1 ==> files[j] == files[1..][j - 1];
        }
      }
      rest
  }

  /**
   * _upload_mp3s: make_metadata_request first refuses the whole call with
   * UnsupportedFiletype when a file fails its case-sensitive extension test;
   * otherwise one session loop per request, recording the uploads that
   * succeeded.
   */
  method UploadMp3s(files: seq<string>, requests: seq<(string, string)>, replies: seq<seq<RupioReply>>, finalized: seq<bool>)
    returns (r: Result<map<string, string>>)
    requires |replies| == |requests| == |finalized|
    ensures FirstRefused(files, MmProtocol.Supported).Some? ==> r == Err(UnsupportedFiletype(FirstRefused(files, MmProtocol.Supported).value))
    ensures FirstRefused(files, MmProtocol.Supported).None? ==> r == Ok(FnSidMap(requests, replies, finalized))
  {
    var refused := FirstRefused(files, MmProtocol.Supported);
    if refused.Some? {
      return Err(UnsupportedFiletype(refused.value));
    }
    var fnSidMap := map[];
    for i := 0 to |requests|
      invariant fnSidMap == FnSidMap(requests[..i], replies[..i], finalized[..i])
    {
      assert requests[..i + 1][..i] == requests[..i];
      assert replies[..i + 1][..i] == replies[..i];
      assert finalized[..i + 1][..i] == finalized[..i];
      var (filename, serverId) := requests[i];
      var outcome := GetRupioSession(replies[i]);
      if outcome == Session {
        if finalized[i] {
          fnSidMap := fnSidMap[filename := serverId];
        }
      } else if outcome == AlreadyUploaded {
        fnSidMap := fnSidMap[filename := serverId];
      }
    }
    assert requests[..|requests|] == requests;
    assert replies[..|replies|] == replies;
    assert finalized[..|finalized|] == finalized;
    return Ok(fnSidMap);
  }

  // ------------------------------------------------------------------
  // upload

  /** The i-th upload request succeeded. */
  predicate RequestDone(replies: seq<seq<RupioReply>>, finalized: seq<bool>, i: int)
    requires 0 <= i < |replies| == |finalized|
  {
    UploadDone(RupioRun(replies[i], 0, 0), finalized[i])
  }

  /** Some successful request uploaded a file that maps to fn, with server id sid. */
  predicate DoneRequestFor(tempToOrig: map<string, string>, requests: seq<(string, string)>, replies: seq<seq<RupioReply>>, finalized: seq<bool>, fn: string, sid: string)
    requires |replies| == |requests| == |finalized|
  {
    exists i :: 0 <= i < |requests| && RequestDone(replies, finalized, i) && requests[i].0 in tempToOrig && tempToOrig[requests[i].0] == fn && requests[i].1 == sid
  }

  /** Every reported original comes from an uploaded file that maps to it, with that file's server id. */
  predicate ReportedFrom(tempToOrig: map<string, string>, fnameToId: map<string, string>, results: map<string, string>)
  {
    forall fn :: fn in results ==>
      exists f :: f in fnameToId && f in tempToOrig && tempToOrig[f] == fn && fnameToId[f] == results[fn]
  }

  /** The report in terms of the upload requests: each entry comes from a request that succeeded. */
  lemma ReportedRequests(tempToOrig: map<string, string>, requests: seq<(string, string)>, replies: seq<seq<RupioReply>>, finalized: seq<bool>, results: map<string, string>)
    requires |replies| == |requests| == |finalized|
    requires ReportedFrom(tempToOrig, FnSidMap(requests, replies, finalized), results)
    ensures forall fn :: fn in results ==> DoneRequestFor(tempToOrig, requests, replies, finalized, fn, results[fn])
  {
    var m := FnSidMap(requests, replies, finalized);
    forall fn | fn in results
      ensures DoneRequestFor(tempToOrig, requests, replies, finalized, fn, results[fn])
    {
      var f :| f in m && f in tempToOrig && tempToOrig[f] == fn && m[f] == results[fn];
      FnSidMapExactly(requests, replies, finalized, f);
      var i :| 0 <= i < |requests| && requests[i] == (f, m[f]) && UploadDone(RupioRun(replies[i], 0, 0), finalized[i]);
      assert RequestDone(replies, finalized, i);
    }
  }

  /** Every request that succeeded is one of the uploaded files. */
  lemma DoneRequestsUploaded(requests: seq<(string, string)>, replies: seq<seq<RupioReply>>, finalized: seq<bool>)
    requires |replies| == |requests| == |finalized|
    ensures forall i :: 0 <= i < |requests| && RequestDone(replies, finalized, i) ==> requests[i].0 in FnSidMap(requests, replies, finalized)
  {
    forall i | 0 <= i < |requests| && RequestDone(replies, finalized, i)
      ensures requests[i].0 in FnSidMap(requests, replies, finalized)
    {
      FnSidMapExactly(requests, replies, finalized, requests[i].0);
    }
  }

  /**
   * upload: {} for no files; UnsupportedFiletype when the metadata request
   * refuses one of the files the conversion handed on; otherwise the
   * converted files are uploaded and each success is reported under its
   * original filename, with the server id of a request for one of its files
   * that succeeded. A success for a file the conversion never produced is a
   * KeyError.
   */
  method Upload(filenames: seq<string>, ffmpegOk: string -> bool, tempName: nat -> string,
                requests: seq<(string, string)>, replies: seq<seq<RupioReply>>, finalized: seq<bool>)
    returns (r: Result<map<string, string>>)
    requires |replies| == |requests| == |finalized|
    ensures filenames == [] ==> r == Ok(map[])
    ensures filenames != [] ==> var refused := FirstRefused(Converted(filenames, ffmpegOk, tempName).handles, MmProtocol.Supported);
      refused.Some? ==> r == Err(UnsupportedFiletype(refused.value))
    ensures r.Ok? ==> forall fn :: fn in r.value ==> fn in filenames && HandlingOf(fn) != Skip
    ensures r.Ok? && filenames != [] ==> var conv := Converted(filenames, ffmpegOk, tempName).tempToOrig;
      forall fn :: fn in r.value ==> DoneRequestFor(conv, requests, replies, finalized, fn, r.value[fn])
    ensures r.Ok? && filenames != [] ==> var conv := Converted(filenames, ffmpegOk, tempName).tempToOrig;
      forall i :: 0 <= i < |requests| && RequestDone(replies, finalized, i) ==> requests[i].0 in conv && conv[requests[i].0] in r.value
    ensures filenames != [] ==> var c := Converted(filenames, ffmpegOk, tempName);
      (r.Ok? <==> FirstRefused(c.handles, MmProtocol.Supported).None? &&
                  forall i :: 0 <= i < |requests| && RequestDone(replies, finalized, i) ==> requests[i].0 in c.tempToOrig)
    ensures r.Err? ==> r.error.KeyError? || r.error.UnsupportedFiletype?
    ensures filenames != [] ==> var c := Converted(filenames, ffmpegOk, tempName);
      (forall i :: 0 <= i < |requests| ==> requests[i].0 in c.handles) && FirstRefused(c.handles, MmProtocol.Supported).None? ==> r.Ok?
  {
    if filenames == [] {
      return Ok(map[]);
    }
    var c := TempMp3Conversion(filenames, ffmpegOk, tempName);
    ConvertedOriginals(filenames, ffmpegOk, tempName);
    ConvertedHandlesMapped(filenames, ffmpegOk, tempName);
    var uploaded := UploadMp3s(c.handles, requests, replies, finalized);
    if uploaded.Err? {
      return Err(uploaded.error);
    }
    var fnameToId := uploaded.value;
    DoneRequestsUploaded(requests, replies, finalized);
    var results: map<string, string> := map[];
    var todo := fnameToId.Keys;
    while todo != {}
      invariant todo <= fnameToId.Keys
      invariant forall fn :: fn in results ==> fn in filenames && HandlingOf(fn) != Skip
      invariant ReportedFrom(c.tempToOrig, fnameToId, results)
      invariant forall f :: f in fnameToId && f !in todo ==> f in c.tempToOrig && c.tempToOrig[f] in results
      decreases todo
    {
      var fname :| fname in todo;
      if fname !in c.tempToOrig {
        // the upload session named a file the conversion never produced
        FnSidMapExactly(requests, replies, finalized, fname);
        return Err(KeyError(fname));
      }
      results := results[c.tempToOrig[fname] := fnameToId[fname]];
      todo := todo - {fname};
    }
    ReportedRequests(c.tempToOrig, requests, replies, finalized, results);
    return Ok(results);
  }

  /**
   * upload(["SONG.MP3"]) as written: the conversion lower-cases the
   * extension and passes the file through under its own name, and the
   * metadata request's case-sensitive test then refuses it, so upload
   * raises UnsupportedFiletype.
   */
  lemma UpperCaseMp3Refused(ffmpegOk: string -> bool, tempName: nat -> string)
    ensures HandlingOf("SONG.MP3") == PassThrough
    ensures Converted(["SONG.MP3"], ffmpegOk, tempName).handles == ["SONG.MP3"]
    ensures FirstRefused(Converted(["SONG.MP3"], ffmpegOk, tempName).handles, MmProtocol.Supported) == Some("SONG.MP3")
  {
    assert "SONG" + "." + "MP3" == "SONG.MP3";
    ExtensionOf("SONG", "MP3");
    assert Lower("MP3") == "mp3";
    MmProtocol.SupportedExtensions("SONG", "MP3");
    assert ["SONG.MP3"][..0] == [];
  }

  /**
   * The metadata request's test as evidently intended: the extension
   * compared after lower-casing, as the conversion compares it.
   */
  predicate SupportedFolded(filename: string)
  {
    MmProtocol.SubstringOf(Extension(filename), MmProtocol.SupportedFiletypes)
  }

  /**
   * With the intended test nothing the conversion hands on is refused: an
   * MP3 of any case passes, and so does every temporary file, whose name
   * ends in ".mp3".
   */
  lemma {:induction false} FoldedAcceptsConverted(filenames: seq<string>, ffmpegOk: string -> bool, tempName: nat -> string)
    requires forall k :: Extension(tempName(k)) == "mp3"
    ensures FirstRefused(Converted(filenames, ffmpegOk, tempName).handles, SupportedFolded).None?
  {
    if |filenames| > 0 {
      FoldedAcceptsConverted(filenames[..|filenames| - 1], ffmpegOk, tempName);
      MmProtocol.SubstringsOfMp3("mp3");
    }
  }

  /** The intended test accepts upload(["SONG.MP3"]), which the written one refuses. */
  lemma UpperCaseMp3Accepted(ffmpegOk: string -> bool, tempName: nat -> string)
    ensures FirstRefused(Converted(["SONG.MP3"], ffmpegOk, tempName).handles, SupportedFolded).None?
  {
    UpperCaseMp3Refused(ffmpegOk, tempName);
    MmProtocol.SubstringsOfMp3("mp3");
  }
}
