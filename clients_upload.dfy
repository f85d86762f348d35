/**
 * Musicmanager's upload authentication and upload pipeline: gathering local
 * track information, sending scan-and-match samples, sorting the server's
 * sample responses, obtaining upload sessions (up to ten attempts each) and
 * recording where every file ended up. The server calls, the file reads and
 * the transcoder are parameters holding what they gave.
 */
module Musicmanager {
  import opened Py
  import opened Text
  import Clients

  // ------------------------------------------------------------------
  // Gathering local information

  /** What this model keeps of a locker Track: its client id and whether the original is MP3. */
  datatype LocalTrack = LocalTrack(clientId: string, isMp3: bool)

  /** What fill_track_info did for a path: the track, or the text of the exception it raised. */
  datatype Filled = Track(track: LocalTrack) | Raised(message: string)

  /** The local information and the failures recorded so far. */
  datatype Gathering = Gathering(localInfo: map<string, (string, LocalTrack)>, notUploaded: map<string, string>)

  /** The protobuf complaint about byte strings that are not ASCII. */
  const NonAsciiMarker: string := "Non-ASCII strings must be converted to unicode"

  /** Python's `sub in s` for strings. */
  predicate Contains(s: string, sub: string)
    decreases |s|
  {
    |sub| <= |s| && (s[..|sub|] == sub || Contains(s[1..], sub))
  }

  lemma ContainsSelf(s: string)
    ensures Contains(s, s)
  {
  }

  /** The message recorded for a non-ASCII failure, quoting the exception's own text. */
  function NonAsciiMessage(message: string): (r: string)
    ensures |r| > |message|
  {
    "nonascii bytestrings must be decoded to unicode (error: '" + message + "')"
  }

  /** What the loop records for a failed path. */
  function FailureMessage(message: string): string
  {
    if Contains(message, NonAsciiMarker) then NonAsciiMessage(message) else message
  }

  /**
   * The gathering loop as written: the non-ASCII branch formats `err_msg`,
   * a local of upload that is assigned only further down, so Python raises
   * UnboundLocalError out of upload instead of recording it. In Python 2
   * UnboundLocalError is a subclass of NameError, so it is modelled as
   * NameError("err_msg").
   */
  function GatheredAsWritten(paths: seq<string>, fill: string -> Filled): Result<Gathering>
  {
    if |paths| == 0 then Ok(Gathering(map[], map[]))
    else
      var g :- GatheredAsWritten(paths[..|paths| - 1], fill);
      var path := paths[|paths| - 1];
      match fill(path)
      case Track(t) => Ok(g.(localInfo := g.localInfo[t.clientId := (path, t)]))
      case Raised(m) =>
        if Contains(m, NonAsciiMarker) then Err(NameError("err_msg"))
        else Ok(g.(notUploaded := g.notUploaded[path := m]))
  }

  /** The gathering loop as intended: the non-ASCII message quotes the exception's text. */
  function Gathered(paths: seq<string>, fill: string -> Filled): Gathering
  {
    if |paths| == 0 then Gathering(map[], map[])
    else
      var g := Gathered(paths[..|paths| - 1], fill);
      var path := paths[|paths| - 1];
      match fill(path)
      case Track(t) => g.(localInfo := g.localInfo[t.clientId := (path, t)])
      case Raised(m) => g.(notUploaded := g.notUploaded[path := FailureMessage(m)])
  }

  /** Some path's local information failed with the non-ASCII complaint. */
  predicate SomeNonAscii(paths: seq<string>, fill: string -> Filled)
  {
    exists i :: 0 <= i < |paths| && fill(paths[i]).Raised? && Contains(fill(paths[i]).message, NonAsciiMarker)
  }

  /**
   * The code as written aborts upload exactly when some file fails with the
   * non-ASCII complaint; otherwise it agrees with the intended loop.
   */
  lemma {:induction false} AsWrittenDiffersOnNonAscii(paths: seq<string>, fill: string -> Filled)
    ensures GatheredAsWritten(paths, fill).Err? <==> SomeNonAscii(paths, fill)
    ensures GatheredAsWritten(paths, fill).Err? ==> GatheredAsWritten(paths, fill).error == NameError("err_msg")
    ensures !SomeNonAscii(paths, fill) ==> GatheredAsWritten(paths, fill) == Ok(Gathered(paths, fill))
  {
    if |paths| > 0 {
      var init := paths[..|paths| - 1];
      AsWrittenDiffersOnNonAscii(init, fill);
      assert forall i :: 0 <= i < |init| ==> init[i] == paths[i];
      if SomeNonAscii(init, fill) {
        assert SomeNonAscii(paths, fill);
      }
      if !SomeNonAscii(paths, fill) {
        assert !SomeNonAscii(init, fill);
      }
    }
  }

  /** One file whose reading fails with exactly the complaint: upload raises instead of reporting it. */
  lemma NonAsciiFileAborts(path: string, fill: string -> Filled)
    requires fill(path) == Raised(NonAsciiMarker)
    ensures GatheredAsWritten([path], fill) == Err(NameError("err_msg"))
    ensures Gathered([path], fill).notUploaded == map[path := NonAsciiMessage(NonAsciiMarker)]
  {
    ContainsSelf(NonAsciiMarker);
    assert [path][..0] == [];
  }

  /** The paths the local information points at. */
  function LocalPaths(localInfo: map<string, (string, LocalTrack)>): set<string>
  {
    set cid | cid in localInfo :: localInfo[cid].0
  }

  /** Gathering mentions no path but the given ones. */
  lemma {:induction false} GatheredWithin(paths: seq<string>, fill: string -> Filled)
    ensures Gathered(paths, fill).notUploaded.Keys <= (set p | p in paths)
    ensures LocalPaths(Gathered(paths, fill).localInfo) <= (set p | p in paths)
  {
    if |paths| > 0 {
      var init := paths[..|paths| - 1];
      GatheredWithin(init, fill);
      assert forall p :: p in init ==> p in paths;
      var g := Gathered(init, fill);
      var path := paths[|paths| - 1];
      if fill(path).Track? {
        var t := fill(path).track;
        forall x | x in LocalPaths(g.localInfo[t.clientId := (path, t)]) ensures x in paths {
          var cid :| cid in g.localInfo[t.clientId := (path, t)] && g.localInfo[t.clientId := (path, t)][cid].0 == x;
          if cid != t.clientId {
            assert x in LocalPaths(g.localInfo);
          }
        }
      }
    }
  }

  /**
   * What gathering files: each local entry is the track its path produced,
   * under that track's client id; each failure is its path's exception, with
   * the quoted message for the non-ASCII complaint.
   */
  lemma {:induction false} GatheredFiles(paths: seq<string>, fill: string -> Filled)
    ensures var g := Gathered(paths, fill);
      forall cid :: cid in g.localInfo ==> fill(g.localInfo[cid].0) == Track(g.localInfo[cid].1) && g.localInfo[cid].1.clientId == cid
    ensures var g := Gathered(paths, fill);
      forall p :: p in g.notUploaded ==> fill(p).Raised? && g.notUploaded[p] == FailureMessage(fill(p).message)
  {
    if |paths| > 0 {
      GatheredFiles(paths[..|paths| - 1], fill);
    }
  }

  /** Every failed path is reported and every filled track is filed under its client id. */
  lemma {:induction false} GatheredComplete(paths: seq<string>, fill: string -> Filled)
    ensures forall i :: 0 <= i < |paths| && fill(paths[i]).Raised? ==> paths[i] in Gathered(paths, fill).notUploaded
    ensures forall i :: 0 <= i < |paths| && fill(paths[i]).Track? ==> fill(paths[i]).track.clientId in Gathered(paths, fill).localInfo
  {
    if |paths| > 0 {
      var init := paths[..|paths| - 1];
      GatheredComplete(init, fill);
      assert forall i :: 0 <= i < |init| ==> init[i] == paths[i];
    }
  }

  /** The gathering loop over the paths (with the intended non-ASCII message). */
  method GatherLocalInfo(paths: seq<string>, fill: string -> Filled) returns (g: Gathering)
    ensures g == Gathered(paths, fill)
  {
    var localInfo: map<string, (string, LocalTrack)> := map[];
    var notUploaded: map<string, string> := map[];
    for i := 0 to |paths|
      invariant Gathered(paths[..i], fill) == Gathering(localInfo, notUploaded)
    {
      assert paths[..i + 1][..i] == paths[..i];
      var path := paths[i];
      match fill(path)
      case Track(t) =>
        localInfo := localInfo[t.clientId := (path, t)];
      case Raised(m) =>
        var userErrMsg := m;
        if Contains(m, NonAsciiMarker) {
          userErrMsg := NonAsciiMessage(m);
        }
        notUploaded := notUploaded[path := userErrMsg];
    }
    assert paths[..|paths|] == paths;
    return Gathering(localInfo, notUploaded);
  }

  // ------------------------------------------------------------------
  // Scan-and-match samples

  /** The response code of a TrackSampleResponse; any other code carries its number and enum name. */
  datatype SampleCode = Matched | UploadRequested | Rejected(number: int, name: string)

  datatype SampleResponse = SampleResponse(clientTrackId: string, code: SampleCode, serverTrackId: string)

  /** What ProvideSample did: its responses, an IOError or ValueError (with its text), or another exception. */
  datatype SampleOutcome = Responses(responses: seq<SampleResponse>) | SampleFailed(message: string) | SampleRaised(error: Error)

  /** The responses and failures after sending samples for the given challenges. */
  datatype Provision = Provision(responses: seq<SampleResponse>, notUploaded: map<string, string>)

  /** The sample loop: each challenge's client id must be local; its responses extend the list, its failure is reported. */
  function Provided(p0: Provision, challenges: seq<string>, localInfo: map<string, (string, LocalTrack)>, provide: string -> SampleOutcome): Result<Provision>
  {
    if |challenges| == 0 then Ok(p0)
    else
      var p :- Provided(p0, challenges[..|challenges| - 1], localInfo, provide);
      var cid := challenges[|challenges| - 1];
      if cid !in localInfo then Err(KeyError(cid))
      else match provide(cid)
        case Responses(rs) => Ok(p.(responses := p.responses + rs))
        case SampleFailed(m) => Ok(p.(notUploaded := p.notUploaded[localInfo[cid].0 := m]))
        case SampleRaised(e) => Err(e)
  }

  /** Once a prefix of the challenges fails, the loop fails with that exception. */
  lemma {:induction false} ProvidedPrefixErr(p0: Provision, challenges: seq<string>, i: nat, localInfo: map<string, (string, LocalTrack)>, provide: string -> SampleOutcome)
    requires i <= |challenges| && Provided(p0, challenges[..i], localInfo, provide).Err?
    ensures Provided(p0, challenges, localInfo, provide) == Provided(p0, challenges[..i], localInfo, provide)
    decreases |challenges| - i
  {
    if i < |challenges| {
      assert challenges[..i + 1][..i] == challenges[..i];
      ProvidedPrefixErr(p0, challenges, i + 1, localInfo, provide);
    } else {
      assert challenges[..i] == challenges;
    }
  }

  /** Samples only add responses and report failures of local files. */
  lemma {:induction false} ProvidedWithin(p0: Provision, challenges: seq<string>, localInfo: map<string, (string, LocalTrack)>, provide: string -> SampleOutcome)
    requires Provided(p0, challenges, localInfo, provide).Ok?
    ensures var p := Provided(p0, challenges, localInfo, provide).value;
      && p0.responses <= p.responses
      && p.notUploaded.Keys <= p0.notUploaded.Keys + LocalPaths(localInfo)
  {
    if |challenges| > 0 {
      ProvidedWithin(p0, challenges[..|challenges| - 1], localInfo, provide);
    }
  }

  /** Sending the samples the server asked for. */
  method ProvideSamples(p0: Provision, challenges: seq<string>, localInfo: map<string, (string, LocalTrack)>, provide: string -> SampleOutcome) returns (r: Result<Provision>)
    ensures r == Provided(p0, challenges, localInfo, provide)
  {
    var p := p0;
    for i := 0 to |challenges|
      invariant Provided(p0, challenges[..i], localInfo, provide) == Ok(p)
    {
      assert challenges[..i + 1][..i] == challenges[..i];
      var cid := challenges[i];
      if cid !in localInfo {
        ProvidedPrefixErr(p0, challenges, i + 1, localInfo, provide);
        return Err(KeyError(cid));
      }
      var path := localInfo[cid].0;
      match provide(cid)
      case Responses(rs) =>
        p := p.(responses := p.responses + rs);
      case SampleFailed(m) =>
        p := p.(notUploaded := p.notUploaded[path := m]);
      case SampleRaised(e) =>
        ProvidedPrefixErr(p0, challenges, i + 1, localInfo, provide);
        return Err(e);
    }
    assert challenges[..|challenges|] == challenges;
    return Ok(p);
  }

  // ------------------------------------------------------------------
  // Sorting the sample responses

  /** A file queued for upload: its path, its track, and whether rematching is refused. */
  datatype Queued = Queued(path: string, track: LocalTrack, doNotRematch: bool)

  /** The three dictionaries the responses fill. */
  datatype Sorting = Sorting(matched: map<string, string>, toUpload: map<string, Queued>, notUploaded: map<string, string>)

  /** The reason recorded for a rejected sample; ALREADY_EXISTS adds the server id in parentheses. */
  function RejectionMessage(number: int, name: string, serverId: string): (r: string)
    ensures var stem := "TrackSampleResponse code " + Decimal(number) + ": " + name;
      && stem <= r
      && (name == "ALREADY_EXISTS" ==> r == stem + "(" + serverId + ")")
      && (name != "ALREADY_EXISTS" ==> r == stem)
  {
    var msg := "TrackSampleResponse code " + Decimal(number) + ": " + name;
    if name == "ALREADY_EXISTS" then msg + "(" + serverId + ")" else msg
  }

  /** One response sorted into the dictionaries. */
  function SortOne(s: Sorting, res: SampleResponse, localInfo: map<string, (string, LocalTrack)>, enableMatching: bool): Result<Sorting>
  {
    if res.clientTrackId !in localInfo then Err(KeyError(res.clientTrackId))
    else
      var (path, track) := localInfo[res.clientTrackId];
      match res.code
      case Matched =>
        Ok(if enableMatching then s.(matched := s.matched[path := res.serverTrackId]) else s)
      case UploadRequested =>
        Ok(s.(toUpload := s.toUpload[res.serverTrackId := Queued(path, track, false)]))
      case Rejected(number, name) =>
        Ok(s.(notUploaded := s.notUploaded[path := RejectionMessage(number, name, res.serverTrackId)]))
  }

  /** All the responses sorted, in order. */
  function Sorted(s0: Sorting, responses: seq<SampleResponse>, localInfo: map<string, (string, LocalTrack)>, enableMatching: bool): Result<Sorting>
  {
    if |responses| == 0 then Ok(s0)
    else
      var s :- Sorted(s0, responses[..|responses| - 1], localInfo, enableMatching);
      SortOne(s, responses[|responses| - 1], localInfo, enableMatching)
  }

  /** Every dictionary mentions only the given paths, and nothing queued refuses rematching. */
  predicate Within(s: Sorting, paths: set<string>)
  {
    && s.matched.Keys <= paths
    && s.notUploaded.Keys <= paths
    && (forall sid :: sid in s.toUpload ==> s.toUpload[sid].path in paths && !s.toUpload[sid].doNotRematch)
  }

  /**
   * Sorting fails exactly when a response names an unknown client id; it
   * keeps to the local paths, queues nothing with do_not_rematch, and
   * records no match unless matching is enabled.
   */
  lemma {:induction false} SortedWithin(s0: Sorting, responses: seq<SampleResponse>, localInfo: map<string, (string, LocalTrack)>, enableMatching: bool, paths: set<string>)
    requires Within(s0, paths) && LocalPaths(localInfo) <= paths
    ensures Sorted(s0, responses, localInfo, enableMatching).Ok? <==> forall i :: 0 <= i < |responses| ==> responses[i].clientTrackId in localInfo
    ensures Sorted(s0, responses, localInfo, enableMatching).Ok? ==>
      var s := Sorted(s0, responses, localInfo, enableMatching).value;
      Within(s, paths) && (!enableMatching ==> s.matched == s0.matched)
  {
    if |responses| > 0 {
      var init := responses[..|responses| - 1];
      SortedWithin(s0, init, localInfo, enableMatching, paths);
      assert forall i :: 0 <= i < |init| ==> init[i] == responses[i];
      var last := responses[|responses| - 1];
      if Sorted(s0, init, localInfo, enableMatching).Ok? && last.clientTrackId in localInfo {
        assert localInfo[last.clientTrackId].0 in LocalPaths(localInfo);
      }
    }
  }

  lemma {:induction false} SortedPrefixErr(s0: Sorting, responses: seq<SampleResponse>, i: nat, localInfo: map<string, (string, LocalTrack)>, enableMatching: bool)
    requires i <= |responses| && Sorted(s0, responses[..i], localInfo, enableMatching).Err?
    ensures Sorted(s0, responses, localInfo, enableMatching) == Sorted(s0, responses[..i], localInfo, enableMatching)
    decreases |responses| - i
  {
    if i < |responses| {
      assert responses[..i + 1][..i] == responses[..i];
      SortedPrefixErr(s0, responses, i + 1, localInfo, enableMatching);
    } else {
      assert responses[..i] == responses;
    }
  }

  /** The loop body for one sample response. */
  method SortResponse(s: Sorting, res: SampleResponse, localInfo: map<string, (string, LocalTrack)>, enableMatching: bool) returns (r: Result<Sorting>)
    ensures r == SortOne(s, res, localInfo, enableMatching)
  {
    if res.clientTrackId !in localInfo {
      return Err(KeyError(res.clientTrackId));
    }
    var (path, track) := localInfo[res.clientTrackId];
    var s' := s;
    match res.code {
      case Matched =>
        if enableMatching {
          s' := s'.(matched := s'.matched[path := res.serverTrackId]);
        }
      case UploadRequested =>
        s' := s'.(toUpload := s'.toUpload[res.serverTrackId := Queued(path, track, false)]);
      case Rejected(number, name) =>
        var errMsg := "TrackSampleResponse code " + Decimal(number) + ": " + name;
        if name == "ALREADY_EXISTS" {
          errMsg := errMsg + "(" + res.serverTrackId + ")";
        }
        s' := s'.(notUploaded := s'.notUploaded[path := errMsg]);
    }
    return Ok(s');
  }

  /** The loop over the sample responses. */
  method SortResponses(s0: Sorting, responses: seq<SampleResponse>, localInfo: map<string, (string, LocalTrack)>, enableMatching: bool) returns (r: Result<Sorting>)
    ensures r == Sorted(s0, responses, localInfo, enableMatching)
  {
    var s := s0;
    for i := 0 to |responses|
      invariant Sorted(s0, responses[..i], localInfo, enableMatching) == Ok(s)
    {
      assert responses[..i + 1][..i] == responses[..i];
      var next := SortResponse(s, responses[i], localInfo, enableMatching);
      if next.Err? {
        SortedPrefixErr(s0, responses, i + 1, localInfo, enableMatching);
        return next;
      }
      s := next.value;
    }
    assert responses[..|responses|] == responses;
    return Ok(s);
  }

  // ------------------------------------------------------------------
  // Upload sessions

  /** What process_session made of a GetUploadSession reply. */
  datatype SessionReply = GotSession | NoSession(shouldRetry: bool, reason: string, errorCode: int)

  /** How the session attempts ended: with a session after some calls, or given up after some calls. */
  datatype SessionResult = Got(calls: nat) | GaveUp(calls: nat, reason: string, errorCode: int)

  const MaxSessionAttempts: nat := 10

  /** The retry loop from attempt i on: retry while asked to (or forced by 200 with do_not_rematch), at most ten calls. */
  function SessionRun(replies: seq<SessionReply>, doNotRematch: bool, i: nat): (r: SessionResult)
    requires i < MaxSessionAttempts <= |replies|
    ensures i < r.calls <= MaxSessionAttempts
    decreases MaxSessionAttempts - i
  {
    match replies[i]
    case GotSession => Got(i + 1)
    case NoSession(retry, reason, code) =>
      if (retry || (code == 200 && doNotRematch)) && i + 1 < MaxSessionAttempts then SessionRun(replies, doNotRematch, i + 1)
      else GaveUp(i + 1, reason, code)
  }

  /** A reply the loop retries after. */
  predicate Retries(reply: SessionReply, doNotRematch: bool)
  {
    reply.NoSession? && (reply.shouldRetry || (reply.errorCode == 200 && doNotRematch))
  }

  /**
   * The loop stops at the first session or at the first reply it does not
   * retry after, or after ten calls; every earlier reply was a retried
   * failure, and a given-up run reports its last reply's reason and code.
   */
  lemma {:induction false} SessionRunStops(replies: seq<SessionReply>, doNotRematch: bool, i: nat)
    requires i < MaxSessionAttempts <= |replies|
    ensures var r := SessionRun(replies, doNotRematch, i);
      && (forall k :: i <= k < r.calls - 1 ==> Retries(replies[k], doNotRematch))
      && (r.Got? ==> replies[r.calls - 1].GotSession?)
      && (r.GaveUp? ==> replies[r.calls - 1].NoSession? && replies[r.calls - 1].reason == r.reason && replies[r.calls - 1].errorCode == r.errorCode)
      && (r.GaveUp? && r.calls < MaxSessionAttempts ==> !Retries(replies[r.calls - 1], doNotRematch))
    decreases MaxSessionAttempts - i
  {
    if Retries(replies[i], doNotRematch) && i + 1 < MaxSessionAttempts {
      SessionRunStops(replies, doNotRematch, i + 1);
    }
  }

  /** Code 200 with do_not_rematch is always retried: a run of such replies uses all ten calls. */
  lemma {:induction false} ForcedRetry(replies: seq<SessionReply>, i: nat)
    requires i < MaxSessionAttempts <= |replies|
    requires forall k :: i <= k < MaxSessionAttempts ==> replies[k].NoSession? && replies[k].errorCode == 200
    ensures SessionRun(replies, true, i).GaveUp? && SessionRun(replies, true, i).calls == MaxSessionAttempts
    decreases MaxSessionAttempts - i
  {
    if i + 1 < MaxSessionAttempts {
      ForcedRetry(replies, i + 1);
    }
  }

  /** The session loop for one queued file. */
  method GetSession(replies: seq<SessionReply>, doNotRematch: bool) returns (r: SessionResult)
    requires MaxSessionAttempts <= |replies|
    ensures r == SessionRun(replies, doNotRematch, 0)
  {
    var shouldRetry := true;
    var attempts := 0;
    var reason := "";
    var errorCode := 0;
    while shouldRetry && attempts < MaxSessionAttempts
      invariant 0 <= attempts <= MaxSessionAttempts
      invariant attempts == 0 ==> shouldRetry
      invariant shouldRetry && attempts < MaxSessionAttempts ==> SessionRun(replies, doNotRematch, 0) == SessionRun(replies, doNotRematch, attempts)
      invariant attempts > 0 && !(shouldRetry && attempts < MaxSessionAttempts) ==> SessionRun(replies, doNotRematch, 0) == GaveUp(attempts, reason, errorCode)
      decreases MaxSessionAttempts - attempts
    {
      var session := replies[attempts];
      attempts := attempts + 1;
      if session.GotSession? {
        return Got(attempts);
      }
      shouldRetry, reason, errorCode := session.shouldRetry, session.reason, session.errorCode;
      if errorCode == 200 && doNotRematch {
        shouldRetry := true;
      }
    }
    return GaveUp(attempts, reason, errorCode);
  }

  // ------------------------------------------------------------------
  // Sending the queued files

  /** Where the queued files ended up. */
  datatype Outcome = Outcome(uploaded: map<string, string>, notUploaded: map<string, string>)

  const NotFinalized: string := "could not finalize upload; details in log"

  /**
   * One queued file: given up sessions report the last reason and code; a
   * non-MP3 whose transcoding fails reports it; otherwise the file is
   * uploaded exactly when the upload's session state is truthy.
   */
  function SendOne(o: Outcome, sid: string, q: Queued, session: SessionResult, transcodeError: Option<string>, finalized: bool): Outcome
  {
    if session.GaveUp? then
      o.(notUploaded := o.notUploaded[q.path := "GetUploadSession error " + Decimal(session.errorCode) + ": " + session.reason])
    else if !q.track.isMp3 && transcodeError.Some? then
      o.(notUploaded := o.notUploaded[q.path := "transcoding error: " + transcodeError.value])
    else if finalized then o.(uploaded := o.uploaded[q.path := sid])
    else o.(notUploaded := o.notUploaded[q.path := NotFinalized])
  }

  /** The queued files sent in the given order. */
  function Sent(o0: Outcome, order: seq<string>, toUpload: map<string, Queued>, sessions: string -> seq<SessionReply>,
                transcode: string -> Option<string>, finalized: string -> bool): Outcome
    requires forall sid :: sid in order ==> sid in toUpload && MaxSessionAttempts <= |sessions(sid)|
  {
    if |order| == 0 then o0
    else
      var sid := order[|order| - 1];
      var q := toUpload[sid];
      SendOne(Sent(o0, order[..|order| - 1], toUpload, sessions, transcode, finalized), sid, q,
              SessionRun(sessions(sid), q.doNotRematch, 0), transcode(q.path), finalized(sid))
  }

  /** The paths of the queued files sent in the given order. */
  function QueuedPaths(order: seq<string>, toUpload: map<string, Queued>): set<string>
    requires forall sid :: sid in order ==> sid in toUpload
  {
    if |order| == 0 then {}
    else QueuedPaths(order[..|order| - 1], toUpload) + {toUpload[order[|order| - 1]].path}
  }

  /** The upload of a queued file succeeded: a session was obtained and the final state was truthy. */
  predicate Completed(sid: string, toUpload: map<string, Queued>, sessions: string -> seq<SessionReply>, finalized: string -> bool)
    requires sid in toUpload && MaxSessionAttempts <= |sessions(sid)|
  {
    finalized(sid) && SessionRun(sessions(sid), toUpload[sid].doNotRematch, 0).Got?
  }

  /** One file either leaves uploaded alone or records it under its server id after a completed upload. */
  lemma SendOneEffect(o: Outcome, sid: string, q: Queued, session: SessionResult, transcodeError: Option<string>, finalized: bool)
    ensures var o' := SendOne(o, sid, q, session, transcodeError, finalized);
      && (o'.uploaded == o.uploaded || (o'.uploaded == o.uploaded[q.path := sid] && session.Got? && finalized))
      && o'.uploaded.Keys <= o.uploaded.Keys + {q.path}
      && o'.notUploaded.Keys <= o.notUploaded.Keys + {q.path}
  {
  }

  /** Sending reports no path but those of the queued files. */
  lemma {:induction false} SentReportsQueued(o0: Outcome, order: seq<string>, toUpload: map<string, Queued>, sessions: string -> seq<SessionReply>,
                                           transcode: string -> Option<string>, finalized: string -> bool)
    requires forall sid :: sid in order ==> sid in toUpload && MaxSessionAttempts <= |sessions(sid)|
    ensures Sent(o0, order, toUpload, sessions, transcode, finalized).uploaded.Keys <= o0.uploaded.Keys + QueuedPaths(order, toUpload)
    ensures Sent(o0, order, toUpload, sessions, transcode, finalized).notUploaded.Keys <= o0.notUploaded.Keys + QueuedPaths(order, toUpload)
  {
    if |order| > 0 {
      var init := order[..|order| - 1];
      var sid := order[|order| - 1];
      SentReportsQueued(o0, init, toUpload, sessions, transcode, finalized);
      SendOneEffect(Sent(o0, init, toUpload, sessions, transcode, finalized), sid, toUpload[sid],
                    SessionRun(sessions(sid), toUpload[sid].doNotRematch, 0), transcode(toUpload[sid].path), finalized(sid));
    }
  }

  /**
   * Every newly uploaded file was queued under the server id it is reported
   * with, and that upload completed.
   */
  lemma {:induction false} SentUploadedOnlyCompleted(o0: Outcome, order: seq<string>, toUpload: map<string, Queued>, sessions: string -> seq<SessionReply>,
                                                   transcode: string -> Option<string>, finalized: string -> bool)
    requires forall sid :: sid in order ==> sid in toUpload && MaxSessionAttempts <= |sessions(sid)|
    ensures var o := Sent(o0, order, toUpload, sessions, transcode, finalized);
      forall p :: p in o.uploaded && p !in o0.uploaded ==>
        o.uploaded[p] in order && toUpload[o.uploaded[p]].path == p && Completed(o.uploaded[p], toUpload, sessions, finalized)
  {
    if |order| > 0 {
      var init := order[..|order| - 1];
      var sid := order[|order| - 1];
      assert forall x :: x in init ==> x in order;
      SentUploadedOnlyCompleted(o0, init, toUpload, sessions, transcode, finalized);
      SendOneEffect(Sent(o0, init, toUpload, sessions, transcode, finalized), sid, toUpload[sid],
                    SessionRun(sessions(sid), toUpload[sid].doNotRematch, 0), transcode(toUpload[sid].path), finalized(sid));
    }
  }

  lemma {:induction false} QueuedPathsWithin(order: seq<string>, toUpload: map<string, Queued>, paths: set<string>)
    requires forall sid :: sid in order ==> sid in toUpload
    requires forall sid :: sid in toUpload ==> toUpload[sid].path in paths
    ensures QueuedPaths(order, toUpload) <= paths
  {
    if |order| > 0 {
      QueuedPathsWithin(order[..|order| - 1], toUpload, paths);
    }
  }

  /** Sending never drops a reported path, and every queued file sent ends up uploaded or not uploaded. */
  lemma {:induction false} SentCoversQueued(o0: Outcome, order: seq<string>, toUpload: map<string, Queued>, sessions: string -> seq<SessionReply>,
                                          transcode: string -> Option<string>, finalized: string -> bool)
    requires forall sid :: sid in order ==> sid in toUpload && MaxSessionAttempts <= |sessions(sid)|
    ensures var o := Sent(o0, order, toUpload, sessions, transcode, finalized);
      o0.uploaded.Keys + o0.notUploaded.Keys + QueuedPaths(order, toUpload) <= o.uploaded.Keys + o.notUploaded.Keys
  {
    if |order| > 0 {
      var init := order[..|order| - 1];
      var sid := order[|order| - 1];
      assert forall x :: x in init ==> x in order;
      SentCoversQueued(o0, init, toUpload, sessions, transcode, finalized);
      var before := Sent(o0, init, toUpload, sessions, transcode, finalized);
      var after := SendOne(before, sid, toUpload[sid], SessionRun(sessions(sid), toUpload[sid].doNotRematch, 0), transcode(toUpload[sid].path), finalized(sid));
      assert before.uploaded.Keys + before.notUploaded.Keys + {toUpload[sid].path} <= after.uploaded.Keys + after.notUploaded.Keys;
    }
  }

  /** The paths sent include the path of every file in the order. */
  lemma {:induction false} QueuedPathsCover(order: seq<string>, toUpload: map<string, Queued>)
    requires forall sid :: sid in order ==> sid in toUpload
    ensures forall sid :: sid in order ==> toUpload[sid].path in QueuedPaths(order, toUpload)
  {
    if |order| > 0 {
      var init := order[..|order| - 1];
      assert forall x :: x in init ==> x in order;
      QueuedPathsCover(init, toUpload);
      assert forall x :: x in order ==> x in init || x == order[|order| - 1];
    }
  }

  /** Sending one queued file: the session loop, then the transfer. */
  method SendQueued(o: Outcome, sid: string, q: Queued, replies: seq<SessionReply>, transcodeError: Option<string>, finalized: bool) returns (o': Outcome)
    requires MaxSessionAttempts <= |replies|
    ensures o' == SendOne(o, sid, q, SessionRun(replies, q.doNotRematch, 0), transcodeError, finalized)
  {
    o' := o;
    var session := GetSession(replies, q.doNotRematch);
    if session.GaveUp? {
      var errMsg := "GetUploadSession error " + Decimal(session.errorCode) + ": " + session.reason;
      o' := o'.(notUploaded := o'.notUploaded[q.path := errMsg]);
      return;
    }
    if !q.track.isMp3 && transcodeError.Some? {
      o' := o'.(notUploaded := o'.notUploaded[q.path := "transcoding error: " + transcodeError.value]);
      return;
    }
    if finalized {
      o' := o'.(uploaded := o'.uploaded[q.path := sid]);
    } else {
      o' := o'.(notUploaded := o'.notUploaded[q.path := NotFinalized]);
    }
  }

  /** The loop over to_upload's items, in the dictionary's iteration order. */
  method SendAll(o0: Outcome, order: seq<string>, toUpload: map<string, Queued>, sessions: string -> seq<SessionReply>,
                 transcode: string -> Option<string>, finalized: string -> bool) returns (o: Outcome)
    requires forall sid :: sid in order ==> sid in toUpload && MaxSessionAttempts <= |sessions(sid)|
    ensures o == Sent(o0, order, toUpload, sessions, transcode, finalized)
  {
    o := o0;
    for i := 0 to |order|
      invariant o == Sent(o0, order[..i], toUpload, sessions, transcode, finalized)
    {
      assert order[..i + 1][..i] == order[..i];
      assert forall sid :: sid in order[..i + 1] ==> sid in order;
      var sid := order[i];
      var q := toUpload[sid];
      o := SendQueued(o, sid, q, sessions(sid), transcode(q.path), finalized(sid));
    }
    assert order[..|order|] == order;
  }

  // ------------------------------------------------------------------
  // The client

  /** What UploadMetadata answered: the first sample responses and the client ids the server wants samples for. */
  datatype MetadataReply = MetadataReply(responses: seq<SampleResponse>, challenges: seq<string>)

  /** The three dictionaries upload returns. */
  datatype UploadResult = UploadResult(uploaded: map<string, string>, matched: map<string, string>, notUploaded: map<string, string>)

  /**
   * What upload hands back: the three dictionaries, or the single empty
   * dictionary `{}` that the empty-argument short-circuit returns in their
   * place.
   */
  datatype UploadReturn = Dicts(result: UploadResult) | EmptyDict

  /** An iteration order of a dictionary's keys: each key exactly once. */
  ghost predicate IterationOrder(orderOf: set<string> -> seq<string>)
  {
    forall ids: set<string> :: (forall sid :: sid in ids <==> sid in orderOf(ids)) && |orderOf(ids)| == |ids|
  }

  /** The steps of upload up to the sorted sample responses: gathering, samples, sorting. */
  function SortedFiles(paths: seq<string>, enableMatching: bool, fill: string -> Filled, metadata: MetadataReply,
                       provide: string -> SampleOutcome): Result<Sorting>
  {
    var g := Gathered(paths, fill);
    var p :- Provided(Provision(metadata.responses, g.notUploaded), metadata.challenges, g.localInfo, provide);
    Sorted(Sorting(map[], map[], p.notUploaded), p.responses, g.localInfo, enableMatching)
  }

  /** upload for an authenticated uploader: the three dictionaries, or the exception that ended it. */
  function UploadOutcome(paths: seq<string>, enableMatching: bool, fill: string -> Filled, metadata: MetadataReply,
                         provide: string -> SampleOutcome, orderOf: set<string> -> seq<string>,
                         sessions: string -> seq<SessionReply>, transcode: string -> Option<string>, finalized: string -> bool): Result<UploadResult>
    requires IterationOrder(orderOf)
    requires forall sid :: MaxSessionAttempts <= |sessions(sid)|
  {
    var g := Gathered(paths, fill);
    if g.localInfo == map[] then Ok(UploadResult(map[], map[], g.notUploaded))
    else
      var s :- SortedFiles(paths, enableMatching, fill, metadata, provide);
      var o := Sent(Outcome(map[], s.notUploaded), orderOf(s.toUpload.Keys), s.toUpload, sessions, transcode, finalized);
      Ok(UploadResult(o.uploaded, s.matched, o.notUploaded))
  }

  /**
   * Every file the server asked for is reported, uploaded or not, and every
   * failure recorded before sending is still reported.
   */
  lemma UploadReportsQueued(paths: seq<string>, enableMatching: bool, fill: string -> Filled, metadata: MetadataReply,
                            provide: string -> SampleOutcome, orderOf: set<string> -> seq<string>,
                            sessions: string -> seq<SessionReply>, transcode: string -> Option<string>, finalized: string -> bool)
    requires IterationOrder(orderOf)
    requires forall sid :: MaxSessionAttempts <= |sessions(sid)|
    requires Gathered(paths, fill).localInfo != map[]
    requires UploadOutcome(paths, enableMatching, fill, metadata, provide, orderOf, sessions, transcode, finalized).Ok?
    ensures SortedFiles(paths, enableMatching, fill, metadata, provide).Ok?
    ensures var s := SortedFiles(paths, enableMatching, fill, metadata, provide).value;
      var u := UploadOutcome(paths, enableMatching, fill, metadata, provide, orderOf, sessions, transcode, finalized).value;
      && (forall sid :: sid in s.toUpload ==> s.toUpload[sid].path in u.uploaded.Keys + u.notUploaded.Keys)
      && s.notUploaded.Keys <= u.uploaded.Keys + u.notUploaded.Keys
      && u.matched == s.matched
  {
    var s := SortedFiles(paths, enableMatching, fill, metadata, provide).value;
    var order := orderOf(s.toUpload.Keys);
    assert forall sid :: sid in order <==> sid in s.toUpload.Keys;
    QueuedPathsCover(order, s.toUpload);
    SentCoversQueued(Outcome(map[], s.notUploaded), order, s.toUpload, sessions, transcode, finalized);
  }

  /** The default uploader name: the host name tagged with the library version. */
  function DefaultUploaderName(hostname: string, version: string): string
  {
    hostname + " (gmusicapi-" + version + ")"
  }

  class Client {
    var uploaderId: Option<string>
    var uploaderName: Option<string>

    /** A fresh Musicmanager: not authenticated as an uploader. */
    constructor ()
      ensures uploaderId == None && uploaderName == None
    {
      uploaderId := None;
      uploaderName := None;
    }

    /**
     * _perform_upauth: settle the uploader id (OSError or ValueError when it
     * cannot) and name; the uploader is recorded exactly when
     * AuthenticateUploader succeeds, and False comes back when it fails.
     */
    method PerformUpauth(givenId: Option<string>, givenName: Option<string>, mac: nat, macString: nat -> string, isValid: string -> bool,
                         hostname: string, version: string, authenticated: bool) returns (r: Result<bool>)
      modifies this
      ensures var id := Clients.UploaderId(givenId, mac, macString, isValid);
        && (id.Err? ==> r == Err(id.error) && uploaderId == old(uploaderId) && uploaderName == old(uploaderName))
        && (id.Ok? && !authenticated ==> r == Ok(false) && uploaderId == old(uploaderId) && uploaderName == old(uploaderName))
        && (id.Ok? && authenticated ==>
              r == Ok(true) && uploaderId == Some(id.value) &&
              uploaderName == Some(if givenName.Some? then givenName.value else DefaultUploaderName(hostname, version)))
    {
      var id := Clients.UploaderId(givenId, mac, macString, isValid);
      if id.Err? {
        return Err(id.error);
      }
      var name := if givenName.Some? then givenName.value else DefaultUploaderName(hostname, version);
      if !authenticated {
        return Ok(false);
      }
      uploaderId := Some(id.value);
      uploaderName := Some(name);
      return Ok(true);
    }

    /**
     * upload: the empty-argument short-circuit's `{}` for no paths, before
     * the login test; NotLoggedIn without an uploader; nothing but the
     * gathering failures when no file could be read; otherwise every
     * reported path is one of the given files, and nothing is reported
     * matched unless matching is enabled.
     */
    method Upload(paths: seq<string>, enableMatching: bool, fill: string -> Filled, metadata: MetadataReply,
                  provide: string -> SampleOutcome, orderOf: set<string> -> seq<string>,
                  sessions: string -> seq<SessionReply>, transcode: string -> Option<string>, finalized: string -> bool)
      returns (r: Result<UploadReturn>)
      requires IterationOrder(orderOf)
      requires forall sid :: MaxSessionAttempts <= |sessions(sid)|
      ensures paths == [] ==> r == Ok(EmptyDict)
      ensures r == Ok(EmptyDict) ==> paths == []
      ensures paths != [] && (uploaderId.None? || uploaderName.None?) ==> r == Err(NotLoggedIn)
      ensures paths != [] && uploaderId.Some? && uploaderName.Some? ==>
        var o := UploadOutcome(paths, enableMatching, fill, metadata, provide, orderOf, sessions, transcode, finalized);
        r == if o.Ok? then Ok(Dicts(o.value)) else Err(o.error)
      ensures paths != [] && uploaderId.Some? && uploaderName.Some? && Gathered(paths, fill).localInfo == map[] ==>
        r == Ok(Dicts(UploadResult(map[], map[], Gathered(paths, fill).notUploaded)))
      ensures r.Ok? && r.value.Dicts? ==> var u := r.value.result;
        && u.uploaded.Keys <= (set p | p in paths)
        && u.matched.Keys <= (set p | p in paths)
        && u.notUploaded.Keys <= (set p | p in paths)
        && (!enableMatching ==> u.matched == map[])
    {
      if paths == [] {
        return Ok(EmptyDict);
      }
      if uploaderId.None? || uploaderName.None? {
        return Err(NotLoggedIn);
      }
      var inPaths := set p | p in paths;
      GatheredWithin(paths, fill);
      var g := GatherLocalInfo(paths, fill);
      if g.localInfo == map[] {
        return Ok(Dicts(UploadResult(map[], map[], g.notUploaded)));
      }
      var provided := ProvideSamples(Provision(metadata.responses, g.notUploaded), metadata.challenges, g.localInfo, provide);
      if provided.Err? {
        return Err(provided.error);
      }
      ProvidedWithin(Provision(metadata.responses, g.notUploaded), metadata.challenges, g.localInfo, provide);
      var s0 := Sorting(map[], map[], provided.value.notUploaded);
      var sorted := SortResponses(s0, provided.value.responses, g.localInfo, enableMatching);
      if sorted.Err? {
        return Err(sorted.error);
      }
      SortedWithin(s0, provided.value.responses, g.localInfo, enableMatching, inPaths);
      var s := sorted.value;
      var order := orderOf(s.toUpload.Keys);
      assert forall sid :: sid in order ==> sid in s.toUpload.Keys;
      var o0 := Outcome(map[], s.notUploaded);
      var o := SendAll(o0, order, s.toUpload, sessions, transcode, finalized);
      SentReportsQueued(o0, order, s.toUpload, sessions, transcode, finalized);
      QueuedPathsWithin(order, s.toUpload, inPaths);
      return Ok(Dicts(UploadResult(o.uploaded, s.matched, o.notUploaded)));
    }
  }
}
