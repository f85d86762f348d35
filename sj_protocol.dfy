/**
 * The REST ("sj") protocol: URL builders for the tracks and playlists
 * endpoints, the dispatch from a response's kind string to a model class,
 * the reconciliation of batch-mutation responses, and the decoding of
 * tracks and playlists responses into the model classes.
 */
module SjProtocol {
  import opened Py
  import opened Text
  import opened Models

  // ------------------------------------------------------------------
  // MusicURL

  const BaseUrl: string := "https://www.googleapis.com/sj/v1beta1/"
  const AudioPrefix: string := "https://music.google.com/music/play?songid="
  const BitrateKey: string := "&targetkbps="
  const AudioSuffix: string := "&pt=e"
  const DefaultBitrate: int := 256

  /** Python truthiness of an optional id argument (None and '' are falsy). */
  predicate GivenId(id: Option<string>)
  {
    id.Some? && id.value != ""
  }

  /** The collection URL, followed by '/<id>' only when the id is truthy. */
  function CollectionUrl(collection: string, id: Option<string>): (url: string)
    ensures |url| >= |BaseUrl + collection| && url[..|BaseUrl + collection|] == BaseUrl + collection
    ensures GivenId(id) <==> |url| > |BaseUrl + collection|
    ensures GivenId(id) ==> url[|BaseUrl + collection|..] == "/" + id.value
  {
    var url := BaseUrl + collection;
    if GivenId(id) then url + "/" + id.value else url
  }

  /** The id a collection URL names, read back from its tail. */
  function UrlId(collection: string, url: string): Option<string>
  {
    var stem := BaseUrl + collection + "/";
    if |url| > |stem| && url[..|stem|] == stem then Some(url[|stem|..]) else None
  }

  /** Reading the id back from a collection URL gives the id exactly when it was truthy. */
  lemma UrlIdRoundTrip(collection: string, id: Option<string>)
    ensures UrlId(collection, CollectionUrl(collection, id)) == (if GivenId(id) then id else None)
  {
    var url := CollectionUrl(collection, id);
    var stem := BaseUrl + collection + "/";
    if GivenId(id) {
      assert url == stem + id.value;
      assert url[..|stem|] == stem && url[|stem|..] == id.value;
    } else {
      assert |url| < |stem|;
    }
  }

  /** MusicURL.tracks(trackid). */
  function TracksUrl(trackid: Option<string>): (url: string)
    ensures UrlId("tracks", url) == (if GivenId(trackid) then trackid else None)
  {
    UrlIdRoundTrip("tracks", trackid);
    CollectionUrl("tracks", trackid)
  }

  /** MusicURL.playlists(plid). */
  function PlaylistsUrl(plid: Option<string>): (url: string)
    ensures UrlId("playlists", url) == (if GivenId(plid) then plid else None)
  {
    UrlIdRoundTrip("playlists", plid);
    CollectionUrl("playlists", plid)
  }

  /** A track URL and a playlist URL never coincide, whatever their ids. */
  lemma TracksAndPlaylistsDiffer(trackid: Option<string>, plid: Option<string>)
    ensures TracksUrl(trackid) != PlaylistsUrl(plid)
  {
    var t := TracksUrl(trackid);
    var p := PlaylistsUrl(plid);
    assert t[..|BaseUrl + "tracks"|] == BaseUrl + "tracks";
    assert p[..|BaseUrl + "playlists"|] == BaseUrl + "playlists";
    assert t[|BaseUrl|] == 't' && p[|BaseUrl|] == 'p';
  }

  /** MusicURL.track_audio(trackid, bitrate=256): the id and the %d bitrate spliced into the play URL. */
  function TrackAudioUrl(trackid: string, bitrate: int := DefaultBitrate): (url: string)
    ensures |url| == |AudioPrefix| + |trackid| + |BitrateKey| + |Decimal(bitrate)| + |AudioSuffix|
    ensures url[..|AudioPrefix|] == AudioPrefix
    ensures url[|AudioPrefix|..|AudioPrefix| + |trackid|] == trackid
  {
    var url := AudioPrefix + trackid + BitrateKey + Decimal(bitrate) + AudioSuffix;
    assert url[..|AudioPrefix|] == AudioPrefix;
    assert url[|AudioPrefix|..|AudioPrefix| + |trackid|] == trackid;
    url
  }

  /** The bitrate can be read back from an audio URL once its track id is known. */
  lemma TrackAudioBitrate(trackid: string, bitrate: int)
    ensures var url := TrackAudioUrl(trackid, bitrate);
      var lo := |AudioPrefix| + |trackid| + |BitrateKey|;
      ParseInt(url[lo..|url| - |AudioSuffix|]) == Some(bitrate)
  {
    var url := TrackAudioUrl(trackid, bitrate);
    var lo := |AudioPrefix| + |trackid| + |BitrateKey|;
    var head := AudioPrefix + trackid + BitrateKey;
    assert url == head + Decimal(bitrate) + AudioSuffix;
    assert url[lo..|url| - |AudioSuffix|] == Decimal(bitrate);
    ParseIntDecimal(bitrate);
  }

  /** MusicURL.playlist_entries(plid): the entries of one playlist, selected by a query parameter. */
  function PlaylistEntriesUrl(plid: string): (url: string)
    ensures |url| == |BaseUrl + "plentries?plid="| + |plid|
    ensures url[..|BaseUrl + "plentries?plid="|] == BaseUrl + "plentries?plid="
    ensures url[|BaseUrl + "plentries?plid="|..] == plid
  {
    var stem := BaseUrl + "plentries?plid=";
    assert (stem + plid)[..|stem|] == stem && (stem + plid)[|stem|..] == plid;
    stem + plid
  }

  /** MusicURL.playlist_entry(pleid): one entry, selected by path. */
  function PlaylistEntryUrl(pleid: string): (url: string)
    ensures UrlId("plentries", url) == (if pleid != "" then Some(pleid) else None)
  {
    UrlIdRoundTrip("plentries", Some(pleid));
    BaseUrl + "plentries/" + pleid
  }

  /** An entries URL and an entry URL never coincide: '?' and '/' follow the shared stem. */
  lemma EntriesAndEntryDiffer(plid: string, pleid: string)
    ensures PlaylistEntriesUrl(plid) != PlaylistEntryUrl(pleid)
  {
    var a := PlaylistEntriesUrl(plid);
    var b := PlaylistEntryUrl(pleid);
    var k := |BaseUrl + "plentries"|;
    assert a[..k + 1] == BaseUrl + "plentries?";
    assert b == BaseUrl + "plentries/" + pleid;
    assert b[..k + 1] == BaseUrl + "plentries/";
    assert a[k] == '?' && b[k] == '/';
  }

  /** MusicURL.playlist_batch() and MusicURL.plentries_batch(). */
  const PlaylistBatchUrl: string := BaseUrl + "playlistbatch"
  const PlentriesBatchUrl: string := BaseUrl + "plentriesbatch"

  /** The two batch endpoints are distinct and neither names a single track or playlist. */
  lemma BatchUrlsDistinct(trackid: Option<string>, plid: Option<string>)
    ensures PlaylistBatchUrl != PlentriesBatchUrl
    ensures UrlId("tracks", PlaylistBatchUrl) == None && UrlId("playlists", PlentriesBatchUrl) == None
  {
    assert PlaylistBatchUrl[|BaseUrl| + 1] == 'l' && PlentriesBatchUrl[|BaseUrl| + 1] == 'l';
    assert PlaylistBatchUrl[|BaseUrl| + 2] == 'a' && PlentriesBatchUrl[|BaseUrl| + 2] == 'e';
    assert PlaylistBatchUrl[|BaseUrl|] != 't';
    assert PlentriesBatchUrl[|BaseUrl| + 1] != 'l' || PlentriesBatchUrl[|BaseUrl| + 2] != 'a';
  }

  // ------------------------------------------------------------------
  // _handle_mutate_response

  /** What _handle_mutate_response returns: True when there is no mutate_response, else the ids. */
  datatype MutateOutcome = NoMutations | Ids(ids: seq<Value>)

  /** `for mutation in mutations` over a decoded value: an empty string or dict yields nothing. */
  function MutationList(v: Value): Result<seq<Value>>
  {
    match v
    case Arr(a) => Ok(a)
    case Str(s) => if s == "" then Ok([]) else Err(TypeError("string indices must be integers"))
    case Obj(o) => if o == map[] then Ok([]) else Err(TypeError("string indices must be integers"))
    case _ => Err(TypeError("object is not iterable"))
  }

  /** One mutation: its response_code must be 'OK'; its id, when it has one. */
  function MutationId(m: Value): (r: Result<Option<Value>>)
    ensures r.Ok? <==> m.Obj? && "response_code" in m.fields && m.fields["response_code"] == Str("OK")
    ensures r.Ok? ==> (r.value.Some? <==> "id" in m.fields)
    ensures r.Ok? && r.value.Some? ==> r.value.value == m.fields["id"]
  {
    match m
    case Obj(f) =>
      if "response_code" !in f then Err(KeyError("response_code"))
      else if f["response_code"] != Str("OK") then Err(ValueError(""))
      else if "id" in f then Ok(Some(f["id"])) else Ok(None)
    case _ => Err(TypeError("indices must be integers"))
  }

  /** The ids collected from the mutations, in order, or the exception of the first one that raises. */
  function MutationIds(ms: seq<Value>): Result<seq<Value>>
  {
    if |ms| == 0 then Ok([])
    else
      match MutationIds(ms[..|ms| - 1])
      case Err(e) => Err(e)
      case Ok(ids) =>
        match MutationId(ms[|ms| - 1])
        case Err(e) => Err(e)
        case Ok(id) => Ok(if id.Some? then ids + [id.value] else ids)
  }

  /** The reply to a batch call, given its decoded JSON object. */
  function MutateResponse(jsobj: map<string, Value>): Result<MutateOutcome>
  {
    if "mutate_response" !in jsobj then Ok(NoMutations)
    else
      var ms :- MutationList(jsobj["mutate_response"]);
      var ids :- MutationIds(ms);
      Ok(Ids(ids))
  }

  /** The collected ids fail exactly when some mutation fails, and then with the first failure's exception. */
  lemma {:induction false} MutationIdsErr(ms: seq<Value>)
    ensures MutationIds(ms).Err? <==> exists k :: 0 <= k < |ms| && MutationId(ms[k]).Err?
    ensures MutationIds(ms).Err? ==>
      exists k ::
        && 0 <= k < |ms| && MutationId(ms[k]).Err?
        && MutationIds(ms).error == MutationId(ms[k]).error
        && (forall j :: 0 <= j < k ==> MutationId(ms[j]).Ok?)
  {
    if |ms| > 0 {
      var init := ms[..|ms| - 1];
      MutationIdsErr(init);
      assert forall k :: 0 <= k < |init| ==> init[k] == ms[k];
    }
  }

  /** The ids of the mutations that carry one, front to back. */
  function PresentIds(ms: seq<Value>): seq<Value>
  {
    if |ms| == 0 then []
    else (if ms[0].Obj? && "id" in ms[0].fields then [ms[0].fields["id"]] else []) + PresentIds(ms[1..])
  }

  lemma {:induction false} PresentIdsAppend(ms: seq<Value>, m: Value)
    ensures PresentIds(ms + [m]) == PresentIds(ms) + (if m.Obj? && "id" in m.fields then [m.fields["id"]] else [])
  {
    if |ms| > 0 {
      assert (ms + [m])[1..] == ms[1..] + [m];
      PresentIdsAppend(ms[1..], m);
    }
  }

  /** On success the ids are exactly the ids present, in mutation order. */
  lemma {:induction false} MutationIdsOk(ms: seq<Value>)
    requires MutationIds(ms).Ok?
    ensures MutationIds(ms).value == PresentIds(ms)
  {
    if |ms| > 0 {
      var init := ms[..|ms| - 1];
      MutationIdsOk(init);
      PresentIdsAppend(init, ms[|ms| - 1]);
      assert init + [ms[|ms| - 1]] == ms;
    }
  }

  /** Once a prefix of the mutations fails, the whole loop fails with that exception. */
  lemma {:induction false} MutationIdsPrefixErr(ms: seq<Value>, i: nat)
    requires i <= |ms| && MutationIds(ms[..i]).Err?
    ensures MutationIds(ms) == MutationIds(ms[..i])
    decreases |ms| - i
  {
    if i < |ms| {
      assert ms[..i + 1][..i] == ms[..i];
      MutationIdsPrefixErr(ms, i + 1);
    } else {
      assert ms[..i] == ms;
    }
  }

  /** When every mutation succeeds and carries an id, the ids are the mutations' ids one for one. */
  lemma {:induction false} MutationIdsAll(ms: seq<Value>)
    requires forall k :: 0 <= k < |ms| ==> MutationId(ms[k]).Ok? && MutationId(ms[k]).value.Some?
    ensures MutationIds(ms).Ok?
    ensures |MutationIds(ms).value| == |ms|
    ensures forall k :: 0 <= k < |ms| ==> MutationIds(ms).value[k] == MutationId(ms[k]).value.value
  {
    if |ms| > 0 {
      var init := ms[..|ms| - 1];
      assert forall k :: 0 <= k < |init| ==> init[k] == ms[k];
      MutationIdsAll(init);
    }
  }

  /** Without a mutate_response key the reply is True; with one it is never True. */
  lemma MutateResponseNoKey(jsobj: map<string, Value>)
    ensures MutateResponse(jsobj) == Ok(NoMutations) <==> "mutate_response" !in jsobj
  {
  }

  /** A response_code other than 'OK' on a dictionary mutation makes the whole reply a failure. */
  lemma MutateResponseRejects(jsobj: map<string, Value>, k: nat)
    requires "mutate_response" in jsobj && jsobj["mutate_response"].Arr?
    requires k < |jsobj["mutate_response"].items|
    requires var m := jsobj["mutate_response"].items[k];
      m.Obj? && "response_code" in m.fields && m.fields["response_code"] != Str("OK")
    ensures MutateResponse(jsobj).Err?
  {
    var ms := jsobj["mutate_response"].items;
    assert MutationId(ms[k]).Err?;
    MutationIdsErr(ms);
  }

  /** _handle_mutate_response: the loop collecting the ids of the mutations that carry one. */
  method HandleMutateResponse(jsobj: map<string, Value>) returns (r: Result<MutateOutcome>)
    ensures r == MutateResponse(jsobj)
  {
    if "mutate_response" !in jsobj {
      return Ok(NoMutations);
    }
    var mutations := MutationList(jsobj["mutate_response"]);
    if mutations.Err? {
      return Err(mutations.error);
    }
    var ms := mutations.value;
    var ids: seq<Value> := [];
    for i := 0 to |ms|
      invariant MutationIds(ms[..i]) == Ok(ids)
    {
      assert ms[..i + 1][..i] == ms[..i];
      var m := ms[i];
      var checked := MutationId(m);
      if checked.Err? {
        MutationIdsPrefixErr(ms, i + 1);
        if !m.Obj? {
          return Err(TypeError("indices must be integers"));
        }
        if "response_code" !in m.fields {
          return Err(KeyError("response_code"));
        }
        return Err(ValueError(""));
      }
      if "id" in m.fields {
        ids := ids + [m.fields["id"]];
      }
    }
    assert ms[..|ms|] == ms;
    return Ok(Ids(ids));
  }

  // ------------------------------------------------------------------
  // _kind_to_model

  /** The model classes a kind string selects. */
  datatype ModelClass = TrackModel | TrackListModel | PlaylistModel | PlaylistListModel | PlaylistEntryModel | PlaylistEntryListModel

  /** The kind strings of the playlist-entry classes, which are defined outside this model. */
  const PlaylistEntryKind: string := "sj#playlistEntry"
  const PlaylistEntryListKind: string := "sj#playlistEntryList"

  /** Each class's kind(). */
  function ModelKind(m: ModelClass): string
  {
    match m
    case TrackModel => TrackKind
    case TrackListModel => TrackListKind
    case PlaylistModel => PlaylistKind
    case PlaylistListModel => PlaylistListKind
    case PlaylistEntryModel => PlaylistEntryKind
    case PlaylistEntryListModel => PlaylistEntryListKind
  }

  /** _kind_to_model: the class whose kind() equals the value, else ValueError. */
  function KindToModel(kind: Value): (r: Result<ModelClass>)
    ensures r.Ok? ==> kind == Str(ModelKind(r.value))
    ensures r.Err? ==> r.error == ValueError("")
  {
    if kind == Str(TrackKind) then Ok(TrackModel)
    else if kind == Str(TrackListKind) then Ok(TrackListModel)
    else if kind == Str(PlaylistKind) then Ok(PlaylistModel)
    else if kind == Str(PlaylistListKind) then Ok(PlaylistListModel)
    else if kind == Str(PlaylistEntryKind) then Ok(PlaylistEntryModel)
    else if kind == Str(PlaylistEntryListKind) then Ok(PlaylistEntryListModel)
    else Err(ValueError(""))
  }

  /** Every class is found again from its own kind, so the six kinds are distinct. */
  lemma KindToModelRoundTrip(m: ModelClass)
    ensures KindToModel(Str(ModelKind(m))) == Ok(m)
  {
    assert TrackKind[3] == 't' && TrackListKind[3] == 't' && PlaylistKind[3] == 'p';
    assert TrackKind != TrackListKind by { assert |TrackKind| != |TrackListKind|; }
    assert PlaylistListKind[3] == 'p' && PlaylistEntryKind[3] == 'p' && PlaylistEntryListKind[3] == 'p';
    assert |PlaylistKind| == 11 && |PlaylistListKind| == 15 && |PlaylistEntryKind| == 16 && |PlaylistEntryListKind| == 20;
  }

  /** The dispatch fails closed: a value that is not one of the six kind strings is a ValueError. */
  lemma KindToModelFailsClosed(kind: Value)
    requires forall m: ModelClass :: kind != Str(ModelKind(m))
    ensures KindToModel(kind) == Err(ValueError(""))
  {
  }

  // ------------------------------------------------------------------
  // tracks / playlists

  /** The exception raised by calling Track or Playlist with a jsdata argument they do not accept. */
  const ConstructorArity: Error := TypeError("__init__() takes exactly 1 argument (2 given)")

  /**
   * SJ_Protocol.tracks on a decoded response: the model class the kind
   * selects is called with the whole object; a TrackList yields its items
   * and every other class yields None.
   */
  method Tracks(jsdata: map<string, Value>) returns (r: Result<Option<seq<Track>>>)
    ensures "kind" !in jsdata ==> r == Err(KeyError("kind"))
    ensures "kind" in jsdata && KindToModel(jsdata["kind"]).Err? ==> r == Err(ValueError(""))
    ensures "kind" in jsdata && KindToModel(jsdata["kind"]) in {Ok(TrackModel), Ok(PlaylistModel)} ==> r == Err(ConstructorArity)
    ensures "kind" in jsdata && KindToModel(jsdata["kind"]) in {Ok(PlaylistEntryModel), Ok(PlaylistEntryListModel)} ==> r == Ok(None)
    ensures "kind" in jsdata && KindToModel(jsdata["kind"]) == Ok(TrackListModel) ==>
      var (result, _, records) := ListFromJson(jsdata, TrackListKind, NewTrackAttrs(), TrackKind);
      (r.Ok? <==> result.Ok?) && (r.Err? ==> r.error == result.error) &&
      (r.Ok? ==> r.value.Some? && TrackAttrs(r.value.value) == records)
    ensures "kind" in jsdata && KindToModel(jsdata["kind"]) == Ok(PlaylistListModel) ==>
      var (result, _, _) := ListFromJson(jsdata, PlaylistListKind, NewPlaylistAttrs(), PlaylistKind);
      (r.Ok? <==> result.Ok?) && (r.Err? ==> r.error == result.error) && (r.Ok? ==> r.value == None)
  {
    if "kind" !in jsdata {
      return Err(KeyError("kind"));
    }
    var model := KindToModel(jsdata["kind"]);
    if model.Err? {
      return Err(model.error);
    }
    match model.value {
      case TrackModel =>
        return Err(ConstructorArity);
      case PlaylistModel =>
        return Err(ConstructorArity);
      case TrackListModel =>
        var tl := NewTrackList(jsdata);
        if tl.Err? {
          return Err(tl.error);
        }
        return Ok(Some(tl.value.items));
      case PlaylistListModel =>
        var pl := NewPlaylistList(jsdata);
        if pl.Err? {
          return Err(pl.error);
        }
        return Ok(None);
      case PlaylistEntryModel =>
        return Ok(None);
      case PlaylistEntryListModel =>
        return Ok(None);
    }
  }

  /** SJ_Protocol.playlists: as tracks, with a PlaylistList yielding its items. */
  method Playlists(jsdata: map<string, Value>) returns (r: Result<Option<seq<Playlist>>>)
    ensures "kind" !in jsdata ==> r == Err(KeyError("kind"))
    ensures "kind" in jsdata && KindToModel(jsdata["kind"]).Err? ==> r == Err(ValueError(""))
    ensures "kind" in jsdata && KindToModel(jsdata["kind"]) in {Ok(TrackModel), Ok(PlaylistModel)} ==> r == Err(ConstructorArity)
    ensures "kind" in jsdata && KindToModel(jsdata["kind"]) in {Ok(PlaylistEntryModel), Ok(PlaylistEntryListModel)} ==> r == Ok(None)
    ensures "kind" in jsdata && KindToModel(jsdata["kind"]) == Ok(PlaylistListModel) ==>
      var (result, _, records) := ListFromJson(jsdata, PlaylistListKind, NewPlaylistAttrs(), PlaylistKind);
      (r.Ok? <==> result.Ok?) && (r.Err? ==> r.error == result.error) &&
      (r.Ok? ==> r.value.Some? && PlaylistAttrs(r.value.value) == records)
    ensures "kind" in jsdata && KindToModel(jsdata["kind"]) == Ok(TrackListModel) ==>
      var (result, _, _) := ListFromJson(jsdata, TrackListKind, NewTrackAttrs(), TrackKind);
      (r.Ok? <==> result.Ok?) && (r.Err? ==> r.error == result.error) && (r.Ok? ==> r.value == None)
  {
    if "kind" !in jsdata {
      return Err(KeyError("kind"));
    }
    var model := KindToModel(jsdata["kind"]);
    if model.Err? {
      return Err(model.error);
    }
    match model.value {
      case TrackModel =>
        return Err(ConstructorArity);
      case PlaylistModel =>
        return Err(ConstructorArity);
      case TrackListModel =>
        var tl := NewTrackList(jsdata);
        if tl.Err? {
          return Err(tl.error);
        }
        return Ok(None);
      case PlaylistListModel =>
        var pl := NewPlaylistList(jsdata);
        if pl.Err? {
          return Err(pl.error);
        }
        return Ok(Some(pl.value.items));
      case PlaylistEntryModel =>
        return Ok(None);
      case PlaylistEntryListModel =>
        return Ok(None);
    }
  }
}
