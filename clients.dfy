/**
 * Client-side decision logic of the Webclient and Musicmanager clients that
 * does not touch the upload pipeline: the uploader MAC rule, the
 * continuation-token chunk loop, grouping playlists by title, the playlist
 * id dictionary, removing songs from a playlist, and the search and stream
 * replies. Every server call is a parameter holding the server's reply.
 */
module Clients {
  import opened Py
  import opened Text

  // ------------------------------------------------------------------
  // _perform_upauth: the uploader MAC

  const Bit40: nat := 0x100_0000_0000
  const MacSpace: nat := 0x1_0000_0000_0000

  /**
   * The MAC an uploader id is derived from: a MAC with bit 40 set is not a
   * valid hardware address (OSError); otherwise the next MAC, modulo 2^48.
   */
  function DerivedMac(mac: nat): (r: Result<nat>)
    ensures r.Err? <==> (mac / Bit40) % 2 == 1
    ensures r.Err? ==> r.error.OSError?
    ensures r.Ok? ==> r.value < MacSpace
  {
    if (mac / Bit40) % 2 == 1 then Err(OSError("a valid MAC could not be determined."))
    else Ok((mac + 1) % MacSpace)
  }

  /** The derived MAC never equals the machine's own, so the uploader is told apart from a Music Manager there. */
  lemma DerivedMacDiffers(mac: nat)
    requires DerivedMac(mac).Ok?
    ensures DerivedMac(mac).value != mac % MacSpace
  {
    var m := mac % MacSpace;
    assert mac == (mac / MacSpace) * MacSpace + m;
    if m + 1 < MacSpace {
      assert (mac + 1) % MacSpace == m + 1 by {
        assert mac + 1 == (mac / MacSpace) * MacSpace + (m + 1);
      }
    } else {
      assert (mac + 1) % MacSpace == 0 by {
        assert mac + 1 == (mac / MacSpace + 1) * MacSpace;
      }
    }
  }

  /**
   * For a 48-bit MAC the modulus never wraps: the all-ones MAC has bit 40
   * set and is refused, so an accepted MAC gives exactly mac + 1.
   */
  lemma DerivedMacNoWrap(mac: nat)
    requires mac < MacSpace && DerivedMac(mac).Ok?
    ensures DerivedMac(mac).value == mac + 1
  {
  }

  /**
   * The uploader id _perform_upauth settles on: the given one, or the MAC
   * string of the derived MAC; ValueError when it is not a valid MAC string.
   */
  function UploaderId(given: Option<string>, mac: nat, macString: nat -> string, isValid: string -> bool): (r: Result<string>)
    ensures given.None? && DerivedMac(mac).Err? ==> r == Err(DerivedMac(mac).error)
    ensures r.Ok? ==> isValid(r.value)
    ensures r.Ok? ==> r.value == (if given.Some? then given.value else macString(DerivedMac(mac).value))
    ensures r.Err? && r.error.ValueError? ==> !isValid(if given.Some? then given.value else macString(DerivedMac(mac).value))
  {
    var id :- if given.Some? then Ok(given.value) else (var m :- DerivedMac(mac); Ok(macString(m)));
    if isValid(id) then Ok(id) else Err(ValueError("uploader_id is not in a valid form."))
  }

  // ------------------------------------------------------------------
  // get_all_songs: the continuation-token chunk loop

  /** One library chunk: its songs, and its continuation token when the key is present. */
  datatype Chunk<S> = Chunk(songs: seq<S>, token: Option<Value>)

  /** The server eventually sends a chunk without a continuation token. */
  predicate Ends<S>(replies: seq<Chunk<S>>)
  {
    exists k :: 0 <= k < |replies| && replies[k].token.None?
  }

  /** How many chunks the loop reads: up to and including the first one without a token. */
  function ChunksRead<S>(replies: seq<Chunk<S>>): (n: nat)
    requires Ends(replies)
    ensures 1 <= n <= |replies|
    ensures replies[n - 1].token.None?
    ensures forall i :: 0 <= i < n - 1 ==> replies[i].token.Some?
    decreases |replies|
  {
    if replies[0].token.None? then 1
    else
      assert Ends(replies[1..]) by {
        var k :| 0 <= k < |replies| && replies[k].token.None?;
        assert replies[1..][k - 1] == replies[k];
      }
      1 + ChunksRead(replies[1..])
  }

  /** Every song of the given chunks, converted, chunk after chunk. */
  function Flatten<S, T>(chunks: seq<Chunk<S>>, convert: S -> T): (r: seq<T>)
  {
    if |chunks| == 0 then []
    else
      var last := chunks[|chunks| - 1].songs;
      Flatten(chunks[..|chunks| - 1], convert) + seq(|last|, i requires 0 <= i < |last| => convert(last[i]))
  }

  /** The total number of songs in the chunks. */
  function SongCount<S>(chunks: seq<Chunk<S>>): nat
  {
    if |chunks| == 0 then 0 else SongCount(chunks[..|chunks| - 1]) + |chunks[|chunks| - 1].songs|
  }

  /** Flattening keeps every song: j-th song of chunk i sits after all songs of the earlier chunks. */
  lemma {:induction false} FlattenPlaces<S, T>(chunks: seq<Chunk<S>>, convert: S -> T, i: nat, j: nat)
    requires i < |chunks| && j < |chunks[i].songs|
    ensures |Flatten(chunks, convert)| == SongCount(chunks)
    ensures SongCount(chunks[..i]) + j < SongCount(chunks)
    ensures Flatten(chunks, convert)[SongCount(chunks[..i]) + j] == convert(chunks[i].songs[j])
  {
    var init := chunks[..|chunks| - 1];
    FlattenLength(init, convert);
    if i < |chunks| - 1 {
      assert init[i] == chunks[i];
      assert init[..i] == chunks[..i];
      FlattenPlaces(init, convert, i, j);
    } else {
      assert chunks[..i] == init;
    }
  }

  lemma {:induction false} FlattenLength<S, T>(chunks: seq<Chunk<S>>, convert: S -> T)
    ensures |Flatten(chunks, convert)| == SongCount(chunks)
  {
    if |chunks| > 0 {
      FlattenLength(chunks[..|chunks| - 1], convert);
    }
  }

  lemma FlattenSnoc<S, T>(chunks: seq<Chunk<S>>, c: Chunk<S>, convert: S -> T)
    ensures Flatten(chunks + [c], convert) == Flatten(chunks, convert) + seq(|c.songs|, i requires 0 <= i < |c.songs| => convert(c.songs[i]))
  {
    assert (chunks + [c])[..|chunks|] == chunks;
  }

  /**
   * _get_all_songs flattened: fetch chunks starting with a None token,
   * sending each chunk's token back, until a chunk comes without one.
   */
  method CollectChunks<S, T>(replies: seq<Chunk<S>>, convert: S -> T) returns (songs: seq<T>, ghost sent: seq<Option<Value>>)
    requires Ends(replies)
    ensures songs == Flatten(replies[..ChunksRead(replies)], convert)
    ensures |sent| == ChunksRead(replies) && sent[0] == None
    ensures forall i :: 0 < i < |sent| ==> sent[i] == replies[i - 1].token
  {
    var n := ChunksRead(replies);
    songs := [];
    sent := [];
    var token: Option<Value> := None;
    var i := 0;
    var more := true;
    while more
      invariant 0 <= i <= n
      invariant more <==> i < n
      invariant songs == Flatten(replies[..i], convert)
      invariant |sent| == i && (i > 0 ==> sent[0] == None)
      invariant forall k :: 0 < k < i ==> sent[k] == replies[k - 1].token
      invariant i < n ==> token == (if i == 0 then None else replies[i - 1].token)
      decreases n - i
    {
      sent := sent + [token];
      var chunk := replies[i];
      FlattenSnoc(replies[..i], chunk, convert);
      assert replies[..i + 1] == replies[..i] + [chunk];
      songs := songs + seq(|chunk.songs|, k requires 0 <= k < |chunk.songs| => convert(chunk.songs[k]));
      more := chunk.token.Some?;
      token := chunk.token;
      i := i + 1;
    }
  }

  /** A Musicmanager DownloadTrackInfo record. */
  datatype TrackInfo = TrackInfo(id: string, title: string, album: string, albumArtist: string, artist: string, trackNumber: int, trackSize: int)

  /** getattr(track_info, name): the record's field of that name, None (an AttributeError) for any other name. */
  function TrackInfoAttr(info: TrackInfo, name: string): Option<Value>
  {
    match name
    case "id" => Some(Str(info.id))
    case "title" => Some(Str(info.title))
    case "album" => Some(Str(info.album))
    case "album_artist" => Some(Str(info.albumArtist))
    case "artist" => Some(Str(info.artist))
    case "track_number" => Some(Int(info.trackNumber))
    case "track_size" => Some(Int(info.trackSize))
    case _ => None
  }

  /** The field names _track_info_to_dict copies. */
  const TrackInfoKeys: set<string> := {"id", "title", "album", "album_artist", "artist", "track_number", "track_size"}

  /** _track_info_to_dict: the seven fields, each under its own name with getattr's value. */
  function TrackInfoToDict(info: TrackInfo): (d: map<string, Value>)
    ensures d.Keys == TrackInfoKeys
    ensures forall k :: k in d ==> TrackInfoAttr(info, k) == Some(d[k])
  {
    map k | k in TrackInfoKeys :: TrackInfoAttr(info, k).value
  }

  /** The dictionary gives the record back: two records with the same dictionary are the same record. */
  lemma TrackInfoToDictInjective(a: TrackInfo, b: TrackInfo)
    requires TrackInfoToDict(a) == TrackInfoToDict(b)
    ensures a == b
  {
    var da := TrackInfoToDict(a);
    assert TrackInfoAttr(a, "id") == Some(da["id"]) == TrackInfoAttr(b, "id");
    assert TrackInfoAttr(a, "title") == Some(da["title"]) == TrackInfoAttr(b, "title");
    assert TrackInfoAttr(a, "album") == Some(da["album"]) == TrackInfoAttr(b, "album");
    assert TrackInfoAttr(a, "album_artist") == Some(da["album_artist"]) == TrackInfoAttr(b, "album_artist");
    assert TrackInfoAttr(a, "artist") == Some(da["artist"]) == TrackInfoAttr(b, "artist");
    assert TrackInfoAttr(a, "track_number") == Some(da["track_number"]) == TrackInfoAttr(b, "track_number");
    assert TrackInfoAttr(a, "track_size") == Some(da["track_size"]) == TrackInfoAttr(b, "track_size");
  }

  // ------------------------------------------------------------------
  // _playlist_list_to_dict

  /** A playlist dictionary's (title, playlistId) pair, as the generator reads it. */
  function TitleAndId(p: Value): (r: Result<(Value, Value)>)
    ensures r.Ok? <==> p.Obj? && "title" in p.fields && "playlistId" in p.fields && !p.fields["title"].Arr? && !p.fields["title"].Obj?
    ensures r.Ok? ==> r.value == (p.fields["title"], p.fields["playlistId"])
  {
    if !p.Obj? then Err(TypeError("indices must be integers"))
    else if "title" !in p.fields then Err(KeyError("title"))
    else if "playlistId" !in p.fields then Err(KeyError("playlistId"))
    else if p.fields["title"].Arr? || p.fields["title"].Obj? then Err(TypeError("unhashable type"))
    else Ok((p.fields["title"], p.fields["playlistId"]))
  }

  /** The dictionary built so far: each playlist id appended to its title's list. */
  function Grouped(pls: seq<Value>): Result<map<Value, seq<Value>>>
  {
    if |pls| == 0 then Ok(map[])
    else
      var before :- Grouped(pls[..|pls| - 1]);
      var pair :- TitleAndId(pls[|pls| - 1]);
      var (name, pid) := pair;
      Ok(before[name := (if name in before then before[name] else []) + [pid]])
  }

  /** The id a playlist contributes under the given title: its id when the title matches. */
  function IdIfTitled(p: Value, name: Value): seq<Value>
  {
    match TitleAndId(p)
    case Ok(pair) => if pair.0 == name then [pair.1] else []
    case Err(_) => []
  }

  /** The ids of the playlists with the given title, front to back. */
  function IdsTitled(pls: seq<Value>, name: Value): seq<Value>
  {
    if |pls| == 0 then [] else IdIfTitled(pls[0], name) + IdsTitled(pls[1..], name)
  }

  lemma {:induction false} IdsTitledSnoc(pls: seq<Value>, p: Value, name: Value)
    ensures IdsTitled(pls + [p], name) == IdsTitled(pls, name) + IdIfTitled(p, name)
  {
    if |pls| > 0 {
      assert (pls + [p])[0] == pls[0];
      assert (pls + [p])[1..] == pls[1..] + [p];
      IdsTitledSnoc(pls[1..], p, name);
    }
  }

  /**
   * Grouping fails exactly when some playlist lacks a title or id; then
   * every title maps to the ids of its playlists, each exactly once, in
   * input order, and no other title appears.
   */
  lemma {:induction false} GroupedByTitle(pls: seq<Value>)
    ensures Grouped(pls).Ok? <==> forall i :: 0 <= i < |pls| ==> TitleAndId(pls[i]).Ok?
    ensures Grouped(pls).Ok? ==> forall name ::
      (name in Grouped(pls).value <==> IdsTitled(pls, name) != []) &&
      (name in Grouped(pls).value ==> Grouped(pls).value[name] == IdsTitled(pls, name))
  {
    if |pls| > 0 {
      var init := pls[..|pls| - 1];
      var p := pls[|pls| - 1];
      GroupedByTitle(init);
      assert init + [p] == pls;
      assert forall i :: 0 <= i < |init| ==> init[i] == pls[i];
      if Grouped(pls).Ok? {
        forall name
          ensures (name in Grouped(pls).value <==> IdsTitled(pls, name) != [])
          ensures (name in Grouped(pls).value ==> Grouped(pls).value[name] == IdsTitled(pls, name))
        {
          IdsTitledSnoc(init, p, name);
        }
      }
    }
  }

  /** _playlist_list_to_dict: the loop appending each playlist id under its title. */
  method PlaylistListToDict(pls: seq<Value>) returns (r: Result<map<Value, seq<Value>>>)
    ensures r == Grouped(pls)
  {
    var d: map<Value, seq<Value>> := map[];
    for i := 0 to |pls|
      invariant Grouped(pls[..i]) == Ok(d)
    {
      assert pls[..i + 1][..i] == pls[..i];
      var pair := TitleAndId(pls[i]);
      if pair.Err? {
        GroupedPrefixErr(pls, i + 1);
        return Err(pair.error);
      }
      var (name, pid) := pair.value;
      // setdefault(name, []).append(pid)
      var ids := if name in d then d[name] else [];
      d := d[name := ids + [pid]];
      assert pls[..i + 1][i] == pls[i];
    }
    assert pls[..|pls|] == pls;
    return Ok(d);
  }

  /** Once a prefix fails, the whole grouping fails with that exception. */
  lemma {:induction false} GroupedPrefixErr(pls: seq<Value>, i: nat)
    requires i <= |pls| && Grouped(pls[..i]).Err?
    ensures Grouped(pls) == Grouped(pls[..i])
    decreases |pls| - i
  {
    if i < |pls| {
      assert pls[..i + 1][..i] == pls[..i];
      GroupedPrefixErr(pls, i + 1);
    } else {
      assert pls[..i] == pls;
    }
  }

  // ------------------------------------------------------------------
  // Webclient.get_all_playlist_ids

  /**
   * `for p in playlists`: a list gives its items and a string its
   * one-character strings; a dictionary gives its keys, which are strings,
   * so a non-empty one already raises at the first p["title"] whatever the
   * order of its keys; any other value is not iterable.
   */
  function PlaylistItems(v: Value): (r: Result<seq<Value>>)
    ensures v.Arr? ==> r == Ok(v.items)
    ensures v.Str? ==> r.Ok? && |r.value| == |v.s| && forall i :: 0 <= i < |v.s| ==> r.value[i] == Str([v.s[i]])
    ensures v.Obj? ==> (r.Ok? <==> v.fields == map[]) && (r.Ok? ==> r.value == [])
    ensures r.Err? <==> v.Null? || v.Bool? || v.Int? || (v.Obj? && v.fields != map[])
    ensures r.Err? ==> r.error.TypeError?
  {
    match v
    case Arr(items) => Ok(items)
    case Str(text) => Ok(seq(|text|, i requires 0 <= i < |text| => Str([text[i]])))
    case Obj(fields) => if fields == map[] then Ok([]) else Err(TypeError("string indices must be integers"))
    case _ => Err(TypeError("object is not iterable"))
  }

  /** The playlists of a reply grouped by title: an empty string or dictionary groups to {}, any other non-list raises TypeError. */
  lemma PlaylistsOfNonList(v: Value)
    requires !v.Arr?
    ensures var items := PlaylistItems(v);
      && (v == Str("") || v == Obj(map[]) ==> items == Ok([]) && Grouped(items.value) == Ok(map[]))
      && (v != Str("") && v != Obj(map[]) ==> items.Err? || (Grouped(items.value).Err? && Grouped(items.value).error.TypeError?))
  {
    var items := PlaylistItems(v);
    if v.Str? && v != Str("") {
      GroupedPrefixErr(items.value, 1);
      assert items.value[..1][..0] == [];
    }
  }

  /** The sub-dictionaries of get_all_playlist_ids: auto (always empty) and user. */
  datatype PlaylistGroup = AutoGroup | UserGroup(byTitle: map<Value, seq<Value>>)

  /**
   * get_all_playlist_ids(auto=True, user=True): 'auto' only when asked for;
   * 'user' only when asked for, from the reply's playlists.
   */
  method GetAllPlaylistIds(auto: bool, user: bool, reply: map<string, Value>) returns (r: Result<map<string, PlaylistGroup>>)
    ensures r.Ok? ==> ("auto" in r.value <==> auto) && ("user" in r.value <==> user)
    ensures r.Ok? && auto ==> r.value["auto"] == AutoGroup
    ensures user && "playlists" !in reply ==> r == Err(KeyError("playlists"))
    ensures user && "playlists" in reply ==> var items := PlaylistItems(reply["playlists"]);
      && (items.Err? ==> r == Err(items.error))
      && (items.Ok? ==> (r.Ok? <==> Grouped(items.value).Ok?))
      && (items.Ok? && r.Ok? ==> r.value["user"] == UserGroup(Grouped(items.value).value))
    ensures !user ==> r.Ok?
  {
    var playlists: map<string, PlaylistGroup> := map[];
    if auto {
      playlists := playlists["auto" := AutoGroup];
    }
    if user {
      if "playlists" !in reply {
        return Err(KeyError("playlists"));
      }
      var items := PlaylistItems(reply["playlists"]);
      if items.Err? {
        return Err(items.error);
      }
      var grouped := PlaylistListToDict(items.value);
      if grouped.Err? {
        return Err(grouped.error);
      }
      playlists := playlists["user" := UserGroup(grouped.value)];
    }
    return Ok(playlists);
  }

  // ------------------------------------------------------------------
  // remove_songs_from_playlist

  /** The entry ids of the playlist tracks whose song id is in the set, in playlist order. */
  function MatchingEids(tracks: seq<Value>, sids: set<Value>): Result<seq<Value>>
  {
    if |tracks| == 0 then Ok([])
    else
      var before :- MatchingEids(tracks[..|tracks| - 1], sids);
      var t := tracks[|tracks| - 1];
      if !t.Obj? then Err(TypeError("indices must be integers"))
      else if "id" !in t.fields then Err(KeyError("id"))
      else if t.fields["id"] !in sids then Ok(before)
      else if "playlistEntryId" !in t.fields then Err(KeyError("playlistEntryId"))
      else Ok(before + [t.fields["playlistEntryId"]])
  }

  /** With well-formed tracks, nothing matches exactly when no track's song id is in the set. */
  lemma {:induction false} MatchingEidsEmpty(tracks: seq<Value>, sids: set<Value>)
    requires forall i :: 0 <= i < |tracks| ==> tracks[i].Obj? && "id" in tracks[i].fields && "playlistEntryId" in tracks[i].fields
    ensures MatchingEids(tracks, sids).Ok?
    ensures MatchingEids(tracks, sids).value == [] <==> forall i :: 0 <= i < |tracks| ==> tracks[i].fields["id"] !in sids
  {
    if |tracks| > 0 {
      var init := tracks[..|tracks| - 1];
      assert forall i :: 0 <= i < |init| ==> init[i] == tracks[i];
      MatchingEidsEmpty(init, sids);
    }
  }

  /** No song id matches an empty set: the matching entries are [] whenever every track is read. */
  lemma {:induction false} MatchingNoSids(tracks: seq<Value>)
    ensures MatchingEids(tracks, {}).Ok? ==> MatchingEids(tracks, {}).value == []
  {
    if |tracks| > 0 {
      MatchingNoSids(tracks[..|tracks| - 1]);
    }
  }

  /**
   * remove_songs_from_playlist: the empty-argument short-circuit returns []
   * for no song ids before the playlist is fetched; otherwise [] when no
   * track matches, and the removal call's "sid_eid" strings, each split on
   * '_', when some do.
   */
  method RemoveSongsFromPlaylist(tracks: seq<Value>, sidsToMatch: seq<Value>, removed: seq<string>) returns (r: Result<seq<seq<string>>>)
    ensures sidsToMatch == [] ==> r == Ok([])
    ensures sidsToMatch != [] && MatchingEids(tracks, set s | s in sidsToMatch).Err? ==> r == Err(MatchingEids(tracks, set s | s in sidsToMatch).error)
    ensures MatchingEids(tracks, set s | s in sidsToMatch) == Ok([]) ==> r == Ok([])
    ensures MatchingEids(tracks, set s | s in sidsToMatch).Ok? && MatchingEids(tracks, set s | s in sidsToMatch).value != [] ==>
      r.Ok? && |r.value| == |removed| && forall i :: 0 <= i < |removed| ==> r.value[i] == Split(removed[i], '_')
  {
    if sidsToMatch == [] {
      assert (set s | s in sidsToMatch) == {};
      MatchingNoSids(tracks);
      return Ok([]);
    }
    var sidSet := set s | s in sidsToMatch;
    var matching := MatchingEids(tracks, sidSet);
    if matching.Err? {
      return Err(matching.error);
    }
    if matching.value == [] {
      return Ok([]);
    }
    var pairs: seq<seq<string>> := [];
    for i := 0 to |removed|
      invariant |pairs| == i
      invariant forall k :: 0 <= k < i ==> pairs[k] == Split(removed[k], '_')
    {
      pairs := pairs + [Split(removed[i], '_')];
    }
    return Ok(pairs);
  }

  /** A "sid_eid" string whose ids carry no '_' splits back into the song id and the entry id. */
  lemma SidEidSplits(sid: string, eid: string)
    requires '_' !in sid && '_' !in eid
    ensures Split(sid + "_" + eid, '_') == [sid, eid]
  {
    assert sid + "_" + eid == sid + ['_'] + eid;
    SplitAfterPiece(sid, '_', eid);
    SplitNoSep(eid, '_');
  }

  // ------------------------------------------------------------------
  // search and get_stream_url

  /** Webclient.search: the reply's results renamed to album_hits, artist_hits and song_hits. */
  function SearchHits(reply: map<string, Value>): (r: Result<map<string, Value>>)
    ensures r.Ok? <==> "results" in reply && reply["results"].Obj? && {"albums", "artists", "songs"} <= reply["results"].fields.Keys
    ensures r.Ok? ==> r.value.Keys == {"album_hits", "artist_hits", "song_hits"}
    ensures r.Ok? ==> var res := reply["results"].fields;
      r.value["album_hits"] == res["albums"] && r.value["artist_hits"] == res["artists"] && r.value["song_hits"] == res["songs"]
  {
    if "results" !in reply then Err(KeyError("results"))
    else match reply["results"]
      case Obj(res) =>
        if "albums" !in res then Err(KeyError("albums"))
        else if "artists" !in res then Err(KeyError("artists"))
        else if "songs" !in res then Err(KeyError("songs"))
        else Ok(map["album_hits" := res["albums"], "artist_hits" := res["artists"], "song_hits" := res["songs"]])
      case _ => Err(TypeError("indices must be integers"))
  }

  /** get_stream_url: the reply's url, or its urls when there is no url. */
  function StreamUrl(reply: map<string, Value>): (r: Result<Value>)
    ensures "url" in reply ==> r == Ok(reply["url"])
    ensures "url" !in reply && "urls" in reply ==> r == Ok(reply["urls"])
    ensures r.Err? <==> "url" !in reply && "urls" !in reply
    ensures r.Err? ==> r.error == KeyError("urls")
  {
    if "url" in reply then Ok(reply["url"])
    else if "urls" in reply then Ok(reply["urls"])
    else Err(KeyError("urls"))
  }
}
