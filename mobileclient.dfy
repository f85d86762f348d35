/**
 * The mobile-client ("sj" v1) calls: their URL builders, the success and
 * validation checks shared by every call, and the module-level response
 * schemas, which are mutable dictionaries shared by reference.
 */
module MobileClient {
  import opened Py
  import opened Text

  const SjUrl: string := "https://www.googleapis.com/sj/v1/"

  // ------------------------------------------------------------------
  // Schemas

  /**
   * A schema dictionary at module level. Its entries are replaced in place,
   * and other schemas hold it by reference.
   */
  class SchemaDict {
    var entries: map<string, Entry>

    constructor (entries: map<string, Entry>)
      ensures this.entries == entries
    {
      this.entries := entries;
    }
  }

  /** A value inside a schema: text, a flag, a dictionary built in place, or a shared dictionary. */
  datatype Entry = Text(s: string) | Flag(b: bool) | Nested(m: map<string, Entry>) | Ref(d: SchemaDict)

  /** {'type': t}. */
  function Typed(t: string): Entry
  {
    Nested(map["type" := Text(t)])
  }

  /** {'type': 'array', 'items': items}. */
  function ArrayOf(items: Entry): Entry
  {
    Nested(map["type" := Text("array"), "items" := items])
  }

  /** The properties of sj_track. */
  function TrackProperties(): map<string, Entry>
  {
    map[
      "kind" := Typed("string"), "title" := Typed("string"), "artist" := Typed("string"),
      "album" := Typed("string"), "albumArtist" := Typed("string"), "trackNumber" := Typed("integer"),
      "durationMillis" := Typed("string"),
      "albumArtRef" := ArrayOf(Nested(map["type" := Text("object"), "properties" := Nested(map["url" := Typed("string")])])),
      "discNumber" := Typed("integer"), "estimatedSize" := Typed("string"), "trackType" := Typed("string"),
      "storeId" := Typed("string"), "albumId" := Typed("string"), "artistId" := ArrayOf(Typed("string")),
      "nid" := Typed("string"), "trackAvailableForPurchase" := Typed("boolean"),
      "albumAvailableForPurchase" := Typed("boolean")
    ]
  }

  /** The properties of sj_album. */
  function AlbumProperties(): map<string, Entry>
  {
    map[
      "kind" := Typed("string"), "name" := Typed("string"), "albumArtist" := Typed("string"),
      "albumArtRef" := Typed("string"), "albumId" := Typed("string"), "artist" := Typed("string"),
      "artistId" := ArrayOf(Typed("string")), "year" := Typed("integer")
    ]
  }

  /** An optional array of a shared schema: {'type': 'array', 'items': d, 'required': False}. */
  function OptionalArrayOf(d: SchemaDict): Entry
  {
    Nested(map["type" := Text("array"), "items" := Ref(d), "required" := Flag(false)])
  }

  /** The properties of sj_artist; the album list is keyed 'albums:', colon included. */
  function ArtistProperties(album: SchemaDict, track: SchemaDict): map<string, Entry>
  {
    map[
      "kind" := Typed("string"), "name" := Typed("string"), "artistArtRef" := Typed("string"),
      "artistId" := Typed("string"), "albums:" := OptionalArrayOf(album), "topTracks" := OptionalArrayOf(track)
    ]
  }

  /** {'type': 'object', 'properties': props}. */
  function ObjectWith(props: map<string, Entry>): map<string, Entry>
  {
    map["type" := Text("object"), "properties" := Nested(props)]
  }

  /** The four shared schemas of the module. */
  datatype Schemas = Schemas(track: SchemaDict, album: SchemaDict, artist: SchemaDict, result: SchemaDict)

  /**
   * sj_result['properties'][name]['required'] = False: the entry under
   * properties is a shared dictionary, so the assignment marks that
   * dictionary itself.
   */
  method MarkOptional(holder: SchemaDict, name: string)
    requires "properties" in holder.entries && holder.entries["properties"].Nested?
    requires name in holder.entries["properties"].m && holder.entries["properties"].m[name].Ref?
    requires holder.entries["properties"].m[name].d != holder
    modifies holder.entries["properties"].m[name].d
    ensures var d := holder.entries["properties"].m[name].d; d.entries == old(d.entries)["required" := Flag(false)]
  {
    var d := holder.entries["properties"].m[name].d;
    d.entries := d.entries["required" := Flag(false)];
  }

  /**
   * The module-level schema set-up, statement by statement: related_artists
   * is attached to sj_artist itself, and marking sj_result's entries
   * optional marks the shared sj_artist, sj_album and sj_track.
   */
  method BuildSchemas() returns (s: Schemas)
    ensures fresh(s.track) && fresh(s.album) && fresh(s.artist) && fresh(s.result)
    ensures s.track.entries == ObjectWith(TrackProperties())["required" := Flag(false)]
    ensures s.album.entries == ObjectWith(AlbumProperties())["required" := Flag(false)]
    ensures s.artist.entries == ObjectWith(ArtistProperties(s.album, s.track))["related_artists" := OptionalArrayOf(s.artist)]["required" := Flag(false)]
    ensures s.result.entries == ObjectWith(map["score" := Typed("number"), "artists" := Ref(s.artist), "album" := Ref(s.album), "track" := Ref(s.track)])
  {
    var track := new SchemaDict(ObjectWith(TrackProperties()));
    var album := new SchemaDict(ObjectWith(AlbumProperties()));
    var artist := new SchemaDict(ObjectWith(ArtistProperties(album, track)));
    artist.entries := artist.entries["related_artists" := OptionalArrayOf(artist)];
    var result := new SchemaDict(ObjectWith(map["score" := Typed("number"), "artists" := Ref(artist), "album" := Ref(album), "track" := Ref(track)]));
    MarkOptional(result, "artists");
    MarkOptional(result, "album");
    MarkOptional(result, "track");
    return Schemas(track, album, artist, result);
  }

  /**
   * The schemas after set-up: every dictionary sj_result names is itself
   * optional, so sj_artist (GetArtist's whole response schema) carries
   * required=False; related_artists sits beside properties, not inside
   * it, and its items are sj_artist again.
   */
  lemma SharedSchemasMarked(s: Schemas)
    requires s.track.entries == ObjectWith(TrackProperties())["required" := Flag(false)]
    requires s.album.entries == ObjectWith(AlbumProperties())["required" := Flag(false)]
    requires s.artist.entries == ObjectWith(ArtistProperties(s.album, s.track))["related_artists" := OptionalArrayOf(s.artist)]["required" := Flag(false)]
    requires s.result.entries == ObjectWith(map["score" := Typed("number"), "artists" := Ref(s.artist), "album" := Ref(s.album), "track" := Ref(s.track)])
    ensures forall name :: name in {"artists", "album", "track"} ==>
      var d := s.result.entries["properties"].m[name].d; d.entries["required"] == Flag(false)
    ensures "related_artists" in s.artist.entries && "related_artists" !in s.artist.entries["properties"].m
    ensures s.artist.entries["related_artists"].m["items"] == Ref(s.artist)
    ensures s.artist.entries["properties"].m["albums:"].m["items"] == Ref(s.album) && "albums" !in s.artist.entries["properties"].m
  {
    assert s.result.entries["properties"].m["artists"].d == s.artist;
    assert s.result.entries["properties"].m["album"].d == s.album;
    assert s.result.entries["properties"].m["track"].d == s.track;
  }

  /** Search._res_schema: only kind and entries at the top level, entries being sj_result items. */
  function SearchSchema(result: SchemaDict): map<string, Entry>
  {
    ObjectWith(map["kind" := Typed("string"), "entries" := ArrayOf(Ref(result))])["additionalProperties" := Flag(false)]
  }

  /** The top-level keys a schema admits: all of them, or only its properties when additionalProperties is False. */
  function ClosedKeys(schema: map<string, Entry>): (r: Option<set<string>>)
    ensures r.Some? ==> "properties" in schema && schema["properties"].Nested? && r.value == schema["properties"].m.Keys
  {
    if "additionalProperties" in schema && schema["additionalProperties"] == Flag(false)
      && "properties" in schema && schema["properties"].Nested?
    then Some(schema["properties"].m.Keys)
    else None
  }

  /** Whether a message's top-level keys pass a schema's additionalProperties rule. */
  predicate AdmitsKeys(schema: map<string, Entry>, msg: map<string, Value>)
  {
    ClosedKeys(schema).None? || msg.Keys <= ClosedKeys(schema).value
  }

  /** A search response passes the top-level rule exactly when it has no key but kind and entries. */
  lemma SearchAdmitsOnly(result: SchemaDict, msg: map<string, Value>)
    ensures AdmitsKeys(SearchSchema(result), msg) <==> msg.Keys <= {"kind", "entries"}
  {
    assert SearchSchema(result)["properties"].m.Keys == {"kind", "entries"};
  }

  /** The artist schema leaves additional properties open, so any top-level key passes that rule. */
  lemma ArtistSchemaOpen(album: SchemaDict, track: SchemaDict, self: SchemaDict, msg: map<string, Value>)
    ensures AdmitsKeys(ObjectWith(ArtistProperties(album, track))["related_artists" := OptionalArrayOf(self)]["required" := Flag(false)], msg)
  {
  }

  // ------------------------------------------------------------------
  // MCall

  /** MCall.check_success: a failure exactly when success is present and falsy. */
  function CheckSuccess(callName: string, msg: map<string, Value>): (r: Result<()>)
    ensures r.Err? ==> r.error == CallFailure(callName)
  {
    if "success" in msg && !Truthy(msg["success"]) then Err(CallFailure(callName)) else Ok(())
  }

  /** Only an explicitly falsy success fails: absent or true passes; False, 0, '' and null fail. */
  lemma CheckSuccessCases(callName: string, msg: map<string, Value>)
    ensures "success" !in msg ==> CheckSuccess(callName, msg).Ok?
    ensures CheckSuccess(callName, msg["success" := Bool(true)]).Ok?
    ensures CheckSuccess(callName, msg["success" := Bool(false)]) == Err(CallFailure(callName))
    ensures CheckSuccess(callName, msg["success" := Int(0)]).Err?
    ensures CheckSuccess(callName, msg["success" := Str("")]).Err?
    ensures CheckSuccess(callName, msg["success" := Null]).Err?
  {
  }

  /**
   * MCall.validate: the schema validator's ValueError becomes a
   * ValidationException with the same text; any other outcome passes
   * through.
   */
  function Validate(msg: Value, validator: Value -> Result<()>): (r: Result<()>)
    ensures r.Ok? <==> validator(msg).Ok?
    ensures r.Err? && r.error.ValidationException? <==>
      (validator(msg).Err? && (validator(msg).error.ValueError? || validator(msg).error.ValidationException?))
    ensures validator(msg).Err? && validator(msg).error.ValueError? ==> r == Err(ValidationException(validator(msg).error.what))
  {
    match validator(msg)
    case Err(ValueError(e)) => Err(ValidationException(e))
    case other => other
  }

  // ------------------------------------------------------------------
  // URL builders

  const QueryStem: string := SjUrl + "query?q="
  const MaxResultsKey: string := "&max-results="

  /** The three parts of a concatenation can be sliced back out. */
  lemma ConcatSlices(a: string, b: string, c: string)
    ensures (a + b + c)[..|a|] == a
    ensures (a + b + c)[|a|..|a| + |b|] == b
    ensures (a + b + c)[|a| + |b|..] == c
  {
  }

  /** Search.dynamic_url(query, max_ret): the query unescaped, then the %d count. */
  function SearchUrl(query: string, maxRet: int): (url: string)
    ensures |url| == |QueryStem| + |query| + |MaxResultsKey| + |Decimal(maxRet)|
    ensures url[..|QueryStem|] == QueryStem
    ensures url[|QueryStem|..|QueryStem| + |query|] == query
    ensures url[|QueryStem| + |query|..] == MaxResultsKey + Decimal(maxRet)
    ensures LastPiece(url, '=') == Decimal(maxRet)
  {
    var d := Decimal(maxRet);
    var head := QueryStem + query + "&max-results";
    var url := head + ['='] + d;
    var key := MaxResultsKey;
    assert key == "&max-results" + ['='];
    assert url == QueryStem + query + (key + d);
    ConcatSlices(QueryStem, query, key + d);
    DecimalAvoids(maxRet, '=');
    LastPieceAfter(head, '=', d);
    url
  }

  /** The count is read back from the text after the last '='. */
  lemma SearchCountRecovered(query: string, maxRet: int)
    ensures ParseInt(LastPiece(SearchUrl(query, maxRet), '=')) == Some(maxRet)
  {
    ParseIntDecimal(maxRet);
  }

  /** The text from n up to the next '&' is the query when '&' follows it and it carries none. */
  lemma FirstPieceAt(url: string, n: nat, query: string, tail: string)
    requires n + |query| <= |url| && '&' !in query
    requires url[n..n + |query|] == query && url[n + |query|..] == ['&'] + tail
    ensures FirstPiece(url[n..], '&') == query
  {
    assert url[n..] == url[n..n + |query|] + url[n + |query|..];
    assert url[n..] == query + ['&'] + tail;
    FirstPieceBefore(query, '&', tail);
  }

  /** The query can be read back from a search URL when it carries no '&'. */
  lemma SearchQueryRecovered(query: string, maxRet: int)
    requires '&' !in query
    ensures FirstPiece(SearchUrl(query, maxRet)[|QueryStem|..], '&') == query
  {
    var url := SearchUrl(query, maxRet);
    var key := MaxResultsKey;
    var tail := key[1..] + Decimal(maxRet);
    assert key + Decimal(maxRet) == ['&'] + tail;
    FirstPieceAt(url, |QueryStem|, query, tail);
  }

  /** The parameters GetArtist.dynamic_url appends, in order. */
  function ArtistParams(artistid: string, albums: bool, topTracks: int, relArtist: int): seq<string>
  {
    ["nid=" + artistid, "include-albums=" + BoolRepr(albums), "num-top-tracks=" + Decimal(topTracks), "num-related-artists=" + Decimal(relArtist)]
  }

  /** Each parameter behind an '&', in order. */
  function Ampersanded(ps: seq<string>): string
  {
    if |ps| == 0 then "" else "&" + ps[0] + Ampersanded(ps[1..])
  }

  /** Appending one more parameter. */
  lemma {:induction false} AmpersandedSnoc(ps: seq<string>, p: string)
    ensures Ampersanded(ps + [p]) == Ampersanded(ps) + "&" + p
  {
    if |ps| > 0 {
      assert (ps + [p])[1..] == ps[1..] + [p];
      AmpersandedSnoc(ps[1..], p);
    }
  }

  /** The parameters behind '&' are '&'.join of them behind one more '&'. */
  lemma {:induction false} AmpersandedJoin(ps: seq<string>)
    requires |ps| >= 1
    ensures Ampersanded(ps) == "&" + Join(ps, '&')
  {
    if |ps| > 1 {
      AmpersandedJoin(ps[1..]);
    }
  }

  /** Four parameters, each behind its '&'. */
  lemma AmpersandedFour(base: string, a: string, b: string, c: string, d: string)
    ensures base + "&" + a + "&" + b + "&" + c + "&" + d == base + Ampersanded([a, b, c, d])
  {
    assert [a, b, c, d][1..] == [b, c, d];
    assert [b, c, d][1..] == [c, d];
    assert [c, d][1..] == [d];
    assert [d][1..] == [];
    var amp := "&";
    assert Ampersanded([d]) == amp + d;
    assert Ampersanded([c, d]) == amp + c + (amp + d);
    assert Ampersanded([b, c, d]) == amp + b + (amp + c + (amp + d));
    assert Ampersanded([a, b, c, d]) == amp + a + (amp + b + (amp + c + (amp + d)));
  }

  /**
   * GetArtist.dynamic_url(artistid, albums=True, top_tracks=0,
   * rel_artist=0): alt=json, then nid, include-albums (as True or False),
   * num-top-tracks and num-related-artists, each behind an '&'.
   */
  method GetArtistUrl(artistid: string, albums: bool := true, topTracks: int := 0, relArtist: int := 0) returns (url: string)
    ensures url == SjUrl + "fetchartist?alt=json" + Ampersanded(ArtistParams(artistid, albums, topTracks, relArtist))
  {
    var nid := "nid=" + artistid;
    var includeAlbums := "include-albums=" + BoolRepr(albums);
    var numTopTracks := "num-top-tracks=" + Decimal(topTracks);
    var numRelated := "num-related-artists=" + Decimal(relArtist);
    url := SjUrl + "fetchartist?alt=json";
    ghost var base := url;
    url := url + "&" + nid;
    url := url + "&" + includeAlbums;
    url := url + "&" + numTopTracks;
    url := url + "&" + numRelated;
    AmpersandedFour(base, nid, includeAlbums, numTopTracks, numRelated);
  }

  /** Parameters without '&' are read back, in order, by splitting on '&'. */
  lemma AmpersandedSplit(ps: seq<string>)
    requires |ps| >= 1 && forall i :: 0 <= i < |ps| ==> '&' !in ps[i]
    ensures Split(Ampersanded(ps), '&') == [""] + ps
  {
    AmpersandedJoin(ps);
    var pieces := [""] + ps;
    assert pieces[1..] == ps;
    SplitJoin(pieces, '&');
  }

  /** A parameter key without '&' followed by a value without '&'. */
  lemma KeyedAvoids(key: string, value: string)
    requires '&' !in key && '&' !in value
    ensures '&' !in key + value
  {
  }

  /** The four appended parameters, read back in order by splitting on '&' when the id carries no '&'. */
  lemma ArtistParamsRecovered(artistid: string, albums: bool, topTracks: int, relArtist: int)
    requires '&' !in artistid
    ensures var ps := ArtistParams(artistid, albums, topTracks, relArtist);
      Split(Ampersanded(ps), '&') == [""] + ps
  {
    var ps := ArtistParams(artistid, albums, topTracks, relArtist);
    DecimalAvoids(topTracks, '&');
    DecimalAvoids(relArtist, '&');
    KeyedAvoids("nid=", artistid);
    KeyedAvoids("include-albums=", BoolRepr(albums));
    KeyedAvoids("num-top-tracks=", Decimal(topTracks));
    KeyedAvoids("num-related-artists=", Decimal(relArtist));
    AmpersandedSplit(ps);
  }
}
