/**
 * The web-client half of gmusicapi/protocol.py: the closed-world song schema
 * compiled from the expectation registry, the request URL of each call, the
 * (request, response schema) pair each call's build_transaction returns, and
 * the warnings modifyentries logs for values outside a field's allowed set.
 */
module WcProtocol {
  import opened Py
  import opened Expectations

  // ------------------------------------------------------------------
  // Schemas

  /** A schema of the form {"type": t}. */
  function TypeSchema(t: string): (r: Value)
    ensures r.Obj? && r.fields.Keys == {"type"} && r.fields["type"] == Str(t)
  {
    Obj(map["type" := Str(t)])
  }

  /** {"type": "object", "properties": props}. */
  function ObjectSchema(props: map<string, Value>): (r: Value)
    ensures r.Obj? && r.fields.Keys == {"type", "properties"}
    ensures r.fields["type"] == Str("object") && r.fields["properties"] == Obj(props)
  {
    Obj(map["type" := Str("object"), "properties" := Obj(props)])
  }

  /** {"type": "array", "items": items}. */
  function ArraySchema(items: Value): (r: Value)
    ensures r.Obj? && r.fields.Keys == {"type", "items"}
    ensures r.fields["type"] == Str("array") && r.fields["items"] == items
  {
    Obj(map["type" := Str("array"), "items" := items])
  }

  /** The per-key property schemas of a registry, each the key's get_schema(). */
  function Properties(expts: map<string, Expectation>): (props: map<string, Value>)
    ensures props.Keys == expts.Keys
    ensures forall k :: k in props ==> props[k] == GetSchema(expts[k])
  {
    map k | k in expts :: GetSchema(expts[k])
  }

  /** The song schema a registry gives: its keys as properties and no others allowed. */
  function SongSchemaOf(expts: map<string, Expectation>): Value
  {
    Obj(map["type" := Str("object"), "properties" := Obj(Properties(expts)), "additionalProperties" := Bool(false)])
  }

  /** The class-body loop that fills song_schema["properties"] from a registry. */
  method CompileSongSchema(expts: map<string, Expectation>) returns (schema: Value)
    ensures schema == SongSchemaOf(expts)
  {
    var props: map<string, Value> := map[];
    var pending := expts.Keys;
    while pending != {}
      invariant pending <= expts.Keys
      invariant props.Keys == expts.Keys - pending
      invariant forall k :: k in props ==> props[k] == GetSchema(expts[k])
      decreases |pending|
    {
      var name :| name in pending;
      props := props[name := GetSchema(expts[name])];
      pending := pending - {name};
    }
    schema := Obj(map["type" := Str("object"), "properties" := Obj(props), "additionalProperties" := Bool(false)]);
    assert props == Properties(expts);
  }

  /** The schema of the whole registry names exactly the registry keys. */
  lemma RegistrySchema(expts: map<string, Expectation>)
    requires forall f :: Spec(f).Name() in expts && expts[Spec(f).Name()] == Spec(f)
    requires forall k :: k in expts ==> exists f :: expts[k] == Spec(f) && k == Spec(f).Name()
    ensures var schema := SongSchemaOf(expts);
      schema.Obj? && schema.fields.Keys == {"type", "properties", "additionalProperties"}
      && schema.fields["type"] == Str("object") && schema.fields["additionalProperties"] == Bool(false)
      && schema.fields["properties"].Obj?
      && (forall k :: k in schema.fields["properties"].fields <==> exists f :: k == Spec(f).Name())
      && (forall f :: schema.fields["properties"].fields[Spec(f).Name()] == GetSchema(Spec(f)))
  {
  }

  /**
   * WC_Protocol.song_schema: an object schema whose properties are exactly
   * the registry keys, each validated by its expectation's get_schema(), and
   * which forbids properties outside the registry.
   */
  method SongSchema() returns (schema: Value)
    ensures schema.Obj? && schema.fields.Keys == {"type", "properties", "additionalProperties"}
    ensures schema.fields["type"] == Str("object") && schema.fields["additionalProperties"] == Bool(false)
    ensures schema.fields["properties"].Obj?
    ensures forall k :: k in schema.fields["properties"].fields <==> exists f :: k == Spec(f).Name()
    ensures forall f :: schema.fields["properties"].fields[Spec(f).Name()] == GetSchema(Spec(f))
  {
    var expts := GetAllExpectations();
    schema := CompileSongSchema(expts);
    RegistrySchema(expts);
  }

  /** song_array: an array of songs, each validated by song_schema. */
  function SongArray(songSchema: Value): (r: Value)
    ensures r == ArraySchema(songSchema)
  {
    Obj(map["type" := Str("array"), "items" := songSchema])
  }

  /** Every property of the song schema has a type and at most blank and required besides. */
  lemma SongSchemaPropertiesAreTyped(expts: map<string, Expectation>, k: string)
    requires k in expts
    ensures var p := Properties(expts)[k]; p.Obj? && "type" in p.fields && p.fields.Keys <= {"type", "blank", "required"}
  {
  }

  // ------------------------------------------------------------------
  // URLs

  const BaseUrl: string := "https://music.google.com/music/"

  /** The web-client calls, by class name. */
  datatype Call = AddPlaylist | AddToPlaylist | ModifyPlaylist | DeletePlaylist | DeleteSong | LoadAllTracks | LoadPlaylist | ModifyEntries | MultiDownload | Play | Search
  {
    function Name(): string
    {
      match this
      case AddPlaylist => "addplaylist"
      case AddToPlaylist => "addtoplaylist"
      case ModifyPlaylist => "modifyplaylist"
      case DeletePlaylist => "deleteplaylist"
      case DeleteSong => "deletesong"
      case LoadAllTracks => "loadalltracks"
      case LoadPlaylist => "loadplaylist"
      case ModifyEntries => "modifyentries"
      case MultiDownload => "multidownload"
      case Play => "play"
      case Search => "search"
    }
  }

  /** The part of a call's URL before the query's value: base, sub-url, name and the fixed query text. */
  function UrlStem(c: Call): string
  {
    if c == Play then BaseUrl + c.Name() + "?u=0&pt=e"
    else BaseUrl + "services/" + c.Name() + "?u=0&xt="
  }

  /**
   * build_url(query_string): the query string is a dict from which only
   * 'xt' is read; play ignores it.  A missing dict (the default None) is a
   * TypeError and a dict without 'xt' a KeyError, for every call but play.
   */
  function BuildUrl(c: Call, query: Option<map<string, string>>): (r: Result<string>)
    ensures c == Play ==> r == Ok(BaseUrl + "play" + "?u=0&pt=e")
    ensures c != Play ==> (r.Ok? <==> query.Some? && "xt" in query.value)
    ensures c != Play && query.None? ==> r == Err(TypeError("NoneType"))
    ensures r.Ok? && c != Play ==> r.value == BaseUrl + "services/" + c.Name() + "?u=0&xt=" + query.value["xt"]
  {
    if c == Play then Ok(UrlStem(c))
    else if query.None? then Err(TypeError("NoneType"))
    else if "xt" !in query.value then Err(KeyError("xt"))
    else Ok(UrlStem(c) + query.value["xt"])
  }

  /** The xt value is recoverable from every URL but play's: it is what follows the stem. */
  lemma UrlCarriesXt(c: Call, query: Option<map<string, string>>)
    requires c != Play && BuildUrl(c, query).Ok?
    ensures var u := BuildUrl(c, query).value;
      |UrlStem(c)| <= |u| && u[..|UrlStem(c)|] == UrlStem(c) && u[|UrlStem(c)|..] == query.value["xt"]
  {
  }

  /** play's URL does not depend on the query string at all. */
  lemma PlayIgnoresQuery(q1: Option<map<string, string>>, q2: Option<map<string, string>>)
    ensures BuildUrl(Play, q1) == BuildUrl(Play, q2)
  {
  }

  /** Two calls other than play build different URLs from the same xt. */
  lemma UrlNamesCall(c1: Call, c2: Call, query: Option<map<string, string>>)
    requires c1 != Play && c2 != Play && BuildUrl(c1, query).Ok?
    requires BuildUrl(c1, query) == BuildUrl(c2, query)
    ensures c1 == c2
  {
    var xt := query.value["xt"];
    var n1 := BaseUrl + "services/" + c1.Name();
    var n2 := BaseUrl + "services/" + c2.Name();
    assert UrlStem(c1) + xt == n1 + "?u=0&xt=" + xt;
    assert UrlStem(c2) + xt == n2 + "?u=0&xt=" + xt;
    assert |UrlStem(c1)| == |UrlStem(c2)|;
    assert UrlStem(c1) == (UrlStem(c1) + xt)[..|UrlStem(c1)|];
    assert UrlStem(c1) == UrlStem(c2);
    assert c1.Name() == UrlStem(c1)[|BaseUrl + "services/"|..|UrlStem(c1)| - 8];
    assert c2.Name() == UrlStem(c2)[|BaseUrl + "services/"|..|UrlStem(c2)| - 8];
  }

  // ------------------------------------------------------------------
  // build_transaction

  /** A call together with the arguments its build_transaction takes. */
  datatype Transaction =
    | AddPlaylistT(title: Value)
    | AddToPlaylistT(playlistId: Value, songIds: Value)
    | ModifyPlaylistT(playlistId: Value, newName: Value)
    | DeletePlaylistT(playlistId: Value)
    | DeleteSongT(songIds: Value, entryIds: Value, playlistId: Value)
    | LoadAllTracksT(contToken: Value)
    | LoadPlaylistT(playlistId: Value)
    | MultiDownloadT(songIds: Value)
    | PlayT
    | SearchT(query: Value)
  {
    function Call(): Call
    {
      match this
      case AddPlaylistT(_) => AddPlaylist
      case AddToPlaylistT(_, _) => AddToPlaylist
      case ModifyPlaylistT(_, _) => ModifyPlaylist
      case DeletePlaylistT(_) => DeletePlaylist
      case DeleteSongT(_, _, _) => DeleteSong
      case LoadAllTracksT(_) => LoadAllTracks
      case LoadPlaylistT(_) => LoadPlaylist
      case MultiDownloadT(_) => MultiDownload
      case PlayT => Play
      case SearchT(_) => Search
    }
  }

  /** deletesong with its defaults: entry ids [""] and the whole library, "all". */
  function DeleteFromLibrary(songIds: Value): (t: Transaction)
    ensures t.DeleteSongT? && t.entryIds == Arr([Str("")]) && t.playlistId == Str("all")
  {
    DeleteSongT(songIds, Arr([Str("")]), Str("all"))
  }

  /** loadalltracks with its default: no continuation token. */
  function LoadFirstChunk(): (t: Transaction)
    ensures t == LoadAllTracksT(Null)
  {
    LoadAllTracksT(Null)
  }

  /** The request a call sends, as a dict; play sends no body (None). */
  function Request(t: Transaction): Option<map<string, Value>>
  {
    match t
    case AddPlaylistT(title) => Some(map["title" := title])
    case AddToPlaylistT(playlistId, songIds) => Some(map["playlistId" := playlistId, "songIds" := songIds])
    case ModifyPlaylistT(playlistId, newName) => Some(map["playlistId" := playlistId, "playlistName" := newName])
    case DeletePlaylistT(playlistId) => Some(map["id" := playlistId])
    case DeleteSongT(songIds, entryIds, playlistId) => Some(map["songIds" := songIds, "entryIds" := entryIds, "listId" := playlistId])
    case LoadAllTracksT(contToken) => if !Truthy(contToken) then Some(map[]) else Some(map["continuationToken" := contToken])
    case LoadPlaylistT(playlistId) => Some(map["id" := playlistId])
    case MultiDownloadT(songIds) => Some(map["songIds" := songIds])
    case PlayT => None
    case SearchT(query) => Some(map["q" := query])
  }

  /** The arguments a transaction carries. */
  function Arguments(t: Transaction): seq<Value>
  {
    match t
    case AddPlaylistT(title) => [title]
    case AddToPlaylistT(playlistId, songIds) => [playlistId, songIds]
    case ModifyPlaylistT(playlistId, newName) => [playlistId, newName]
    case DeletePlaylistT(playlistId) => [playlistId]
    case DeleteSongT(songIds, entryIds, playlistId) => [songIds, entryIds, playlistId]
    case LoadAllTracksT(contToken) => [contToken]
    case LoadPlaylistT(playlistId) => [playlistId]
    case MultiDownloadT(songIds) => [songIds]
    case PlayT => []
    case SearchT(query) => [query]
  }

  /** The response schema a call validates against; play's is None. */
  function Response(t: Transaction, songArray: Value): Option<Value>
  {
    match t
    case AddPlaylistT(_) =>
      Some(ObjectSchema(map["id" := TypeSchema("string"), "title" := TypeSchema("string"), "success" := TypeSchema("boolean")]))
    case AddToPlaylistT(_, _) =>
      Some(ObjectSchema(map["playlistId" := TypeSchema("string"),
        "songIds" := ArraySchema(ObjectSchema(map["songId" := TypeSchema("string"), "playlistEntryId" := TypeSchema("string")]))]))
    case ModifyPlaylistT(_, _) =>
      Some(Obj(map["type" := Str("object"), "properties" := Obj(map[]), "additionalProperties" := Bool(false)]))
    case DeletePlaylistT(_) =>
      Some(ObjectSchema(map["deleteId" := TypeSchema("string")]))
    case DeleteSongT(_, _, _) =>
      Some(ObjectSchema(map["listId" := TypeSchema("string"), "deleteIds" := ArraySchema(TypeSchema("string"))]))
    case LoadAllTracksT(_) =>
      Some(Obj(map["type" := Str("object"),
        "properties" := Obj(map["continuation" := TypeSchema("boolean"), "differentialUpdate" := TypeSchema("boolean"),
          "playlistId" := TypeSchema("string"), "requestTime" := TypeSchema("integer"), "playlist" := songArray]),
        "additionalProperties" := Obj(map["continuationToken" := TypeSchema("string")])]))
    case LoadPlaylistT(_) =>
      Some(ObjectSchema(map["continuation" := TypeSchema("boolean"), "playlist" := songArray,
        "playlistId" := TypeSchema("string"), "unavailableTrackCount" := TypeSchema("integer")]))
    case MultiDownloadT(_) =>
      Some(ObjectSchema(map["downloadCounts" := ArraySchema(ObjectSchema(map["id" := TypeSchema("integer")])), "url" := TypeSchema("string")]))
    case PlayT => None
    case SearchT(_) =>
      Some(ObjectSchema(map["results" := ObjectSchema(map["artists" := songArray, "albums" := songArray, "songs" := songArray])]))
  }

  /**
   * build_transaction: the filled request and the response schema.  Only
   * play has neither; every other request holds exactly the call's
   * arguments, except that loadalltracks drops a falsy continuation token.
   */
  function BuildTransaction(t: Transaction, songArray: Value): (r: (Option<Value>, Option<Value>))
    ensures r.0.None? <==> t.PlayT?
    ensures r.1.None? <==> t.PlayT?
    ensures r.0.Some? ==> r.0.value.Obj?
  {
    var req := Request(t);
    (if req.Some? then Some(Obj(req.value)) else None, Response(t, songArray))
  }

  /** play's transaction is (None, None). */
  lemma PlayTransaction(songArray: Value)
    ensures BuildTransaction(PlayT, songArray) == (None, None)
  {
  }

  /** The request's values are the call's arguments, each under its own key. */
  lemma RequestHoldsArguments(t: Transaction)
    requires !t.PlayT? && !t.LoadAllTracksT?
    ensures Request(t).Some? && |Request(t).value.Keys| == |Arguments(t)|
    ensures forall k :: k in Request(t).value ==> Request(t).value[k] in Arguments(t)
    ensures forall a :: a in Arguments(t) ==> a in Request(t).value.Values
  {
    match t
    case AddPlaylistT(_) =>
    case AddToPlaylistT(_, _) =>
      assert Request(t).value.Keys == {"playlistId", "songIds"};
    case ModifyPlaylistT(_, _) =>
      assert Request(t).value.Keys == {"playlistId", "playlistName"};
    case DeletePlaylistT(_) =>
    case DeleteSongT(_, _, _) =>
      assert Request(t).value.Keys == {"songIds", "entryIds", "listId"};
    case LoadPlaylistT(_) =>
    case MultiDownloadT(_) =>
    case SearchT(_) =>
  }

  /** loadalltracks sends the continuation token exactly when it is truthy. */
  lemma ContinuationSentWhenTruthy(token: Value)
    ensures "continuationToken" in Request(LoadAllTracksT(token)).value <==> Truthy(token)
    ensures Truthy(token) ==> Request(LoadAllTracksT(token)).value == map["continuationToken" := token]
    ensures !Truthy(token) ==> Request(LoadAllTracksT(token)).value == map[]
  {
  }

  /** The calls that return songs validate them with the shared song array. */
  lemma SongsUseSongArray(t: Transaction, songArray: Value)
    requires t.LoadAllTracksT? || t.LoadPlaylistT? || t.SearchT?
    ensures var res := Response(t, songArray).value;
      res.Obj? && "properties" in res.fields && res.fields["properties"].Obj?
    ensures !t.SearchT? ==> Response(t, songArray).value.fields["properties"].fields["playlist"] == songArray
    ensures t.SearchT? ==> var results := Response(t, songArray).value.fields["properties"].fields["results"];
      results.Obj? && results.fields["properties"] == Obj(map["artists" := songArray, "albums" := songArray, "songs" := songArray])
  {
  }

  /** modifyplaylist expects an empty object back and nothing else. */
  lemma ModifyPlaylistExpectsEmpty(playlistId: Value, newName: Value, songArray: Value)
    ensures var res := Response(ModifyPlaylistT(playlistId, newName), songArray).value;
      res.Obj? && res.fields["properties"] == Obj(map[]) && res.fields["additionalProperties"] == Bool(false)
  {
  }

  // ------------------------------------------------------------------
  // modifyentries

  /** A warning modifyentries logs: the key, the unallowed value and the song's id. */
  datatype Warning = Warning(key: string, value: Value, id: Value)

  /** How modifyentries looks a key's expectation up: Expectations.GetExpectation. */
  type Lookup = string -> Result<Option<Expectation>>

  /**
   * The check modifyentries makes on one key of one song: the key's
   * expectation must exist (get_expectation raises AttributeError otherwise,
   * and a non-expectation attribute has no allowed_values, another
   * AttributeError); a value outside a non-empty allowed_values is warned
   * about, which reads the song's "id" (a KeyError when it has none).
   */
  function CheckKey(song: map<string, Value>, key: string, lookup: Lookup): (r: Result<Option<Warning>>)
    requires key in song
    ensures r.Ok? && r.value.Some? ==> "id" in song && r.value.value == Warning(key, song[key], song["id"])
  {
    match lookup(key)
    case Err(e) => Err(e)
    case Ok(None) => Err(AttributeError("allowed_values"))
    case Ok(Some(e)) =>
      if e.allowedValues.Some? && |e.allowedValues.value| > 0 && !InInts(song[key], e.allowedValues.value) then
        if "id" in song then Ok(Some(Warning(key, song[key], song["id"]))) else Err(KeyError("id"))
      else Ok(None)
  }

  /** Only rating restricts its values, so only a rating outside 0, 1, 5 is warned about. */
  lemma OnlyRatingWarns(song: map<string, Value>, key: string)
    requires key in song && CheckKey(song, key, GetExpectation).Ok? && CheckKey(song, key, GetExpectation).value.Some?
    ensures key == "rating" && !InInts(song[key], [0, 1, 5])
  {
    var f := GetExpectationField(key);
    OnlyRatingRestricted(f);
    assert ("gm_" + key)[0] != "rating"[0];
  }

  /** A rating of 0, 1 or 5 passes without a warning. */
  lemma AllowedRatingPasses(song: map<string, Value>)
    requires "rating" in song && InInts(song["rating"], [0, 1, 5])
    ensures CheckKey(song, "rating", GetExpectation) == Ok(None)
  {
    LookupLiteral();
  }

  /** A key that names no field, with or without the prefix, makes modifyentries raise. */
  lemma UnknownKeyRaises(song: map<string, Value>)
    requires "bogus" in song
    ensures CheckKey(song, "bogus", GetExpectation) == Err(AttributeError("gm_bogus"))
  {
    LookupUnknown();
  }

  /** The warning, if any, checking one key gives. */
  function WarningFor(song: map<string, Value>, key: string, lookup: Lookup): Option<Warning>
    requires key in song
  {
    match CheckKey(song, key, lookup)
    case Ok(Some(w)) => Some(w)
    case _ => None
  }

  /** The warnings checking some of a song's keys gives. */
  function KeyWarnings(song: map<string, Value>, keys: set<string>, lookup: Lookup): set<Warning>
    requires keys <= song.Keys
  {
    set key | key in keys && WarningFor(song, key, lookup).Some? :: WarningFor(song, key, lookup).value
  }

  /** Checking one more key adds its warning, if any. */
  lemma KeyWarningsStep(song: map<string, Value>, keys: set<string>, key: string, lookup: Lookup)
    requires keys <= song.Keys && key in song
    ensures KeyWarnings(song, keys + {key}, lookup)
      == KeyWarnings(song, keys, lookup) + (if WarningFor(song, key, lookup).Some? then {WarningFor(song, key, lookup).value} else {})
  {
    var extra := if WarningFor(song, key, lookup).Some? then {WarningFor(song, key, lookup).value} else {};
    forall w | w in KeyWarnings(song, keys + {key}, lookup)
      ensures w in KeyWarnings(song, keys, lookup) + extra
    {
      var k :| k in keys + {key} && WarningFor(song, k, lookup).Some? && w == WarningFor(song, k, lookup).value;
    }
  }

  /** The warnings checking one song gives. */
  function SongWarnings(song: map<string, Value>, lookup: Lookup): set<Warning>
  {
    KeyWarnings(song, song.Keys, lookup)
  }

  /** Every key of every song checks out. */
  predicate AllChecked(songs: seq<map<string, Value>>, lookup: Lookup)
  {
    forall i, key :: 0 <= i < |songs| && key in songs[i] ==> CheckKey(songs[i], key, lookup).Ok?
  }

  /** The warnings checking the songs gives, as a set. */
  function WarningsOf(songs: seq<map<string, Value>>, lookup: Lookup): set<Warning>
  {
    if |songs| == 0 then {} else WarningsOf(songs[..|songs| - 1], lookup) + SongWarnings(songs[|songs| - 1], lookup)
  }

  /**
   * One song of modifyentries: every key is checked, the warnings are
   * logged, and the first check that raises ends the call.
   */
  method CheckSong(song: map<string, Value>, lookup: Lookup) returns (r: Result<seq<Warning>>)
    ensures r.Ok? <==> forall key :: key in song ==> CheckKey(song, key, lookup).Ok?
    ensures r.Ok? ==> (set w | w in r.value) == SongWarnings(song, lookup)
  {
    var warnings: seq<Warning> := [];
    var pending := song.Keys;
    while pending != {}
      invariant pending <= song.Keys
      invariant forall key :: key in song.Keys - pending ==> CheckKey(song, key, lookup).Ok?
      invariant (set w | w in warnings) == KeyWarnings(song, song.Keys - pending, lookup)
      decreases |pending|
    {
      var key :| key in pending;
      ghost var done := song.Keys - pending;
      var checked := CheckKey(song, key, lookup);
      match checked {
        case Err(e) =>
          return Err(e);
        case Ok(Some(w)) =>
          warnings := warnings + [w];
        case Ok(None) =>
      }
      pending := pending - {key};
      assert song.Keys - pending == done + {key};
      KeyWarningsStep(song, done, key, lookup);
    }
    r := Ok(warnings);
  }

  /**
   * modifyentries.build_transaction(songs): warns about, but never rejects,
   * unallowed values; unless a check raises, the request is exactly
   * {"entries": songs}.  The warnings are returned in the order they are
   * logged.  The class looks keys up with get_expectation, so lookup is
   * GetExpectation (WarningsAreRatings says what that gives).
   */
  method ModifyEntriesTransaction(songs: seq<map<string, Value>>, songArray: Value, lookup: Lookup)
    returns (r: Result<(Value, Value)>, warnings: seq<Warning>)
    ensures r.Ok? <==> AllChecked(songs, lookup)
    ensures r.Ok? ==> r.value.0 == Obj(map["entries" := Arr(seq(|songs|, i requires 0 <= i < |songs| => Obj(songs[i])))])
    ensures r.Ok? ==> r.value.1 == ObjectSchema(map["success" := TypeSchema("boolean"), "songs" := songArray])
    ensures r.Ok? ==> (set w | w in warnings) == WarningsOf(songs, lookup)
  {
    warnings := [];
    for i := 0 to |songs|
      invariant AllChecked(songs[..i], lookup)
      invariant (set w | w in warnings) == WarningsOf(songs[..i], lookup)
    {
      var checked := CheckSong(songs[i], lookup);
      if checked.Err? {
        r := Err(checked.error);
        return;
      }
      warnings := warnings + checked.value;
      assert songs[..i + 1][..i] == songs[..i];
    }
    assert songs[..|songs|] == songs;
    var entries := Arr(seq(|songs|, i requires 0 <= i < |songs| => Obj(songs[i])));
    r := Ok((Obj(map["entries" := entries]), ObjectSchema(map["success" := TypeSchema("boolean"), "songs" := songArray])));
  }

  /** Every warning modifyentries logs is about a rating outside 0, 1 and 5. */
  lemma {:induction false} WarningsAreRatings(songs: seq<map<string, Value>>, w: Warning)
    requires w in WarningsOf(songs, GetExpectation)
    ensures w.key == "rating" && !InInts(w.value, [0, 1, 5])
  {
    var last := songs[|songs| - 1];
    if w in SongWarnings(last, GetExpectation) {
      var key :| key in last && WarningFor(last, key, GetExpectation) == Some(w);
      OnlyRatingWarns(last, key);
    } else {
      WarningsAreRatings(songs[..|songs| - 1], w);
    }
  }
}
