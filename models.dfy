/**
 * The REST ("sj") record classes: ModelBase, Track and TrackList,
 * Playlist and PlaylistList. A record keeps its backing attributes `_k`
 * in the map `attrs` (attrs[k] is attribute `_k`); from_json copies every
 * key but `kind` into it, after checking the record's kind.
 */
module Models {
  import opened Py
  import opened Text

  // ------------------------------------------------------------------
  // The kind check and the attribute copy shared by from_json

  /**
   * The check at the head of Track/Playlist/...from_json: reading
   * jsobj['kind'] raises KeyError when the key is missing, and a truthy kind
   * other than the class's fails the assert.
   */
  function CheckKind(jsobj: map<string, Value>, kind: string): (r: Result<()>)
    ensures r.Ok? <==> "kind" in jsobj && (!Truthy(jsobj["kind"]) || jsobj["kind"] == Str(kind))
    ensures "kind" !in jsobj ==> r == Err(KeyError("kind"))
    ensures r.Err? && "kind" in jsobj ==> r == Err(AssertionError)
  {
    if "kind" !in jsobj then Err(KeyError("kind"))
    else if Truthy(jsobj["kind"]) && jsobj["kind"] != Str(kind) then Err(AssertionError)
    else Ok(())
  }

  /** attrs after setattr('_' + k, jsobj[k]) for every k of keys except "kind". */
  function Copied(attrs: map<string, Value>, jsobj: map<string, Value>, keys: set<string>): map<string, Value>
    requires keys <= jsobj.Keys
  {
    map k | k in attrs.Keys + (keys - {"kind"}) :: if k in keys && k != "kind" then jsobj[k] else attrs[k]
  }

  /** Every key but kind is stored with its value; every other attribute, kind included, is left as it was. */
  lemma CopiedStoresAllButKind(attrs: map<string, Value>, jsobj: map<string, Value>)
    ensures Copied(attrs, jsobj, jsobj.Keys).Keys == attrs.Keys + (jsobj.Keys - {"kind"})
    ensures forall k :: k in jsobj && k != "kind" ==> Copied(attrs, jsobj, jsobj.Keys)[k] == jsobj[k]
    ensures forall k :: k in attrs && (k !in jsobj || k == "kind") ==> Copied(attrs, jsobj, jsobj.Keys)[k] == attrs[k]
  {
  }

  /** Copying no key leaves the attributes as they are. */
  lemma CopiedNothing(attrs: map<string, Value>, jsobj: map<string, Value>)
    ensures Copied(attrs, jsobj, {}) == attrs
  {
    assert Copied(attrs, jsobj, {}).Keys == attrs.Keys;
  }

  /** Copying one more key: setattr of that key, unless it is kind. */
  lemma CopiedStep(attrs: map<string, Value>, jsobj: map<string, Value>, done: set<string>, key: string)
    requires done <= jsobj.Keys && key in jsobj
    ensures Copied(attrs, jsobj, done + {key}) ==
      if key == "kind" then Copied(attrs, jsobj, done) else Copied(attrs, jsobj, done)[key := jsobj[key]]
  {
    var a := Copied(attrs, jsobj, done + {key});
    var b := if key == "kind" then Copied(attrs, jsobj, done) else Copied(attrs, jsobj, done)[key := jsobj[key]];
    assert a.Keys == b.Keys;
    forall k | k in a
      ensures a[k] == b[k]
    {
    }
  }

  /** The `for key, value in jsobj.iteritems()` loop, over the keys in the dictionary's own order. */
  method CopyAttributes(attrs: map<string, Value>, jsobj: map<string, Value>) returns (out: map<string, Value>)
    ensures out == Copied(attrs, jsobj, jsobj.Keys)
  {
    out := attrs;
    CopiedNothing(attrs, jsobj);
    var pending := jsobj.Keys;
    ghost var done: set<string> := {};
    while pending != {}
      invariant done + pending == jsobj.Keys && done !! pending
      invariant out == Copied(attrs, jsobj, done)
      decreases |pending|
    {
      var key :| key in pending;
      CopiedStep(attrs, jsobj, done, key);
      if key != "kind" {
        out := out[key := jsobj[key]];
      }
      done := done + {key};
      pending := pending - {key};
    }
    assert done == jsobj.Keys;
  }

  /** A record's from_json on its attributes: the kind check, then every other key copied in. */
  function RecordFromJson(attrs: map<string, Value>, jsobj: map<string, Value>, kind: string): (r: Result<map<string, Value>>)
    ensures r.Ok? <==> CheckKind(jsobj, kind).Ok?
    ensures r.Err? ==> r.error == CheckKind(jsobj, kind).error
    ensures r.Ok? ==> r.value == Copied(attrs, jsobj, jsobj.Keys)
  {
    var _ :- CheckKind(jsobj, kind);
    Ok(Copied(attrs, jsobj, jsobj.Keys))
  }

  /** str() of a rating: an int is written in decimal, a str is kept. */
  function StrOf(v: Value): string
    requires v.Str? || v.Int?
  {
    if v.Str? then v.s else Decimal(v.i)
  }

  /** What a property setter asserts of its value. */
  datatype Setter = TextSetter | IntSetter | RatingSetter

  /** The value a setter stores, or AssertionError when its type check fails; `type(v) is int` refuses booleans. */
  function SetterStores(setter: Setter, value: Value): (r: Result<Value>)
    ensures r.Ok? <==> match setter
      case TextSetter => value.Str?
      case IntSetter => value.Int?
      case RatingSetter => value.Str? || value.Int?
    ensures r.Ok? && setter != RatingSetter ==> r.value == value
    ensures r.Ok? && setter == RatingSetter ==> r.value.Str?
    ensures r.Err? ==> r.error == AssertionError
  {
    match setter
    case TextSetter => if value.Str? then Ok(value) else Err(AssertionError)
    case IntSetter => if value.Int? then Ok(value) else Err(AssertionError)
    case RatingSetter => if value.Str? || value.Int? then Ok(Str(StrOf(value))) else Err(AssertionError)
  }

  /** A rating given as an int is stored as its decimal text. */
  lemma RatingStoredAsText(n: int)
    ensures SetterStores(RatingSetter, Int(n)) == Ok(Str(Decimal(n)))
    ensures SetterStores(RatingSetter, Str(Decimal(n))) == SetterStores(RatingSetter, Int(n))
  {
  }

  /** The items a list record iterates over in jsobj['data']['items']. */
  function DataItems(data: Value): (r: Result<seq<Value>>)
    ensures data.Obj? && "items" in data.fields && data.fields["items"].Arr? ==> r == Ok(data.fields["items"].items)
    ensures data.Obj? && "items" !in data.fields ==> r == Err(KeyError("items"))
    ensures !data.Obj? ==> r.Err?
  {
    match data
    case Obj(m) =>
      if "items" !in m then Err(KeyError("items"))
      else
        (match m["items"]
         case Arr(a) => Ok(a)
         case Str(s) => if s == "" then Ok([]) else Err(TypeError("string indices must be integers"))
         case Obj(o) => if o == map[] then Ok([]) else Err(TypeError("string indices must be integers"))
         case _ => Err(TypeError("object is not iterable")))
    case _ => Err(TypeError("object is not subscriptable"))
  }

  /** One list element made into a new record: an element that is not a dictionary cannot be indexed by 'kind'. */
  function ElementFromJson(element: Value, blank: map<string, Value>, kind: string): Result<map<string, Value>>
  {
    if element.Obj? then RecordFromJson(blank, element.fields, kind) else Err(TypeError("indices must be integers"))
  }

  /**
   * The records made from the elements, in order, up to the first element
   * that raises, and that element's exception.
   */
  function ParseItems(elements: seq<Value>, blank: map<string, Value>, kind: string): (seq<map<string, Value>>, Option<Error>)
  {
    if |elements| == 0 then ([], None)
    else
      var (init, failed) := ParseItems(elements[..|elements| - 1], blank, kind);
      if failed.Some? then (init, failed)
      else
        match ElementFromJson(elements[|elements| - 1], blank, kind)
        case Ok(record) => (init + [record], None)
        case Err(e) => (init, Some(e))
  }

  /** Without a failure every element yields its record, in order. */
  lemma {:induction false} ParseItemsAll(elements: seq<Value>, blank: map<string, Value>, kind: string)
    requires ParseItems(elements, blank, kind).1.None?
    ensures |ParseItems(elements, blank, kind).0| == |elements|
    ensures forall i :: 0 <= i < |elements| ==>
      ElementFromJson(elements[i], blank, kind) == Ok(ParseItems(elements, blank, kind).0[i])
  {
    if |elements| > 0 {
      var init := elements[..|elements| - 1];
      ParseItemsAll(init, blank, kind);
      forall i | 0 <= i < |init|
        ensures elements[i] == init[i]
      {
      }
    }
  }

  /** When every element is accepted, nothing fails. */
  lemma {:induction false} ParseItemsNoFailure(elements: seq<Value>, blank: map<string, Value>, kind: string)
    requires forall i :: 0 <= i < |elements| ==> ElementFromJson(elements[i], blank, kind).Ok?
    ensures ParseItems(elements, blank, kind).1.None?
  {
    if |elements| > 0 {
      var init := elements[..|elements| - 1];
      forall i | 0 <= i < |init|
        ensures ElementFromJson(init[i], blank, kind).Ok?
      {
        assert init[i] == elements[i];
      }
      ParseItemsNoFailure(init, blank, kind);
    }
  }

  /** A failure keeps only the records of the elements before the one that raised. */
  lemma {:induction false} ParseItemsFailure(elements: seq<Value>, blank: map<string, Value>, kind: string)
    requires ParseItems(elements, blank, kind).1.Some?
    ensures var (records, failed) := ParseItems(elements, blank, kind);
      |records| < |elements| &&
      ElementFromJson(elements[|records|], blank, kind) == Err(failed.value) &&
      forall i :: 0 <= i < |records| ==> ElementFromJson(elements[i], blank, kind) == Ok(records[i])
  {
    var n := |elements| - 1;
    var init := elements[..n];
    forall i | 0 <= i < |init|
      ensures elements[i] == init[i]
    {
    }
    if ParseItems(init, blank, kind).1.Some? {
      ParseItemsFailure(init, blank, kind);
    } else {
      ParseItemsAll(init, blank, kind);
    }
  }

  /** One more accepted element appends its record. */
  lemma ParseItemsSnoc(elements: seq<Value>, i: nat, blank: map<string, Value>, kind: string, record: map<string, Value>)
    requires i < |elements| && ParseItems(elements[..i], blank, kind).1.None?
    requires ElementFromJson(elements[i], blank, kind) == Ok(record)
    ensures ParseItems(elements[..i + 1], blank, kind) == (ParseItems(elements[..i], blank, kind).0 + [record], None)
  {
    assert elements[..i + 1][..i] == elements[..i];
  }

  /** One more element that raises ends the list with its exception. */
  lemma ParseItemsStop(elements: seq<Value>, i: nat, blank: map<string, Value>, kind: string, e: Error)
    requires i < |elements| && ParseItems(elements[..i], blank, kind).1.None?
    requires ElementFromJson(elements[i], blank, kind) == Err(e)
    ensures ParseItems(elements, blank, kind) == (ParseItems(elements[..i], blank, kind).0, Some(e))
  {
    assert elements[..i + 1][..i] == elements[..i];
    ParseItemsPrefix(elements, i + 1, blank, kind);
  }

  /** A failure among the first n elements is the failure of the whole list. */
  lemma {:induction false} ParseItemsPrefix(elements: seq<Value>, n: nat, blank: map<string, Value>, kind: string)
    requires n <= |elements|
    requires ParseItems(elements[..n], blank, kind).1.Some?
    ensures ParseItems(elements, blank, kind) == ParseItems(elements[..n], blank, kind)
    decreases |elements|
  {
    if n < |elements| {
      var init := elements[..|elements| - 1];
      assert init[..n] == elements[..n];
      ParseItemsPrefix(init, n, blank, kind);
    } else {
      assert elements[..n] == elements;
    }
  }

  /**
   * What a list record's from_json does: its result, the nextPageToken it
   * stores (None: the attribute is left alone) and the records of the
   * items it appends.
   */
  function ListFromJson(jsobj: map<string, Value>, listKind: string, blank: map<string, Value>, itemKind: string)
    : (Result<()>, Option<Value>, seq<map<string, Value>>)
  {
    if CheckKind(jsobj, listKind).Err? then (CheckKind(jsobj, listKind), None, [])
    else
      var token := if "nextPageToken" in jsobj then Some(jsobj["nextPageToken"]) else None;
      if "data" !in jsobj then (Ok(()), token, [])
      else
        match DataItems(jsobj["data"])
        case Err(e) => (Err(e), token, [])
        case Ok(elements) =>
          var (records, failed) := ParseItems(elements, blank, itemKind);
          (if failed.Some? then Err(failed.value) else Ok(()), token, records)
  }

  /** The token is stored exactly when the key is present, and only after the kind check passed. */
  lemma ListTokenCopied(jsobj: map<string, Value>, listKind: string, blank: map<string, Value>, itemKind: string)
    ensures ListFromJson(jsobj, listKind, blank, itemKind).1.Some? <==>
      CheckKind(jsobj, listKind).Ok? && "nextPageToken" in jsobj
    ensures ListFromJson(jsobj, listKind, blank, itemKind).1.Some? ==>
      ListFromJson(jsobj, listKind, blank, itemKind).1.value == jsobj["nextPageToken"]
  {
  }

  /** Without a data key nothing is appended and the call succeeds once the kind matches. */
  lemma ListWithoutData(jsobj: map<string, Value>, listKind: string, blank: map<string, Value>, itemKind: string)
    requires "data" !in jsobj
    ensures ListFromJson(jsobj, listKind, blank, itemKind).2 == []
    ensures ListFromJson(jsobj, listKind, blank, itemKind).0 == CheckKind(jsobj, listKind)
  {
  }

  /** With a list of acceptable items, one record per item is appended, in order. */
  lemma ListItemsInOrder(jsobj: map<string, Value>, listKind: string, blank: map<string, Value>, itemKind: string, elements: seq<Value>)
    requires CheckKind(jsobj, listKind).Ok? && "data" in jsobj && DataItems(jsobj["data"]) == Ok(elements)
    requires forall i :: 0 <= i < |elements| ==> elements[i].Obj? && CheckKind(elements[i].fields, itemKind).Ok?
    ensures ListFromJson(jsobj, listKind, blank, itemKind).0 == Ok(())
    ensures |ListFromJson(jsobj, listKind, blank, itemKind).2| == |elements|
    ensures forall i :: 0 <= i < |elements| ==>
      ListFromJson(jsobj, listKind, blank, itemKind).2[i] == Copied(blank, elements[i].fields, elements[i].fields.Keys)
  {
    ParseItemsNoFailure(elements, blank, itemKind);
    ParseItemsAll(elements, blank, itemKind);
  }

  // ------------------------------------------------------------------
  // ModelBase

  /**
   * ModelBase: the set of changed properties, and the kind of the concrete
   * class (None for ModelBase itself, whose kind() is abstract).
   */
  class ModelBase {
    const kind: Option<string>
    var dirtyProps: set<string>

    constructor (kind: Option<string>)
      ensures this.kind == kind && dirtyProps == {}
    {
      this.kind := kind;
      dirtyProps := {};
    }

    /** kind(): the class's kind, or NotImplementedError on the abstract base. */
    function Kind(): (r: Result<string>)
      ensures r.Err? <==> kind.None?
      ensures r.Err? ==> r.error == NotImplementedError
      ensures r.Ok? ==> r.value == kind.value
    {
      if kind.Some? then Ok(kind.value) else Err(NotImplementedError)
    }

    /** from_json: a present kind must equal kind(); a record without one is accepted. */
    method FromJson(jsdata: map<string, Value>) returns (r: Result<()>)
      ensures r.Err? <==> "kind" in jsdata && (kind.None? || jsdata["kind"] != Str(kind.value))
      ensures r.Err? ==> r.error == if kind.None? then NotImplementedError else ValueError("Incorrect kind of model")
    {
      if "kind" in jsdata {
        var k := Kind();
        if k.Err? {
          return Err(k.error);
        }
        if jsdata["kind"] != Str(k.value) {
          return Err(ValueError("Incorrect kind of model"));
        }
      }
      return Ok(());
    }

    /** mutation_update is abstract. */
    method MutationUpdate() returns (r: Result<()>)
      ensures r == Err(NotImplementedError)
    {
      r := Err(NotImplementedError);
    }

    /** mutation_delete is abstract. */
    method MutationDelete() returns (r: Result<()>)
      ensures r == Err(NotImplementedError)
    {
      r := Err(NotImplementedError);
    }
  }

  /** ModelBase(jsdata): a new record with no changed properties; from_json runs only for a truthy (non-empty) jsdata. */
  method NewModelBase(kind: Option<string>, jsdata: Option<map<string, Value>>) returns (r: Result<ModelBase>)
    ensures r.Err? <==> (jsdata.Some? && jsdata.value != map[] && "kind" in jsdata.value &&
      (kind.None? || jsdata.value["kind"] != Str(kind.value)))
    ensures r.Ok? ==> fresh(r.value) && r.value.kind == kind && r.value.dirtyProps == {}
  {
    var m := new ModelBase(kind);
    if jsdata.Some? && jsdata.value != map[] {
      var checked := m.FromJson(jsdata.value);
      if checked.Err? {
        return Err(checked.error);
      }
    }
    return Ok(m);
  }

  // ------------------------------------------------------------------
  // Track

  const TrackKind: string := "sj#track"
  const TrackListKind: string := "sj#trackList"

  /** The 24 backing attributes a new Track sets to None. */
  const TrackFields: set<string> := {
    "album", "albumArtRef", "albumArtist", "albumId", "artist", "beatsPerMinute",
    "comment", "composer", "creationTimestamp", "discNumber", "durationMillis",
    "estimatedSize", "genre", "deleted", "lastModifiedTimestamp", "playCount",
    "rating", "id", "storeId", "title", "totalDiscCount", "trackNumber",
    "trackType", "year"
  }

  /** The attributes of a new Track. */
  function NewTrackAttrs(): (attrs: map<string, Value>)
    ensures attrs.Keys == TrackFields
    ensures forall k :: k in attrs ==> attrs[k] == Null
  {
    map k | k in TrackFields :: Null
  }

  /** The Track properties that have a setter, by the check it makes; the others are read-only. */
  function TrackSetter(prop: string): Option<Setter>
  {
    match prop
    case "album" => Some(TextSetter)
    case "albumArtist" => Some(TextSetter)
    case "artist" => Some(TextSetter)
    case "comment" => Some(TextSetter)
    case "composer" => Some(TextSetter)
    case "genre" => Some(TextSetter)
    case "title" => Some(TextSetter)
    case "beatsPerMinute" => Some(IntSetter)
    case "discNumber" => Some(IntSetter)
    case "durationMillis" => Some(IntSetter)
    case "estimatedSize" => Some(IntSetter)
    case "totalDiscCount" => Some(IntSetter)
    case "trackNumber" => Some(IntSetter)
    case "year" => Some(IntSetter)
    case "rating" => Some(RatingSetter)
    case _ => None
  }

  /** Only properties backed by an attribute have setters. */
  lemma TrackSettersAreFields(prop: string)
    requires TrackSetter(prop).Some?
    ensures prop in TrackFields
  {
  }

  /** id, albumId, deleted, playCount and trackType are read-only, and so are the other four attributes without a setter. */
  lemma TrackReadOnly()
    ensures TrackSetter("id").None? && TrackSetter("albumId").None? && TrackSetter("deleted").None?
    ensures TrackSetter("playCount").None? && TrackSetter("trackType").None?
    ensures TrackSetter("albumArtRef").None? && TrackSetter("creationTimestamp").None?
    ensures TrackSetter("lastModifiedTimestamp").None? && TrackSetter("storeId").None?
  {
  }

  class Track {
    /** attrs[k] is the attribute `_k`. */
    var attrs: map<string, Value>

    /** Track(): every backing attribute None. */
    constructor ()
      ensures attrs == NewTrackAttrs()
    {
      attrs := NewTrackAttrs();
    }

    /** The property getter: the backing attribute. */
    function Get(prop: string): (r: Result<Value>)
      reads this
      ensures r.Ok? <==> prop in TrackFields && prop in attrs
      ensures r.Ok? ==> r.value == attrs[prop]
    {
      if prop in TrackFields && prop in attrs then Ok(attrs[prop]) else Err(AttributeError(prop))
    }

    /** The property setter: AttributeError for a read-only property, AssertionError for a value of the wrong type. */
    method Set(prop: string, value: Value) returns (r: Result<()>)
      modifies this
      ensures TrackSetter(prop).None? ==> r == Err(AttributeError(prop)) && attrs == old(attrs)
      ensures TrackSetter(prop).Some? ==> r.Ok? == SetterStores(TrackSetter(prop).value, value).Ok?
      ensures TrackSetter(prop).Some? && r.Ok? ==> attrs == old(attrs)[prop := SetterStores(TrackSetter(prop).value, value).value]
      ensures r.Err? ==> attrs == old(attrs)
    {
      var setter := TrackSetter(prop);
      if setter.None? {
        return Err(AttributeError(prop));
      }
      var stored := SetterStores(setter.value, value);
      if stored.Err? {
        return Err(stored.error);
      }
      attrs := attrs[prop := stored.value];
      return Ok(());
    }

    /** from_json: the kind check, then every key but kind stored as `_key`. */
    method FromJson(jsobj: map<string, Value>) returns (r: Result<()>)
      modifies this
      ensures r.Ok? ==> RecordFromJson(old(attrs), jsobj, TrackKind) == Ok(attrs)
      ensures r.Err? ==> RecordFromJson(old(attrs), jsobj, TrackKind) == Err(r.error) && attrs == old(attrs)
    {
      var checked := CheckKind(jsobj, TrackKind);
      if checked.Err? {
        return checked;
      }
      attrs := CopyAttributes(attrs, jsobj);
      return Ok(());
    }
  }

  /** The attributes of each track in a list. */
  function TrackAttrs(items: seq<Track>): (r: seq<map<string, Value>>)
    reads items
    ensures |r| == |items|
  {
    if |items| == 0 then [] else TrackAttrs(items[..|items| - 1]) + [items[|items| - 1].attrs]
  }

  /** `trk = Track(); trk.from_json(element)`: a new track, or the exception from_json raised. */
  method NewTrackFromJson(element: Value) returns (r: Result<Track>)
    ensures r.Ok? ==> fresh(r.value) && ElementFromJson(element, NewTrackAttrs(), TrackKind) == Ok(r.value.attrs)
    ensures r.Err? ==> ElementFromJson(element, NewTrackAttrs(), TrackKind) == Err(r.error)
  {
    var trk := new Track();
    if !element.Obj? {
      return Err(TypeError("indices must be integers"));
    }
    var parsed := trk.FromJson(element.fields);
    if parsed.Err? {
      return Err(parsed.error);
    }
    return Ok(trk);
  }

  /** Appending a track appends its attributes. */
  lemma TrackAttrsAppend(items: seq<Track>, t: Track)
    ensures TrackAttrs(items + [t]) == TrackAttrs(items) + [t.attrs]
  {
    assert (items + [t])[..|items|] == items;
  }

  class TrackList {
    var nextPageToken: Value
    var items: seq<Track>

    /** TrackList() with falsy jsdata: no items and a None token. */
    constructor ()
      ensures nextPageToken == Null && items == []
    {
      nextPageToken := Null;
      items := [];
    }

    /**
     * from_json: the kind check; nextPageToken copied when present; then a
     * new Track per element of data.items, appended in order until one
     * raises.
     */
    method FromJson(jsobj: map<string, Value>) returns (r: Result<()>)
      modifies this
      ensures var (result, token, records) := ListFromJson(jsobj, TrackListKind, NewTrackAttrs(), TrackKind);
        r == result &&
        nextPageToken == (if token.Some? then token.value else old(nextPageToken)) &&
        TrackAttrs(items) == old(TrackAttrs(items)) + records
      ensures |items| >= |old(items)| && items[..|old(items)|] == old(items)
      ensures forall i :: |old(items)| <= i < |items| ==> fresh(items[i])
    {
      var checked := CheckKind(jsobj, TrackListKind);
      if checked.Err? {
        return checked;
      }
      if "nextPageToken" in jsobj {
        nextPageToken := jsobj["nextPageToken"];
      }
      if "data" !in jsobj {
        return Ok(());
      }
      var elements := DataItems(jsobj["data"]);
      if elements.Err? {
        return Err(elements.error);
      }
      var failed := AppendTracks(elements.value);
      return if failed.Some? then Err(failed.value) else Ok(());
    }

    /** The loop over data.items: a new Track per element, appended until one raises. */
    method AppendTracks(es: seq<Value>) returns (failed: Option<Error>)
      modifies this
      ensures failed == ParseItems(es, NewTrackAttrs(), TrackKind).1
      ensures TrackAttrs(items) == old(TrackAttrs(items)) + ParseItems(es, NewTrackAttrs(), TrackKind).0
      ensures nextPageToken == old(nextPageToken)
      ensures |items| >= |old(items)| && items[..|old(items)|] == old(items)
      ensures forall i :: |old(items)| <= i < |items| ==> fresh(items[i])
    {
      for i := 0 to |es|
        invariant ParseItems(es[..i], NewTrackAttrs(), TrackKind).1.None?
        invariant TrackAttrs(items) == old(TrackAttrs(items)) + ParseItems(es[..i], NewTrackAttrs(), TrackKind).0
        invariant nextPageToken == old(nextPageToken)
        invariant |items| >= |old(items)| && items[..|old(items)|] == old(items)
        invariant forall j :: |old(items)| <= j < |items| ==> fresh(items[j])
      {
        var trk := NewTrackFromJson(es[i]);
        if trk.Err? {
          ParseItemsStop(es, i, NewTrackAttrs(), TrackKind, trk.error);
          return Some(trk.error);
        }
        ParseItemsSnoc(es, i, NewTrackAttrs(), TrackKind, trk.value.attrs);
        TrackAttrsAppend(items, trk.value);
        items := items + [trk.value];
      }
      assert es[..|es|] == es;
      return None;
    }
  }

  /** TrackList(jsdata): from_json runs only for a truthy (non-empty) jsdata. */
  method NewTrackList(jsdata: map<string, Value>) returns (r: Result<TrackList>)
    ensures r.Ok? ==> fresh(r.value)
    ensures jsdata == map[] ==> r.Ok? && r.value.items == [] && r.value.nextPageToken == Null
    ensures jsdata != map[] ==> var (result, token, records) := ListFromJson(jsdata, TrackListKind, NewTrackAttrs(), TrackKind);
      (r.Ok? <==> result.Ok?) && (r.Err? ==> r.error == result.error) &&
      (r.Ok? ==> TrackAttrs(r.value.items) == records && r.value.nextPageToken == (if token.Some? then token.value else Null))
  {
    var list := new TrackList();
    if jsdata != map[] {
      var done := list.FromJson(jsdata);
      if done.Err? {
        return Err(done.error);
      }
    }
    return Ok(list);
  }

  // ------------------------------------------------------------------
  // Playlist

  const PlaylistKind: string := "sj#playlist"
  const PlaylistListKind: string := "sj#playlistList"

  /** The six backing attributes a new Playlist sets to None. */
  const PlaylistFields: set<string> := {"creationTimestamp", "deleted", "lastModifiedTimestamp", "name", "id", "type"}

  /** The attributes of a new Playlist. */
  function NewPlaylistAttrs(): (attrs: map<string, Value>)
    ensures attrs.Keys == PlaylistFields
    ensures forall k :: k in attrs ==> attrs[k] == Null
  {
    map k | k in PlaylistFields :: Null
  }

  /** Only name has a setter, and it asserts a str. */
  function PlaylistSetter(prop: string): (s: Option<Setter>)
    ensures s.Some? <==> prop == "name"
    ensures s.Some? ==> s.value == TextSetter
  {
    if prop == "name" then Some(TextSetter) else None
  }

  class Playlist {
    /** attrs[k] is the attribute `_k`. */
    var attrs: map<string, Value>

    /** Playlist(): every backing attribute None. */
    constructor ()
      ensures attrs == NewPlaylistAttrs()
    {
      attrs := NewPlaylistAttrs();
    }

    /** The property getter: the backing attribute. */
    function Get(prop: string): (r: Result<Value>)
      reads this
      ensures r.Ok? <==> prop in PlaylistFields && prop in attrs
      ensures r.Ok? ==> r.value == attrs[prop]
    {
      if prop in PlaylistFields && prop in attrs then Ok(attrs[prop]) else Err(AttributeError(prop))
    }

    /** The property setter: only name can be set, and only to a str. */
    method Set(prop: string, value: Value) returns (r: Result<()>)
      modifies this
      ensures prop != "name" ==> r == Err(AttributeError(prop)) && attrs == old(attrs)
      ensures prop == "name" && !value.Str? ==> r == Err(AssertionError) && attrs == old(attrs)
      ensures prop == "name" && value.Str? ==> r == Ok(()) && attrs == old(attrs)["name" := value]
    {
      var setter := PlaylistSetter(prop);
      if setter.None? {
        return Err(AttributeError(prop));
      }
      var stored := SetterStores(setter.value, value);
      if stored.Err? {
        return Err(stored.error);
      }
      attrs := attrs[prop := stored.value];
      return Ok(());
    }

    /** from_json: the kind check, then every key but kind stored as `_key`. */
    method FromJson(jsobj: map<string, Value>) returns (r: Result<()>)
      modifies this
      ensures r.Ok? ==> RecordFromJson(old(attrs), jsobj, PlaylistKind) == Ok(attrs)
      ensures r.Err? ==> RecordFromJson(old(attrs), jsobj, PlaylistKind) == Err(r.error) && attrs == old(attrs)
    {
      var checked := CheckKind(jsobj, PlaylistKind);
      if checked.Err? {
        return checked;
      }
      attrs := CopyAttributes(attrs, jsobj);
      return Ok(());
    }
  }

  /** `playlist = Playlist(); playlist.from_json(element)`: a new playlist, or the exception from_json raised. */
  method NewPlaylistFromJson(element: Value) returns (r: Result<Playlist>)
    ensures r.Ok? ==> fresh(r.value) && ElementFromJson(element, NewPlaylistAttrs(), PlaylistKind) == Ok(r.value.attrs)
    ensures r.Err? ==> ElementFromJson(element, NewPlaylistAttrs(), PlaylistKind) == Err(r.error)
  {
    var playlist := new Playlist();
    if !element.Obj? {
      return Err(TypeError("indices must be integers"));
    }
    var parsed := playlist.FromJson(element.fields);
    if parsed.Err? {
      return Err(parsed.error);
    }
    return Ok(playlist);
  }

  /** The attributes of each playlist in a list. */
  function PlaylistAttrs(items: seq<Playlist>): (r: seq<map<string, Value>>)
    reads items
    ensures |r| == |items|
  {
    if |items| == 0 then [] else PlaylistAttrs(items[..|items| - 1]) + [items[|items| - 1].attrs]
  }

  /** Appending a playlist appends its attributes. */
  lemma PlaylistAttrsAppend(items: seq<Playlist>, p: Playlist)
    ensures PlaylistAttrs(items + [p]) == PlaylistAttrs(items) + [p.attrs]
  {
    assert (items + [p])[..|items|] == items;
  }

  class PlaylistList {
    var nextPageToken: Value
    var items: seq<Playlist>

    /** PlaylistList() with falsy jsdata: no items and a None token. */
    constructor ()
      ensures nextPageToken == Null && items == []
    {
      nextPageToken := Null;
      items := [];
    }

    /**
     * from_json: the kind check; nextPageToken copied when present; then a
     * new Playlist per element of data.items, appended in order until one
     * raises.
     */
    method FromJson(jsobj: map<string, Value>) returns (r: Result<()>)
      modifies this
      ensures var (result, token, records) := ListFromJson(jsobj, PlaylistListKind, NewPlaylistAttrs(), PlaylistKind);
        r == result &&
        nextPageToken == (if token.Some? then token.value else old(nextPageToken)) &&
        PlaylistAttrs(items) == old(PlaylistAttrs(items)) + records
      ensures |items| >= |old(items)| && items[..|old(items)|] == old(items)
      ensures forall i :: |old(items)| <= i < |items| ==> fresh(items[i])
    {
      var checked := CheckKind(jsobj, PlaylistListKind);
      if checked.Err? {
        return checked;
      }
      if "nextPageToken" in jsobj {
        nextPageToken := jsobj["nextPageToken"];
      }
      if "data" !in jsobj {
        return Ok(());
      }
      var elements := DataItems(jsobj["data"]);
      if elements.Err? {
        return Err(elements.error);
      }
      var failed := AppendPlaylists(elements.value);
      return if failed.Some? then Err(failed.value) else Ok(());
    }

    /** The loop over data.items: a new Playlist per element, appended until one raises. */
    method AppendPlaylists(es: seq<Value>) returns (failed: Option<Error>)
      modifies this
      ensures failed == ParseItems(es, NewPlaylistAttrs(), PlaylistKind).1
      ensures PlaylistAttrs(items) == old(PlaylistAttrs(items)) + ParseItems(es, NewPlaylistAttrs(), PlaylistKind).0
      ensures nextPageToken == old(nextPageToken)
      ensures |items| >= |old(items)| && items[..|old(items)|] == old(items)
      ensures forall i :: |old(items)| <= i < |items| ==> fresh(items[i])
    {
      for i := 0 to |es|
        invariant ParseItems(es[..i], NewPlaylistAttrs(), PlaylistKind).1.None?
        invariant PlaylistAttrs(items) == old(PlaylistAttrs(items)) + ParseItems(es[..i], NewPlaylistAttrs(), PlaylistKind).0
        invariant nextPageToken == old(nextPageToken)
        invariant |items| >= |old(items)| && items[..|old(items)|] == old(items)
        invariant forall j :: |old(items)| <= j < |items| ==> fresh(items[j])
      {
        var playlist := NewPlaylistFromJson(es[i]);
        if playlist.Err? {
          ParseItemsStop(es, i, NewPlaylistAttrs(), PlaylistKind, playlist.error);
          return Some(playlist.error);
        }
        ParseItemsSnoc(es, i, NewPlaylistAttrs(), PlaylistKind, playlist.value.attrs);
        PlaylistAttrsAppend(items, playlist.value);
        items := items + [playlist.value];
      }
      assert es[..|es|] == es;
      return None;
    }
  }

  /** PlaylistList(jsdata): from_json runs only for a truthy (non-empty) jsdata. */
  method NewPlaylistList(jsdata: map<string, Value>) returns (r: Result<PlaylistList>)
    ensures r.Ok? ==> fresh(r.value)
    ensures jsdata == map[] ==> r.Ok? && r.value.items == [] && r.value.nextPageToken == Null
    ensures jsdata != map[] ==> var (result, token, records) := ListFromJson(jsdata, PlaylistListKind, NewPlaylistAttrs(), PlaylistKind);
      (r.Ok? <==> result.Ok?) && (r.Err? ==> r.error == result.error) &&
      (r.Ok? ==> PlaylistAttrs(r.value.items) == records && r.value.nextPageToken == (if token.Some? then token.value else Null))
  {
    var list := new PlaylistList();
    if jsdata != map[] {
      var done := list.FromJson(jsdata);
      if done.Err? {
        return Err(done.error);
      }
    }
    return Ok(list);
  }
}
