/**
 * The metadata expectation registry of gmusicapi/protocol.py: one class per
 * song field the web client knows, with its validictory type, mutability,
 * allowed values, volatility, dependency and optionality; how a field's key
 * is derived from its class name; lookup by key; and the per-field schema.
 */
module Expectations {
  import opened Py
  import opened Text

  /** The validictory type names an expectation can carry. */
  datatype ValType = StringType | IntegerType | NumberType | BooleanType | ObjectType | ArrayType | NullType | AnyType

  function TypeName(t: ValType): string
  {
    match t
    case StringType => "string"
    case IntegerType => "integer"
    case NumberType => "number"
    case BooleanType => "boolean"
    case ObjectType => "object"
    case ArrayType => "array"
    case NullType => "null"
    case AnyType => "any"
  }

  /** dependent_transformation: absent (raises NotImplementedError), identity, or string.lower. */
  datatype Transform = NotImplemented | Identity | Lowercase

  /** The 29 expectation classes nested in Metadata_Expectations. */
  datatype Field = Rating | Composer | Album | AlbumArtist | Genre | Name | Artist | Disc | Year | Track | TotalTracks | PlayCount | TotalDiscs | DurationMillis | Comment | Id | Deleted | CreationDate | AlbumArtUrl | GmType | BeatsPerMinute | Url | PlaylistEntryId | Title | TitleNorm | AlbumArtistNorm | AlbumNorm | ArtistNorm | LastPlayed

  /** One _Metadata_Expectation subclass, by its attributes. */
  datatype Expectation = Expectation(
    className: string,
    valType: ValType,
    mutable: bool,
    allowedValues: Option<seq<int>>,
    volatile: bool,
    dependsOn: Option<Field>,
    transform: Transform,
    optional: bool)
  {
    /** The `name` attribute the metaclass gives the class. */
    function Name(): string
    {
      CanonicalName(className)
    }
  }

  // ------------------------------------------------------------------
  // _DefinesNameMetaclass: name.split('gm_')[-1]

  /** s ends with the three characters "gm_". */
  predicate EndsWithGm(s: string)
  {
    |s| >= 3 && s[|s| - 3] == 'g' && s[|s| - 2] == 'm' && s[|s| - 1] == '_'
  }

  /**
   * The index just past the last occurrence of "gm_" in s, or 0 when there
   * is none.  "gm_" cannot overlap itself, so the last occurrence is also
   * the last one a left-to-right split finds.
   */
  function GmEnd(s: string): (k: nat)
    ensures k <= |s|
    ensures k > 0 ==> k >= 3 && EndsWithGm(s[..k])
    decreases |s|
  {
    if |s| < 3 then 0
    else if EndsWithGm(s) then |s|
    else GmEnd(s[..|s| - 1])
  }

  /** The text after the last "gm_" (all of s when there is none). */
  function CanonicalName(s: string): (r: string)
    ensures |r| <= |s| && r == s[|s| - |r|..]
  {
    s[GmEnd(s)..]
  }

  /** A text without '_' holds no "gm_". */
  lemma {:induction false} NoUnderscoreNoGm(s: string)
    requires '_' !in s
    ensures GmEnd(s) == 0
    decreases |s|
  {
    if |s| >= 3 {
      assert s[|s| - 1] in s;
      NoUnderscoreNoGm(s[..|s| - 1]);
    }
  }

  /** A class name without "gm_" is its own key. */
  lemma NameWithoutPrefix(s: string)
    requires '_' !in s
    ensures CanonicalName(s) == s
  {
    NoUnderscoreNoGm(s);
  }

  /** No "gm_" straddles the end of a "gm_" prefix, so the last one is found in s or is the prefix. */
  lemma {:induction false} GmEndAfterPrefix(s: string)
    ensures GmEnd("gm_" + s) == 3 + GmEnd(s)
    decreases |s|
  {
    var t := "gm_" + s;
    if |s| == 0 {
      assert t == "gm_";
    } else if |s| >= 3 && EndsWithGm(s) {
      assert t[|t| - 3..] == s[|s| - 3..];
    } else {
      assert t[|t| - 1] == s[|s| - 1];
      if |s| == 1 {
        assert t[|t| - 3] == 'm';
      } else if |s| == 2 {
        assert t[|t| - 3] == '_';
      } else {
        assert t[|t| - 3..] == s[|s| - 3..];
      }
      assert t[..|t| - 1] == "gm_" + s[..|s| - 1];
      GmEndAfterPrefix(s[..|s| - 1]);
    }
  }

  /** Prefixing "gm_" does not change the key. */
  lemma NameWithPrefix(s: string)
    ensures CanonicalName("gm_" + s) == CanonicalName(s)
  {
    GmEndAfterPrefix(s);
    assert ("gm_" + s)[3 + GmEnd(s)..] == s[GmEnd(s)..];
  }

  /** The class gm_type is keyed "type". */
  lemma GmTypeIsKeyedType()
    ensures CanonicalName("gm_type") == "type"
  {
    NameWithPrefix("type");
    assert "gm_" + "type" == "gm_type";
    NameWithoutPrefix("type");
  }

  // ------------------------------------------------------------------
  // The registry

  function ClassName(f: Field): string
  {
    match f
    case Rating => "rating"
    case Composer => "composer"
    case Album => "album"
    case AlbumArtist => "albumArtist"
    case Genre => "genre"
    case Name => "name"
    case Artist => "artist"
    case Disc => "disc"
    case Year => "year"
    case Track => "track"
    case TotalTracks => "totalTracks"
    case PlayCount => "playCount"
    case TotalDiscs => "totalDiscs"
    case DurationMillis => "durationMillis"
    case Comment => "comment"
    case Id => "id"
    case Deleted => "deleted"
    case CreationDate => "creationDate"
    case AlbumArtUrl => "albumArtUrl"
    case GmType => "gm_type"
    case BeatsPerMinute => "beatsPerMinute"
    case Url => "url"
    case PlaylistEntryId => "playlistEntryId"
    case Title => "title"
    case TitleNorm => "titleNorm"
    case AlbumArtistNorm => "albumArtistNorm"
    case AlbumNorm => "albumNorm"
    case ArtistNorm => "artistNorm"
    case LastPlayed => "lastPlayed"
  }

  /** The class attributes of each expectation, over the defaults of _Metadata_Expectation. */
  function Spec(f: Field): (e: Expectation)
    ensures e.className == ClassName(f)
  {
    var d := Expectation(ClassName(f), StringType, true, None, false, None, NotImplemented, false);
    match f
    case Rating => d.(valType := IntegerType, allowedValues := Some([0, 1, 5]))
    case Composer => d
    case Album => d
    case AlbumArtist => d
    case Genre => d
    case Name => d
    case Artist => d
    case Disc => d.(valType := IntegerType, optional := true)
    case Year => d.(valType := IntegerType, optional := true)
    case Track => d.(valType := IntegerType, optional := true)
    case TotalTracks => d.(valType := IntegerType, optional := true)
    case PlayCount => d.(valType := IntegerType)
    case TotalDiscs => d.(valType := IntegerType, optional := true)
    case DurationMillis => d.(valType := IntegerType, mutable := false)
    case Comment => d.(mutable := false)
    case Id => d.(mutable := false)
    case Deleted => d.(valType := BooleanType, mutable := false)
    case CreationDate => d.(valType := IntegerType, mutable := false)
    case AlbumArtUrl => d.(mutable := false, optional := true)
    case GmType => d.(valType := IntegerType, mutable := false)
    case BeatsPerMinute => d.(valType := IntegerType, mutable := false)
    case Url => d.(mutable := false)
    case PlaylistEntryId => d.(mutable := false, optional := true)
    case Title => d.(dependsOn := Some(Name), transform := Identity)
    case TitleNorm => d.(dependsOn := Some(Name), transform := Lowercase)
    case AlbumArtistNorm => d.(dependsOn := Some(AlbumArtist), transform := Lowercase)
    case AlbumNorm => d.(dependsOn := Some(Album), transform := Lowercase)
    case ArtistNorm => d.(dependsOn := Some(Artist), transform := Lowercase)
    case LastPlayed => d.(valType := IntegerType, mutable := false, volatile := true)
  }

  /** The nested class named key, if any. */
  function FieldNamed(key: string): Option<Field>
  {
    match key
    case "rating" => Some(Rating)
    case "composer" => Some(Composer)
    case "album" => Some(Album)
    case "albumArtist" => Some(AlbumArtist)
    case "genre" => Some(Genre)
    case "name" => Some(Name)
    case "artist" => Some(Artist)
    case "disc" => Some(Disc)
    case "year" => Some(Year)
    case "track" => Some(Track)
    case "totalTracks" => Some(TotalTracks)
    case "playCount" => Some(PlayCount)
    case "totalDiscs" => Some(TotalDiscs)
    case "durationMillis" => Some(DurationMillis)
    case "comment" => Some(Comment)
    case "id" => Some(Id)
    case "deleted" => Some(Deleted)
    case "creationDate" => Some(CreationDate)
    case "albumArtUrl" => Some(AlbumArtUrl)
    case "gm_type" => Some(GmType)
    case "beatsPerMinute" => Some(BeatsPerMinute)
    case "url" => Some(Url)
    case "playlistEntryId" => Some(PlaylistEntryId)
    case "title" => Some(Title)
    case "titleNorm" => Some(TitleNorm)
    case "albumArtistNorm" => Some(AlbumArtistNorm)
    case "albumNorm" => Some(AlbumNorm)
    case "artistNorm" => Some(ArtistNorm)
    case "lastPlayed" => Some(LastPlayed)
    case _ => None
  }

  /** getattr finds a class only under its own name. */
  lemma FieldNamedSound(key: string)
    ensures FieldNamed(key).Some? ==> ClassName(FieldNamed(key).value) == key
  {
  }

  /** getattr finds each expectation class under its class name. */
  lemma FieldNamedFinds(f: Field)
    ensures FieldNamed(ClassName(f)) == Some(f)
  {
    match f
    case Rating =>
    case Composer =>
    case Album =>
    case AlbumArtist =>
    case Genre =>
    case Name =>
    case Artist =>
    case Disc =>
    case Year =>
    case Track =>
    case TotalTracks =>
    case PlayCount =>
    case TotalDiscs =>
    case DurationMillis =>
    case Comment =>
    case Id =>
    case Deleted =>
    case CreationDate =>
    case AlbumArtUrl =>
    case GmType =>
    case BeatsPerMinute =>
    case Url =>
    case PlaylistEntryId =>
    case Title =>
    case TitleNorm =>
    case AlbumArtistNorm =>
    case AlbumNorm =>
    case ArtistNorm =>
    case LastPlayed =>
  }

  /** No two classes share a name. */
  lemma ClassNameInjective(f: Field, g: Field)
    requires ClassName(f) == ClassName(g)
    ensures f == g
  {
    FieldNamedFinds(f);
    FieldNamedFinds(g);
  }

  /** A name that no class carries finds nothing. */
  lemma NoClassNamed(key: string)
    requires forall f :: ClassName(f) != key
    ensures FieldNamed(key) == None
  {
    FieldNamedSound(key);
  }

  /** What getattr(Metadata_Expectations, key) finds. */
  datatype Member = Class(e: Expectation) | NotAClass

  /** The attributes of the class object that are not expectation classes. */
  predicate OtherAttribute(key: string)
  {
    key in {"__doc__", "__module__", "__name__", "__bases__", "__dict__", "get_expectation", "get_all_expectations"}
  }

  /** getattr(Metadata_Expectations, key); None stands for an AttributeError. */
  function Attribute(key: string): Option<Member>
  {
    match FieldNamed(key)
    case Some(f) => Some(Class(Spec(f)))
    case None => if OtherAttribute(key) then Some(NotAClass) else None
  }

  /** The expectation classes in the order the class body declares them. */
  const Classes: seq<Field> := [Rating, Composer, Album, AlbumArtist, Genre, Name, Artist, Disc, Year, Track, TotalTracks, PlayCount, TotalDiscs, DurationMillis, Comment, Id, Deleted, CreationDate, AlbumArtUrl, GmType, BeatsPerMinute, Url, PlaylistEntryId, Title, TitleNorm, AlbumArtistNorm, AlbumNorm, ArtistNorm, LastPlayed]

  /** Where each class stands in Classes. */
  function DeclIndex(f: Field): (i: nat)
    ensures i < |Classes| && Classes[i] == f
  {
    match f
    case Rating => 0
    case Composer => 1
    case Album => 2
    case AlbumArtist => 3
    case Genre => 4
    case Name => 5
    case Artist => 6
    case Disc => 7
    case Year => 8
    case Track => 9
    case TotalTracks => 10
    case PlayCount => 11
    case TotalDiscs => 12
    case DurationMillis => 13
    case Comment => 14
    case Id => 15
    case Deleted => 16
    case CreationDate => 17
    case AlbumArtUrl => 18
    case GmType => 19
    case BeatsPerMinute => 20
    case Url => 21
    case PlaylistEntryId => 22
    case Title => 23
    case TitleNorm => 24
    case AlbumArtistNorm => 25
    case AlbumNorm => 26
    case ArtistNorm => 27
    case LastPlayed => 28
  }

  /** The attributes dir(Metadata_Expectations) lists besides the expectation classes. */
  const OtherListed: seq<string> := ["__doc__", "__module__", "get_all_expectations", "get_expectation"]

  /**
   * dir(Metadata_Expectations): the attribute names get_all_expectations
   * visits.  dir() sorts them; the model lists them in declaration order,
   * which does not change the result because no two classes share a key.
   */
  function Dir(): (names: seq<string>)
    ensures |names| == |OtherListed| + |Classes|
  {
    OtherListed + seq(|Classes|, i requires 0 <= i < |Classes| => ClassName(Classes[i]))
  }

  /** Where dir() lists each expectation class. */
  function DirIndex(f: Field): (i: nat)
    ensures i < |Dir()| && Dir()[i] == ClassName(f)
  {
    |OtherListed| + DeclIndex(f)
  }

  /** The classes declared before gm_type. */
  predicate DeclaredBeforeGmType(f: Field)
  {
    match f
    case Rating | Composer | Album | AlbumArtist | Genre | Name | Artist | Disc | Year | Track
      | TotalTracks | PlayCount | TotalDiscs | DurationMillis | Comment | Id | Deleted | CreationDate | AlbumArtUrl => true
    case _ => false
  }

  lemma EarlyClassNamesWithoutUnderscore(f: Field)
    requires DeclaredBeforeGmType(f)
    ensures '_' !in ClassName(f)
  {
    match f
    case Rating =>
    case Composer =>
    case Album =>
    case AlbumArtist =>
    case Genre =>
    case Name =>
    case Artist =>
    case Disc =>
    case Year =>
    case Track =>
    case TotalTracks =>
    case PlayCount =>
    case TotalDiscs =>
    case DurationMillis =>
    case Comment =>
    case Id =>
    case Deleted =>
    case CreationDate =>
    case AlbumArtUrl =>
  }

  lemma LateClassNamesWithoutUnderscore(f: Field)
    requires !DeclaredBeforeGmType(f) && f != GmType
    ensures '_' !in ClassName(f)
  {
    match f
    case BeatsPerMinute =>
    case Url =>
    case PlaylistEntryId =>
    case Title =>
    case TitleNorm =>
    case AlbumArtistNorm =>
    case AlbumNorm =>
    case ArtistNorm =>
    case LastPlayed =>
  }

  /** Only gm_type has an underscore in its class name. */
  lemma ClassNamesWithoutUnderscore(f: Field)
    requires f != GmType
    ensures '_' !in ClassName(f)
  {
    if DeclaredBeforeGmType(f) {
      EarlyClassNamesWithoutUnderscore(f);
    } else {
      LateClassNamesWithoutUnderscore(f);
    }
  }

  /** The key each expectation class is registered under. */
  function Key(f: Field): string
  {
    if f == GmType then "type" else ClassName(f)
  }

  /** Each expectation is keyed by its class name, except gm_type, which is keyed "type". */
  lemma SpecName(f: Field)
    ensures Spec(f).Name() == Key(f)
  {
    if f == GmType {
      GmTypeIsKeyedType();
    } else {
      ClassNamesWithoutUnderscore(f);
      NameWithoutPrefix(ClassName(f));
    }
  }

  /** No two classes share a key. */
  lemma KeyInjective(f: Field, g: Field)
    requires Key(f) == Key(g)
    ensures f == g
  {
    FieldNamedFinds(f);
    FieldNamedFinds(g);
    assert FieldNamed("type") == None;
  }

  // ------------------------------------------------------------------
  // get_expectation and get_all_expectations

  /**
   * get_expectation(key): the attribute named key, else the attribute named
   * "gm_" + key (an AttributeError when neither exists); an attribute that is
   * not an expectation class gives None.
   */
  function GetExpectation(key: string): (r: Result<Option<Expectation>>)
    ensures r.Err? <==> Attribute(key).None? && Attribute("gm_" + key).None?
    ensures r.Err? ==> r.error == AttributeError("gm_" + key)
    ensures Attribute(key).Some? ==> r == Ok(if Attribute(key).value.Class? then Some(Attribute(key).value.e) else None)
  {
    var m := if Attribute(key).Some? then Attribute(key) else Attribute("gm_" + key);
    match m
    case None => Err(AttributeError("gm_" + key))
    case Some(Class(e)) => Ok(Some(e))
    case Some(NotAClass) => Ok(None)
  }

  /** Whatever get_expectation finds is the class named key or "gm_" + key. */
  lemma GetExpectationField(key: string) returns (f: Field)
    requires GetExpectation(key).Ok? && GetExpectation(key).value.Some?
    ensures GetExpectation(key).value.value == Spec(f)
    ensures ClassName(f) == key || ClassName(f) == "gm_" + key
  {
    if FieldNamed(key).Some? {
      f := FieldNamed(key).value;
      FieldNamedSound(key);
    } else {
      f := FieldNamed("gm_" + key).value;
      FieldNamedSound("gm_" + key);
    }
  }

  /** The expectation found for key carries key's canonical name, whichever spelling found it. */
  lemma GetExpectationName(key: string)
    requires GetExpectation(key).Ok? && GetExpectation(key).value.Some?
    ensures GetExpectation(key).value.value.Name() == CanonicalName(key)
  {
    var f := GetExpectationField(key);
    if ClassName(f) != key {
      NameWithPrefix(key);
    }
  }

  /** The literal key is tried first: "rating" is found directly. */
  lemma LookupLiteral()
    ensures GetExpectation("rating") == Ok(Some(Spec(Rating)))
  {
    FieldNamedFinds(Rating);
  }

  /** "type" names no attribute, so get_expectation falls back to gm_type. */
  lemma LookupPrefixed()
    ensures GetExpectation("type") == Ok(Some(Spec(GmType)))
  {
    assert "gm_" + "type" == "gm_type";
    FieldNamedFinds(GmType);
    assert FieldNamed("type") == None;
  }

  /** A class attribute that is not an expectation gives None. */
  lemma LookupNonExpectation()
    ensures GetExpectation("__doc__") == Ok(None)
    ensures GetExpectation("get_expectation") == Ok(None)
  {
    assert FieldNamed("__doc__") == None;
    assert FieldNamed("get_expectation") == None;
  }

  /** A key that names nothing, with or without the prefix, raises AttributeError. */
  lemma LookupUnknown()
    ensures GetExpectation("bogus") == Err(AttributeError("gm_bogus"))
  {
    assert "gm_" + "bogus" == "gm_bogus";
    assert FieldNamed("bogus") == None;
    assert FieldNamed("gm_bogus") == None;
  }

  /** Distinct expectation classes have distinct keys. */
  lemma NameInjective(f: Field, g: Field)
    requires Spec(f).Name() == Spec(g).Name()
    ensures f == g
  {
    SpecName(f);
    SpecName(g);
    KeyInjective(f, g);
  }

  /** What one step of get_all_expectations keeps of a name: the expectation it looks up, if any. */
  function Found(name: string): Option<Expectation>
  {
    match GetExpectation(name)
    case Ok(Some(e)) => Some(e)
    case _ => None
  }

  /** Whatever a name finds is one of the registry classes. */
  lemma FoundField(name: string) returns (f: Field)
    requires Found(name).Some?
    ensures Found(name).value == Spec(f)
  {
    f := GetExpectationField(name);
  }

  /** Two names that find expectations with the same key find the same class. */
  lemma FoundKeyed(name: string, f: Field)
    requires Found(name).Some? && Found(name).value.Name() == Spec(f).Name()
    ensures Found(name).value == Spec(f)
  {
    var g := FoundField(name);
    NameInjective(f, g);
  }

  /**
   * The dictionary get_all_expectations has built after visiting names in
   * order: each expectation find gives for a name is stored under its `name`,
   * a later one replacing an earlier one with the same key.
   */
  function Collected(names: seq<string>, find: string -> Option<Expectation>): map<string, Expectation>
  {
    if |names| == 0 then map[]
    else
      var expts := Collected(names[..|names| - 1], find);
      match find(names[|names| - 1])
      case Some(e) => expts[e.Name() := e]
      case None => expts
  }

  /** Every entry was found for a visited name and is stored under its own key. */
  lemma {:induction false} CollectedEntries(names: seq<string>, find: string -> Option<Expectation>, k: string) returns (name: string)
    requires k in Collected(names, find)
    ensures name in names && find(name) == Some(Collected(names, find)[k]) && Collected(names, find)[k].Name() == k
  {
    var init := names[..|names| - 1];
    var last := names[|names| - 1];
    if find(last).Some? && find(last).value.Name() == k {
      name := last;
    } else {
      name := CollectedEntries(init, find, k);
    }
  }

  /**
   * An expectation found for some visited name is in the dictionary under its
   * key, provided no name finds a different expectation with that key.
   */
  lemma {:induction false} CollectedHas(names: seq<string>, find: string -> Option<Expectation>, i: nat, e: Expectation)
    requires i < |names| && find(names[i]) == Some(e)
    requires forall name :: find(name).Some? && find(name).value.Name() == e.Name() ==> find(name).value == e
    ensures e.Name() in Collected(names, find) && Collected(names, find)[e.Name()] == e
  {
    var init := names[..|names| - 1];
    if i < |names| - 1 {
      assert init[i] == names[i];
      CollectedHas(init, find, i, e);
      match find(names[|names| - 1])
      case Some(e2) =>
        if e2.Name() == e.Name() {
          assert e2 == e;
        }
      case None =>
    }
  }

  /** dir() lists every expectation class, and looking its name up finds it. */
  lemma DirListsField(f: Field)
    ensures 0 <= DirIndex(f) < |Dir()| && GetExpectation(Dir()[DirIndex(f)]) == Ok(Some(Spec(f)))
  {
    FieldNamedFinds(f);
  }

  /** Every class is collected from dir() under its key. */
  lemma DirCollectsAll(f: Field)
    ensures Spec(f).Name() in Collected(Dir(), Found) && Collected(Dir(), Found)[Spec(f).Name()] == Spec(f)
  {
    DirListsField(f);
    forall name | Found(name).Some? && Found(name).value.Name() == Spec(f).Name()
      ensures Found(name).value == Spec(f)
    {
      FoundKeyed(name, f);
    }
    CollectedHas(Dir(), Found, DirIndex(f), Spec(f));
  }

  /** Everything collected from dir() is a class under its key. */
  lemma DirCollectsOnlyFields(k: string)
    requires k in Collected(Dir(), Found)
    ensures exists f :: Collected(Dir(), Found)[k] == Spec(f) && k == Spec(f).Name()
  {
    var name := CollectedEntries(Dir(), Found, k);
    var f := FoundField(name);
  }

  /**
   * get_all_expectations: every one of the 29 classes is present under its
   * key, and nothing else is.
   */
  method GetAllExpectations() returns (expts: map<string, Expectation>)
    ensures forall f :: Spec(f).Name() in expts && expts[Spec(f).Name()] == Spec(f)
    ensures forall k :: k in expts ==> exists f :: expts[k] == Spec(f) && k == Spec(f).Name()
  {
    var names := Dir();
    expts := map[];
    for i := 0 to |names|
      invariant expts == Collected(names[..i], Found)
    {
      var member := GetExpectation(names[i]);
      match member {
        case Ok(Some(e)) =>
          expts := expts[e.Name() := e];
        case _ =>
      }
      assert names[..i + 1][..i] == names[..i];
    }
    assert names[..|names|] == names;
    forall f
      ensures Spec(f).Name() in expts && expts[Spec(f).Name()] == Spec(f)
    {
      DirCollectsAll(f);
    }
    forall k | k in expts
      ensures exists f :: expts[k] == Spec(f) && k == Spec(f).Name()
    {
      DirCollectsOnlyFields(k);
    }
  }

  lemma GmTypeHasPrefix()
    ensures GmEnd("gm_type") == 3
  {
    GmEndAfterPrefix("type");
    assert "gm_" + "type" == "gm_type";
    NoUnderscoreNoGm("type");
  }

  /** No key of the registry contains "gm_"; in particular "gm_type" is not one. */
  lemma KeysWithoutPrefix(f: Field)
    ensures GmEnd(Spec(f).Name()) == 0 && Spec(f).Name() != "gm_type"
  {
    SpecName(f);
    if f == GmType {
      NoUnderscoreNoGm("type");
    } else {
      ClassNamesWithoutUnderscore(f);
      NoUnderscoreNoGm(ClassName(f));
    }
    GmTypeHasPrefix();
  }

  // ------------------------------------------------------------------
  // get_schema and dependent transformations

  /** get_schema: {"type": val_type}, with blank=True for strings and required=False when optional. */
  function GetSchema(e: Expectation): (r: Value)
    ensures r.Obj?
    ensures "type" in r.fields && r.fields["type"] == Str(TypeName(e.valType))
    ensures ("blank" in r.fields <==> e.valType == StringType) && ("blank" in r.fields ==> r.fields["blank"] == Bool(true))
    ensures ("required" in r.fields <==> e.optional) && ("required" in r.fields ==> r.fields["required"] == Bool(false))
    ensures r.fields.Keys <= {"type", "blank", "required"}
  {
    var schema := map["type" := Str(TypeName(e.valType))];
    var schema := if e.valType == StringType then schema["blank" := Bool(true)] else schema;
    var schema := if e.optional then schema["required" := Bool(false)] else schema;
    Obj(schema)
  }

  /** dependent_transformation applied to the value of the field it depends on. */
  function DependentValue(e: Expectation, other: string): (r: Result<string>)
    ensures e.transform == NotImplemented <==> r == Err(NotImplementedError)
    ensures e.transform == Identity ==> r == Ok(other)
    ensures e.transform == Lowercase ==> r == Ok(Lower(other))
    ensures e.transform == Lowercase ==> r.Ok? && |r.value| == |other| && Lower(r.value) == r.value
  {
    match e.transform
    case NotImplemented => Err(NotImplementedError)
    case Identity => Ok(other)
    case Lowercase => Ok(Lower(other))
  }

  /**
   * A field has a transformation exactly when it depends on another field,
   * and the field it depends on depends on nothing.
   */
  lemma DependentsWellFormed(f: Field)
    ensures Spec(f).dependsOn.Some? <==> Spec(f).transform != NotImplemented
    ensures Spec(f).dependsOn.Some? ==> Spec(Spec(f).dependsOn.value).dependsOn.None?
  {
  }

  /** title copies name, and titleNorm is name lower-cased. */
  lemma TitleDependsOnName(nameValue: string)
    ensures Spec(Title).dependsOn == Some(Name) && Spec(TitleNorm).dependsOn == Some(Name)
    ensures DependentValue(Spec(Title), nameValue) == Ok(nameValue)
    ensures DependentValue(Spec(TitleNorm), nameValue) == Ok(Lower(nameValue))
  {
  }

  /** albumArtistNorm is albumArtist lower-cased. */
  lemma AlbumArtistNormDependsOnAlbumArtist(value: string)
    ensures Spec(AlbumArtistNorm).dependsOn == Some(AlbumArtist)
    ensures DependentValue(Spec(AlbumArtistNorm), value) == Ok(Lower(value))
  {
  }

  /** albumNorm is album lower-cased. */
  lemma AlbumNormDependsOnAlbum(value: string)
    ensures Spec(AlbumNorm).dependsOn == Some(Album)
    ensures DependentValue(Spec(AlbumNorm), value) == Ok(Lower(value))
  {
  }

  /** artistNorm is artist lower-cased. */
  lemma ArtistNormDependsOnArtist(value: string)
    ensures Spec(ArtistNorm).dependsOn == Some(Artist)
    ensures DependentValue(Spec(ArtistNorm), value) == Ok(Lower(value))
  {
  }

  /** Only rating restricts its values, to 0, 1 and 5. */
  lemma OnlyRatingRestricted(f: Field)
    ensures Spec(f).allowedValues.Some? <==> f == Rating
    ensures Spec(Rating).allowedValues == Some([0, 1, 5])
  {
  }

  /** Only lastPlayed is volatile. */
  lemma OnlyLastPlayedVolatile(f: Field)
    ensures Spec(f).volatile <==> f == LastPlayed
  {
  }
}
