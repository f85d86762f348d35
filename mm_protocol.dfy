/**
 * The Music Manager side of gmusicapi/protocol.py (class MM_Protocol): the
 * client's MAC text, the pre-filled protobuf templates that make_pb copies,
 * the metadata request built from local files, and the JSON requests that
 * open one upload session per accepted track.
 *
 * Protobuf messages are records of a class name, string fields and a list of
 * tracks (each a map of field name to JSON value).  mutagen's view of a file
 * is an AudioFile record; the file system is a map from path to AudioFile.
 * md5 followed by base64.encodestring is the parameter `encode`.
 */
module MmProtocol {
  import opened Py
  import opened Text
  import Utils

  // ------------------------------------------------------------------
  // Messages and files

  /** A protobuf message: its class, its scalar fields and its repeated `tracks`. */
  datatype Message = Message(kind: string, fields: map<string, string>, tracks: seq<map<string, Value>>)

  /**
   * What mutagen reports about a file: its bytes, its size, the bitrate in
   * bits per second, int(length * 1000) and the EasyID3 tags (each a list).
   */
  datatype AudioFile = AudioFile(
    contents: string,
    size: nat,
    bitrate: nat,
    durationMillis: int,
    tags: map<string, seq<string>>)

  /** One entry of MetadataResponse.response.uploads. */
  datatype Upload = Upload(id: string, serverId: string)

  /** One element of make_upload_session_requests' result: (filename, serverid, json). */
  datatype Session = Session(filename: string, serverId: string, payload: Value)

  // ------------------------------------------------------------------
  // The MAC text

  /** hex(getmac())[2:-1]: the hexadecimal text without "0x" and its last character. */
  function HexBody(hexText: string): string
  {
    Slice(hexText, 2, if |hexText| > 0 then |hexText| - 1 else 0)
  }

  /** ':'.join(m[x:x+2] for x in range(0, 10, 2)): five two-character groups. */
  function MacOf(hexText: string): string
  {
    var m := HexBody(hexText);
    Slice(m, 0, 2) + ":" + Slice(m, 2, 4) + ":" + Slice(m, 4, 6) + ":" + Slice(m, 6, 8) + ":" + Slice(m, 8, 10)
  }

  /**
   * For the hex text of a long ("0x" + digits + "L") the MAC text is the
   * first ten digits in five groups: only five octets appear, and the
   * sixth (digits 10 and 11) is dropped.
   */
  lemma MacOfLongHex(d: string)
    requires |d| >= 10
    ensures MacOf("0x" + d + "L") ==
      d[0..2] + ":" + d[2..4] + ":" + d[4..6] + ":" + d[6..8] + ":" + d[8..10]
    ensures |MacOf("0x" + d + "L")| == 14
  {
    var h := "0x" + d + "L";
    assert HexBody(h) == d by {
      assert h[2..|h| - 1] == d;
    }
  }

  /** A hex text too short to hold any digit yields only the four separators. */
  lemma MacOfShortHex(hexText: string)
    requires |hexText| <= 3
    ensures MacOf(hexText) == "::::"
  {
  }

  // ------------------------------------------------------------------
  // The templates and make_pb

  /**
   * The pre-filled templates, keyed by protocol name: the entry for `n`
   * stands for the attribute `n + "_filled"`.
   */
  function Templates(mac: string, hostname: string): (t: map<string, Message>)
    ensures forall n :: n in t ==> t[n].tracks == []
    ensures forall n :: n in t && "address" in t[n].fields ==> t[n].fields["address"] == mac
  {
    map[
      "upload_auth" := Message("UploadAuth", map["address" := mac, "hostname" := hostname], []),
      "client_state" := Message("ClientState", map["address" := mac], []),
      "upload_auth_response" := Message("UploadAuthResponse", map[], []),
      "client_state_response" := Message("ClientStateResponse", map[], []),
      "metadata_request" := Message("MetadataRequest", map["address" := mac], []),
      "metadata_response" := Message("MetadataResponse", map[], [])
    ]
  }

  /** Service name mapped to the path of its url. */
  const PbServices: map<string, string> := map[
    "upload_auth" := "upauth",
    "client_state" := "clientstate",
    "metadata" := "metadata?version=1"
  ]

  // ------------------------------------------------------------------
  // Supported files

  /** Python's `a in b` for two strings: a occurs in b at some position. */
  predicate SubstringOf(a: string, b: string)
    decreases |b|
  {
    |a| <= |b| && (a == b[..|a|] || SubstringOf(a, b[1..]))
  }

  /** a occurs in b starting at position i. */
  predicate OccursAt(a: string, b: string, i: int)
  {
    0 <= i && i + |a| <= |b| && b[i..i + |a|] == a
  }

  /** SubstringOf holds exactly when a occurs in b at some position. */
  lemma {:induction false} SubstringAt(a: string, b: string)
    ensures SubstringOf(a, b) <==> exists i :: OccursAt(a, b, i)
    decreases |b|
  {
    if |a| <= |b| {
      if a == b[..|a|] {
        assert OccursAt(a, b, 0);
      }
      if |b| > 0 {
        SubstringAt(a, b[1..]);
        if SubstringOf(a, b[1..]) {
          var i :| OccursAt(a, b[1..], i);
          assert b[1..][i..i + |a|] == b[i + 1..i + 1 + |a|];
          assert OccursAt(a, b, i + 1);
        }
        if exists i :: OccursAt(a, b, i) {
          var i :| OccursAt(a, b, i);
          if i > 0 {
            assert b[1..][i - 1..i - 1 + |a|] == b[i..i + |a|];
            assert OccursAt(a, b[1..], i - 1);
          }
        }
      } else {
        assert a == b[..|a|];
      }
    }
  }

  /** The texts found in "mp3": the empty text and its six non-empty substrings. */
  lemma SubstringsOfMp3(x: string)
    ensures SubstringOf(x, "mp3") <==> x in {"", "m", "p", "3", "mp", "p3", "mp3"}
  {
    var b := "mp3";
    assert b[1..] == "p3" && b[1..][1..] == "3" && b[1..][1..][1..] == "";
    if |x| == 0 {
      assert x == b[..0];
    } else if |x| == 1 {
      assert b[..1] == "m" && b[1..][..1] == "p" && b[1..][1..][..1] == "3";
    } else if |x| == 2 {
      assert b[..2] == "mp" && b[1..][..2] == "p3";
    } else if |x| == 3 {
      assert b[..3] == "mp3";
    }
  }

  /** The "filetypes" tested against: a plain string, so the test is a substring test. */
  const SupportedFiletypes := "mp3"

  /** filename.split(".")[-1] in supported_filetypes. */
  predicate Supported(filename: string)
  {
    SubstringOf(LastPiece(filename, '.'), SupportedFiletypes)
  }

  /** An extension is accepted exactly when it is one of the seven substrings of "mp3". */
  lemma SupportedExtensions(dir: string, ext: string)
    requires '.' !in ext
    ensures Supported(dir + "." + ext) <==> ext in {"", "m", "p", "3", "mp", "p3", "mp3"}
  {
    assert dir + "." + ext == dir + ['.'] + ext;
    LastPieceAfter(dir, '.', ext);
    SubstringsOfMp3(ext);
  }

  /** The test is case-sensitive: upper-case and foreign extensions are refused. */
  lemma SupportedExamples(dir: string)
    ensures Supported(dir + ".mp3") && Supported(dir + ".m") && Supported(dir + ".p3")
    ensures !Supported(dir + ".MP3") && !Supported(dir + ".ogg") && !Supported(dir + ".mp4")
  {
    assert Supported(dir + ".mp3") by {
      SupportedExtensions(dir, "mp3");
      assert dir + "." + "mp3" == dir + ".mp3";
    }
    assert Supported(dir + ".m") by {
      SupportedExtensions(dir, "m");
      assert dir + "." + "m" == dir + ".m";
    }
    assert Supported(dir + ".p3") by {
      SupportedExtensions(dir, "p3");
      assert dir + "." + "p3" == dir + ".p3";
    }
    assert !Supported(dir + ".MP3") by {
      SupportedExtensions(dir, "MP3");
      assert dir + "." + "MP3" == dir + ".MP3";
    }
    assert !Supported(dir + ".ogg") by {
      SupportedExtensions(dir, "ogg");
      assert dir + "." + "ogg" == dir + ".ogg";
    }
    assert !Supported(dir + ".mp4") by {
      SupportedExtensions(dir, "mp4");
      assert dir + "." + "mp4" == dir + ".mp4";
    }
  }

  /** A name with no dot is its own extension: "mp3" and "m" pass as whole file names. */
  lemma SupportedWithoutDot(filename: string)
    requires '.' !in filename
    ensures Supported(filename) <==> SubstringOf(filename, "mp3")
  {
    PiecesWithoutSep(filename, '.');
  }

  // ------------------------------------------------------------------
  // One track of the metadata request

  /** base64.encodestring(md5)[:-3]: the encoded digest without its last three characters. */
  function DigestId(encoded: string): (id: string)
    ensures |encoded| >= 3 ==> |id| == |encoded| - 3 && id == encoded[..|id|]
  {
    Slice(encoded, 0, if |encoded| >= 3 then |encoded| - 3 else 0)
  }

  /** A 16-byte digest encodes to 24 characters and a newline; its id has 22 characters. */
  lemma DigestIdOfDigest(encoded: string)
    requires |encoded| == 25
    ensures |DigestId(encoded)| == 22
  {
  }

  /** The client id of a file present in the file system. */
  function ClientId(fs: map<string, AudioFile>, encode: string -> string, filename: string): string
  {
    if filename in fs then DigestId(encode(fs[filename].contents)) else ""
  }

  /** audio[tag][0] when the tag is present; an empty tag list raises IndexError. */
  function FirstTag(tags: map<string, seq<string>>, tag: string): (r: Result<Option<string>>)
    ensures r.Ok? && r.value.Some? <==> tag in tags && |tags[tag]| > 0
    ensures r.Ok? && r.value.Some? ==> r.value.value == tags[tag][0]
    ensures r.Err? <==> tag in tags && |tags[tag]| == 0
  {
    if tag !in tags then Ok(None)
    else if |tags[tag]| == 0 then Err(IndexError)
    else Ok(Some(tags[tag][0]))
  }

  /** r holds every field of track other than `field`, unchanged. */
  predicate Keeps(track: map<string, Value>, r: map<string, Value>, field: string)
  {
    forall k :: k in track && k != field ==> k in r && r[k] == track[k]
  }

  /** `if tag in audio: track.field = audio[tag][0]`. */
  function SetText(track: map<string, Value>, field: string, tags: map<string, seq<string>>, tag: string): (r: Result<map<string, Value>>)
    ensures r.Ok? ==> Keeps(track, r.value, field) && r.value.Keys <= track.Keys + {field}
    ensures r.Ok? && tag in tags ==> |tags[tag]| > 0 && field in r.value && r.value[field] == Str(tags[tag][0])
    ensures r.Ok? && tag !in tags ==> r.value == track
    ensures r.Err? <==> tag in tags && |tags[tag]| == 0
  {
    var t :- FirstTag(tags, tag);
    if t.None? then Ok(track) else Ok(track[field := Str(t.value)])
  }

  /** `track.field = int(text)` when there is a text; int() raises ValueError. */
  function SetInt(track: map<string, Value>, field: string, text: Option<string>): (r: Result<map<string, Value>>)
    ensures r.Ok? ==> Keeps(track, r.value, field) && r.value.Keys <= track.Keys + {field}
    ensures text.None? ==> r == Ok(track)
    ensures text.Some? ==> (r.Ok? <==> ParseInt(text.value).Some?)
    ensures text.Some? && r.Ok? ==> ParseInt(text.value).Some? && r.value == track[field := Int(ParseInt(text.value).value)]
  {
    match text
    case None => Ok(track)
    case Some(s) =>
      match ParseInt(s)
      case None => Err(ValueError(s))
      case Some(n) => Ok(track[field := Int(n)])
  }

  /** The year text of a date tag: the part before the first "-". */
  function YearText(date: string): string
  {
    FirstPiece(date, '-')
  }

  /** "N/M".split("/"): the number text, and the total text when there are exactly two parts. */
  function PairTexts(s: string): (r: (string, Option<string>))
    ensures r.0 == FirstPiece(s, '/')
    ensures r.1.Some? <==> |Split(s, '/')| == 2
  {
    var p := Split(s, '/');
    (p[0], if |p| == 2 then Some(p[1]) else None)
  }

  /** "N/M" gives both numbers back. */
  lemma PairOfTwo(n: nat, m: nat)
    ensures PairTexts(Decimal(n) + "/" + Decimal(m)) == (Decimal(n), Some(Decimal(m)))
  {
    DecimalAvoids(n, '/');
    DecimalAvoids(m, '/');
    assert Decimal(n) + "/" + Decimal(m) == Decimal(n) + ['/'] + Decimal(m);
    SplitAfterPiece(Decimal(n), '/', Decimal(m));
    SplitNoSep(Decimal(m), '/');
  }

  /** A bare "N" sets no total. */
  lemma PairOfOne(n: nat)
    ensures PairTexts(Decimal(n)) == (Decimal(n), None)
  {
    DecimalAvoids(n, '/');
    SplitNoSep(Decimal(n), '/');
  }

  /** "N/M/K" has three parts: the number is kept and no total is set. */
  lemma PairOfThree(n: nat, m: nat, k: nat)
    ensures PairTexts(Decimal(n) + "/" + Decimal(m) + "/" + Decimal(k)) == (Decimal(n), None)
  {
    DecimalAvoids(n, '/');
    DecimalAvoids(m, '/');
    DecimalAvoids(k, '/');
    var s := Decimal(n) + "/" + Decimal(m) + "/" + Decimal(k);
    assert s == Decimal(n) + ['/'] + (Decimal(m) + ['/'] + Decimal(k));
    SplitAfterPiece(Decimal(n), '/', Decimal(m) + ['/'] + Decimal(k));
    SplitAfterPiece(Decimal(m), '/', Decimal(k));
    SplitNoSep(Decimal(k), '/');
  }

  /**
   * The optional tags, each read in turn: a text copied as it is, the year
   * of a date, a number, or an "N/M" pair of a number and its total.
   */
  datatype TagStep =
    | TextTag(field: string, tag: string)
    | YearTag
    | NumberTag(field: string, tag: string)
    | PairTag(field: string, totalField: string, tag: string)

  /** The tag steps, in the order the source reads them. */
  const TagSteps: seq<TagStep> := [
    TextTag("album", "album"),
    TextTag("artist", "artist"),
    TextTag("composer", "composer"),
    TextTag("albumArtist", "performer"),
    TextTag("genre", "genre"),
    YearTag,
    NumberTag("beatsPerMinute", "bpm"),
    PairTag("track", "totalTracks", "tracknumber"),
    PairTag("disc", "totalDiscs", "discnumber")
  ]

  /** The track fields a step may write. */
  function StepFields(step: TagStep): set<string>
  {
    match step
    case TextTag(field, _) => {field}
    case YearTag => {"year"}
    case NumberTag(field, _) => {field}
    case PairTag(field, totalField, _) => {field, totalField}
  }

  /** One tag step: the track with the tag's fields written, or IndexError / ValueError. */
  function ApplyStep(track: map<string, Value>, tags: map<string, seq<string>>, step: TagStep): (r: Result<map<string, Value>>)
    ensures r.Ok? ==> forall k :: k in track && k !in StepFields(step) ==> k in r.value && r.value[k] == track[k]
    ensures r.Ok? ==> r.value.Keys <= track.Keys + StepFields(step)
  {
    match step
    case TextTag(field, tag) => SetText(track, field, tags, tag)
    case YearTag =>
      var date :- FirstTag(tags, "date");
      SetInt(track, "year", if date.Some? then Some(YearText(date.value)) else None)
    case NumberTag(field, tag) =>
      var text :- FirstTag(tags, tag);
      SetInt(track, field, text)
    case PairTag(field, totalField, tag) =>
      var text :- FirstTag(tags, tag);
      if text.None? then Ok(track)
      else
        var texts := PairTexts(text.value);
        var withNumber :- SetInt(track, field, Some(texts.0));
        SetInt(withNumber, totalField, texts.1)
  }

  /** A "YYYY-..." date sets the year to YYYY. */
  lemma YearOfDate(track: map<string, Value>, tags: map<string, seq<string>>, year: nat, rest: string)
    requires "date" in tags && |tags["date"]| > 0 && tags["date"][0] == Decimal(year) + "-" + rest
    ensures ApplyStep(track, tags, YearTag) == Ok(track["year" := Int(year)])
  {
    DecimalAvoids(year, '-');
    assert Decimal(year) + "-" + rest == Decimal(year) + ['-'] + rest;
    FirstPieceBefore(Decimal(year), '-', rest);
    ParseIntDecimal(year);
  }

  /** A date that does not start with a number raises ValueError. */
  lemma YearOfBadDate(track: map<string, Value>, tags: map<string, seq<string>>)
    requires "date" in tags && |tags["date"]| > 0 && ParseInt(YearText(tags["date"][0])).None?
    ensures ApplyStep(track, tags, YearTag).Err?
  {
  }

  /** A pair tag whose two texts both read as numbers sets the number and its total. */
  lemma PairStepOfTexts(track: map<string, Value>, tags: map<string, seq<string>>, field: string, totalField: string, tag: string, a: string, b: string, n: int, m: int)
    requires tag in tags && |tags[tag]| > 0 && PairTexts(tags[tag][0]) == (a, Some(b))
    requires ParseInt(a) == Some(n) && ParseInt(b) == Some(m)
    ensures ApplyStep(track, tags, PairTag(field, totalField, tag)) == Ok(track[field := Int(n)][totalField := Int(m)])
  {
    var withNumber := SetInt(track, field, Some(a));
    assert withNumber == Ok(track[field := Int(n)]);
    assert SetInt(withNumber.value, totalField, Some(b)) == Ok(track[field := Int(n)][totalField := Int(m)]);
  }

  /** "N/M" sets both the number and its total. */
  lemma PairStepOfTwo(track: map<string, Value>, tags: map<string, seq<string>>, field: string, totalField: string, tag: string, n: nat, m: nat)
    requires tag in tags && |tags[tag]| > 0 && tags[tag][0] == Decimal(n) + "/" + Decimal(m)
    ensures ApplyStep(track, tags, PairTag(field, totalField, tag)) == Ok(track[field := Int(n)][totalField := Int(m)])
  {
    PairOfTwo(n, m);
    ParseIntDecimal(n);
    ParseIntDecimal(m);
    PairStepOfTexts(track, tags, field, totalField, tag, Decimal(n), Decimal(m), n, m);
  }

  /** A bare "N" sets the number and leaves the total as it was. */
  lemma PairStepOfOne(track: map<string, Value>, tags: map<string, seq<string>>, field: string, totalField: string, tag: string, n: nat)
    requires tag in tags && |tags[tag]| > 0 && tags[tag][0] == Decimal(n)
    ensures ApplyStep(track, tags, PairTag(field, totalField, tag)) == Ok(track[field := Int(n)])
  {
    PairOfOne(n);
    ParseIntDecimal(n);
  }

  /** "N / M" sets both numbers too: int() skips the spaces around each part. */
  lemma PairStepSpaced(track: map<string, Value>, tags: map<string, seq<string>>, field: string, totalField: string, tag: string, n: nat, m: nat)
    requires tag in tags && |tags[tag]| > 0 && tags[tag][0] == Decimal(n) + " / " + Decimal(m)
    ensures ApplyStep(track, tags, PairTag(field, totalField, tag)) == Ok(track[field := Int(n)][totalField := Int(m)])
  {
    var a := Decimal(n) + " ";
    var b := " " + Decimal(m);
    DecimalAvoids(n, '/');
    DecimalAvoids(m, '/');
    assert '/' !in a && '/' !in b;
    assert Decimal(n) + " / " + Decimal(m) == a + ['/'] + b;
    SplitAfterPiece(a, '/', b);
    SplitNoSep(b, '/');
    assert PairTexts(tags[tag][0]) == (a, Some(b));
    assert a == "" + Decimal(n) + " " && b == " " + Decimal(m) + "";
    ParseIntPadded(n, "", " ");
    ParseIntPadded(m, " ", "");
    PairStepOfTexts(track, tags, field, totalField, tag, a, b, n, m);
  }

  /** A date with whitespace before its year, " YYYY-...", still sets the year. */
  lemma YearOfPaddedDate(track: map<string, Value>, tags: map<string, seq<string>>, pad: string, year: nat, rest: string)
    requires AllSpace(pad)
    requires "date" in tags && |tags["date"]| > 0 && tags["date"][0] == pad + Decimal(year) + "-" + rest
    ensures ApplyStep(track, tags, YearTag) == Ok(track["year" := Int(year)])
  {
    DecimalAvoids(year, '-');
    assert '-' !in pad;
    assert '-' !in pad + Decimal(year);
    assert pad + Decimal(year) + "-" + rest == (pad + Decimal(year)) + ['-'] + rest;
    FirstPieceBefore(pad + Decimal(year), '-', rest);
    assert pad + Decimal(year) == pad + Decimal(year) + "";
    ParseIntPadded(year, pad, "");
  }

  /** The steps in turn; the first that raises ends the parse. */
  function ApplySteps(track: map<string, Value>, tags: map<string, seq<string>>, steps: seq<TagStep>): (r: Result<map<string, Value>>)
    ensures r.Ok? ==> forall k :: k in track && Unwritten(steps, k) ==> k in r.value && r.value[k] == track[k]
    decreases |steps|
  {
    if |steps| == 0 then Ok(track)
    else
      var next :- ApplyStep(track, tags, steps[0]);
      ApplySteps(next, tags, steps[1..])
  }

  /** No step writes field k. */
  predicate Unwritten(steps: seq<TagStep>, k: string)
  {
    forall i :: 0 <= i < |steps| ==> k !in StepFields(steps[i])
  }

  /** The fields every accepted file's track starts with. */
  function BaseTrack(id: string, audio: AudioFile, title: string): map<string, Value>
  {
    map[
      "id" := Str(id),
      "fileSize" := Int(audio.size),
      "bitrate" := Int(audio.bitrate / 1000),
      "duration" := Int(audio.durationMillis),
      "title" := Str(title)
    ]
  }

  /** The tag steps leave the identifying fields alone. */
  lemma BaseFieldsUnwritten()
    ensures forall k :: k in {"id", "fileSize", "bitrate", "duration", "title"} ==> Unwritten(TagSteps, k)
  {
  }

  /**
   * The track the loop body adds for one file, or the exception it raises:
   * UnsupportedFiletype for a refused extension, IOError for a file that
   * cannot be read, IndexError or ValueError from the tags.
   */
  function TrackFor(filename: string, fs: map<string, AudioFile>, encode: string -> string): (r: Result<map<string, Value>>)
    ensures !Supported(filename) ==> r == Err(UnsupportedFiletype(filename))
    ensures Supported(filename) && filename !in fs ==> r == Err(IOError(filename))
  {
    if !Supported(filename) then Err(UnsupportedFiletype(filename))
    else if filename !in fs then Err(IOError(filename))
    else
      var audio := fs[filename];
      var titleTag :- FirstTag(audio.tags, "title");
      var title := if titleTag.Some? then titleTag.value else LastPiece(filename, '/');
      ApplySteps(BaseTrack(ClientId(fs, encode, filename), audio, title), audio.tags, TagSteps)
  }

  /** The title a track gets: the first title tag, or the text after the last "/" of the path. */
  function TrackTitle(filename: string, audio: AudioFile): string
  {
    if "title" in audio.tags && |audio.tags["title"]| > 0 then audio.tags["title"][0] else LastPiece(filename, '/')
  }

  /** An accepted file's track is its base track with the tag steps applied. */
  lemma TrackForUnfold(filename: string, fs: map<string, AudioFile>, encode: string -> string)
    requires TrackFor(filename, fs, encode).Ok?
    ensures Supported(filename) && filename in fs
    ensures TrackFor(filename, fs, encode) ==
      ApplySteps(BaseTrack(ClientId(fs, encode, filename), fs[filename], TrackTitle(filename, fs[filename])), fs[filename].tags, TagSteps)
  {
  }

  /** Every accepted track carries the file's id, size, bitrate in kbit/s, duration and title. */
  lemma TrackIdentity(filename: string, fs: map<string, AudioFile>, encode: string -> string)
    requires TrackFor(filename, fs, encode).Ok?
    ensures Supported(filename) && filename in fs
    ensures var t := TrackFor(filename, fs, encode).value;
      var base := BaseTrack(DigestId(encode(fs[filename].contents)), fs[filename], TrackTitle(filename, fs[filename]));
      base.Keys <= t.Keys && forall k :: k in base ==> t[k] == base[k]
  {
    TrackForUnfold(filename, fs, encode);
    var audio := fs[filename];
    assert ClientId(fs, encode, filename) == DigestId(encode(audio.contents));
    var base := BaseTrack(DigestId(encode(audio.contents)), audio, TrackTitle(filename, audio));
    var t := TrackFor(filename, fs, encode).value;
    BaseFieldsUnwritten();
    forall k | k in base ensures k in t && t[k] == base[k] {
      assert Unwritten(TagSteps, k);
    }
  }

  /** Without a title tag the title is the text after the last "/" of the path. */
  lemma TitleFallback(dir: string, base: string, audio: AudioFile)
    requires '/' !in base && "title" !in audio.tags
    ensures TrackTitle(dir + "/" + base, audio) == base
  {
    assert dir + "/" + base == dir + ['/'] + base;
    LastPieceAfter(dir, '/', base);
  }

  // ------------------------------------------------------------------
  // The whole metadata request

  /** The per-file track of TrackFor, as a function of the file name. */
  function TrackFn(fs: map<string, AudioFile>, encode: string -> string): string -> Result<map<string, Value>>
  {
    f => TrackFor(f, fs, encode)
  }

  /** The per-file client id, as a function of the file name. */
  function IdFn(fs: map<string, AudioFile>, encode: string -> string): string -> string
  {
    f => ClientId(fs, encode, f)
  }

  /** The tracks for a list of files, or the exception of the first file that fails. */
  function TracksOf(filenames: seq<string>, trackOf: string -> Result<map<string, Value>>): Result<seq<map<string, Value>>>
  {
    if |filenames| == 0 then Ok([])
    else
      var init :- TracksOf(filenames[..|filenames| - 1], trackOf);
      var t :- trackOf(filenames[|filenames| - 1]);
      Ok(init + [t])
  }

  /** A successful request has one track per file, in order, each the track of that file. */
  lemma {:induction false} TracksOfOk(filenames: seq<string>, trackOf: string -> Result<map<string, Value>>)
    requires TracksOf(filenames, trackOf).Ok?
    ensures |TracksOf(filenames, trackOf).value| == |filenames|
    ensures forall i :: 0 <= i < |filenames| ==> trackOf(filenames[i]) == Ok(TracksOf(filenames, trackOf).value[i])
  {
    if |filenames| > 0 {
      var init := filenames[..|filenames| - 1];
      TracksOfOk(init, trackOf);
      forall i | 0 <= i < |filenames| - 1
        ensures filenames[i] == init[i]
      {
      }
    }
  }

  /** When every file has a track, the request holds them all. */
  lemma {:induction false} TracksOfAllOk(filenames: seq<string>, trackOf: string -> Result<map<string, Value>>)
    requires forall i :: 0 <= i < |filenames| ==> trackOf(filenames[i]).Ok?
    ensures TracksOf(filenames, trackOf).Ok?
  {
    if |filenames| > 0 {
      var init := filenames[..|filenames| - 1];
      forall i | 0 <= i < |init|
        ensures trackOf(init[i]).Ok?
      {
        assert init[i] == filenames[i];
      }
      TracksOfAllOk(init, trackOf);
    }
  }

  /** A failure in a prefix is the failure of the whole list. */
  lemma {:induction false} TracksOfErrPrefix(filenames: seq<string>, n: nat, trackOf: string -> Result<map<string, Value>>)
    requires n <= |filenames|
    requires TracksOf(filenames[..n], trackOf).Err?
    ensures TracksOf(filenames, trackOf) == TracksOf(filenames[..n], trackOf)
    decreases |filenames|
  {
    if n < |filenames| {
      var init := filenames[..|filenames| - 1];
      assert init[..n] == filenames[..n];
      TracksOfErrPrefix(init, n, trackOf);
    } else {
      assert filenames[..n] == filenames;
    }
  }

  /** The request is refused as soon as one file has a refused extension. */
  lemma UnsupportedFails(filenames: seq<string>, fs: map<string, AudioFile>, encode: string -> string, i: nat)
    requires i < |filenames| && !Supported(filenames[i])
    ensures TracksOf(filenames, TrackFn(fs, encode)).Err?
  {
    if TracksOf(filenames, TrackFn(fs, encode)).Ok? {
      TracksOfOk(filenames, TrackFn(fs, encode));
    }
  }

  /** filemap: client id to filename, each file written over any earlier one with the same id. */
  function FileMapOf(filenames: seq<string>, idOf: string -> string): map<string, string>
  {
    if |filenames| == 0 then map[]
    else
      var last := filenames[|filenames| - 1];
      FileMapOf(filenames[..|filenames| - 1], idOf)[idOf(last) := last]
  }

  /** The map's keys are the ids of the files, and each id maps to a file with that id. */
  lemma {:induction false} FileMapInverse(filenames: seq<string>, idOf: string -> string)
    ensures FileMapOf(filenames, idOf).Keys == set i | 0 <= i < |filenames| :: idOf(filenames[i])
    ensures forall id :: id in FileMapOf(filenames, idOf) ==>
      idOf(FileMapOf(filenames, idOf)[id]) == id && FileMapOf(filenames, idOf)[id] in filenames
  {
    if |filenames| > 0 {
      var init := filenames[..|filenames| - 1];
      FileMapInverse(init, idOf);
      assert filenames == init + [filenames[|filenames| - 1]];
      var lhs := FileMapOf(filenames, idOf).Keys;
      var rhs := set i | 0 <= i < |filenames| :: idOf(filenames[i]);
      forall id | id in rhs
        ensures id in lhs
      {
        var i :| 0 <= i < |filenames| && idOf(filenames[i]) == id;
        if i < |filenames| - 1 {
          assert idOf(init[i]) == id;
        }
      }
      forall id | id in lhs
        ensures id in rhs
      {
        if id != idOf(filenames[|filenames| - 1]) {
          var i :| 0 <= i < |init| && idOf(init[i]) == id;
          assert filenames[i] == init[i];
        }
      }
    }
  }

  /** The file a client id maps to is the LAST file with that id: duplicate content keeps the later file. */
  lemma {:induction false} FileMapLastWins(filenames: seq<string>, idOf: string -> string, j: nat)
    requires j < |filenames|
    requires forall k :: j < k < |filenames| ==> idOf(filenames[k]) != idOf(filenames[j])
    ensures idOf(filenames[j]) in FileMapOf(filenames, idOf)
    ensures FileMapOf(filenames, idOf)[idOf(filenames[j])] == filenames[j]
  {
    if j < |filenames| - 1 {
      var init := filenames[..|filenames| - 1];
      assert init[j] == filenames[j];
      forall k | j < k < |init|
        ensures idOf(init[k]) != idOf(init[j])
      {
        assert init[k] == filenames[k];
      }
      FileMapLastWins(init, idOf, j);
    }
  }

  /** Two files with the same contents: the map keeps only the second. */
  lemma DuplicateContentKeepsLater(a: string, b: string, fs: map<string, AudioFile>, encode: string -> string)
    requires a in fs && b in fs && fs[a].contents == fs[b].contents
    ensures FileMapOf([a, b], IdFn(fs, encode)) == map[ClientId(fs, encode, a) := b]
  {
    var idOf := IdFn(fs, encode);
    assert idOf(a) == ClientId(fs, encode, a) && idOf(b) == ClientId(fs, encode, b);
    assert [a, b][..1] == [a];
    assert [a][..0] == [];
    assert FileMapOf([a], idOf) == map[idOf(a) := a];
  }

  /** The tracks and the id map of a list of files, or the first exception. */
  function CollectedOf(filenames: seq<string>, trackOf: string -> Result<map<string, Value>>, idOf: string -> string): Result<(seq<map<string, Value>>, map<string, string>)>
  {
    var tracks :- TracksOf(filenames, trackOf);
    Ok((tracks, FileMapOf(filenames, idOf)))
  }

  /** The loop of make_metadata_request: a track per file, and the client id of each file mapped to it. */
  method CollectTracks(filenames: seq<string>, trackOf: string -> Result<map<string, Value>>, idOf: string -> string)
    returns (r: Result<(seq<map<string, Value>>, map<string, string>)>)
    ensures r == CollectedOf(filenames, trackOf, idOf)
  {
    var filemap: map<string, string> := map[];
    var tracks: seq<map<string, Value>> := [];
    for i := 0 to |filenames|
      invariant TracksOf(filenames[..i], trackOf) == Ok(tracks)
      invariant filemap == FileMapOf(filenames[..i], idOf)
    {
      var track := trackOf(filenames[i]);
      assert filenames[..i + 1][..i] == filenames[..i];
      if track.Err? {
        TracksOfErrPrefix(filenames, i + 1, trackOf);
        return Err(track.error);
      }
      filemap := filemap[idOf(filenames[i]) := filenames[i]];
      tracks := tracks + [track.value];
    }
    assert filenames[..|filenames|] == filenames;
    r := Ok((tracks, filemap));
  }

  /** make_metadata_request's result: the request message and the client id map, or the first exception. */
  function MetadataRequestOf(mac: string, filenames: seq<string>, fs: map<string, AudioFile>, encode: string -> string): Result<(Message, map<string, string>)>
  {
    var c :- CollectedOf(filenames, TrackFn(fs, encode), IdFn(fs, encode));
    Ok((Message("MetadataRequest", map["address" := mac], c.0), c.1))
  }

  // ------------------------------------------------------------------
  // Upload session requests

  /** repr of a unicode string: u'text'. */
  function UnicodeRepr(t: string): string
  {
    "u'" + t + "'"
  }

  function Reprs(items: seq<string>): string
  {
    if |items| == 0 then ""
    else if |items| == 1 then UnicodeRepr(items[0])
    else UnicodeRepr(items[0]) + ", " + Reprs(items[1..])
  }

  /** str() of a list of unicode strings: [u'a', u'b']. */
  function ListRepr(items: seq<string>): string
  {
    "[" + Reprs(items) + "]"
  }

  /** The text sent as CurrentUploadingTrack: str() of the whole title tag, or the base name. */
  function UploadTitle(filename: string, audio: AudioFile): string
  {
    if "title" in audio.tags then ListRepr(audio.tags["title"]) else LastPiece(filename, '/')
  }

  /** A one-element title tag is sent as a list literal, not as the title itself. */
  lemma UploadTitleIsListText(filename: string, audio: AudioFile, title: string)
    requires "title" in audio.tags && audio.tags["title"] == [title]
    ensures UploadTitle(filename, audio) == "[u'" + title + "']"
    ensures UploadTitle(filename, audio) != TrackTitle(filename, audio)
  {
    assert UploadTitle(filename, audio) == "[" + ("u'" + title + "'") + "]";
    assert |UploadTitle(filename, audio)| == |title| + 5;
  }

  /** The ten inlined fields, each already passed through str(). */
  function Inlined(upload: Upload, count: nat, title: string, bitrate: nat, mac: string): (r: map<string, string>)
    ensures r.Keys == InlinedNames
  {
    map[
      "title" := "jumper-uploader-title-42",
      "ClientId" := upload.id,
      "ClientTotalSongCount" := Decimal(count),
      "CurrentTotalUploadedCount" := "0",
      "CurrentUploadingTrack" := title,
      "ServerId" := upload.serverId,
      "SyncNow" := "true",
      "TrackBitRate" := Decimal(bitrate),
      "TrackDoNotRematch" := "false",
      "UploaderId" := mac
    ]
  }

  const InlinedNames: set<string> := {
    "title", "ClientId", "ClientTotalSongCount", "CurrentTotalUploadedCount",
    "CurrentUploadingTrack", "ServerId", "SyncNow", "TrackBitRate",
    "TrackDoNotRematch", "UploaderId"
  }

  /** There are ten inlined names. */
  lemma TenInlinedNames()
    ensures |InlinedNames| == 10
  {
  }

  /** {"inlined": {"content": content, "name": name}}. */
  function InlinedEntry(name: string, content: string): Value
  {
    Obj(map["inlined" := Obj(map["content" := Str(content), "name" := Str(name)])])
  }

  /** {"external": {...}}: base name, absolute path, an empty "put" and the size. */
  function ExternalEntry(filename: string, absPath: string, size: nat): Value
  {
    Obj(map["external" := Obj(map[
      "filename" := Str(LastPiece(filename, '/')),
      "name" := Str(absPath),
      "put" := Obj(map[]),
      "size" := Int(size)])])
  }

  /** The request body around the list of fields. */
  function Payload(fields: seq<Value>): Value
  {
    Obj(map[
      "clientId" := Str("Jumper Uploader"),
      "createSessionRequest" := Obj(map["fields" := Arr(fields)]),
      "protocolVersion" := Str("0.8")])
  }

  /** The name an inlined entry carries, or "" for any other value. */
  function EntryName(v: Value): string
  {
    if v.Obj? && "inlined" in v.fields && v.fields["inlined"].Obj?
      && "name" in v.fields["inlined"].fields && v.fields["inlined"].fields["name"].Str?
    then v.fields["inlined"].fields["name"].s
    else ""
  }

  /** The name of an inlined entry can be read back from it. */
  lemma EntryNameOf(name: string, content: string)
    ensures EntryName(InlinedEntry(name, content)) == name
  {
  }

  /** v is the inlined entry of one of the names. */
  predicate EntryOf(v: Value, inlined: map<string, string>)
  {
    EntryName(v) in inlined && v == InlinedEntry(EntryName(v), inlined[EntryName(v)])
  }

  /**
   * The external entry first, then one inlined entry per name, each exactly
   * once, in whatever order the dictionary yields them.
   */
  predicate FieldsFit(fields: seq<Value>, external: Value, inlined: map<string, string>)
  {
    |fields| == 1 + |inlined| && fields[0] == external &&
    (forall i :: 1 <= i < |fields| ==> EntryOf(fields[i], inlined)) &&
    (forall k :: k in inlined ==> InlinedEntry(k, inlined[k]) in fields[1..])
  }

  /** order lists every name exactly once: an iteration order of a dictionary with these keys. */
  predicate IsOrderOf(order: seq<string>, names: set<string>)
  {
    multiset(order) == multiset(names)
  }

  /** The entries `for key in inlined` appends when the dictionary yields its keys in `order`. */
  function EntriesOf(order: seq<string>, inlined: map<string, string>): seq<Value>
  {
    if |order| == 0 then []
    else
      var k := order[|order| - 1];
      EntriesOf(order[..|order| - 1], inlined) + (if k in inlined then [InlinedEntry(k, inlined[k])] else [])
  }

  /** With keys only, there is one entry per key of the order, at its position. */
  lemma {:induction false} EntriesOfKeys(order: seq<string>, inlined: map<string, string>)
    requires forall i :: 0 <= i < |order| ==> order[i] in inlined
    ensures |EntriesOf(order, inlined)| == |order|
    ensures forall i :: 0 <= i < |order| ==> EntriesOf(order, inlined)[i] == InlinedEntry(order[i], inlined[order[i]])
  {
    if |order| > 0 {
      var init := order[..|order| - 1];
      forall i | 0 <= i < |init|
        ensures init[i] in inlined
      {
        assert init[i] == order[i];
      }
      EntriesOfKeys(init, inlined);
    }
  }

  /** Iterating over the dictionary's own keys appends every entry exactly once. */
  lemma EntriesFit(external: Value, order: seq<string>, inlined: map<string, string>)
    requires IsOrderOf(order, inlined.Keys)
    ensures FieldsFit([external] + EntriesOf(order, inlined), external, inlined)
  {
    var fields := [external] + EntriesOf(order, inlined);
    forall i | 0 <= i < |order|
      ensures order[i] in inlined
    {
      assert order[i] in multiset(order);
    }
    EntriesOfKeys(order, inlined);
    assert |order| == |multiset(order)| == |multiset(inlined.Keys)| == |inlined.Keys|;
    assert fields[1..] == EntriesOf(order, inlined);
    forall i | 1 <= i < |fields|
      ensures EntryOf(fields[i], inlined)
    {
      EntryNameOf(order[i - 1], inlined[order[i - 1]]);
    }
    forall k | k in inlined
      ensures InlinedEntry(k, inlined[k]) in fields[1..]
    {
      assert k in multiset(inlined.Keys);
      var i :| 0 <= i < |order| && order[i] == k;
      assert fields[1..][i] == InlinedEntry(k, inlined[k]);
    }
  }

  /** The fields of a session request: the external entry, then the inlined entries. */
  function SessionFields(upload: Upload, filename: string, audio: AudioFile, absPath: string, count: nat, mac: string, order: seq<string>): seq<Value>
  {
    [ExternalEntry(filename, absPath, audio.size)] +
      EntriesOf(order, Inlined(upload, count, UploadTitle(filename, audio), audio.bitrate, mac))
  }

  /** The session request for one upload of a known, readable file: (filename, serverId, payload). */
  function SessionOf(upload: Upload, filename: string, audio: AudioFile, absPath: string, count: nat, mac: string, order: seq<string>): Session
  {
    Session(filename, upload.serverId, Payload(SessionFields(upload, filename, audio, absPath, count, mac, order)))
  }

  /** Every session holds its external entry and each of the ten inlined fields exactly once. */
  lemma SessionFieldsFit(upload: Upload, filename: string, audio: AudioFile, absPath: string, count: nat, mac: string, order: seq<string>)
    requires IsOrderOf(order, InlinedNames)
    ensures FieldsFit(SessionFields(upload, filename, audio, absPath, count, mac, order),
      ExternalEntry(filename, absPath, audio.size), Inlined(upload, count, UploadTitle(filename, audio), audio.bitrate, mac))
  {
    EntriesFit(ExternalEntry(filename, absPath, audio.size), order, Inlined(upload, count, UploadTitle(filename, audio), audio.bitrate, mac));
  }

  /** The three inlined fields that depend on the request as a whole. */
  lemma InlinedValues(upload: Upload, count: nat, title: string, bitrate: nat, mac: string)
    ensures Inlined(upload, count, title, bitrate, mac)["ClientTotalSongCount"] == Decimal(count)
    ensures Inlined(upload, count, title, bitrate, mac)["UploaderId"] == mac
    ensures Inlined(upload, count, title, bitrate, mac)["CurrentUploadingTrack"] == title
  {
  }

  /** An inlined entry whose content is a string. */
  predicate IsInlinedText(v: Value)
  {
    v.Obj? && "inlined" in v.fields && v.fields["inlined"].Obj? &&
    "content" in v.fields["inlined"].fields && v.fields["inlined"].fields["content"].Str?
  }

  /** What fitting fields hold: one more than the names, every entry, and only string contents. */
  lemma FitFacts(fields: seq<Value>, external: Value, inlined: map<string, string>)
    requires FieldsFit(fields, external, inlined)
    ensures |fields| == 1 + |inlined|
    ensures forall k :: k in inlined ==> InlinedEntry(k, inlined[k]) in fields
    ensures forall i :: 1 <= i < |fields| ==> IsInlinedText(fields[i])
  {
    assert forall x :: x in fields[1..] ==> x in fields;
  }

  /** Every session carries eleven fields, the number of uploads and the client's MAC, all contents strings. */
  lemma SessionCarriesCountAndMac(upload: Upload, filename: string, audio: AudioFile, absPath: string, count: nat, mac: string, order: seq<string>)
    requires IsOrderOf(order, InlinedNames)
    ensures var fields := SessionFields(upload, filename, audio, absPath, count, mac, order);
      && |fields| == 11
      && InlinedEntry("ClientTotalSongCount", Decimal(count)) in fields
      && InlinedEntry("UploaderId", mac) in fields
      && InlinedEntry("CurrentUploadingTrack", UploadTitle(filename, audio)) in fields
      && (forall i :: 1 <= i < |fields| ==> IsInlinedText(fields[i]))
  {
    var inlined := Inlined(upload, count, UploadTitle(filename, audio), audio.bitrate, mac);
    SessionFieldsFit(upload, filename, audio, absPath, count, mac, order);
    FitFacts(SessionFields(upload, filename, audio, absPath, count, mac, order), ExternalEntry(filename, absPath, audio.size), inlined);
    InlinedValues(upload, count, UploadTitle(filename, audio), audio.bitrate, mac);
    TenInlinedNames();
  }

  /** The exception the session requests raise for an upload, if any. */
  function UploadFailure(upload: Upload, filemap: map<string, string>, fs: map<string, AudioFile>): (e: Option<Error>)
    ensures e.None? <==> upload.id in filemap && filemap[upload.id] in fs
  {
    if upload.id !in filemap then Some(KeyError(upload.id))
    else if filemap[upload.id] !in fs then Some(IOError(filemap[upload.id]))
    else None
  }

  /** Upload i is the first that fails. */
  predicate FirstFailure(uploads: seq<Upload>, filemap: map<string, string>, fs: map<string, AudioFile>, i: nat)
    requires i < |uploads|
  {
    UploadFailure(uploads[i], filemap, fs).Some? && forall j :: 0 <= j < i ==> UploadFailure(uploads[j], filemap, fs).None?
  }

  /** The session request of an upload, as a function of the upload, its file name and its audio. */
  function SessionFn(absPath: string -> string, count: nat, mac: string, order: seq<string>): (Upload, string, AudioFile) -> Session
  {
    (u, f, a) => SessionOf(u, f, a, absPath(f), count, mac, order)
  }

  /** The session requests for a list of uploads, or the exception of the first that fails. */
  function SessionsOf(uploads: seq<Upload>, filemap: map<string, string>, fs: map<string, AudioFile>,
    sessionOf: (Upload, string, AudioFile) -> Session): Result<seq<Session>>
  {
    if |uploads| == 0 then Ok([])
    else
      var init :- SessionsOf(uploads[..|uploads| - 1], filemap, fs, sessionOf);
      var u := uploads[|uploads| - 1];
      match UploadFailure(u, filemap, fs)
      case Some(e) => Err(e)
      case None =>
        var filename := filemap[u.id];
        Ok(init + [sessionOf(u, filename, fs[filename])])
  }

  /** A successful call has one session per upload, in order, each for the file its client id names. */
  lemma {:induction false} SessionsOfOk(uploads: seq<Upload>, filemap: map<string, string>, fs: map<string, AudioFile>, 
    sessionOf: (Upload, string, AudioFile) -> Session)
    requires SessionsOf(uploads, filemap, fs, sessionOf).Ok?
    ensures |SessionsOf(uploads, filemap, fs, sessionOf).value| == |uploads|
    ensures forall i :: 0 <= i < |uploads| ==>
      uploads[i].id in filemap && filemap[uploads[i].id] in fs &&
      SessionsOf(uploads, filemap, fs, sessionOf).value[i] ==
        sessionOf(uploads[i], filemap[uploads[i].id], fs[filemap[uploads[i].id]])
  {
    if |uploads| > 0 {
      var init := uploads[..|uploads| - 1];
      SessionsOfOk(init, filemap, fs, sessionOf);
      forall i | 0 <= i < |uploads| - 1
        ensures uploads[i] == init[i]
      {
      }
    }
  }

  /** The call fails exactly when some upload fails, and then with the exception of the first one. */
  lemma {:induction false} SessionsOfErr(uploads: seq<Upload>, filemap: map<string, string>, fs: map<string, AudioFile>, 
    sessionOf: (Upload, string, AudioFile) -> Session)
    ensures SessionsOf(uploads, filemap, fs, sessionOf).Err? <==>
      exists i :: 0 <= i < |uploads| && UploadFailure(uploads[i], filemap, fs).Some?
    ensures SessionsOf(uploads, filemap, fs, sessionOf).Err? ==>
      exists i :: 0 <= i < |uploads| && FirstFailure(uploads, filemap, fs, i) &&
        UploadFailure(uploads[i], filemap, fs) == Some(SessionsOf(uploads, filemap, fs, sessionOf).error)
  {
    if |uploads| > 0 {
      var n := |uploads| - 1;
      var init := uploads[..n];
      SessionsOfErr(init, filemap, fs, sessionOf);
      forall j | 0 <= j < n
        ensures init[j] == uploads[j]
      {
      }
      if SessionsOf(init, filemap, fs, sessionOf).Err? {
        var i :| 0 <= i < n && FirstFailure(init, filemap, fs, i) &&
          UploadFailure(init[i], filemap, fs) == Some(SessionsOf(init, filemap, fs, sessionOf).error);
        assert FirstFailure(uploads, filemap, fs, i);
      } else if UploadFailure(uploads[n], filemap, fs).Some? {
        assert FirstFailure(uploads, filemap, fs, n);
      }
    }
  }

  /** A failure in a prefix is the failure of the whole list. */
  lemma {:induction false} SessionsOfErrPrefix(uploads: seq<Upload>, n: nat, filemap: map<string, string>, fs: map<string, AudioFile>,
    sessionOf: (Upload, string, AudioFile) -> Session)
    requires n <= |uploads|
    requires SessionsOf(uploads[..n], filemap, fs, sessionOf).Err?
    ensures SessionsOf(uploads, filemap, fs, sessionOf) == SessionsOf(uploads[..n], filemap, fs, sessionOf)
    decreases |uploads|
  {
    if n < |uploads| {
      var init := uploads[..|uploads| - 1];
      assert init[..n] == uploads[..n];
      SessionsOfErrPrefix(init, n, filemap, fs, sessionOf);
    } else {
      assert uploads[..n] == uploads;
    }
  }

  /** The `for key in inlined` loop: appends the entries in the dictionary's order. */
  method AppendInlined(external: Value, inlined: map<string, string>, order: seq<string>) returns (fields: seq<Value>)
    ensures fields == [external] + EntriesOf(order, inlined)
  {
    fields := [external];
    for i := 0 to |order|
      invariant fields == [external] + EntriesOf(order[..i], inlined)
    {
      assert order[..i + 1][..i] == order[..i];
      var key := order[i];
      if key in inlined {
        fields := fields + [InlinedEntry(key, inlined[key])];
      }
    }
    assert order[..|order|] == order;
  }

  /** The body of the loop of make_upload_session_requests for one upload of a readable file. */
  method SessionRequest(upload: Upload, filename: string, audio: AudioFile, absPath: string, count: nat, mac: string, order: seq<string>)
    returns (s: Session)
    ensures s == SessionOf(upload, filename, audio, absPath, count, mac, order)
  {
    var inlined := Inlined(upload, count, UploadTitle(filename, audio), audio.bitrate, mac);
    var fields := AppendInlined(ExternalEntry(filename, absPath, audio.size), inlined, order);
    s := Session(filename, upload.serverId, Payload(fields));
  }

  // ------------------------------------------------------------------
  // The protocol object

  class MmProtocol {
    /** The client's MAC text, five octets. */
    var mac: string
    /** The host name written into the upload_auth template. */
    ghost var hostname: string
    /** The `<name>_filled` attributes, keyed by protocol name. */
    var filled: map<string, Message>
    /** Service name mapped to url path. */
    var pbServices: map<string, string>

    ghost predicate Valid()
      reads this
    {
      filled == Templates(mac, hostname) && pbServices == PbServices
    }

    /** hexText is hex(getmac()); host is gethostname(). */
    constructor (hexText: string, host: string)
      ensures Valid()
      ensures mac == MacOf(hexText) && hostname == host
    {
      mac := MacOf(hexText);
      hostname := host;
      filled := Templates(MacOf(hexText), host);
      pbServices := PbServices;
    }

    /**
     * make_pb: a new message of class to_camel_case(pbName) with the
     * template's fields copied in; a name without a template raises
     * AttributeError, and a template of another class makes CopyFrom
     * raise TypeError.
     */
    function MakePb(pbName: string): (r: Result<Message>)
      reads this
      ensures r.Ok? <==> pbName in filled && filled[pbName].kind == Utils.ToCamelCase(pbName)
      ensures r.Ok? ==> r.value == filled[pbName]
    {
      if pbName !in filled then Err(AttributeError(pbName + "_filled"))
      else if filled[pbName].kind != Utils.ToCamelCase(pbName) then Err(TypeError("CopyFrom"))
      else Ok(filled[pbName])
    }

    /** make_pb("upload_auth") copies the template carrying the address and host name. */
    lemma MakePbUploadAuth()
      requires Valid()
      ensures MakePb("upload_auth") == Ok(Message("UploadAuth", map["address" := mac, "hostname" := hostname], []))
    {
      assert filled["upload_auth"] == Message("UploadAuth", map["address" := mac, "hostname" := hostname], []);
      Utils.CamelCaseUploadAuth();
    }

    /** make_pb("client_state") copies the template carrying the address. */
    lemma MakePbClientState()
      requires Valid()
      ensures MakePb("client_state") == Ok(Message("ClientState", map["address" := mac], []))
    {
      Utils.CamelCaseClientState();
    }

    /** make_pb("metadata_request") copies the template carrying the address. */
    lemma MakePbMetadataRequest()
      requires Valid()
      ensures MakePb("metadata_request") == Ok(Message("MetadataRequest", map["address" := mac], []))
    {
      Utils.CamelCaseMetadataRequest();
    }

    /** A service name without a template (the metadata service) has no `_filled` attribute. */
    lemma MakePbWithoutTemplate()
      requires Valid()
      ensures MakePb("metadata") == Err(AttributeError("metadata_filled"))
    {
      assert "metadata" + "_filled" == "metadata_filled";
    }

    /** make_metadata_request: the request message with one track per file, and the id-to-filename map. */
    method MakeMetadataRequest(filenames: seq<string>, fs: map<string, AudioFile>, encode: string -> string)
      returns (r: Result<(Message, map<string, string>)>)
      requires Valid()
      ensures r == MetadataRequestOf(mac, filenames, fs, encode)
    {
      MakePbMetadataRequest();
      var metadata := MakePb("metadata_request").value;
      var collected := CollectTracks(filenames, TrackFn(fs, encode), IdFn(fs, encode));
      match collected {
        case Err(e) => r := Err(e);
        case Ok(c) => r := Ok((metadata.(tracks := c.0), c.1));
      }
    }

    /**
     * make_upload_session_requests: one session request per upload, in the
     * order of the response; a client id missing from filemap raises
     * KeyError, a file that cannot be read IOError. `order` is the order in
     * which the inlined dictionary yields its keys.
     */
    method MakeUploadSessionRequests(filemap: map<string, string>, uploads: seq<Upload>, fs: map<string, AudioFile>,
      absPath: string -> string, order: seq<string>)
      returns (r: Result<seq<Session>>)
      ensures r == SessionsOf(uploads, filemap, fs, SessionFn(absPath, |uploads|, mac, order))
    {
      var sessions: seq<Session> := [];
      for i := 0 to |uploads|
        invariant SessionsOf(uploads[..i], filemap, fs, SessionFn(absPath, |uploads|, mac, order)) == Ok(sessions)
      {
        assert uploads[..i + 1][..i] == uploads[..i];
        var upload := uploads[i];
        if upload.id !in filemap {
          SessionsOfErrPrefix(uploads, i + 1, filemap, fs, SessionFn(absPath, |uploads|, mac, order));
          return Err(KeyError(upload.id));
        }
        var filename := filemap[upload.id];
        if filename !in fs {
          SessionsOfErrPrefix(uploads, i + 1, filemap, fs, SessionFn(absPath, |uploads|, mac, order));
          return Err(IOError(filename));
        }
        var session := SessionRequest(upload, filename, fs[filename], absPath(filename), |uploads|, mac, order);
        sessions := sessions + [session];
      }
      assert uploads[..|uploads|] == uploads;
      r := Ok(sessions);
    }
  }
}
