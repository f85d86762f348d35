# gmusicapi core in Dafny

This project models the deterministic core of gmusicapi, an unofficial client
library for Google Music. The library talks to three inconsistent endpoints:

- the web client ("wc");
- the Music Manager uploader ("mm");
- the mobile REST API ("sj").

Behind its HTTP plumbing sits a good deal of decision logic. This project
models that logic and proves what the code promises about it.

One Dafny module stands for each core source file:

- `JsArray`: repair of JavaScript array literals with holes into JSON (`gmusicapi/utils/jsarray.py`).
- `Expectations`: the metadata expectation registry of `gmusicapi/protocol.py`: 29 field classes, the key derived from each class name, lookup, and each field's schema.
- `WcProtocol`: the web-client calls: the closed-world song schema compiled from the registry, the URL rule with its `play` override, every call's (request, response schema) pair, and the warnings of `modifyentries`.
- `MmProtocol`: the Music Manager calls: the MAC text, the protobuf templates `make_pb` copies, the metadata request built from local files (extension check, content id, tag parsing), and the upload-session requests.
- `SjProtocol`: the REST calls: URL builders, the kind-to-model dispatch that fails closed, and batch-mutation reconciliation.
- `Models`: the REST record classes (`ModelBase`, `Track`, `TrackList`, `Playlist`, `PlaylistList`): backing attributes, typed setters, and `from_json`.
- `MobileClient`: the mobile-client URL builders, the success and validation checks, and the shared response schemas.
- `ClientLogin`: the ClientLogin `key=value` reply parser and the object that requests and caches the Auth and SID tokens.
- `Utils`, `GmapiUtils`: `to_camel_case`, `accept_singleton`, `unescape_html` and `schema_for`, and the older copies of the first two.
- `Clients`: the Webclient and Musicmanager clients of `gmusicapi/clients.py`: the uploader MAC rule, the continuation-token chunk loops, playlist grouping, playlist removal, search and stream replies.
- `Musicmanager`: `Musicmanager.upload`: gathering local information, samples, sorting the sample responses, bounded upload-session retries, and the transfer outcome.
- `Api`: the older `gmusicapi/api.py` client: the `_wc_call` failure policy, listings, `change_playlist`'s backup-and-revert flow with its `finally: return`, and the upload path with ffmpeg conversion and 503-tolerant retries.

Two further modules hold shared vocabulary:

- `Py`: optional values, Python exceptions as an `Error` datatype, `Result`, and JSON values.
- `Text`: Python 2 string operations on ASCII text, such as `split`, `join`, `lower`, `title`, `strip`, `int()` and `str()`. As in Python 2, `int()` skips whitespace at both ends and between the sign and the digits.

Everything the code receives from outside becomes a parameter. This covers:

- every server reply;
- the tokenizer's output and the JSON parser;
- md5 with base64;
- mutagen's tag view of a file;
- validictory;
- `create_mac_string` and `is_valid_mac`;
- ffmpeg's exit status;
- temporary file names;
- the library version, because `gmusicapi/_version.py` is not part of this model.

A loop that calls the server a bounded number of times reads its replies from
a sequence. Every such loop is proved equal to a recursive specification
function, and lemmas state the properties of that function.

Where Python 2 iterates a dictionary in an unspecified order, the order is a
parameter. Results are stated as maps, so they do not depend on that order.

## Model

| member | source | states |
|---|---|---|
| Utils.ToCamelCase | gmusicapi/utils/utils.py:47-50 | the camel-cased name holds no underscore: every `_` is a separator that split removes |
| Utils.CamelCaseOneSegment | gmusicapi/utils/utils.py:47-50 | a name without underscores is title-cased as a whole |
| Utils.CamelCaseFirstSegment | gmusicapi/utils/utils.py:47-50 | `a_b` with an underscore-free `a` converts to Title(a) followed by the conversion of `b` |
| Utils.TitleLowerWord | gmusicapi/utils/utils.py:50 | title-casing a lower-case word only capitalises its first letter |
| Utils.CamelCaseTwoWords | gmusicapi/utils/utils.py:47-50 | two lower-case words joined by `_` become the two words each capitalised, concatenated |
| Utils.CamelCaseThreeWords | gmusicapi/utils/utils.py:47-50 | the same for three lower-case words |
| Utils.CamelCaseTestString | gmusicapi/utils/utils.py:48-49 | the documented example: `test_string` becomes `TestString` |
| Utils.CamelCaseUploadAuth | gmusicapi/protocol.py:635-650 | the template name `upload_auth` names the message class `UploadAuth` |
| Utils.CamelCaseClientState | gmusicapi/protocol.py:635-650 | `client_state` names `ClientState` |
| Utils.CamelCaseMetadataRequest | gmusicapi/protocol.py:635-650 | `metadata_request` names `MetadataRequest` |
| Utils.AcceptSingleton | gmusicapi/utils/utils.py:52-72 | IndexError exactly when the position is past the arguments; otherwise the argument at the position is wrapped in a one-element list exactly when it is an instance of the expected type (bool counting as int, str and unicode as basestring), all other arguments unchanged |
| Utils.WrappedUnique | gmusicapi/utils/utils.py:61-70 | the rewritten argument tuple is determined by the arguments, the type and the position |
| Utils.WrappedIdempotent | gmusicapi/utils/utils.py:52-56 | applying the rewriting twice gives the same arguments as once, unless lists themselves are expected (the "nested lists" caveat) |
| Utils.UnescapePlain | gmusicapi/utils/utils.py:77-82 | text without `&` is returned unchanged |
| Utils.UnescapeEntity | gmusicapi/utils/utils.py:77-82 | `&name;` for a known name becomes its character and the rest of the text is unescaped in turn |
| Utils.EntityTable.constructor | gmusicapi/utils/utils.py:25 | the table starts as the standard entity table |
| Utils.EntityTable.RegisterApostrophe | gmusicapi/utils/utils.py:76 | the table gains `#39` mapped to the apostrophe and nothing else changes |
| Utils.ApostropheUnescapes | gmusicapi/utils/utils.py:76-82 | once `#39` is registered, `&#39;` unescapes to an apostrophe |
| Utils.SchemaFor | gmusicapi/utils/utils.py:86-88 | int maps to `{"type": "number"}`, str to `{"type": "string", "blank": True}` and bool to `{"type": "boolean"}`; only the string schema allows blanks; any other type is a KeyError naming that type |
| Utils.SchemaForInjective | gmusicapi/utils/utils.py:86-88 | distinct types give distinct lookup results, so a KeyError tells which type was looked up |
| GmapiUtils.ToCamelCase | gmapi/utils/utils.py:42-45 | as written, every call raises NameError for the unbound name `a` |
| GmapiUtils.ToCamelCaseFailsOnDocExample | gmapi/utils/utils.py:43-45 | the documented example fails as written while the intended conversion gives `TestString` |
| GmapiUtils.AcceptSingleton | gmapi/utils/utils.py:47-67 | the same rewriting and IndexError rule as the later copy |
| JsArray.Repaired | gmusicapi/utils/jsarray.py:25-33 | a non-empty token stream yields a non-empty output ending in the last input token |
| JsArray.ToJson | gmusicapi/utils/jsarray.py:20-35 | the result is the concatenation of the repaired tokens |
| JsArray.Loads | gmusicapi/utils/jsarray.py:38-39 | the parser is applied to exactly the text to_json produces |
| JsArray.RepairedIsFill | gmusicapi/utils/jsarray.py:27-33 | the output equals the texts of an explicit piece list: every input token kept, with a null piece before each hole |
| JsArray.KeptIsInput | gmusicapi/utils/jsarray.py:27-33 | removing the inserted nulls gives back exactly the input tokens, in order |
| JsArray.InsertedPerHole | gmusicapi/utils/jsarray.py:28-31 | the number of inserted nulls equals the number of holes (a comma after a comma or after `[`) |
| JsArray.FirstPieceKept | gmusicapi/utils/jsarray.py:28 | nothing is inserted before the first token |
| JsArray.CommaRunHoles | gmusicapi/utils/jsarray.py:28 | a run of k commas holds k - 1 holes |
| JsArray.OnlyAdjacentCommasFrameHoles | gmusicapi/utils/jsarray.py:28-30 | a token after anything but a comma or `[` is never a hole |
| JsArray.LeadingHole | gmusicapi/utils/jsarray.py:29 | `[,1]` is repaired to `[null,1]` |
| Expectations.GmEnd | gmusicapi/protocol.py:85-87 | the split point after the last `gm_` lies within the name and is preceded by `gm_` |
| Expectations.CanonicalName | gmusicapi/protocol.py:85-87 | the metaclass name is a suffix of the class name |
| Expectations.NoUnderscoreNoGm | gmusicapi/protocol.py:86 | a name without `_` holds no `gm_` |
| Expectations.NameWithoutPrefix | gmusicapi/protocol.py:86 | a class name without `gm_` is its own `name` |
| Expectations.GmEndAfterPrefix | gmusicapi/protocol.py:86 | no `gm_` straddles the end of a `gm_` prefix |
| Expectations.NameWithPrefix | gmusicapi/protocol.py:148-149 | prefixing a clashing name with `gm_` does not change its key |
| Expectations.GmTypeIsKeyedType | gmusicapi/protocol.py:241 | the class `gm_type` is keyed `type` |
| Expectations.Spec | gmusicapi/protocol.py:89-130 | every expectation record carries its own class name, over the defaults of the abstract expectation |
| Expectations.FieldNamedSound | gmusicapi/protocol.py:159 | getattr finds a class only under its own name |
| Expectations.FieldNamedFinds | gmusicapi/protocol.py:159 | getattr finds every expectation class under its class name |
| Expectations.ClassNameInjective | gmusicapi/protocol.py:181-295 | no two expectation classes share a class name |
| Expectations.NoClassNamed | gmusicapi/protocol.py:159 | a name no class carries finds nothing |
| Expectations.DeclIndex | gmusicapi/protocol.py:181-295 | every class stands at its position in the declaration order |
| Expectations.Dir | gmusicapi/protocol.py:175 | dir() lists the four other attributes and all 29 classes |
| Expectations.DirIndex | gmusicapi/protocol.py:175 | every class's name is among the names dir() lists |
| Expectations.ClassNamesWithoutUnderscore | gmusicapi/protocol.py:181-295 | only `gm_type` has an underscore in its class name |
| Expectations.EarlyClassNamesWithoutUnderscore | gmusicapi/protocol.py:181-240 | the same for the classes declared before `gm_type` |
| Expectations.LateClassNamesWithoutUnderscore | gmusicapi/protocol.py:244-295 | the same for the classes declared after `gm_type` |
| Expectations.SpecName | gmusicapi/protocol.py:85-87 | every expectation is keyed by its class name, except `gm_type`, keyed `type` |
| Expectations.KeyInjective | gmusicapi/protocol.py:148-149 | no two classes share a key |
| Expectations.GetExpectation | gmusicapi/protocol.py:151-167 | AttributeError for `gm_` + key exactly when neither key nor `gm_` + key is an attribute; the literal key is tried first, and a non-expectation attribute gives None |
| Expectations.GetExpectationField | gmusicapi/protocol.py:158-165 | whatever is found is the class named key or `gm_` + key |
| Expectations.GetExpectationName | gmusicapi/protocol.py:151-165 | the expectation found for key carries key's canonical name, whichever spelling found it |
| Expectations.LookupLiteral | gmusicapi/protocol.py:159 | `rating` is found directly |
| Expectations.LookupPrefixed | gmusicapi/protocol.py:160-161 | `type` falls back to `gm_type` |
| Expectations.LookupNonExpectation | gmusicapi/protocol.py:163-167 | an attribute that is not an expectation gives None |
| Expectations.LookupUnknown | gmusicapi/protocol.py:158-161 | an unknown key raises AttributeError for the prefixed name |
| Expectations.NameInjective | gmusicapi/protocol.py:177 | distinct expectation classes have distinct keys, so no entry overwrites another |
| Expectations.FoundField | gmusicapi/protocol.py:176-177 | every name that finds something finds one of the registry classes |
| Expectations.FoundKeyed | gmusicapi/protocol.py:176-177 | two names whose expectations share a key find the same class |
| Expectations.CollectedEntries | gmusicapi/protocol.py:173-177 | every dictionary entry was found for a visited name and is stored under its own key |
| Expectations.CollectedHas | gmusicapi/protocol.py:173-177 | an expectation found for a visited name is stored under its key when no other expectation shares that key |
| Expectations.DirListsField | gmusicapi/protocol.py:175-176 | dir() lists every class, and looking its name up finds it |
| Expectations.DirCollectsAll | gmusicapi/protocol.py:170-179 | every class is collected under its key |
| Expectations.DirCollectsOnlyFields | gmusicapi/protocol.py:170-179 | everything collected is a class under its key |
| Expectations.GetAllExpectations | gmusicapi/protocol.py:169-179 | the dictionary holds each of the 29 classes under its key, and nothing else |
| Expectations.GmTypeHasPrefix | gmusicapi/protocol.py:241 | the last `gm_` in `gm_type` ends at index 3 |
| Expectations.KeysWithoutPrefix | gmusicapi/protocol.py:148-149 | no registry key contains `gm_` |
| Expectations.GetSchema | gmusicapi/protocol.py:132-142 | the schema is an object with `type` set to val_type, `blank` true exactly for strings, `required` false exactly when optional, and no other key |
| Expectations.DependentValue | gmusicapi/protocol.py:123-127 | NotImplementedError exactly for the fields without a transformation; title gives the value it depends on unchanged; the Norm fields give exactly its lower-cased text, of the same length |
| Expectations.DependentsWellFormed | gmusicapi/protocol.py:254-288 | a field has a transformation exactly when it depends on another, and that one depends on nothing |
| Expectations.TitleDependsOnName | gmusicapi/protocol.py:255-267 | title copies name and titleNorm is name lower-cased |
| Expectations.AlbumArtistNormDependsOnAlbumArtist | gmusicapi/protocol.py:269-273 | albumArtistNorm depends on albumArtist and holds its lower-cased value |
| Expectations.AlbumNormDependsOnAlbum | gmusicapi/protocol.py:276-280 | albumNorm depends on album and holds its lower-cased value |
| Expectations.ArtistNormDependsOnArtist | gmusicapi/protocol.py:283-287 | artistNorm depends on artist and holds its lower-cased value |
| Expectations.OnlyRatingRestricted | gmusicapi/protocol.py:182-187 | only rating restricts its values, to 0, 1 and 5 |
| Expectations.OnlyLastPlayedVolatile | gmusicapi/protocol.py:292-295 | only lastPlayed is volatile |
| WcProtocol.TypeSchema | gmusicapi/protocol.py:330-335 | the schema has exactly the key `type` |
| WcProtocol.ObjectSchema | gmusicapi/protocol.py:330-336 | the schema has exactly `type` = object and `properties` |
| WcProtocol.ArraySchema | gmusicapi/protocol.py:313-314 | the schema has exactly `type` = array and `items` |
| WcProtocol.Properties | gmusicapi/protocol.py:310-311 | one property per registry key, each that key's get_schema() |
| WcProtocol.CompileSongSchema | gmusicapi/protocol.py:302-311 | the loop builds exactly the song schema of the registry |
| WcProtocol.RegistrySchema | gmusicapi/protocol.py:302-311 | for a registry that holds exactly the expectation classes, the schema names exactly their keys and forbids others |
| WcProtocol.SongSchema | gmusicapi/protocol.py:302-311 | song_schema is an object schema whose properties are exactly the expectation keys, each its get_schema(), with additionalProperties false |
| WcProtocol.SongArray | gmusicapi/protocol.py:313-314 | song_array is an array schema of songs |
| WcProtocol.SongSchemaPropertiesAreTyped | gmusicapi/protocol.py:310-311 | every property has a `type` and at most `blank` and `required` besides |
| WcProtocol.BuildUrl | gmusicapi/protocol.py:66-73 | `services/<name>?u=0&xt=<xt>` for every call but play, which gives `play?u=0&pt=e` (lines 551-559); a missing query dict is a TypeError and a dict without `xt` a KeyError |
| WcProtocol.UrlCarriesXt | gmusicapi/protocol.py:71-73 | the xt value is exactly what follows the fixed stem of the URL |
| WcProtocol.PlayIgnoresQuery | gmusicapi/protocol.py:555-559 | play's URL does not depend on the query |
| WcProtocol.UrlNamesCall | gmusicapi/protocol.py:73 | two calls other than play build different URLs from the same xt |
| WcProtocol.DeleteFromLibrary | gmusicapi/protocol.py:418 | deletesong defaults to entry ids `[""]` and the list `all` |
| WcProtocol.LoadFirstChunk | gmusicapi/protocol.py:450 | loadalltracks defaults to no continuation token |
| WcProtocol.BuildTransaction | gmusicapi/protocol.py:318-595 | only play has neither request nor response schema (lines 562-570); every other response schema is an object |
| WcProtocol.PlayTransaction | gmusicapi/protocol.py:562-570 | play's transaction is (None, None): the schema written first is overwritten |
| WcProtocol.RequestHoldsArguments | gmusicapi/protocol.py:318-595 | every request except play's and loadalltracks' holds exactly the call's arguments, each under its own key |
| WcProtocol.ContinuationSentWhenTruthy | gmusicapi/protocol.py:450-455 | loadalltracks sends the continuation token exactly when it is truthy |
| WcProtocol.SongsUseSongArray | gmusicapi/protocol.py:464-588 | loadalltracks, loadplaylist and search validate songs with the shared song_array |
| WcProtocol.ModifyPlaylistExpectsEmpty | gmusicapi/protocol.py:387-389 | modifyplaylist expects an empty object and nothing more |
| WcProtocol.CheckKey | gmusicapi/protocol.py:507-510 | a warning carries the key, the unallowed value and the song's id |
| WcProtocol.OnlyRatingWarns | gmusicapi/protocol.py:508-510 | only a rating outside 0, 1, 5 is warned about |
| WcProtocol.AllowedRatingPasses | gmusicapi/protocol.py:508-509 | a rating of 0, 1 or 5 passes silently |
| WcProtocol.UnknownKeyRaises | gmusicapi/protocol.py:508 | an unknown song key makes modifyentries raise AttributeError |
| WcProtocol.KeyWarningsStep | gmusicapi/protocol.py:507-510 | checking one more key adds exactly that key's warning, if any |
| WcProtocol.CheckSong | gmusicapi/protocol.py:507-510 | the song passes exactly when every key checks out, and then the logged warnings are exactly the song's warnings |
| WcProtocol.ModifyEntriesTransaction | gmusicapi/protocol.py:498-521 | unless a check raises, the request is exactly `{"entries": songs}`, the response schema is success plus songs, and the warnings are exactly those of the songs |
| WcProtocol.WarningsAreRatings | gmusicapi/protocol.py:508-510 | every warning is about a rating outside 0, 1 and 5 |
| MmProtocol.MacOfLongHex | gmusicapi/protocol.py:603-604 | for the hex text of a long, the MAC text is the first ten digits in five colon-separated pairs, 14 characters: the sixth octet is dropped |
| MmProtocol.MacOfShortHex | gmusicapi/protocol.py:603-604 | a hex text too short to hold a digit yields only the four colons |
| MmProtocol.Templates | gmusicapi/protocol.py:608-626 | no template holds tracks, and every template with an address carries the MAC text |
| MmProtocol.SubstringAt | gmusicapi/protocol.py:662 | Python's `in` on two strings holds exactly when one occurs in the other at some position |
| MmProtocol.SubstringsOfMp3 | gmusicapi/protocol.py:44 | the texts found in `mp3` are exactly the empty text and its six non-empty substrings |
| MmProtocol.SupportedExtensions | gmusicapi/protocol.py:662 | an extension is accepted exactly when it is one of those seven texts, since `supported_filetypes = ("mp3")` (line 44) is a plain string |
| MmProtocol.SupportedExamples | gmusicapi/protocol.py:662 | `.mp3`, `.m` and `.p3` pass; `.MP3`, `.ogg` and `.mp4` are refused |
| MmProtocol.SupportedWithoutDot | gmusicapi/protocol.py:662 | a name without a dot is its own extension |
| MmProtocol.DigestId | gmusicapi/protocol.py:690-692 | the id is the encoded digest without its last three characters |
| MmProtocol.DigestIdOfDigest | gmusicapi/protocol.py:672-692 | a 25-character encoding of a 16-byte digest gives a 22-character id |
| MmProtocol.FirstTag | gmusicapi/protocol.py:705-717 | `audio[tag][0]` is found exactly when the tag holds a value; an empty tag list is an IndexError |
| MmProtocol.SetText | gmusicapi/protocol.py:707-715 | a present tag writes its first value to the field and nothing else; an absent tag changes nothing |
| MmProtocol.SetInt | gmusicapi/protocol.py:716-730 | a number text is parsed into the field, whitespace around it skipped as int() does; ValueError exactly when int() refuses it; nothing else changes |
| Text.ParseIntPadded | gmusicapi/protocol.py:716-730 | int() reads back str(n) with any whitespace before and after it |
| Text.ParseIntSignSpace | gmusicapi/protocol.py:716-730 | int() also skips whitespace between a minus sign and the digits |
| MmProtocol.PairTexts | gmusicapi/protocol.py:721-724 | the number text is the part before the first `/`, and a total exists exactly when there are two parts |
| MmProtocol.PairOfTwo | gmusicapi/protocol.py:721-724 | `N/M` gives both numbers back |
| MmProtocol.PairOfOne | gmusicapi/protocol.py:721-724 | a bare `N` sets no total |
| MmProtocol.PairOfThree | gmusicapi/protocol.py:721-724 | `N/M/K` keeps the number and sets no total |
| MmProtocol.ApplyStep | gmusicapi/protocol.py:707-730 | one tag step writes only its own fields and keeps every other field |
| MmProtocol.YearOfDate | gmusicapi/protocol.py:716 | a `YYYY-...` date sets the year to YYYY |
| MmProtocol.YearOfPaddedDate | gmusicapi/protocol.py:716 | a date with whitespace before `YYYY-...` still sets the year to YYYY |
| MmProtocol.YearOfBadDate | gmusicapi/protocol.py:716 | a date that does not start with a number raises ValueError |
| MmProtocol.PairStepOfTwo | gmusicapi/protocol.py:720-724 | `N/M` sets the number and its total |
| MmProtocol.PairStepOfOne | gmusicapi/protocol.py:720-723 | a bare `N` sets the number and leaves the total |
| MmProtocol.PairStepOfTexts | gmusicapi/protocol.py:720-724 | a pair tag whose two parts both read as numbers sets the number and its total |
| MmProtocol.PairStepSpaced | gmusicapi/protocol.py:720-724 | `N / M` sets the number and its total, because int() skips the spaces around each part |
| MmProtocol.ApplySteps | gmusicapi/protocol.py:707-730 | fields that no step writes are kept |
| MmProtocol.BaseFieldsUnwritten | gmusicapi/protocol.py:695-730 | no tag step writes id, fileSize, bitrate, duration or title |
| MmProtocol.TrackFor | gmusicapi/protocol.py:659-730 | a refused extension raises UnsupportedFiletype and an unreadable file IOError |
| MmProtocol.TrackForUnfold | gmusicapi/protocol.py:659-730 | an accepted file's track is its base track with the tag steps applied |
| MmProtocol.TrackIdentity | gmusicapi/protocol.py:690-705 | every accepted track carries the file's digest id, size, bitrate in kbit/s, duration in ms and title |
| MmProtocol.TitleFallback | gmusicapi/protocol.py:705 | without a title tag the title is the text after the last `/` |
| MmProtocol.TracksOfOk | gmusicapi/protocol.py:659-730 | a successful request has one track per file, in order |
| MmProtocol.TracksOfAllOk | gmusicapi/protocol.py:659-730 | when every file gives a track, the request succeeds |
| MmProtocol.TracksOfErrPrefix | gmusicapi/protocol.py:659-663 | the first failing file ends the request |
| MmProtocol.UnsupportedFails | gmusicapi/protocol.py:662-663 | one refused extension refuses the request |
| MmProtocol.FileMapInverse | gmusicapi/protocol.py:694 | the filemap's keys are the files' ids and every id maps to a listed file with that id |
| MmProtocol.FileMapLastWins | gmusicapi/protocol.py:694 | an id maps to the last file with that id |
| MmProtocol.DuplicateContentKeepsLater | gmusicapi/protocol.py:682-694 | two files with the same contents: the map keeps only the second |
| MmProtocol.CollectTracks | gmusicapi/protocol.py:659-730 | the loop yields the tracks and the id map of the files, or the first exception |
| MmProtocol.UploadTitleIsListText | gmusicapi/protocol.py:748-781 | a title tag is sent as the str() of the whole list, which differs from the track's title |
| MmProtocol.Inlined | gmusicapi/protocol.py:750-761 | the inlined dictionary has exactly the ten names |
| MmProtocol.TenInlinedNames | gmusicapi/protocol.py:750-761 | there are ten inlined names |
| MmProtocol.EntryNameOf | gmusicapi/protocol.py:779-784 | the name of an inlined entry is read back from it |
| MmProtocol.EntriesOfKeys | gmusicapi/protocol.py:778-784 | one entry per key of the iteration order, at its position |
| MmProtocol.EntriesFit | gmusicapi/protocol.py:778-784 | iterating over the dictionary's keys appends every inlined entry exactly once after the external entry |
| MmProtocol.SessionFieldsFit | gmusicapi/protocol.py:762-784 | every session holds its external entry and the ten inlined fields exactly once |
| MmProtocol.InlinedValues | gmusicapi/protocol.py:753-760 | the song count is the number of uploads, the uploader id the MAC and the current track the upload title |
| MmProtocol.FitFacts | gmusicapi/protocol.py:778-784 | fitting fields number one more than the names, hold every entry and only string contents |
| MmProtocol.SessionCarriesCountAndMac | gmusicapi/protocol.py:750-784 | every session has eleven fields, including the upload count and the MAC, all contents strings |
| MmProtocol.UploadFailure | gmusicapi/protocol.py:746-747 | an upload fails exactly when its id is missing from the filemap or its file cannot be read |
| MmProtocol.SessionsOfOk | gmusicapi/protocol.py:743-788 | a successful call yields one session per upload, in order, each for the file its id names |
| MmProtocol.SessionsOfErr | gmusicapi/protocol.py:745-747 | the call fails exactly when some upload fails, with the first failure's exception |
| MmProtocol.SessionsOfErrPrefix | gmusicapi/protocol.py:745-747 | a failure in a prefix is the failure of the whole list |
| MmProtocol.AppendInlined | gmusicapi/protocol.py:778-784 | the loop appends the entries in the dictionary's order after the external entry |
| MmProtocol.SessionRequest | gmusicapi/protocol.py:746-786 | the loop body builds the session of one upload |
| MmProtocol.MmProtocol.constructor | gmusicapi/protocol.py:600-632 | the MAC text is derived from the hex text, the host name is kept and the templates are filled |
| MmProtocol.MmProtocol.MakePb | gmusicapi/protocol.py:635-649 | a message exists exactly when there is a template of the camel-cased class, and it is that template's copy |
| MmProtocol.MmProtocol.MakePbUploadAuth | gmusicapi/protocol.py:612-647 | `upload_auth` gives an UploadAuth with the address and host name |
| MmProtocol.MmProtocol.MakePbClientState | gmusicapi/protocol.py:616-647 | `client_state` gives a ClientState with the address |
| MmProtocol.MmProtocol.MakePbMetadataRequest | gmusicapi/protocol.py:623-647 | `metadata_request` gives a MetadataRequest with the address |
| MmProtocol.MmProtocol.MakePbWithoutTemplate | gmusicapi/protocol.py:629-647 | the service name `metadata` has no template and raises AttributeError |
| MmProtocol.MmProtocol.MakeMetadataRequest | gmusicapi/protocol.py:652-732 | the request message with one track per file and the id-to-filename map, or the first exception |
| MmProtocol.MmProtocol.MakeUploadSessionRequests | gmusicapi/protocol.py:735-788 | one session per upload, in response order, or the first upload's exception |
| SjProtocol.CollectionUrl | gmusicapi/protocol.py:796-800 | the URL starts with the collection stem and continues with `/<id>` exactly when the id is truthy |
| SjProtocol.UrlIdRoundTrip | gmusicapi/protocol.py:796-811 | reading the id back from a collection URL gives the id exactly when it was truthy |
| SjProtocol.TracksUrl | gmusicapi/protocol.py:796-800 | tracks(trackid) names trackid exactly when it is truthy |
| SjProtocol.PlaylistsUrl | gmusicapi/protocol.py:807-811 | playlists(plid) names plid exactly when it is truthy |
| SjProtocol.TracksAndPlaylistsDiffer | gmusicapi/protocol.py:796-811 | no track URL equals a playlist URL |
| SjProtocol.TrackAudioUrl | gmusicapi/protocol.py:803-804 | the audio URL is the play prefix, the track id, the bitrate key, the decimal bitrate and the suffix |
| SjProtocol.TrackAudioBitrate | gmusicapi/protocol.py:803-804 | the bitrate is read back from the audio URL |
| SjProtocol.PlaylistEntriesUrl | gmusicapi/protocol.py:814-815 | the entries URL is the `plentries?plid=` stem followed by the id |
| SjProtocol.PlaylistEntryUrl | gmusicapi/protocol.py:818-819 | the entry URL names the entry id when it is non-empty |
| SjProtocol.EntriesAndEntryDiffer | gmusicapi/protocol.py:814-819 | an entries URL never equals an entry URL |
| SjProtocol.BatchUrlsDistinct | gmusicapi/protocol.py:822-827 | the two batch URLs differ and name no single track or playlist |
| SjProtocol.MutationId | gmusicapi/protocol.py:840-843 | a mutation passes exactly when its response_code is `OK`, and yields its id exactly when it has one |
| SjProtocol.MutationIdsErr | gmusicapi/protocol.py:839-843 | the loop fails exactly when some mutation fails, with the first failure's exception |
| SjProtocol.PresentIdsAppend | gmusicapi/protocol.py:842-843 | one more mutation appends its id when it has one |
| SjProtocol.MutationIdsOk | gmusicapi/protocol.py:836-845 | on success the ids are exactly the ids present, in mutation order |
| SjProtocol.MutationIdsPrefixErr | gmusicapi/protocol.py:839-841 | a failing prefix fails the whole loop with the same exception |
| SjProtocol.MutationIdsAll | gmusicapi/protocol.py:836-845 | when every mutation succeeds with an id, the ids are the mutations' ids one for one |
| SjProtocol.MutateResponseNoKey | gmusicapi/protocol.py:833-834 | the reply is True exactly when there is no mutate_response |
| SjProtocol.MutateResponseRejects | gmusicapi/protocol.py:840-841 | a response_code other than `OK` fails the whole reply |
| SjProtocol.HandleMutateResponse | gmusicapi/protocol.py:832-845 | the loop computes the reply the mutation rules give |
| SjProtocol.KindToModel | gmusicapi/protocol.py:847-861 | the class found has exactly the kind given; anything else is a ValueError |
| SjProtocol.KindToModelRoundTrip | gmusicapi/protocol.py:847-859 | every class is found again from its own kind, so the six kinds are distinct |
| SjProtocol.KindToModelFailsClosed | gmusicapi/protocol.py:860-861 | a value that is none of the six kinds is a ValueError |
| SjProtocol.Tracks | gmusicapi/protocol.py:863-870 | KeyError without `kind`, ValueError for an unknown kind, TypeError when Track or Playlist is called with the data, the parsed items for a track list, and None for the other lists |
| SjProtocol.Playlists | gmusicapi/protocol.py:872-880 | the same dispatch, the parsed items for a playlist list |
| Models.CheckKind | gmusicapi/models/track.py:303-304 | a missing kind is a KeyError; a falsy kind passes; a truthy kind passes exactly when it is the class's kind, else AssertionError |
| Models.CopiedStoresAllButKind | gmusicapi/models/track.py:306-310 | after the copy every key but kind holds its JSON value and every other attribute, kind included, is unchanged |
| Models.CopiedNothing | gmusicapi/models/track.py:306-310 | copying no key changes nothing |
| Models.CopiedStep | gmusicapi/models/track.py:306-310 | copying one more key is one setattr, skipped for kind |
| Models.CopyAttributes | gmusicapi/models/track.py:306-310 | the loop stores every key but kind, in whatever order the dictionary yields them |
| Models.RecordFromJson | gmusicapi/models/track.py:302-310 | from_json fails exactly when the kind check fails, with its exception, and otherwise copies every key but kind |
| Models.SetterStores | gmusicapi/models/track.py:56-298 | a text setter accepts only str, a number setter only int (not bool), the rating setter str or int; a wrong type is an AssertionError |
| Models.RatingStoredAsText | gmusicapi/models/track.py:223-226 | a rating given as an int is stored as its decimal text, the same as the text given directly |
| Models.DataItems | gmusicapi/models/track.py:342 | the list iterated is `data['items']`; a missing key is a KeyError |
| Models.ParseItemsAll | gmusicapi/models/track.py:342-345 | without a failure every element yields its record, in order |
| Models.ParseItemsNoFailure | gmusicapi/models/track.py:342-345 | when every element is accepted nothing fails |
| Models.ParseItemsFailure | gmusicapi/models/track.py:342-345 | a failure keeps exactly the records of the elements before the one that raised |
| Models.ParseItemsSnoc | gmusicapi/models/track.py:342-345 | one more accepted element appends its record |
| Models.ParseItemsStop | gmusicapi/models/track.py:342-345 | an element that raises ends the list with its exception |
| Models.ParseItemsPrefix | gmusicapi/models/track.py:342-345 | a failure among the first n elements is the failure of the whole list |
| Models.ListTokenCopied | gmusicapi/models/track.py:334-339 | the page token is stored exactly when present and the kind check passed |
| Models.ListWithoutData | gmusicapi/models/track.py:341 | without data nothing is appended |
| Models.ListItemsInOrder | gmusicapi/models/track.py:341-345 | with acceptable items one record per item is appended, in order |
| Models.ModelBase.constructor | gmusicapi/models/base.py:25-26 | a new record has no changed properties |
| Models.ModelBase.Kind | gmusicapi/models/base.py:21-23 | kind() of the abstract base raises NotImplementedError |
| Models.ModelBase.FromJson | gmusicapi/models/base.py:31-34 | a present kind other than kind() is a ValueError (NotImplementedError on the base); a record without kind is accepted |
| Models.ModelBase.MutationUpdate | gmusicapi/models/base.py:36-37 | always NotImplementedError |
| Models.ModelBase.MutationDelete | gmusicapi/models/base.py:39-40 | always NotImplementedError |
| Models.NewModelBase | gmusicapi/models/base.py:25-29 | from_json runs only for truthy jsdata, and the construction fails exactly when it does |
| Models.NewTrackAttrs | gmusicapi/models/track.py:25-49 | a new track has exactly the 24 backing attributes, all None |
| Models.TrackSettersAreFields | gmusicapi/models/track.py:56-298 | only backed properties have setters |
| Models.TrackReadOnly | gmusicapi/models/track.py:64-286 | albumArtRef, albumId, creationTimestamp, deleted, lastModifiedTimestamp, playCount, id, storeId and trackType have no setter |
| Models.Track.constructor | gmusicapi/models/track.py:25-49 | every backing attribute None |
| Models.Track.Get | gmusicapi/models/track.py:51-293 | a getter returns its backing attribute |
| Models.Track.Set | gmusicapi/models/track.py:56-298 | a read-only property is an AttributeError, a wrong type an AssertionError, both leaving the track as it was; otherwise only that attribute changes |
| Models.Track.FromJson | gmusicapi/models/track.py:302-310 | the track's new attributes are what RecordFromJson gives, and a failure changes nothing |
| Models.TrackAttrs | gmusicapi/models/track.py:331-332 | one attribute map per track |
| Models.NewTrackFromJson | gmusicapi/models/track.py:343-344 | a new track from one element, or the exception from_json raised |
| Models.TrackAttrsAppend | gmusicapi/models/track.py:345 | appending a track appends its attributes |
| Models.TrackList.constructor | gmusicapi/models/track.py:319-321 | no items and a None token |
| Models.TrackList.FromJson | gmusicapi/models/track.py:334-345 | the kind check, the token copied when present, then the parsed items appended after the old ones, fresh |
| Models.TrackList.AppendTracks | gmusicapi/models/track.py:342-345 | the loop appends the parsed records until one element raises, and keeps the old items and token |
| Models.NewTrackList | gmusicapi/models/track.py:319-324 | an empty jsdata gives an empty list; otherwise the list from_json builds, or its exception |
| Models.NewPlaylistAttrs | gmusicapi/models/playlist.py:25-31 | a new playlist has exactly the six backing attributes, all None |
| Models.PlaylistSetter | gmusicapi/models/playlist.py:33-76 | only name has a setter, and it asserts a str |
| Models.Playlist.constructor | gmusicapi/models/playlist.py:25-31 | every backing attribute None |
| Models.Playlist.Get | gmusicapi/models/playlist.py:33-75 | a getter returns its backing attribute |
| Models.Playlist.Set | gmusicapi/models/playlist.py:54-62 | only name can be set, only to a str; anything else fails and changes nothing |
| Models.Playlist.FromJson | gmusicapi/models/playlist.py:79-87 | the playlist's new attributes are what RecordFromJson gives, and a failure changes nothing |
| Models.NewPlaylistFromJson | gmusicapi/models/playlist.py:120-121 | a new playlist from one element, or the exception from_json raised |
| Models.PlaylistAttrs | gmusicapi/models/playlist.py:107-109 | one attribute map per playlist |
| Models.PlaylistAttrsAppend | gmusicapi/models/playlist.py:122 | appending a playlist appends its attributes |
| Models.PlaylistList.constructor | gmusicapi/models/playlist.py:96-98 | no items and a None token |
| Models.PlaylistList.FromJson | gmusicapi/models/playlist.py:111-122 | the kind check, the token copied when present, then the parsed items appended after the old ones |
| Models.PlaylistList.AppendPlaylists | gmusicapi/models/playlist.py:118-122 | the loop appends the parsed records until one element raises |
| Models.NewPlaylistList | gmusicapi/models/playlist.py:96-101 | an empty jsdata gives an empty list; otherwise the list from_json builds, or its exception |
| MobileClient.SchemaDict.constructor | gmusicapi/protocol/mobileclient.py:18-77 | a module-level schema dictionary holds the entries it is built with |
| MobileClient.MarkOptional | gmusicapi/protocol/mobileclient.py:79-81 | assigning `required` through sj_result's properties marks the shared dictionary itself, and only that entry |
| MobileClient.BuildSchemas | gmusicapi/protocol/mobileclient.py:18-81 | after set-up sj_track, sj_album and sj_artist each carry required=False, sj_artist holds related_artists referring to itself, and sj_result refers to the three shared dictionaries |
| MobileClient.SharedSchemasMarked | gmusicapi/protocol/mobileclient.py:67-81 | every dictionary sj_result names is itself optional, so GetArtist's whole response schema is marked optional |
| MobileClient.ClosedKeys | gmusicapi/protocol/mobileclient.py:124-135 | a schema restricts top-level keys only through its properties |
| MobileClient.SearchAdmitsOnly | gmusicapi/protocol/mobileclient.py:124-132 | a search response passes the top-level rule exactly when it has no key but kind and entries |
| MobileClient.ArtistSchemaOpen | gmusicapi/protocol/mobileclient.py:137-140 | the artist schema leaves additional keys open |
| MobileClient.CheckSuccess | gmusicapi/protocol/mobileclient.py:100-112 | a failure is a CallFailure naming the call |
| MobileClient.CheckSuccessCases | gmusicapi/protocol/mobileclient.py:106 | an absent or true success passes; False, 0, the empty string and null fail |
| MobileClient.Validate | gmusicapi/protocol/mobileclient.py:91-98 | the message passes exactly when the validator accepts it; the validator's ValueError becomes a ValidationException with the same text |
| MobileClient.SearchUrl | gmusicapi/protocol/mobileclient.py:134-135 | the search URL is the stem, the query, the max-results key and the decimal count, and the count is the text after the last `=` |
| MobileClient.SearchCountRecovered | gmusicapi/protocol/mobileclient.py:134-135 | int() of the text after the last `=` gives back the count |
| MobileClient.SearchQueryRecovered | gmusicapi/protocol/mobileclient.py:134-135 | a query without `&` is read back from the URL |
| MobileClient.AmpersandedSnoc | gmusicapi/protocol/mobileclient.py:144-147 | appending one more parameter appends `&` and it |
| MobileClient.AmpersandedJoin | gmusicapi/protocol/mobileclient.py:144-147 | the parameters behind `&` are `&` followed by their `&`-join |
| MobileClient.AmpersandedFour | gmusicapi/protocol/mobileclient.py:143-147 | four appended parameters are the base followed by the four, each behind its `&` |
| MobileClient.GetArtistUrl | gmusicapi/protocol/mobileclient.py:142-148 | `fetchartist?alt=json` followed by nid, include-albums as True/False, num-top-tracks and num-related-artists, each behind `&` |
| MobileClient.AmpersandedSplit | gmusicapi/protocol/mobileclient.py:143-147 | parameters without `&` are read back in order by splitting on `&` |
| MobileClient.KeyedAvoids | gmusicapi/protocol/mobileclient.py:144-147 | a key and a value without `&` make a parameter without `&` |
| MobileClient.ArtistParamsRecovered | gmusicapi/protocol/mobileclient.py:142-148 | when the artist id has no `&`, the four parameters are read back in order from the URL |
| ClientLogin.KeyOf | gmusicapi/utils/clientlogin.py:83 | the key is the text before the first `=`, and holds no `=` |
| ClientLogin.ValueOf | gmusicapi/utils/clientlogin.py:83 | key, `=` and value give back the line, so the value keeps any further `=` |
| ClientLogin.LineRoundTrip | gmusicapi/utils/clientlogin.py:82-84 | a line `k=v` with no `=` in k splits back into k and v |
| ClientLogin.ParsedKeys | gmusicapi/utils/clientlogin.py:80-85 | a key is present exactly when some line holding `=` carries it |
| ClientLogin.ParsedLastWins | gmusicapi/utils/clientlogin.py:84 | a repeated key keeps the value of its last line |
| ClientLogin.ParsedIgnores | gmusicapi/utils/clientlogin.py:82 | a line without `=` changes nothing |
| ClientLogin.ProcessResponse | gmusicapi/utils/clientlogin.py:77-85 | the loop builds the dictionary of the reply's lines |
| ClientLogin.ParsedReply | gmusicapi/utils/clientlogin.py:80-85 | a reply of SID, a line without `=`, then Auth gives exactly both tokens, the Auth value whole |
| ClientLogin.LoginReplyAuthenticates | gmusicapi/utils/clientlogin.py:106-134 | a reply of SID, a line without `=`, then Auth, joined by newlines, succeeds and sets both tokens to the values it carries, whatever they were |
| ClientLogin.ClientLogin.constructor | gmusicapi/utils/clientlogin.py:46-75 | the credentials are kept, the account type defaults to GOOGLE, and there are no tokens yet |
| ClientLogin.ClientLogin.RequestData | gmusicapi/utils/clientlogin.py:111-118 | the form holds the four credentials, and source exactly when one is given and non-empty |
| ClientLogin.ClientLogin.RequestTokens | gmusicapi/utils/clientlogin.py:106-134 | an HTTP error or an Error line fails (raising a string is itself a TypeError) and leaves the tokens; otherwise the Auth and SID the reply carries replace the old ones, and both present means authenticated; the outcome is TokensAfter of the reply and the old tokens |
| ClientLogin.ClientLogin.GetAuthToken | gmusicapi/utils/clientlogin.py:136-147 | a cached token is returned without a request unless one is forced; otherwise one request is sent, and the tokens, success and failure are those of request_tokens (TokensAfter), a failure being the TypeError of raising a string; a success returns the Auth token now held |
| ClientLogin.ClientLogin.GetSidToken | gmusicapi/utils/clientlogin.py:149-160 | the same caching rule for the SID token, with the same outcome as request_tokens when a request is sent; a success returns the SID token now held |
| Clients.DerivedMac | gmusicapi/clients.py:259-268 | a MAC with bit 40 set fails with OSError exactly; otherwise the derived MAC lies below 2^48 |
| Clients.DerivedMacDiffers | gmusicapi/clients.py:266-268 | the derived MAC is never the machine's own MAC, so the uploader is told apart from a Music Manager on the same machine |
| Clients.DerivedMacNoWrap | gmusicapi/clients.py:268 | below 2^48 with bit 40 clear, the derived MAC is the next MAC, mac+1 |
| Clients.UploaderId | gmusicapi/clients.py:259-276 | a given uploader id is used as given, otherwise the MAC string of the derived MAC; the bit-40 OSError propagates; an accepted id is always valid and a ValueError means the id is not valid |
| Clients.ChunksRead | gmusicapi/clients.py:777-783 | the loop reads at least one chunk, stops at the first chunk without a continuation token, and every earlier chunk carried one |
| Clients.FlattenPlaces | gmusicapi/clients.py:764-767 | song j of chunk i sits in the flattened list at the number of songs of the earlier chunks plus j, converted |
| Clients.FlattenLength | gmusicapi/clients.py:767 | the flattened list holds exactly the songs of all chunks |
| Clients.FlattenSnoc | gmusicapi/clients.py:767 | one more chunk appends its converted songs at the end |
| Clients.CollectChunks | gmusicapi/clients.py:352-371 | the songs are the flattening of exactly the chunks read; the first request sends no token and every later request sends the previous chunk's token (the Webclient loop at lines 771-783 is the same with the identity conversion) |
| Clients.TrackInfoToDict | gmusicapi/clients.py:342-350 | the dictionary has exactly the seven hard-coded keys, and each holds what getattr gives for that name: id, title, album, album_artist, artist, track_number, track_size |
| Clients.TrackInfoToDictInjective | gmusicapi/clients.py:342-350 | the dictionary loses nothing: two records with the same dictionary are the same record |
| Clients.TitleAndId | gmusicapi/clients.py:852 | a playlist yields its (title, playlistId) pair exactly when it is a dictionary holding both keys with a hashable title |
| Clients.IdsTitledSnoc | gmusicapi/clients.py:852-855 | the ids filed under a title grow by the next playlist's id exactly when that playlist has the title |
| Clients.GroupedByTitle | gmusicapi/clients.py:849-857 | the grouping succeeds exactly when every playlist has a title and an id; then a title is a key exactly when some playlist has it, and it maps to the ids of all playlists with that title, in list order |
| Clients.PlaylistListToDict | gmusicapi/clients.py:849-857 | the loop computes the title grouping of the whole list, so by GroupedByTitle it files every id under its title in order |
| Clients.PlaylistItems | gmusicapi/clients.py:852 | iterating a list gives its items, a string its characters, an empty dictionary nothing; a non-empty dictionary already raises at its first key, and a number, bool or None is not iterable; every failure is a TypeError |
| Clients.PlaylistsOfNonList | gmusicapi/clients.py:849-857 | playlists of `""` or `{}` group to `{}`; any other value that is not a list raises TypeError |
| Clients.GroupedPrefixErr | gmusicapi/clients.py:852 | once a playlist without a title or id is reached, the rest of the list does not change the failure |
| Clients.GetAllPlaylistIds | gmusicapi/clients.py:838-847 | 'auto' is present exactly when asked for and maps to the empty group; 'user' is present exactly when asked for and holds the title grouping of what iterating the reply's playlists gives; a value that cannot be iterated, and a reply without playlists, raise |
| Clients.MatchingEidsEmpty | gmusicapi/clients.py:1086-1090 | for well-formed tracks, the matching entry ids are empty exactly when no track's song id is among the ids to match |
| Clients.RemoveSongsFromPlaylist | gmusicapi/clients.py:1069-1096 | the empty-argument short-circuit returns [] for no song ids, before the playlist is read; otherwise a malformed track fails, no match gives [], and else each removed "sid_eid" string comes back split on '_' |
| Clients.MatchingNoSids | gmusicapi/clients.py:1086-1088 | an empty set of song ids matches no playlist entry |
| Clients.SidEidSplits | gmusicapi/clients.py:1094 | a "sid_eid" string of ids without '_' splits back into [sid, eid] |
| Clients.SearchHits | gmusicapi/clients.py:1183-1187 | succeeds exactly when the reply's results hold albums, artists and songs; the result has exactly the three *_hits keys, each holding its source entry |
| Clients.StreamUrl | gmusicapi/clients.py:906-911 | the reply's url when present, otherwise its urls; a KeyError exactly when neither is present |
| Musicmanager.ContainsSelf | gmusicapi/clients.py:489 | the substring test used for the non-ASCII complaint finds a string in itself |
| Musicmanager.NonAsciiMessage | gmusicapi/clients.py:493-494 | the non-ASCII report is longer than the exception text it quotes |
| Musicmanager.AsWrittenDiffersOnNonAscii | gmusicapi/clients.py:481-498 | the loop as written raises NameError('err_msg') exactly when some file fails with the non-ASCII complaint, and otherwise gathers what the intended loop gathers |
| Musicmanager.NonAsciiFileAborts | gmusicapi/clients.py:487-496 | one file failing with exactly the complaint makes the written loop raise, where the intended loop reports the quoted message for that path |
| Musicmanager.GatheredWithin | gmusicapi/clients.py:481-498 | gathering reports failures only for given paths and keeps local information only for given paths |
| Musicmanager.GatheredFiles | gmusicapi/clients.py:481-498 | every local entry holds the track read from its path under the track's own client id; every failure is a path whose reading raised, reported with its message (the non-ASCII one reworded) |
| Musicmanager.GatheredComplete | gmusicapi/clients.py:481-498 | every path whose reading raised is reported, and every track read is kept under its client id |
| Musicmanager.GatherLocalInfo | gmusicapi/clients.py:475-498 | the gathering loop computes the intended gathering, whose content GatheredFiles, GatheredComplete and GatheredWithin state |
| Musicmanager.ProvidedPrefixErr | gmusicapi/clients.py:517-534 | once a challenge fails (an id without local information, or an exception other than IOError/ValueError), later challenges do not change the failure |
| Musicmanager.ProvidedWithin | gmusicapi/clients.py:517-534 | sending samples only appends responses and only reports failures for local files |
| Musicmanager.ProvideSamples | gmusicapi/clients.py:513-534 | the sample loop computes the sample provision over all challenges in order |
| Musicmanager.RejectionMessage | gmusicapi/clients.py:558-564 | a rejection is reported as "TrackSampleResponse code N: NAME", and ALREADY_EXISTS appends the server id in parentheses |
| Musicmanager.SortedWithin | gmusicapi/clients.py:538-567 | sorting succeeds exactly when every response's client id has local information; it then keeps every dictionary within the given paths, queues nothing with do_not_rematch set, and records no match unless matching is enabled |
| Musicmanager.SortedPrefixErr | gmusicapi/clients.py:539 | once a response without local information is met, later responses do not change the KeyError |
| Musicmanager.SortResponse | gmusicapi/clients.py:539-567 | one response: MATCHED records the server id only with matching enabled, UPLOAD_REQUESTED queues the file under the server id, any other code reports the rejection |
| Musicmanager.SortResponses | gmusicapi/clients.py:537-567 | the sorting loop sorts all responses in order, with the properties SortedWithin states |
| Musicmanager.SessionRun | gmusicapi/clients.py:576-601 | the session loop makes at least one more call and never more than ten in all |
| Musicmanager.SessionRunStops | gmusicapi/clients.py:579-601 | the loop stops at the first session or at the first failure it does not retry after, or at ten calls; every earlier reply was a retried failure; a run given up reports its last reply's reason and code |
| Musicmanager.ForcedRetry | gmusicapi/clients.py:596-599 | code 200 with do_not_rematch is always retried, so ten such replies use all ten calls and give up |
| Musicmanager.GetSession | gmusicapi/clients.py:576-601 | the while loop computes the bounded session run from the first attempt |
| Musicmanager.SendOneEffect | gmusicapi/clients.py:602-640 | one queued file either leaves uploaded unchanged or records its path under its server id, and only with a session and a truthy final state; it touches no path but its own |
| Musicmanager.SentReportsQueued | gmusicapi/clients.py:574-640 | after sending, uploaded and not-uploaded gained only paths of queued files |
| Musicmanager.SentCoversQueued | gmusicapi/clients.py:574-640 | sending keeps every path already reported and reports the path of every file sent, uploaded or not |
| Musicmanager.QueuedPathsCover | gmusicapi/clients.py:574 | the paths sent include the path of every file in the order |
| Musicmanager.UploadReportsQueued | gmusicapi/clients.py:560-644 | every file the server asked for ends up uploaded or not uploaded, the failures recorded before sending are still reported, and the matches are those of the sorting |
| Musicmanager.SentUploadedOnlyCompleted | gmusicapi/clients.py:574-640 | every path newly recorded as uploaded belongs to a queued file, sent, whose session was obtained and whose upload was finalized, recorded under its own server id |
| Musicmanager.QueuedPathsWithin | gmusicapi/clients.py:574 | the paths of the queued files lie within any set holding every queued file's path |
| Musicmanager.SendQueued | gmusicapi/clients.py:576-640 | one queued file: the session loop, then the give-up report, the transcoding report, or the upload outcome |
| Musicmanager.SendAll | gmusicapi/clients.py:574-640 | the loop over the queued files sends them all in the dictionary's iteration order |
| Musicmanager.Client.constructor | gmusicapi/clients.py:169-173 | a fresh Musicmanager has no uploader id and no uploader name |
| Musicmanager.Client.PerformUpauth | gmusicapi/clients.py:253-295 | an OSError or ValueError from the uploader id leaves the client unchanged; a failed AuthenticateUploader gives False and leaves it unchanged; success gives True and records the id and the given or default name |
| Musicmanager.Client.Upload | gmusicapi/clients.py:422-644 | the empty-argument short-circuit returns the single dictionary `{}` exactly for no paths, before the login test; NotLoggedIn without an uploader; otherwise the result is UploadOutcome's three dictionaries or its exception, with to_upload sent in an iteration order holding each key once: only the gathering failures when no file could be read, every reported path one of the given files, and nothing matched unless matching is enabled |
| Api.WcCall | gmusicapi/api.py:627-648 | the reply comes back exactly when the call succeeded or failures are suppressed; otherwise CallFailure naming the caller |
| Api.WcCallIgnoresSchema | gmusicapi/api.py:637-648 | the schema check never changes the outcome: a successful reply that fails its schema is still returned |
| Api.GetAllSongs | gmusicapi/api.py:261-278 | the library is the concatenation of the songs of exactly the chunks up to the first one without a continuation token, the same list the clients' chunk loop builds |
| Api.FlattenSongsSnoc | gmusicapi/api.py:272-276 | adding a chunk appends its songs unchanged |
| Api.CollapsedRoundTrip | gmusicapi/api.py:317-320 | collapsing a non-empty list of string ids loses nothing: the list is recovered, and the value is a plain id exactly for a single id |
| Api.CollapseSingletons | gmusicapi/api.py:318-320 | the loop keeps every name and replaces each id list by its collapsed form |
| Api.AutoPlaylistsUncollapsed | gmusicapi/api.py:333-341 | the hard-coded auto playlists map to plain ids, so collapsing leaves them unchanged |
| Api.AsLists | gmusicapi/api.py:324-331 | the grouping as a dictionary of id lists keeps exactly the grouped titles |
| Api.GetAllPlaylistIds | gmusicapi/api.py:290-322 | the loadplaylist call is made whatever is asked for, and its failure is the result; then 'auto' and 'user' are each present exactly when asked for; 'auto' holds the hard-coded auto playlists; 'user' holds the title grouping of what iterating the reply's playlists gives, as id lists with always_id_lists and with single ids collapsed otherwise; a reply without playlists is a KeyError |
| Api.SuppressedNeverFails | gmusicapi/api.py:629-635 | with failures suppressed, a run of calls fails exactly when some call raised outside the success check |
| Api.UnsuppressedFails | gmusicapi/api.py:629-635 | with failures not suppressed, a run of calls succeeds exactly when every call succeeded |
| Api.CallsPrefixErr | gmusicapi/api.py:629-635 | the first failing call decides the outcome of the run |
| Api.ChangedPlaylistId | gmusicapi/api.py:475-492 | change_playlist ends on the playlist's id or the backup's, and on the backup's only when safe, the changes failed with CallFailure and the revert succeeded |
| Api.Api.constructor | gmusicapi/api.py:98-104 | a new Api keeps the given suppress_failure setting |
| Api.Api.RunCalls | gmusicapi/api.py:627-635 | a run of _wc_call calls under the current setting ends as the first failure that raises decides, which SuppressedNeverFails and UnsuppressedFails characterise |
| Api.Api.ChangePlaylist | gmusicapi/api.py:387-492 | a failure before the `with` block propagates; after it the `finally: return` gives the changed playlist id whatever was raised, and the suppression setting is restored |
| Api.UnsafeFailureSwallowed | gmusicapi/api.py:478-492 | with safe=False a failed change still returns the playlist's id: the re-raise is swallowed by `finally: return` |
| Api.ExtensionOf | gmusicapi/api.py:712 | the extension of stem.ext, with no dot in ext, is ext lower-cased |
| Api.HandlingOf | gmusicapi/api.py:711-761 | an mp3 passes through, another supported type is converted, anything else is skipped, each exactly for its extensions, with the supported types of line 81 |
| Api.ConvertedHandlesMapped | gmusicapi/api.py:711-757 | every file handed on to the upload has an original name |
| Api.ConvertedOriginals | gmusicapi/api.py:711-757 | every original name recorded is one of the inputs and not of a skipped type |
| Api.ConvertedKeepsMp3s | gmusicapi/api.py:714-716 | every mp3 input is handed on under its own name |
| Api.ConvertedTemps | gmusicapi/api.py:719-771 | a temporary file is made for each supported non-mp3, in order, and all of them are in the list deleted afterwards, including those whose conversion failed |
| Api.TempMp3Conversion | gmusicapi/api.py:699-763 | the conversion loop computes the conversion of all inputs in order, with the properties the three lemmas above state |
| Api.SyncingIsFree | gmusicapi/api.py:816-819 | replies with code 503 in front change no outcome: they are retried without counting |
| Api.SyncingShift | gmusicapi/api.py:816-819 | the same from any position inside the run of 503 replies |
| Api.RupioShift | gmusicapi/api.py:796-842 | the session loop's outcome depends only on the replies it has not yet read |
| Api.ThreeStrikes | gmusicapi/api.py:796-842 | three counted failures (404, another code, or an uninterpretable reply) end the attempts without an upload, whatever follows |
| Api.GetRupioSession | gmusicapi/api.py:792-842 | the while loop with its `attempts -= 1` for 503 computes the bounded session run |
| Api.FnSidMapExactly | gmusicapi/api.py:788-869 | a filename is in the result exactly when one of its requests got a session and a FINALIZED upload or was already uploaded, and it maps to that request's server id |
| Api.FirstRefused | gmusicapi/protocol.py:659-663 | the first file the test refuses, and none exactly when every file passes it |
| Api.UploadMp3s | gmusicapi/api.py:773-869 | UnsupportedFiletype for the first file make_metadata_request's case-sensitive extension test refuses; otherwise the filename to server id map over all session requests in order |
| Api.ReportedRequests | gmusicapi/api.py:688-693 | an entry filed under a converted file's original with its id comes from a request for that file that succeeded |
| Api.DoneRequestsUploaded | gmusicapi/api.py:788-869 | the file of every successful request is in the filename to server id map |
| Api.Upload | gmusicapi/api.py:671-695 | no files give {}; UnsupportedFiletype when the metadata request refuses a file the conversion handed on; every reported filename is an original input of an uploadable type, the original of a file whose request succeeded, with that request's server id; every successful request's original is reported; the result is Ok exactly when no file is refused and every successful request names a file the conversion produced, and a KeyError otherwise |
| Api.UpperCaseMp3Refused | gmusicapi/api.py:710-716 | `SONG.MP3` passes the conversion under its own name, and the metadata request refuses it |
| Api.FoldedAcceptsConverted | gmusicapi/protocol.py:659-663 | with the extension lower-cased before the test, no file the conversion hands on is refused, given temporary names ending in `.mp3` |
| Api.UpperCaseMp3Accepted | gmusicapi/protocol.py:659-663 | the lower-cased test accepts `SONG.MP3` |

## Left out

- Network I/O, cookies, sessions, sleeping between retries, and logging are not modelled. Every server call is a parameter holding its reply.
- The definition of `utils.empty_arg_shortcircuit` is not part of this model. `Musicmanager.Client.Upload`, `Clients.RemoveSongsFromPlaylist` and `Api.Upload` model it as its name and arguments say: an empty list argument returns the given value (`{}`, the default `[]`, `{}`) before the body runs.
- Floating-point fields are not modelled. JSON values carry integers, strings, booleans, null, lists and objects.
- Python 2 strings are ASCII `seq<char>`. Unicode, byte-string encodings and the `%r` of unicode are not modelled.
- Python `dir()` is modelled in declaration order, not sorted order. Only the map of expectations built from it is stated, and that map does not depend on order because the names are distinct.
- MmProtocol.MmProtocol.MakePb: the class of a copied message is proved only for the `upload_auth`, `client_state` and `metadata_request` templates. The response templates are the same table, but their long class names are not evaluated.
- The tokenizer of `jsarray.to_json` and the `json` parser are parameters. `JsArray.Loads` states only that the parser receives the repaired text.
- MP3 file contents, mutagen tag reading, md5 and base64 are parameters. Reading a file's bytes and the upload of file contents are not modelled.
- Musicmanager.Client.Upload: the iteration order of `to_upload.items()` is a parameter, required to hold each key exactly once. The result is stated through `UploadOutcome`, whose pieces are the `Gathered`, `Provided`, `Sorted` and `Sent` functions.
- Musicmanager `upload`: the `UpdateUploadState` calls, `time.sleep`, and the file read of an MP3 are left out. A reply missing `sessionStatus` or `externalFieldTransfers` after a session is obtained is not modelled.
- Musicmanager `upload`: a response code outside the known enum values, for which the enum lookup raises KeyError, is not modelled. A rejection carries its number and name.
- Musicmanager.GetSession: the session replies are a sequence of at least ten, one for each attempt the loop may make. A shorter sequence has no meaning in the source, where every attempt calls the server.
- Api.GetRupioSession: the source retries 503 replies forever. The model's reply sequence is finite, and running out of replies ends the attempts without an upload.
- Api.Api.ChangePlaylist: `tools.find_playlist_changes` is not part of this model. The steps inside the `with` block (deleting, adding, reordering, deleting the backup) are abstracted to the sequence of their call outcomes. The steps before it (reading the playlist and making the backup) are abstracted to one outcome. The copying of the desired playlist and the matching of new entry ids are left out.
- Api.UploadMp3s: of make_metadata_request's failures only the refused extension is modelled; a file the tag reader cannot open (IOError) is not, because file contents are not part of the upload path's model. UnsupportedFiletype carries the refused file's name rather than the message listing the supported types.
- Api.Upload: the session requests built by `make_upload_session_requests` are a parameter, because their order depends on the server's metadata reply. The conversion, the retry policy and the mapping back to original names are modelled.
- Api.Upload: deleting the temporary files is stated as the list of files made (`Api.ConvertedTemps`). A failure while deleting one is only logged in the source, and is not modelled.
- The `incremental=True` generators of `get_all_songs` are left out. Only the flattened list is modelled, and the chunks it reads are the same.
- Webclient `_remove_entries_from_playlist` is abstracted to its reply, the list of removed "sid_eid" strings.
- Clients.GetAllPlaylistIds: `_get_auto_playlists` is not called in this client, so 'auto' maps to the empty group.
- The `PlaylistEntry` and `PlaylistEntryList` model classes are not in `gmusicapi/models/playlist.py`. Their kinds are two distinct constants, "sj#playlistEntry" and "sj#playlistEntryList".
- `playlist_entries` and `playlist_entry` decoding are not part of this model.
- `Track()` and `Playlist()` take no `jsdata`, yet `gmusicapi/protocol.py:866` passes one. The model follows the code: that call is a TypeError.
- Models.Track.Set: assigning to a name that is not a property of the class creates a plain instance attribute in Python, since the classes declare no `__slots__`. The model gives AttributeError for it, because only the properties and their backing attributes take part in `from_json` and the getters.
- Models.Playlist.Set: the same holds for a name that is not a property of `Playlist`.
- MmProtocol.SetInt: the protobuf fields that take the parsed tag numbers are `int32`. The range check protobuf makes on assignment is not modelled, because the `locker_pb2` definitions are not part of this model; a number outside that range is stored as it is.
- `Track.from_json` and `Playlist.from_json` check the kind with `assert`. The model raises AssertionError, not ValueError.
- `get_expectation` of an unknown key raises AttributeError in the code. The model follows the code.
- The MAC text of `MM_Protocol.__init__` has five colon-separated octets, because the code takes five two-character groups. The model follows the code.
- `make_upload_session_requests` inlines ten fields per upload. The model follows the code.
- The `sj_artist` schema keeps its `'albums:'` key, colon included.

## Findings

| source | as written | input that shows it | evidently intended | confidence | as-written member | corrected member |
|---|---|---|---|---|---|---|
| gmapi/utils/utils.py:45 | `to_camel_case(s)` splits the unbound name `a`, so every call raises NameError | `to_camel_case('test_string')`, the documented example | split `s` and title-case each piece, giving `'TestString'` | not executed | GmapiUtils.ToCamelCase (with GmapiUtils.ToCamelCaseFailsOnDocExample) | Utils.ToCamelCase (with Utils.CamelCaseTestString) |
| gmusicapi/clients.py:493-494 | the non-ASCII branch of `upload` formats `err_msg`, a local assigned only further down, so `upload` raises UnboundLocalError (Python 2's subclass of NameError, modelled as `NameError("err_msg")`) instead of reporting the file | one path whose track reading fails with "Non-ASCII strings must be converted to unicode" | report the file with a message quoting the exception text | not executed | Musicmanager.GatheredAsWritten (with Musicmanager.AsWrittenDiffersOnNonAscii and Musicmanager.NonAsciiFileAborts) | Musicmanager.Gathered (with Musicmanager.GatheredFiles, used by Musicmanager.GatherLocalInfo and Musicmanager.Client.Upload) |
| gmusicapi/protocol.py:662-663 | `upload` lower-cases the extension when choosing what to convert (api.py:712), so an upper-case MP3 is passed on under its own name, and make_metadata_request then tests the last '.'-piece against "mp3" case-sensitively and raises UnsupportedFiletype | `upload(["SONG.MP3"])` | upload every MP3 whatever the case of its extension, as the docstring's "All Google-supported filetypes are supported" says | not executed | Api.Upload (with Api.UpperCaseMp3Refused) | Api.SupportedFolded (with Api.FoldedAcceptsConverted and Api.UpperCaseMp3Accepted) |
