/**
 * Helpers of gmusicapi/utils/utils.py: underscore-to-camel-case conversion,
 * the accept_singleton argument rewriting, HTML entity unescaping over an
 * entity table, and the schema_for table.
 */
module Utils {
  import opened Py
  import opened Text

  // ------------------------------------------------------------------
  // to_camel_case

  function TitlePieces(ps: seq<string>): (r: seq<string>)
    ensures |r| == |ps|
    ensures forall i :: 0 <= i < |ps| ==> r[i] == Title(ps[i])
  {
    seq(|ps|, i requires 0 <= i < |ps| => Title(ps[i]))
  }

  lemma TitleKeepsNonLetters(p: string, c: char)
    requires !IsLetter(c) && c !in p
    ensures c !in Title(p)
  {
  }

  lemma {:induction false} ConcatAvoids(ps: seq<string>, c: char)
    requires forall i :: 0 <= i < |ps| ==> c !in ps[i]
    ensures c !in Concat(ps)
  {
    if |ps| > 0 {
      ConcatAvoids(ps[1..], c);
    }
  }

  /** to_camel_case(s): every `_`-separated segment title-cased, concatenated. */
  function ToCamelCase(s: string): (r: string)
    ensures '_' !in r
  {
    var pieces := TitlePieces(Split(s, '_'));
    forall i | 0 <= i < |pieces|
      ensures '_' !in pieces[i]
    {
      TitleKeepsNonLetters(Split(s, '_')[i], '_');
    }
    ConcatAvoids(pieces, '_');
    Concat(pieces)
  }

  /** A text without underscores is one segment. */
  lemma CamelCaseOneSegment(a: string)
    requires '_' !in a
    ensures ToCamelCase(a) == Title(a)
  {
    SplitNoSep(a, '_');
    assert TitlePieces([a]) == [Title(a)];
    assert Concat([Title(a)]) == Title(a) + Concat([]);
  }

  /** The first segment contributes its title-cased text, followed by the rest converted. */
  lemma CamelCaseFirstSegment(a: string, b: string)
    requires '_' !in a
    ensures ToCamelCase(a + "_" + b) == Title(a) + ToCamelCase(b)
  {
    SplitAfterPiece(a, '_', b);
    var ps := Split(b, '_');
    assert TitlePieces([a] + ps) == [Title(a)] + TitlePieces(ps);
    assert ([Title(a)] + TitlePieces(ps))[1..] == TitlePieces(ps);
  }

  /** Title-casing a lower-case word capitalises its first letter only. */
  lemma TitleLowerWord(w: string)
    requires |w| > 0 && forall i :: 0 <= i < |w| ==> 'a' <= w[i] <= 'z'
    ensures Title(w) == [UpperChar(w[0])] + w[1..]
  {
    var r := [UpperChar(w[0])] + w[1..];
    forall i | 0 <= i < |w|
      ensures Title(w)[i] == r[i]
    {
      if i > 0 {
        assert IsLetter(w[i - 1]);
      }
    }
  }

  /** Two lower-case words joined by `_` become two capitalised words. */
  lemma CamelCaseTwoWords(a: string, b: string)
    requires |a| > 0 && forall i :: 0 <= i < |a| ==> 'a' <= a[i] <= 'z'
    requires |b| > 0 && forall i :: 0 <= i < |b| ==> 'a' <= b[i] <= 'z'
    ensures ToCamelCase(a + "_" + b) == [UpperChar(a[0])] + a[1..] + [UpperChar(b[0])] + b[1..]
  {
    assert '_' !in a;
    assert '_' !in b;
    CamelCaseFirstSegment(a, b);
    CamelCaseOneSegment(b);
    TitleLowerWord(a);
    TitleLowerWord(b);
  }

  lemma CamelCaseTestString()
    ensures ToCamelCase("test_string") == "TestString"
  {
    var a, b := "test", "string";
    assert forall i :: 0 <= i < |a| ==> 'a' <= a[i] <= 'z';
    assert forall i :: 0 <= i < |b| ==> 'a' <= b[i] <= 'z';
    CamelCaseTwoWords(a, b);
    assert a + "_" + b == "test_string";
    assert [UpperChar(a[0])] + a[1..] + [UpperChar(b[0])] + b[1..] == "TestString";
  }

  /** The protobuf message class names make_pb looks up by converting the template name. */
  lemma CamelCaseUploadAuth()
    ensures ToCamelCase("upload_auth") == "UploadAuth"
  {
    var a, b := "upload", "auth";
    assert forall i :: 0 <= i < |a| ==> 'a' <= a[i] <= 'z';
    assert forall i :: 0 <= i < |b| ==> 'a' <= b[i] <= 'z';
    CamelCaseTwoWords(a, b);
    assert a + "_" + b == "upload_auth";
    assert [UpperChar(a[0])] + a[1..] + [UpperChar(b[0])] + b[1..] == "UploadAuth";
  }

  lemma CamelCaseClientState()
    ensures ToCamelCase("client_state") == "ClientState"
  {
    var a, b := "client", "state";
    assert forall i :: 0 <= i < |a| ==> 'a' <= a[i] <= 'z';
    assert forall i :: 0 <= i < |b| ==> 'a' <= b[i] <= 'z';
    CamelCaseTwoWords(a, b);
    assert a + "_" + b == "client_state";
    assert [UpperChar(a[0])] + a[1..] + [UpperChar(b[0])] + b[1..] == "ClientState";
  }

  lemma CamelCaseMetadataRequest()
    ensures ToCamelCase("metadata_request") == "MetadataRequest"
  {
    var a, b := "metadata", "request";
    assert forall i :: 0 <= i < |a| ==> 'a' <= a[i] <= 'z';
    assert forall i :: 0 <= i < |b| ==> 'a' <= b[i] <= 'z';
    CamelCaseTwoWords(a, b);
    assert a + "_" + b == "metadata_request";
    assert UpperChar(a[0]) == 'M' && a[1..] == "etadata";
    assert UpperChar(b[0]) == 'R' && b[1..] == "equest";
    assert ['M'] + "etadata" + ['R'] + "equest" == "MetadataRequest";
  }

  /** Three lower-case words joined by `_` become three capitalised words. */
  lemma CamelCaseThreeWords(a: string, b: string, c: string)
    requires |a| > 0 && forall i :: 0 <= i < |a| ==> 'a' <= a[i] <= 'z'
    requires |b| > 0 && forall i :: 0 <= i < |b| ==> 'a' <= b[i] <= 'z'
    requires |c| > 0 && forall i :: 0 <= i < |c| ==> 'a' <= c[i] <= 'z'
    ensures ToCamelCase(a + "_" + b + "_" + c) ==
      [UpperChar(a[0])] + a[1..] + [UpperChar(b[0])] + b[1..] + [UpperChar(c[0])] + c[1..]
  {
    assert '_' !in a;
    assert a + "_" + b + "_" + c == a + "_" + (b + "_" + c);
    CamelCaseFirstSegment(a, b + "_" + c);
    TitleLowerWord(a);
    CamelCaseTwoWords(b, c);
  }

  // ------------------------------------------------------------------
  // accept_singleton

  /** The Python classes that isinstance is asked about. */
  datatype PyClass = BasestringClass | StrClass | UnicodeClass | IntClass | BoolClass | ListClass | DictClass

  /** Python values passed as positional arguments. */
  datatype PyObj =
    | PStr(s: string)
    | PUnicode(u: string)
    | PInt(i: int)
    | PBool(b: bool)
    | PList(elems: seq<PyObj>)
    | PDict(entries: map<string, PyObj>)
    | PNone

  /** isinstance(x, c), with bool a subclass of int and str, unicode subclasses of basestring. */
  predicate IsInstance(x: PyObj, c: PyClass)
  {
    match c
    case BasestringClass => x.PStr? || x.PUnicode?
    case StrClass => x.PStr?
    case UnicodeClass => x.PUnicode?
    case IntClass => x.PInt? || x.PBool?
    case BoolClass => x.PBool?
    case ListClass => x.PList?
    case DictClass => x.PDict?
  }

  /**
   * out is args with the argument at position wrapped in a one-element list
   * exactly when it is an instance of expected, and everything else unchanged.
   */
  predicate Wrapped(expected: PyClass, args: seq<PyObj>, position: nat, out: seq<PyObj>)
    requires position < |args|
  {
    && |out| == |args|
    && (forall i :: 0 <= i < |args| && i != position ==> out[i] == args[i])
    && out[position] == (if IsInstance(args[position], expected) then PList([args[position]]) else args[position])
  }

  /**
   * The argument rewriting done by accept_singleton's wrapper before it calls
   * the decorated function; indexing past the arguments is an IndexError.
   */
  method AcceptSingleton(expected: PyClass, args: seq<PyObj>, position: nat := 1) returns (r: Result<seq<PyObj>>)
    ensures r.Err? <==> position >= |args|
    ensures r.Err? ==> r.error == IndexError
    ensures r.Ok? ==> position < |args| && Wrapped(expected, args, position, r.value)
  {
    if position >= |args| {
      return Err(IndexError);
    }
    var passed := args;
    if IsInstance(args[position], expected) {
      var lst := args;
      lst := lst[position := PList([lst[position]])];
      passed := lst;
    }
    return Ok(passed);
  }

  /** The rewriting is determined by its inputs. */
  lemma WrappedUnique(expected: PyClass, args: seq<PyObj>, position: nat, out1: seq<PyObj>, out2: seq<PyObj>)
    requires position < |args|
    requires Wrapped(expected, args, position, out1) && Wrapped(expected, args, position, out2)
    ensures out1 == out2
  {
    assert forall i :: 0 <= i < |out1| ==> out1[i] == out2[i];
  }

  /** Rewriting an already rewritten argument list changes nothing more, unless lists are expected. */
  lemma WrappedIdempotent(expected: PyClass, args: seq<PyObj>, position: nat, once: seq<PyObj>, twice: seq<PyObj>)
    requires expected != ListClass && position < |args|
    requires Wrapped(expected, args, position, once) && Wrapped(expected, once, position, twice)
    ensures twice == once
  {
    assert forall i :: 0 <= i < |once| ==> twice[i] == once[i];
  }

  // ------------------------------------------------------------------
  // unescape_html

  /** Entity names never contain ';' (they are names such as amp, lt, #39). */
  predicate NamesWithoutSemicolon(table: map<string, char>)
  {
    forall n :: n in table ==> ';' !in n
  }

  /**
   * re.sub('&(names);', ...) over s: at each '&' the text up to the next ';'
   * is looked up in the table, and a known name with its delimiters is
   * replaced by the character; scanning resumes after the replacement.
   */
  function Unescape(table: map<string, char>, s: string): string
    requires NamesWithoutSemicolon(table)
    decreases |s|
  {
    if |s| == 0 then ""
    else if s[0] != '&' then [s[0]] + Unescape(table, s[1..])
    else match IndexOf(s[1..], ';')
      case None => "&" + Unescape(table, s[1..])
      case Some(j) =>
        if s[1..][..j] in table then [table[s[1..][..j]]] + Unescape(table, s[1..][j + 1..])
        else "&" + Unescape(table, s[1..])
  }

  /** Text without '&' is returned unchanged. */
  lemma {:induction false} UnescapePlain(table: map<string, char>, s: string)
    requires NamesWithoutSemicolon(table) && '&' !in s
    ensures Unescape(table, s) == s
    decreases |s|
  {
    if |s| > 0 {
      UnescapePlain(table, s[1..]);
      assert [s[0]] + s[1..] == s;
    }
  }

  /** "&name;" becomes the table's character for name, and the rest is unescaped in turn. */
  lemma UnescapeEntity(table: map<string, char>, name: string, rest: string)
    requires NamesWithoutSemicolon(table) && name in table
    ensures Unescape(table, "&" + name + ";" + rest) == [table[name]] + Unescape(table, rest)
  {
    var s := "&" + name + ";" + rest;
    assert s[1..] == name + ";" + rest;
    assert (name + ";" + rest)[..|name|] == name;
    assert (name + ";" + rest)[|name|] == ';';
    assert IndexOf(s[1..], ';') == Some(|name|);
    assert s[1..][|name| + 1..] == rest;
  }

  /** The module-level entity table: name2codepoint with '#39' registered at import. */
  class EntityTable {
    var codepoints: map<string, char>

    constructor (base: map<string, char>)
      ensures codepoints == base
    {
      codepoints := base;
    }

    /** name2codepoint['#39'] = 39 */
    method RegisterApostrophe()
      modifies this
      ensures codepoints == old(codepoints)["#39" := '\'']
    {
      codepoints := codepoints["#39" := '\''];
    }

    function UnescapeHtml(s: string): string
      reads this
      requires NamesWithoutSemicolon(codepoints)
    {
      Unescape(codepoints, s)
    }
  }

  /** With '#39' registered, "&#39;" unescapes to an apostrophe. */
  lemma ApostropheUnescapes(base: map<string, char>)
    requires NamesWithoutSemicolon(base)
    ensures NamesWithoutSemicolon(base["#39" := '\''])
    ensures Unescape(base["#39" := '\''], "&#39;") == "'"
  {
    var t := base["#39" := '\''];
    assert ';' !in "#39";
    UnescapeEntity(t, "#39", "");
    assert "&" + "#39" + ";" + "" == "&#39;";
  }

  // ------------------------------------------------------------------
  // schema_for

  /** repr(c) of a class, the key a failed dict lookup names. */
  function TypeRepr(c: PyClass): string
  {
    match c
    case BasestringClass => "<type 'basestring'>"
    case StrClass => "<type 'str'>"
    case UnicodeClass => "<type 'unicode'>"
    case IntClass => "<type 'int'>"
    case BoolClass => "<type 'bool'>"
    case ListClass => "<type 'list'>"
    case DictClass => "<type 'dict'>"
  }

  /** schema_for[t]: a KeyError for any type other than int, str and bool. */
  function SchemaFor(t: PyClass): (r: Result<Value>)
    ensures r.Ok? <==> t in {IntClass, StrClass, BoolClass}
    ensures r.Ok? ==> r.value.Obj? && "type" in r.value.fields
    ensures r.Ok? ==> ("blank" in r.value.fields <==> t == StrClass)
    ensures t == IntClass ==> r == Ok(Obj(map["type" := Str("number")]))
    ensures t == StrClass ==> r == Ok(Obj(map["type" := Str("string"), "blank" := Bool(true)]))
    ensures t == BoolClass ==> r == Ok(Obj(map["type" := Str("boolean")]))
    ensures r.Err? ==> r.error == KeyError(TypeRepr(t))
  {
    match t
    case IntClass => Ok(Obj(map["type" := Str("number")]))
    case StrClass => Ok(Obj(map["type" := Str("string"), "blank" := Bool(true)]))
    case BoolClass => Ok(Obj(map["type" := Str("boolean")]))
    case _ => Err(KeyError(TypeRepr(t)))
  }

  /** Distinct classes get distinct schemas: a failed lookup names the class it looked up. */
  lemma SchemaForInjective(t: PyClass, u: PyClass)
    requires SchemaFor(t) == SchemaFor(u)
    ensures t == u
  {
    if SchemaFor(t).Err? {
      var k := TypeRepr(t);
      assert k == TypeRepr(u);
      match t {
        case BasestringClass => assert k[7..9] == "ba";
        case UnicodeClass => assert k[7..9] == "un";
        case ListClass => assert k[7..9] == "li";
        case DictClass => assert k[7..9] == "di";
      }
      match u {
        case BasestringClass => assert k[7..9] == "ba";
        case UnicodeClass => assert k[7..9] == "un";
        case ListClass => assert k[7..9] == "li";
        case DictClass => assert k[7..9] == "di";
      }
    }
  }
}
