/**
 * Google ClientLogin: the key=value response parser and the session object
 * that requests and caches the Auth and SID tokens. The HTTP exchange is a
 * parameter: the server's reply (an HTTP error code or a body).
 */
module ClientLogin {
  import opened Py
  import opened Text

  // ------------------------------------------------------------------
  // _process_response

  /** The key of a line holding '=': the text before the first '='. */
  function KeyOf(line: string): (k: string)
    requires '=' in line
    ensures '=' !in k && |k| < |line| && line[|k|] == '=' && line[..|k|] == k
  {
    line[..IndexOf(line, '=').value]
  }

  /** The value of a line holding '=': everything after the first '=', further '=' included. */
  function ValueOf(line: string): (v: string)
    requires '=' in line
    ensures line == KeyOf(line) + "=" + v
  {
    var i := IndexOf(line, '=').value;
    assert line == line[..i] + "=" + line[i + 1..];
    line[i + 1..]
  }

  /** A line written as key=value with no '=' in the key splits back into that key and that value. */
  lemma LineRoundTrip(k: string, v: string)
    requires '=' !in k
    ensures '=' in k + "=" + v
    ensures KeyOf(k + "=" + v) == k && ValueOf(k + "=" + v) == v
  {
    var line := k + "=" + v;
    assert line[|k|] == '=';
    assert line[..|k|] == k;
  }

  /** The dictionary the loop builds from the lines so far: each line with '=' stores its value under its key. */
  function Parsed(lines: seq<string>): map<string, string>
  {
    if |lines| == 0 then map[]
    else
      var before := Parsed(lines[..|lines| - 1]);
      var line := lines[|lines| - 1];
      if '=' in line then before[KeyOf(line) := ValueOf(line)] else before
  }

  /** A key is present exactly when some line holding '=' carries it. */
  lemma {:induction false} ParsedKeys(lines: seq<string>, k: string)
    ensures k in Parsed(lines) <==> exists i :: 0 <= i < |lines| && '=' in lines[i] && KeyOf(lines[i]) == k
  {
    if |lines| > 0 {
      var init := lines[..|lines| - 1];
      ParsedKeys(init, k);
      assert forall i :: 0 <= i < |init| ==> init[i] == lines[i];
    }
  }

  /** A repeated key keeps the value of its last line. */
  lemma {:induction false} ParsedLastWins(lines: seq<string>, j: nat)
    requires j < |lines| && '=' in lines[j]
    requires forall i :: j < i < |lines| && '=' in lines[i] ==> KeyOf(lines[i]) != KeyOf(lines[j])
    ensures KeyOf(lines[j]) in Parsed(lines) && Parsed(lines)[KeyOf(lines[j])] == ValueOf(lines[j])
  {
    if j < |lines| - 1 {
      var init := lines[..|lines| - 1];
      assert init[j] == lines[j];
      assert forall i :: j < i < |init| ==> init[i] == lines[i];
      ParsedLastWins(init, j);
    }
  }

  /** A line without '=' changes nothing. */
  lemma ParsedIgnores(lines: seq<string>, line: string)
    requires '=' !in line
    ensures Parsed(lines + [line]) == Parsed(lines)
  {
    assert (lines + [line])[..|lines|] == lines;
  }

  /** _process_response: the reply split on newlines, each line with '=' stored at its first '='. */
  method ProcessResponse(resp: string) returns (ret: map<string, string>)
    ensures ret == Parsed(Split(resp, '\n'))
  {
    var lines := Split(resp, '\n');
    ret := map[];
    for i := 0 to |lines|
      invariant ret == Parsed(lines[..i])
    {
      assert lines[..i + 1][..i] == lines[..i];
      var line := lines[i];
      if '=' in line {
        var k := KeyOf(line);
        ret := ret[k := ValueOf(line)];
      }
    }
    assert lines[..|lines|] == lines;
  }

  // ------------------------------------------------------------------
  // ClientLogin

  const AuthUrl: string := "https://www.google.com/accounts/ClientLogin"

  /** What the HTTP exchange gave: an HTTP error code, or the body of the reply. */
  datatype Reply = HttpError(code: int) | Body(text: string)

  /** The exception of `raise <str>`: Python refuses to raise a string. */
  const RaisedString: Error := TypeError("exceptions must derive from BaseException")

  /**
   * The tokens after one token request with this reply, from oldAuth and
   * oldSid: an HTTP error or an Error line fails and keeps both; otherwise
   * each token the reply carries replaces the old one.
   */
  predicate TokensAfter(reply: Reply, oldAuth: Option<string>, oldSid: Option<string>, ok: bool, auth: Option<string>, sid: Option<string>)
  {
    match reply
    case HttpError(_) => !ok && auth == oldAuth && sid == oldSid
    case Body(text) =>
      var ret := Parsed(Split(text, '\n'));
      && (ok <==> "Error" !in ret)
      && auth == (if ok && "Auth" in ret then Some(ret["Auth"]) else oldAuth)
      && sid == (if ok && "SID" in ret then Some(ret["SID"]) else oldSid)
  }

  class ClientLogin {
    const user: string
    const passwd: string
    const service: string
    const acctType: string
    const source: Option<string>
    var authToken: Option<string>
    var sidToken: Option<string>
    /** How many token requests this session has sent. */
    ghost var requests: nat

    /** ClientLogin(user, passwd, service, acct_type='GOOGLE', source=None): no tokens yet. */
    constructor (user: string, passwd: string, service: string, acctType: string := "GOOGLE", source: Option<string> := None)
      ensures this.user == user && this.passwd == passwd && this.service == service
      ensures this.acctType == acctType && this.source == source
      ensures authToken == None && sidToken == None && requests == 0
      ensures !IsAuthenticated()
    {
      this.user := user;
      this.passwd := passwd;
      this.service := service;
      this.acctType := acctType;
      this.source := source;
      authToken := None;
      sidToken := None;
      requests := 0;
    }

    /** The form request_tokens posts: the four credentials, and source only when one is given. */
    function RequestData(): (data: map<string, string>)
      ensures data.Keys == {"Email", "Passwd", "accountType", "service"} + (if source.Some? && source.value != "" then {"source"} else {})
      ensures data["Email"] == user && data["Passwd"] == passwd && data["accountType"] == acctType && data["service"] == service
      ensures "source" in data ==> data["source"] == source.value
    {
      var data := map["Email" := user, "Passwd" := passwd, "accountType" := acctType, "service" := service];
      if source.Some? && source.value != "" then data["source" := source.value] else data
    }

    /** is_authenticated: both tokens present. */
    predicate IsAuthenticated()
      reads this
    {
      authToken.Some? && sidToken.Some?
    }

    /**
     * request_tokens: fails on an HTTP error or an Error line in the reply;
     * otherwise takes the Auth and SID values that the reply carries and
     * keeps the old token for a missing one.
     */
    method RequestTokens(reply: Reply) returns (r: Result<()>)
      modifies this
      ensures requests == old(requests) + 1
      ensures reply.HttpError? ==> r == Err(RaisedString) && authToken == old(authToken) && sidToken == old(sidToken)
      ensures reply.Body? ==> var ret := Parsed(Split(reply.text, '\n'));
        && (r.Ok? <==> "Error" !in ret)
        && (r.Err? ==> r.error == RaisedString && authToken == old(authToken) && sidToken == old(sidToken))
        && (r.Ok? ==> authToken == (if "Auth" in ret then Some(ret["Auth"]) else old(authToken)))
        && (r.Ok? ==> sidToken == (if "SID" in ret then Some(ret["SID"]) else old(sidToken)))
        && (r.Ok? && "Auth" in ret && "SID" in ret ==> IsAuthenticated())
      ensures TokensAfter(reply, old(authToken), old(sidToken), r.Ok?, authToken, sidToken)
    {
      requests := requests + 1;
      if reply.HttpError? {
        return Err(RaisedString);
      }
      var ret := ProcessResponse(reply.text);
      if "Error" in ret {
        return Err(RaisedString);
      }
      if "Auth" in ret {
        authToken := Some(ret["Auth"]);
      }
      if "SID" in ret {
        sidToken := Some(ret["SID"]);
      }
      return Ok(());
    }

    /**
     * get_auth_token(request=False): a request is sent only when there is no
     * token yet or one is forced; otherwise the cached token comes back.
     */
    method GetAuthToken(reply: Reply, request: bool := false) returns (r: Result<Option<string>>)
      modifies this
      ensures old(authToken).Some? && !request ==> r == Ok(old(authToken)) && requests == old(requests) && authToken == old(authToken) && sidToken == old(sidToken)
      ensures old(authToken).None? || request ==> requests == old(requests) + 1
      ensures old(authToken).None? || request ==> TokensAfter(reply, old(authToken), old(sidToken), r.Ok?, authToken, sidToken)
      ensures r.Err? ==> r.error == RaisedString
      ensures r.Ok? ==> r.value == authToken
    {
      if authToken.None? || request {
        var done := RequestTokens(reply);
        if done.Err? {
          return Err(done.error);
        }
      }
      return Ok(authToken);
    }

    /** get_sid_token(request=False): the same caching rule for the SID token. */
    method GetSidToken(reply: Reply, request: bool := false) returns (r: Result<Option<string>>)
      modifies this
      ensures old(sidToken).Some? && !request ==> r == Ok(old(sidToken)) && requests == old(requests) && authToken == old(authToken) && sidToken == old(sidToken)
      ensures old(sidToken).None? || request ==> requests == old(requests) + 1
      ensures old(sidToken).None? || request ==> TokensAfter(reply, old(authToken), old(sidToken), r.Ok?, authToken, sidToken)
      ensures r.Err? ==> r.error == RaisedString
      ensures r.Ok? ==> r.value == sidToken
    {
      if sidToken.None? || request {
        var done := RequestTokens(reply);
        if done.Err? {
          return Err(done.error);
        }
      }
      return Ok(sidToken);
    }
  }

  /** A reply of SID, a line without '=', then Auth: both tokens parsed, the Auth value kept whole. */
  lemma ParsedReply(sid: string, other: string, auth: string)
    requires '=' !in other
    ensures Parsed(["SID" + "=" + sid, other, "Auth" + "=" + auth]) == map["SID" := sid, "Auth" := auth]
  {
    var first := "SID" + "=" + sid;
    var last := "Auth" + "=" + auth;
    var lines := [first, other, last];
    LineRoundTrip("SID", sid);
    LineRoundTrip("Auth", auth);
    assert lines[..2][..1] == [first] && [first][..0] == [];
    assert Parsed([first]) == map["SID" := sid];
    assert Parsed(lines[..2]) == map["SID" := sid];
    assert lines[2] == last;
  }

  /** A successful login reply "SID=..\n...\nAuth=.." leaves both tokens set to the values it carries, whatever they were. */
  lemma LoginReplyAuthenticates(sid: string, other: string, auth: string, oldAuth: Option<string>, oldSid: Option<string>)
    requires '=' !in other && '\n' !in sid && '\n' !in other && '\n' !in auth
    ensures TokensAfter(Body(Join(["SID" + "=" + sid, other, "Auth" + "=" + auth], '\n')), oldAuth, oldSid, true, Some(auth), Some(sid))
  {
    var lines := ["SID" + "=" + sid, other, "Auth" + "=" + auth];
    assert forall i :: 0 <= i < |lines| ==> '\n' !in lines[i];
    SplitJoin(lines, '\n');
    ParsedReply(sid, other, auth);
  }
}
