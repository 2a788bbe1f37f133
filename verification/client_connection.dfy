/** A server-side connection: its remote endpoint, fixed at construction, the
    last username seen on it, and the display string built from both. */
module ClientConnection {
  import opened Wrappers

  /** The text `IPEndPoint.ToString()` gives for the remote end of a socket. */
  datatype EndPoint = EndPoint(text: string)

  /** The state of a `ClientConnection` the model needs. `None` stands for a
      null username or a socket that could not report its endpoint. */
  datatype Client = Client(lastUsername: Option<string>, endPoint: Option<EndPoint>)

  /** A connection just built around an accepted socket: no username yet. */
  function NewClient(endPoint: Option<EndPoint>): Client
  {
    Client(None, endPoint)
  }

  /** The `LastUsername` setter: storing the current value again is a no-op,
      any other value replaces it; the endpoint is never touched. */
  function SetLastUsername(c: Client, v: Option<string>): (r: Client)
    ensures r.lastUsername == v
    ensures r.endPoint == c.endPoint
    ensures v == c.lastUsername ==> r == c
  {
    if v == c.lastUsername then c else c.(lastUsername := v)
  }

  /** Only the latest assignment to `LastUsername` is observable. */
  lemma LastWriteWins(c: Client, a: Option<string>, b: Option<string>)
    ensures SetLastUsername(SetLastUsername(c, a), b) == SetLastUsername(c, b)
    ensures SetLastUsername(SetLastUsername(c, a), a) == SetLastUsername(c, a)
  {
  }

  /** The name half of `ToString`. */
  function NamePart(username: Option<string>): string
  {
    match username
    case None => "client"
    case Some(u) => "'" + u + "'"
  }

  /** The endpoint half of `ToString`. */
  function EndPointText(endPoint: Option<EndPoint>): string
  {
    match endPoint
    case None => "<unknown>"
    case Some(ep) => ep.text
  }

  /** `ClientConnection.ToString()`, used in logs and in the server notices. */
  function Display(c: Client): (s: string)
    ensures |s| > 0
    ensures s[0] == '\'' <==> c.lastUsername.Some?
  {
    NamePart(c.lastUsername) + "@" + EndPointText(c.endPoint)
  }

  /** An endpoint rendering that cannot be confused with the separator or
      with the placeholder for a missing endpoint; every IP endpoint text
      (digits, dots, colons, brackets, hex letters) is one. */
  predicate ValidEndPoint(ep: EndPoint)
  {
    '@' !in ep.text && ep.text != "<unknown>"
  }

  /** The position of the last '@' in `s`, if any. */
  function LastAt(s: string): (r: Option<nat>)
    ensures r.None? ==> '@' !in s
    ensures r.Some? ==> r.value < |s| && s[r.value] == '@'
    ensures r.Some? ==> '@' !in s[r.value + 1..]
  {
    if |s| == 0 then None
    else if s[|s| - 1] == '@' then Some(|s| - 1)
    else LastAt(s[..|s| - 1])
  }

  lemma {:induction false} LastAtAfterSeparator(a: string, b: string)
    requires '@' !in b
    ensures LastAt(a + "@" + b) == Some(|a|)
    decreases |b|
  {
    var s := a + "@" + b;
    if |b| == 0 {
      assert s[|s| - 1] == '@';
    } else {
      var b' := b[..|b| - 1];
      assert s[|s| - 1] == b[|b| - 1];
      assert s[..|s| - 1] == a + "@" + b';
      LastAtAfterSeparator(a, b');
    }
  }

  /** Reads a name half back: `client`, or a quoted username. */
  function UsernameFromNamePart(n: string): Option<Option<string>>
  {
    if n == "client" then Some(None)
    else if |n| >= 2 && n[0] == '\'' && n[|n| - 1] == '\'' then Some(Some(n[1..|n| - 1]))
    else None
  }

  /** Reads an endpoint half back. */
  function EndPointFromText(t: string): Option<EndPoint>
  {
    if t == "<unknown>" then None else Some(EndPoint(t))
  }

  /** Reads a display string back into (username, endpoint), splitting at the
      last '@'; `None` when `s` is not a display string. */
  function ParseDisplay(s: string): Option<(Option<string>, Option<EndPoint>)>
  {
    match LastAt(s)
    case None => None
    case Some(i) =>
      match UsernameFromNamePart(s[..i])
      case None => None
      case Some(u) => Some((u, EndPointFromText(s[i + 1..])))
  }

  /** The display string determines both the username (or its absence) and
      the endpoint (or its absence): `ToString` loses nothing. */
  lemma DisplayRoundTrip(c: Client)
    requires c.endPoint.Some? ==> ValidEndPoint(c.endPoint.value)
    ensures ParseDisplay(Display(c)) == Some((c.lastUsername, c.endPoint))
  {
    var n := NamePart(c.lastUsername);
    var t := EndPointText(c.endPoint);
    var s := n + "@" + t;
    LastAtAfterSeparator(n, t);
    assert s[..|n|] == n;
    assert s[|n| + 1..] == t;
    NamePartRoundTrip(c.lastUsername);
    assert EndPointFromText(t) == c.endPoint;
  }

  lemma NamePartRoundTrip(u: Option<string>)
    ensures UsernameFromNamePart(NamePart(u)) == Some(u)
  {
    if u.Some? {
      var n := NamePart(u);
      assert n[0] == '\'' && n[|n| - 1] == '\'';
      assert n[1..|n| - 1] == u.value;
    }
  }

  /** Two connections with the same display string agree on username and
      endpoint. */
  lemma DisplayInjective(c1: Client, c2: Client)
    requires c1.endPoint.Some? ==> ValidEndPoint(c1.endPoint.value)
    requires c2.endPoint.Some? ==> ValidEndPoint(c2.endPoint.value)
    requires Display(c1) == Display(c2)
    ensures c1 == c2
  {
    DisplayRoundTrip(c1);
    DisplayRoundTrip(c2);
  }
}
