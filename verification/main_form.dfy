/** The client's server-address parsing: the part of `MainForm.Connect` that
    runs before any DNS lookup or socket work. The address must match
    `^(?<host>[^:]+)(:(?<port>[0-9]+))?$`; the port group, when present, goes
    through `int.TryParse`, otherwise the port is 10000. */
module MainForm {
  import opened Wrappers

  const DefaultPort: int := 10000

  /** `int.MaxValue`; a port group above it makes `int.TryParse` fail. */
  const Int32Max: int := 0x7FFF_FFFF

  datatype Address = Address(host: string, port: int)

  /** The two `ArgumentException`s `Connect` throws while parsing. */
  datatype ConnectError = InvalidAddress | InvalidPort(digits: string)

  /** The part of the form's state the parsing touches. */
  datatype Form = Form(serverAddress: string, triedToConnect: bool)

  /** `[0-9]`: the ASCII digits only. */
  predicate IsDigit(ch: char)
  {
    '0' <= ch <= '9'
  }

  /** A match of `[0-9]+`. */
  predicate IsDigits(d: string)
  {
    |d| > 0 && forall i :: 0 <= i < |d| ==> IsDigit(d[i])
  }

  /** The decimal value of a digit string; leading zeros are allowed. */
  function DigitsValue(d: string): nat
    requires forall i :: 0 <= i < |d| ==> IsDigit(d[i])
  {
    if |d| == 0 then 0
    else
      assert IsDigit(d[|d| - 1]);
      DigitsValue(d[..|d| - 1]) * 10 + (d[|d| - 1] as int - '0' as int)
  }

  /** The shortest decimal rendering of `n`. */
  function Decimal(n: nat): (d: string)
    ensures IsDigits(d)
  {
    var last := ['0' + (n % 10) as char];
    if n < 10 then last else Decimal(n / 10) + last
  }

  lemma {:induction false} DecimalRoundTrip(n: nat)
    ensures DigitsValue(Decimal(n)) == n
  {
    var d := Decimal(n);
    if n >= 10 {
      DecimalRoundTrip(n / 10);
      assert d[..|d| - 1] == Decimal(n / 10);
    }
  }

  /** `int.TryParse` applied to a digit string. */
  function TryParseInt32(d: string): (r: Option<int>)
    requires IsDigits(d)
    ensures r.Some? <==> DigitsValue(d) <= Int32Max
    ensures r.Some? ==> r.value == DigitsValue(d)
  {
    var v := DigitsValue(d);
    if v <= Int32Max then Some(v) else None
  }

  /** The position of the first ':' in `s`, if any. */
  function FirstColon(s: string): (r: Option<nat>)
    ensures r.None? ==> ':' !in s
    ensures r.Some? ==> r.value < |s| && s[r.value] == ':' && ':' !in s[..r.value]
  {
    if |s| == 0 then None
    else if s[0] == ':' then Some(0)
    else match FirstColon(s[1..])
      case None => None
      case Some(k) =>
        assert s[..k + 1] == [s[0]] + s[1..][..k];
        Some(k + 1)
  }

  /** The text after the first colon, as the `port` group and `$` see it:
      `$` without the multiline option also matches just before a final
      line feed, so "80" and "80\n" both yield the group "80". */
  function PortGroup(rest: string): (r: Option<string>)
    ensures r.Some? ==> IsDigits(r.value) && (rest == r.value || rest == r.value + "\n")
    ensures IsDigits(rest) ==> r == Some(rest)
    ensures |rest| > 0 && rest[|rest| - 1] == '\n' && IsDigits(rest[..|rest| - 1]) ==>
      r == Some(rest[..|rest| - 1])
  {
    if IsDigits(rest) then Some(rest)
    else if |rest| >= 2 && rest[|rest| - 1] == '\n' && IsDigits(rest[..|rest| - 1]) then Some(rest[..|rest| - 1])
    else None
  }

  /** The address parsing of `Connect`: the regex match, the host group, and
      the port group through `int.TryParse` or the default port. */
  function ParseServerAddress(s: string): (r: Result<Address, ConnectError>)
    ensures r.Success? ==> |r.value.host| > 0 && ':' !in r.value.host
    ensures r.Success? ==> 0 <= r.value.port <= Int32Max
    ensures r.Success? && ':' !in s ==> r.value == Address(s, DefaultPort)
    ensures r.Failure? && r.error.InvalidPort? ==>
      IsDigits(r.error.digits) && DigitsValue(r.error.digits) > Int32Max
  {
    match FirstColon(s)
    case None =>
      if |s| == 0 then Failure(InvalidAddress) else Success(Address(s, DefaultPort))
    case Some(k) =>
      if k == 0 then Failure(InvalidAddress)
      else match PortGroup(s[k + 1..])
        case None => Failure(InvalidAddress)
        case Some(d) =>
          match TryParseInt32(d)
          case None => Failure(InvalidPort(d))
          case Some(port) => Success(Address(s[..k], port))
  }

  /** The regex with `host` followed by `:` and the port group at position
      `k`. */
  predicate SplitsAt(s: string, k: int)
  {
    0 < k < |s| && s[k] == ':' && ':' !in s[..k] && PortGroup(s[k + 1..]).Some?
  }

  /** Whether `s` matches `^(?<host>[^:]+)(:(?<port>[0-9]+))?$`. */
  ghost predicate MatchesAddressRegex(s: string)
  {
    (|s| > 0 && ':' !in s) || exists k :: SplitsAt(s, k)
  }

  /** "Invalid server address" is reported exactly for the inputs the regex
      rejects: the empty string, a leading colon, a second colon, a trailing
      colon, a non-digit port. */
  lemma InvalidAddressIffNoMatch(s: string)
    ensures ParseServerAddress(s) == Failure(InvalidAddress) <==> !MatchesAddressRegex(s)
  {
    match FirstColon(s)
    case None =>
      assert forall j :: !SplitsAt(s, j);
    case Some(k) =>
      assert forall i :: 0 <= i < k ==> s[..k][i] == s[i];
      if exists j :: SplitsAt(s, j) {
        var j :| SplitsAt(s, j);
        assert forall i :: 0 <= i < j ==> s[..j][i] == s[i];
      }
      if k > 0 && PortGroup(s[k + 1..]).Some? {
        assert SplitsAt(s, k);
      }
  }

  /** A colon-free, non-empty address is all host, with the default port. */
  lemma HostOnlyGetsDefaultPort(host: string)
    requires |host| > 0 && ':' !in host
    ensures ParseServerAddress(host) == Success(Address(host, DefaultPort))
  {
  }

  /** `host:digits`, optionally followed by the line feed `$` tolerates,
      parses to that host and the digits' value when it fits in an `int`, and
      is rejected as an invalid port otherwise. */
  lemma HostAndPortParse(host: string, digits: string, tail: string)
    requires |host| > 0 && ':' !in host
    requires IsDigits(digits)
    requires tail == "" || tail == "\n"
    ensures ParseServerAddress(host + ":" + digits + tail) ==
      if DigitsValue(digits) <= Int32Max then Success(Address(host, DigitsValue(digits)))
      else Failure(InvalidPort(digits))
  {
    var s := host + ":" + digits + tail;
    ColonAfterHost(host, digits + tail);
    assert s == host + ":" + (digits + tail);
    assert s[..|host|] == host;
    assert s[|host| + 1..] == digits + tail;
    if tail == "\n" {
      var rest := digits + tail;
      assert !IsDigit(rest[|rest| - 1]);
      assert rest[..|rest| - 1] == digits;
    } else {
      assert digits + tail == digits;
    }
  }

  lemma ColonAfterHost(host: string, rest: string)
    requires ':' !in host
    ensures FirstColon(host + ":" + rest) == Some(|host|)
    decreases |host|
  {
    var s := host + ":" + rest;
    if |host| > 0 {
      assert s[1..] == host[1..] + ":" + rest;
      ColonAfterHost(host[1..], rest);
    }
  }

  /** The inverse direction: rendering a host and an `int` port as
      `host:port` and parsing it gives the same address back. */
  function FormatAddress(a: Address): string
    requires a.port >= 0
  {
    a.host + ":" + Decimal(a.port)
  }

  lemma FormatParseRoundTrip(a: Address)
    requires |a.host| > 0 && ':' !in a.host
    requires 0 <= a.port <= Int32Max
    ensures ParseServerAddress(FormatAddress(a)) == Success(a)
  {
    DecimalRoundTrip(a.port);
    HostAndPortParse(a.host, Decimal(a.port), "");
    assert a.host + ":" + Decimal(a.port) + "" == FormatAddress(a);
  }

  /** `Connect` up to its first `await`: `triedToConnect` is set before the
      address is parsed, so it is set whether or not parsing succeeds. */
  function Connect(f: Form): (r: (Form, Result<Address, ConnectError>))
    ensures r.0.triedToConnect
    ensures r.0.serverAddress == f.serverAddress
    ensures r.1 == ParseServerAddress(f.serverAddress)
  {
    (f.(triedToConnect := true), ParseServerAddress(f.serverAddress))
  }

  const InvalidAddressMessage: string := "Invalid server address (must be in form <host>[:<port>])"

  const InvalidPortPrefix: string := "Invalid server port "

  /** The invalid-port message as written: the interpolated string contains a
      literal '$' before the interpolation hole. */
  function PortErrorMessageAsWritten(digits: string): string
  {
    InvalidPortPrefix + "$" + digits
  }

  /** The message as evidently intended: the prefix, then the rejected digits. */
  function PortErrorMessage(digits: string): (m: string)
    ensures |m| == |InvalidPortPrefix| + |digits|
    ensures m[..|InvalidPortPrefix|] == InvalidPortPrefix
    ensures m[|InvalidPortPrefix|..] == digits
  {
    InvalidPortPrefix + digits
  }

  /** As written, the text after the prefix is not the rejected port. */
  lemma PortErrorShowsStrayDollar(digits: string)
    ensures var m := PortErrorMessageAsWritten(digits);
      m[|InvalidPortPrefix|..] != digits && m[|InvalidPortPrefix|] == '$'
    ensures PortErrorMessageAsWritten("99999999999") == "Invalid server port $99999999999"
  {
    var m := PortErrorMessageAsWritten(digits);
    assert m[|InvalidPortPrefix|..] == "$" + digits;
    assert |m[|InvalidPortPrefix|..]| != |digits|;
  }

  /** The exception message `Connect` throws for a parse error, as written:
      an overflowing port is reported with the stray '$'. */
  function ErrorMessage(e: ConnectError): (m: string)
    ensures e.InvalidAddress? ==> m == InvalidAddressMessage
    ensures e.InvalidPort? ==>
      && |m| == |InvalidPortPrefix| + 1 + |e.digits|
      && m[..|InvalidPortPrefix|] == InvalidPortPrefix
      && m[|InvalidPortPrefix|] == '$'
      && m[|InvalidPortPrefix| + 1..] == e.digits
  {
    match e
    case InvalidAddress => InvalidAddressMessage
    case InvalidPort(d) => PortErrorMessageAsWritten(d)
  }

  /** The exception message as evidently intended: the invalid-port text
      names the rejected digits right after the prefix. */
  function IntendedErrorMessage(e: ConnectError): (m: string)
    ensures e.InvalidAddress? ==> m == InvalidAddressMessage
    ensures e.InvalidPort? ==>
      && |m| == |InvalidPortPrefix| + |e.digits|
      && m[..|InvalidPortPrefix|] == InvalidPortPrefix
      && m[|InvalidPortPrefix|..] == e.digits
  {
    match e
    case InvalidAddress => InvalidAddressMessage
    case InvalidPort(d) => PortErrorMessage(d)
  }

  /** The two texts agree on an invalid address and differ on every invalid
      port; either way the user can tell the two errors apart. */
  lemma ErrorMessagesCompared(e: ConnectError)
    ensures ErrorMessage(e) == IntendedErrorMessage(e) <==> e.InvalidAddress?
    ensures e.InvalidPort? ==> ErrorMessage(e) != InvalidAddressMessage
    ensures e.InvalidPort? ==> IntendedErrorMessage(e) != InvalidAddressMessage
  {
    if e.InvalidPort? {
      PortErrorShowsStrayDollar(e.digits);
      assert InvalidAddressMessage[15] == 'a';
      assert ErrorMessage(e)[15] == InvalidPortPrefix[15] == 'p';
      assert IntendedErrorMessage(e)[15] == InvalidPortPrefix[15];
      assert |IntendedErrorMessage(e)| != |ErrorMessage(e)|;
    }
  }
}
