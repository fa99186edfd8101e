/** Address strings (src/identity/identity.cpp): a printer and two parsers. */
module Identity {
  import opened Text

  const UUID_SIZE: nat := 36
  const HYPHENS: set<nat> := {8, 13, 18, 23}
  const MAX_PORT: nat := 65535
  const MAX_INT32: int := 0x7FFF_FFFF
  const DEFAULT_DISCOVERY_PORT: nat := 47822

  datatype PeerInfo = PeerInfo(uuid: string, ip: string, port: nat)

  datatype DiscoveryAddress = DiscoveryAddress(username: string, host: string, port: nat)

  function ConnectionString(uuid: string, ip: string, port: nat): string {
    uuid + "@" + ip + ":" + Decimal(port)
  }

  predicate IsValidUuid(s: string) {
    && |s| == UUID_SIZE
    && forall i :: 0 <= i < UUID_SIZE ==> if i in HYPHENS then s[i] == '-' else IsDigit(s[i], 16)
  }

  /** stoi: None where it throws; what follows the digits is ignored. */
  function Stoi(s: string): Option<int> {
    match ParseSigned(s, 10)
    case None => None
    case Some(Signed(negative, magnitude)) =>
      var value := magnitude as int * (if negative then -1 else 1);
      if -MAX_INT32 - 1 <= value <= MAX_INT32 then Some(value) else None
  }

  function ParsePort(s: string): Option<nat> {
    var p := Stoi(s);
    if p.None? || p.value <= 0 || p.value > MAX_PORT then None else Some(p.value)
  }

  /** Host and port around the last colon. */
  function ParseHostPort(s: string): Option<(string, nat)> {
    var colon := LastIndexOf(s, ':');
    if colon < 0 || s[..colon] == "" || s[colon + 1..] == "" then None
    else
      var port := ParsePort(s[colon + 1..]);
      if port.None? then None else Some((s[..colon], port.value))
  }

  function ParseConnectionString(s: string): Option<PeerInfo> {
    var at := IndexOf(s, '@', 0);
    if at == |s| || !IsValidUuid(s[..at]) then None
    else
      var hostPort := ParseHostPort(s[at + 1..]);
      if hostPort.None? then None else Some(PeerInfo(s[..at], hostPort.value.0, hostPort.value.1))
  }

  predicate UsernameChar(c: char) {
    'a' <= c <= 'z' || 'A' <= c <= 'Z' || '0' <= c <= '9' || c == '_' || c == '.' || c == '-'
  }

  predicate ValidUsername(s: string) {
    s != "" && forall i :: 0 <= i < |s| ==> UsernameChar(s[i])
  }

  function ParseDiscoveryAddress(s: string): Option<DiscoveryAddress> {
    var at := IndexOf(s, '@', 0);
    if at == |s| then None
    else
      var username, hostPort := s[..at], s[at + 1..];
      if IsValidUuid(username) || !ValidUsername(username) then None
      else if hostPort == "" then None
      else if LastIndexOf(hostPort, ':') < 0 then Some(DiscoveryAddress(username, hostPort, DEFAULT_DISCOVERY_PORT))
      else
        var split := ParseHostPort(hostPort);
        if split.None? then None else Some(DiscoveryAddress(username, split.value.0, split.value.1))
  }

  /** A string is of the form host:port, with the port text after the last colon. */
  ghost predicate Splits(s: string, host: string, portText: string) {
    s == host + ":" + portText && host != "" && portText != "" && ':' !in portText
  }

  lemma HostPortSplits(s: string, host: string, portText: string)
    requires Splits(s, host, portText)
    ensures ParseHostPort(s) == (var p := ParsePort(portText); if p.None? then None else Some((host, p.value)))
  {
    assert forall i :: |host| < i < |s| ==> s[i] == portText[i - |host| - 1];
    LastIndexOfIs(s, ':', |host|);
    assert s[..|host|] == host && s[|host| + 1..] == portText;
  }

  lemma HostPortParsesIff(s: string, host: string, port: nat)
    ensures ParseHostPort(s) == Some((host, port))
       <==> exists portText :: Splits(s, host, portText) && ParsePort(portText) == Some(port)
  {
    hide ParsePort;
    if ParseHostPort(s) == Some((host, port)) {
      var colon := LastIndexOf(s, ':');
      assert s == s[..colon] + ":" + s[colon + 1..];
      assert Splits(s, host, s[colon + 1..]);
    }
    forall portText | Splits(s, host, portText) && ParsePort(portText) == Some(port)
      ensures ParseHostPort(s) == Some((host, port))
    {
      HostPortSplits(s, host, portText);
    }
  }

  lemma UuidHasNoAt(s: string)
    requires IsValidUuid(s)
    ensures '@' !in s
  {}

  lemma AtFound(uuid: string, rest: string)
    requires '@' !in uuid
    ensures var s := uuid + "@" + rest;
      IndexOf(s, '@', 0) == |uuid| && s[..|uuid|] == uuid && s[|uuid| + 1..] == rest
  {
    var s := uuid + "@" + rest;
    assert forall i :: 0 <= i < |uuid| ==> s[i] == uuid[i];
    IndexOfIs(s, '@', |uuid|);
  }

  /** The text is a valid uuid, "@", a non-empty ip, ":" and a text without colons that stoi reads as the port. */
  ghost predicate Denotes(s: string, p: PeerInfo, portText: string) {
    && IsValidUuid(p.uuid) && s == p.uuid + "@" + (p.ip + ":" + portText)
    && Splits(p.ip + ":" + portText, p.ip, portText) && ParsePort(portText) == Some(p.port)
  }

  lemma DenotedParses(s: string, p: PeerInfo, portText: string)
    requires Denotes(s, p, portText)
    ensures ParseConnectionString(s) == Some(p)
  {
    UuidHasNoAt(p.uuid);
    hide IsValidUuid, ParsePort, Splits;
    AtFound(p.uuid, p.ip + ":" + portText);
    HostPortSplits(p.ip + ":" + portText, p.ip, portText);
  }

  lemma ParsedDenotes(s: string, p: PeerInfo) returns (portText: string)
    requires ParseConnectionString(s) == Some(p)
    ensures Denotes(s, p, portText)
  {
    hide IsValidUuid, ParsePort, ParseHostPort, Splits;
    var rest := s[|p.uuid| + 1..];
    assert s == p.uuid + "@" + rest;
    HostPortParsesIff(rest, p.ip, p.port);
    portText :| Splits(rest, p.ip, portText) && ParsePort(portText) == Some(p.port);
    SplitsIs(rest, p.ip, portText);
  }

  lemma SplitsIs(s: string, host: string, portText: string)
    requires Splits(s, host, portText)
    ensures s == host + ":" + portText
  {}

  /** Exactly the strings of that form are accepted, each as the one value it denotes. */
  lemma ConnectionStringParsesIff(s: string, p: PeerInfo)
    ensures ParseConnectionString(s) == Some(p) <==> exists portText :: Denotes(s, p, portText)
  {
    hide Denotes, ParseConnectionString;
    if ParseConnectionString(s) == Some(p) {
      var portText := ParsedDenotes(s, p);
    }
    forall portText | Denotes(s, p, portText)
      ensures ParseConnectionString(s) == Some(p)
    {
      DenotedParses(s, p, portText);
    }
  }

  /** The decimal text of a port reads back as the port. */
  lemma PortText(port: nat)
    requires 1 <= port <= MAX_PORT
    ensures Decimal(port) != "" && ':' !in Decimal(port) && ParsePort(Decimal(port)) == Some(port)
  {
    var text := Decimal(port);
    NumeralValue(port, 10);
    assert text[..|text|] == text;
    ParseDigits(text, |text|, 10);
    assert forall i :: 0 <= i < |text| ==> IsDigit(text[i], 10);
  }

  /** Printing and parsing: any valid uuid, any non-empty ip, colons included, any port. */
  lemma RoundTrip(uuid: string, ip: string, port: nat)
    requires IsValidUuid(uuid) && ip != "" && 1 <= port <= MAX_PORT
    ensures ParseConnectionString(ConnectionString(uuid, ip, port)) == Some(PeerInfo(uuid, ip, port))
  {
    PortText(port);
    var text := Decimal(port);
    assert ConnectionString(uuid, ip, port) == uuid + "@" + (ip + ":" + text);
    assert Splits(ip + ":" + text, ip, text);
    DenotedParses(ConnectionString(uuid, ip, port), PeerInfo(uuid, ip, port), text);
  }

  /** Whatever was accepted, printing it again gives a string that is accepted with the same meaning. */
  lemma PrintingIsStable(s: string)
    requires ParseConnectionString(s).Some?
    ensures var p := ParseConnectionString(s).value;
      ParseConnectionString(ConnectionString(p.uuid, p.ip, p.port)) == Some(p)
  {
    var p := ParseConnectionString(s).value;
    var portText := ParsedDenotes(s, p);
    RoundTrip(p.uuid, p.ip, p.port);
  }

  /** No string belongs to both parsers. */
  lemma ParsersDisjoint(s: string)
    ensures ParseConnectionString(s).None? || ParseDiscoveryAddress(s).None?
  {}

  /** A username address round-trips as well when its host and port are spelled out. */
  lemma DiscoveryRoundTrip(username: string, host: string, port: nat)
    requires ValidUsername(username) && !IsValidUuid(username) && host != "" && 1 <= port <= MAX_PORT
    ensures ParseDiscoveryAddress(username + "@" + host + ":" + Decimal(port))
         == Some(DiscoveryAddress(username, host, port))
    ensures ':' !in host ==>
      ParseDiscoveryAddress(username + "@" + host) == Some(DiscoveryAddress(username, host, DEFAULT_DISCOVERY_PORT))
  {
    SpelledOut(username, host, port);
    NoAtIn(username);
    hide IsValidUuid, ParseHostPort, UsernameChar;
    assert username != "";
    AtFound(username, host);
  }

  lemma SpelledOut(username: string, host: string, port: nat)
    requires ValidUsername(username) && !IsValidUuid(username) && host != "" && 1 <= port <= MAX_PORT
    ensures ParseDiscoveryAddress(username + "@" + host + ":" + Decimal(port))
         == Some(DiscoveryAddress(username, host, port))
  {
    hide IsValidUuid, ParseHostPort, ValidUsername, Decimal, LastIndexOf;
    var rest := host + ":" + Decimal(port);
    NoAtIn(username);
    HostPortText(host, port);
    Regrouped(username, host, Decimal(port));
    AtFound(username, rest);
  }

  lemma Regrouped(a: string, b: string, c: string)
    ensures a + "@" + b + ":" + c == a + "@" + (b + ":" + c)
  {}

  lemma HostPortText(host: string, port: nat)
    requires host != "" && 1 <= port <= MAX_PORT
    ensures var s := host + ":" + Decimal(port);
      LastIndexOf(s, ':') >= 0 && ParseHostPort(s) == Some((host, port))
  {
    PortText(port);
    hide Decimal, ParsePort, ParseHostPort;
    var s := host + ":" + Decimal(port);
    HostPortSplits(s, host, Decimal(port));
    assert s[|host|] == ':';
  }

  lemma NoAtIn(username: string)
    requires ValidUsername(username)
    ensures '@' !in username
  {}
}
