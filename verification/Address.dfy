/** Server addresses: reading `scheme://host:port` and writing it back. The grammar of IP addresses is a
    parameter; ports are read and written digit by digit. */
module Address {

  import opened Types

  datatype PortError = EmptyPort | InvalidDigit | Overflow

  datatype Error =
    | ParseInt(error: PortError)
    | InvalidFormat
    | MissingScheme
    | InvalidScheme
    | MissingHost
    | EmptyHost
    | MissingPort

  datatype Parsed<+T> = Accepted(value: T) | Rejected(error: Error)

  datatype Ip = V4(bits: u32) | V6(high: u64, low: u64)

  datatype Scheme = Tcp | Ssl

  datatype Host = IpHost(ip: Ip) | Domain(name: string)

  datatype HostAndPort = HostAndPort(host: Host, port: u16)

  datatype ServerAddress = ServerAddress(scheme: Scheme, addr: HostAndPort)

  /** How IP addresses are written and read. */
  datatype IpText = IpText(write: Ip -> string, read: string -> Option<Ip>) {
    function Show(ip: Ip): string {
      write(ip)
    }

    function Read(text: string): Option<Ip> {
      read(text)
    }

    /** What is assumed of it: text round-trips, version 6 text has no closing bracket, and version 4 text
        starts with no opening one. */
    ghost predicate Lawful() {
      && Read("").None?
      && (forall ip :: Read(Show(ip)) == Some(ip))
      && (forall ip: Ip :: ip.V6? ==> ']' !in Show(ip))
      && (forall ip: Ip :: ip.V4? ==> !StartsWith(Show(ip), '['))
    }
  }

  predicate StartsWith(text: string, c: char) {
    text != "" && text[0] == c
  }

  // ----- Searching -----

  /** First position of a character. */
  function Find(text: string, c: char): (r: Option<nat>)
    ensures r.None? ==> c !in text
    ensures r.Some? ==> r.value < |text| && text[r.value] == c && c !in text[..r.value]
  {
    if text == "" then None
    else if text[0] == c then Some(0)
    else match Find(text[1..], c)
      case None => None
      case Some(k) =>
        assert text[..k + 1] == [text[0]] + text[1..][..k];
        Some(k + 1)
  }

  /** Last position of a character. */
  function FindLast(text: string, c: char): (r: Option<nat>)
    ensures r.None? ==> c !in text
    ensures r.Some? ==> r.value < |text| && text[r.value] == c && c !in text[r.value + 1..]
  {
    if text == "" then None
    else if text[|text| - 1] == c then Some(|text| - 1)
    else match FindLast(text[..|text| - 1], c)
      case None => None
      case Some(k) =>
        assert text[k + 1..] == text[..|text| - 1][k + 1..] + [text[|text| - 1]];
        Some(k)
  }

  /** First position of `://`. */
  function FindSeparator(text: string): (r: Option<nat>)
    ensures r.Some? ==> r.value + 3 <= |text| && text[r.value..r.value + 3] == "://"
  {
    if |text| < 3 then None
    else if text[..3] == "://" then Some(0)
    else match FindSeparator(text[1..])
      case None => None
      case Some(k) =>
        assert text[k + 1..k + 4] == text[1..][k..k + 3];
        Some(k + 1)
  }

  lemma {:induction false} FindUnique(before: string, c: char, after: string)
    requires c !in before
    ensures Find(before + [c] + after, c) == Some(|before|)
    decreases |before|
  {
    var text := before + [c] + after;
    if before == "" {
      assert text[0] == c;
    } else {
      assert text[1..] == before[1..] + [c] + after;
      assert text[0] == before[0];
      FindUnique(before[1..], c, after);
    }
  }

  lemma {:induction false} FindLastUnique(before: string, c: char, after: string)
    requires c !in after
    ensures FindLast(before + [c] + after, c) == Some(|before|)
    decreases |after|
  {
    var text := before + [c] + after;
    if after == "" {
      assert text[|text| - 1] == c;
    } else {
      assert text[..|text| - 1] == before + [c] + after[..|after| - 1];
      assert text[|text| - 1] == after[|after| - 1];
      FindLastUnique(before, c, after[..|after| - 1]);
    }
  }

  // ----- Ports -----

  predicate IsDigit(c: char) {
    '0' <= c <= '9'
  }

  function DigitValue(c: char): nat
    requires IsDigit(c)
  {
    c as int - '0' as int
  }

  predicate AllDigits(text: string) {
    forall k :: 0 <= k < |text| ==> IsDigit(text[k])
  }

  /** The number a string of digits denotes. */
  function Number(digits: string): nat
    requires AllDigits(digits)
  {
    if digits == "" then 0
    else 10 * Number(digits[..|digits| - 1]) + DigitValue(digits[|digits| - 1])
  }

  /** One leading plus sign is skipped. */
  function Unsigned(text: string): string {
    if |text| > 1 && text[0] == '+' then text[1..] else text
  }

  /** Reads on, digit by digit, after `value`; at each character an invalid digit is reported before an
      overflow. */
  function ReadDigits(value: u16, digits: string): Parsed<u16>
    decreases |digits|
  {
    if digits == "" then Accepted(value)
    else if !IsDigit(digits[0]) then Rejected(ParseInt(InvalidDigit))
    else
      var next := 10 * value + DigitValue(digits[0]);
      if next >= 0x1_0000 then Rejected(ParseInt(Overflow)) else ReadDigits(next, digits[1..])
  }

  /** Reading a 16-bit decimal number. */
  function ReadPort(text: string): Parsed<u16> {
    if text == "" then Rejected(ParseInt(EmptyPort)) else ReadDigits(0, Unsigned(text))
  }

  function WriteNumber(n: nat): (text: string)
    ensures text != "" && AllDigits(text) && Number(text) == n
    ensures |text| > 1 ==> text[0] != '0'
  {
    if n < 10 then
      assert [('0' as int + n) as char][..0] == "";
      [('0' as int + n) as char]
    else
      var tens, unit := WriteNumber(n / 10), ('0' as int + n % 10) as char;
      assert (tens + [unit])[..|tens|] == tens;
      tens + [unit]
  }

  lemma NumberNext(digits: string, c: char)
    requires AllDigits(digits) && IsDigit(c)
    ensures AllDigits(digits + [c]) && Number(digits + [c]) == 10 * Number(digits) + DigitValue(c)
  {
    assert (digits + [c])[..|digits|] == digits;
  }

  lemma {:induction false} NumberOfPrefix(digits: string, k: nat)
    requires AllDigits(digits) && k <= |digits|
    ensures Number(digits[..k]) <= Number(digits)
    decreases |digits|
  {
    if k == |digits| {
      assert digits[..k] == digits;
    } else {
      assert digits[..|digits| - 1][..k] == digits[..k];
      NumberOfPrefix(digits[..|digits| - 1], k);
    }
  }

  /** Reading on after some digits gives a number exactly if everything is digits and the whole fits. */
  lemma {:induction false} ReadDigitsIff(read: string, rest: string, n: u16)
    requires AllDigits(read) && Number(read) < 0x1_0000
    ensures ReadDigits(Number(read), rest) == Accepted(n) <==> AllDigits(read + rest) && Number(read + rest) == n
    decreases |rest|
  {
    if rest == "" {
      assert read + rest == read;
    } else {
      assert (read + rest)[|read|] == rest[0];
      if IsDigit(rest[0]) {
        NumberNext(read, rest[0]);
        assert read + rest == (read + [rest[0]]) + rest[1..];
        if Number(read + [rest[0]]) < 0x1_0000 {
          ReadDigitsIff(read + [rest[0]], rest[1..], n);
        } else if AllDigits(read + rest) {
          NumberOfPrefix(read + rest, |read| + 1);
          assert (read + rest)[..|read| + 1] == read + [rest[0]];
        }
      }
    }
  }

  /** A port is read exactly if the text, after an optional plus sign, is a number below 2^16 in decimal
      digits, leading zeros allowed. */
  lemma ReadPortIff(text: string, n: u16)
    ensures ReadPort(text) == Accepted(n) <==>
            text != "" && AllDigits(Unsigned(text)) && Number(Unsigned(text)) == n
  {
    ReadDigitsIff("", Unsigned(text), n);
    assert "" + Unsigned(text) == Unsigned(text);
  }

  lemma PortRoundTrip(n: u16)
    ensures ReadPort(WriteNumber(n)) == Accepted(n)
  {
    assert Unsigned(WriteNumber(n)) == WriteNumber(n);
    ReadPortIff(WriteNumber(n), n);
  }

  // ----- Hosts -----

  function WriteHost(ips: IpText, host: Host): string {
    match host
    case IpHost(ip) => if ip.V4? then ips.Show(ip) else "[" + ips.Show(ip) + "]"
    case Domain(name) => name
  }

  function ReadHost(ips: IpText, text: string): Parsed<Host> {
    if text == "" then Rejected(EmptyHost)
    else match ips.Read(text)
      case Some(ip) => Accepted(IpHost(ip))
      case None => Accepted(Domain(text))
  }

  /** Separates the host from the port: by brackets, or else by the last colon. */
  function Split(text: string): Parsed<(string, string)> {
    if StartsWith(text, '[') then
      match Find(text, ']')
      case None => Rejected(InvalidFormat)
      case Some(end) =>
        var remaining := text[end + 1..];
        if !StartsWith(remaining, ':') then Rejected(InvalidFormat) else Accepted((text[1..end], remaining[1..]))
    else
      match FindLast(text, ':')
      case None => Rejected(MissingPort)
      case Some(colon) => Accepted((text[..colon], text[colon + 1..]))
  }

  predicate Bracketed(text: string, host: string, port: string) {
    text == "[" + host + "]:" + port && ']' !in host
  }

  predicate Plain(text: string, host: string, port: string) {
    text == host + ":" + port && !StartsWith(text, '[') && ':' !in port
  }

  lemma SplitBracketed(text: string, host: string, port: string)
    requires Bracketed(text, host, port)
    ensures Split(text) == Accepted((host, port))
  {
    assert text == ("[" + host) + [']'] + (":" + port);
    FindUnique("[" + host, ']', ":" + port);
    assert text[1..|host| + 1] == host;
    assert text[|host| + 2..] == ":" + port;
    assert (":" + port)[1..] == port;
  }

  lemma SplitPlain(text: string, host: string, port: string)
    requires Plain(text, host, port)
    ensures Split(text) == Accepted((host, port))
  {
    assert text == host + [':'] + port;
    FindLastUnique(host, ':', port);
    assert text[..|host|] == host && text[|host| + 1..] == port;
  }

  /** The two ways of writing a host and a port, and no others. */
  lemma SplitIff(text: string, host: string, port: string)
    ensures Split(text) == Accepted((host, port)) <==> Bracketed(text, host, port) || Plain(text, host, port)
  {
    if Bracketed(text, host, port) {
      SplitBracketed(text, host, port);
    }
    if Plain(text, host, port) {
      SplitPlain(text, host, port);
    }
    if Split(text) == Accepted((host, port)) {
      if StartsWith(text, '[') {
        var end := Find(text, ']').value;
        assert host == text[..end][1..];
        assert text == "[" + text[1..end] + "]:" + text[end + 1..][1..];
      } else {
        var colon := FindLast(text, ':').value;
        assert text == text[..colon] + ":" + text[colon + 1..];
      }
    }
  }

  function WriteHostAndPort(ips: IpText, addr: HostAndPort): string {
    WriteHost(ips, addr.host) + ":" + WriteNumber(addr.port)
  }

  function ReadHostAndPort(ips: IpText, text: string): Parsed<HostAndPort> {
    match Split(text)
    case Rejected(e) => Rejected(e)
    case Accepted((hostText, portText)) =>
      match ReadHost(ips, hostText)
      case Rejected(e) => Rejected(e)
      case Accepted(host) =>
        match ReadPort(portText)
        case Rejected(e) => Rejected(e)
        case Accepted(port) => Accepted(HostAndPort(host, port))
  }

  // ----- Addresses -----

  function WriteScheme(scheme: Scheme): (text: string)
    ensures |text| == 3
  {
    match scheme
    case Tcp => "tcp"
    case Ssl => "ssl"
  }

  function ReadScheme(text: string): Parsed<Scheme> {
    if text == "tcp" then Accepted(Tcp)
    else if text == "ssl" then Accepted(Ssl)
    else Rejected(InvalidScheme)
  }

  function Print(ips: IpText, address: ServerAddress): string {
    WriteScheme(address.scheme) + "://" + WriteHostAndPort(ips, address.addr)
  }

  function Parse(ips: IpText, text: string): Parsed<ServerAddress> {
    match FindSeparator(text)
    case None => Rejected(MissingScheme)
    case Some(at) =>
      match ReadScheme(text[..at])
      case Rejected(e) => Rejected(e)
      case Accepted(scheme) =>
        match ReadHostAndPort(ips, text[at + 3..])
        case Rejected(e) => Rejected(e)
        case Accepted(addr) => Accepted(ServerAddress(scheme, addr))
  }

  lemma SeparatorAfterScheme(scheme: Scheme, rest: string)
    ensures FindSeparator(WriteScheme(scheme) + "://" + rest) == Some(3)
  {
    var text := WriteScheme(scheme) + "://" + rest;
    assert text[3..][..3] == "://";
    assert text[..3][0] != ':' && text[1..][..3][0] != ':' && text[2..][..3][0] != ':';
    assert text[1..][1..] == text[2..] && text[2..][1..] == text[3..];
    assert FindSeparator(text[3..]) == Some(0);
    assert FindSeparator(text[2..]) == Some(1);
    assert FindSeparator(text[1..]) == Some(2);
  }

  /** After a scheme name and the separator, the outcome is that of the rest, error or not. */
  lemma ParseRest(ips: IpText, scheme: Scheme, rest: string)
    ensures Parse(ips, WriteScheme(scheme) + "://" + rest) ==
              match ReadHostAndPort(ips, rest)
              case Rejected(e) => Rejected(e)
              case Accepted(addr) => Accepted(ServerAddress(scheme, addr))
  {
    var text := WriteScheme(scheme) + "://" + rest;
    SeparatorAfterScheme(scheme, rest);
    assert text[..3] == WriteScheme(scheme) && text[3 + 3..] == rest;
  }

  /** `text` is this address: a scheme name, the separator, and one of the two ways of writing a host and
      a port. */
  predicate Denotes(ips: IpText, text: string, address: ServerAddress, host: string, port: string) {
    && |text| >= 6 && text[..6] == WriteScheme(address.scheme) + "://"
    && (Bracketed(text[6..], host, port) || Plain(text[6..], host, port))
    && ReadHost(ips, host) == Accepted(address.addr.host)
    && port != "" && AllDigits(Unsigned(port)) && Number(Unsigned(port)) == address.addr.port
  }

  lemma ParseGives(ips: IpText, text: string, address: ServerAddress, host: string, port: string)
    requires Denotes(ips, text, address, host, port)
    ensures Parse(ips, text) == Accepted(address)
  {
    assert text == WriteScheme(address.scheme) + "://" + text[6..];
    ParseRest(ips, address.scheme, text[6..]);
    SplitIff(text[6..], host, port);
    ReadPortIff(port, address.addr.port);
  }

  lemma SchemeBefore(text: string, at: nat, scheme: Scheme)
    requires at + 3 <= |text| && text[at..at + 3] == "://" && ReadScheme(text[..at]) == Accepted(scheme)
    ensures at == 3 && text[..6] == WriteScheme(scheme) + "://"
  {
    assert text[..at] == WriteScheme(scheme);
    assert text[..6] == text[..3] + text[3..6];
  }

  lemma ParseStart(ips: IpText, text: string, address: ServerAddress)
    requires Parse(ips, text) == Accepted(address)
    ensures |text| >= 6 && text[..6] == WriteScheme(address.scheme) + "://"
    ensures ReadHostAndPort(ips, text[6..]) == Accepted(address.addr)
  {
    SchemeBefore(text, FindSeparator(text).value, address.scheme);
  }

  lemma HostAndPortTakes(ips: IpText, text: string, addr: HostAndPort) returns (host: string, port: string)
    requires ReadHostAndPort(ips, text) == Accepted(addr)
    ensures Bracketed(text, host, port) || Plain(text, host, port)
    ensures ReadHost(ips, host) == Accepted(addr.host)
    ensures port != "" && AllDigits(Unsigned(port)) && Number(Unsigned(port)) == addr.port
  {
    host, port := Split(text).value.0, Split(text).value.1;
    SplitIff(text, host, port);
    ReadPortIff(port, addr.port);
  }

  /** Exactly the texts of that form are accepted, each as the address it denotes. */
  lemma ParseIff(ips: IpText, text: string, address: ServerAddress)
    ensures Parse(ips, text) == Accepted(address) <==>
            exists host, port :: Denotes(ips, text, address, host, port)
  {
    if Parse(ips, text) == Accepted(address) {
      ParseStart(ips, text, address);
      var host, port := HostAndPortTakes(ips, text[6..], address.addr);
      assert Denotes(ips, text, address, host, port);
    }
    if host, port :| Denotes(ips, text, address, host, port) {
      ParseGives(ips, text, address, host, port);
    }
  }

  // ----- The round trip -----

  /** Hosts that survive being written: addresses, and names that are not empty, not the text of an
      address, and do not start like a bracketed one. */
  predicate Writable(ips: IpText, host: Host) {
    host.IpHost? || (host.name != "" && ips.Read(host.name).None? && !StartsWith(host.name, '['))
  }

  function HostText(ips: IpText, host: Host): string {
    match host
    case IpHost(ip) => ips.Show(ip)
    case Domain(name) => name
  }

  lemma WritableReadsBack(ips: IpText, address: ServerAddress)
    requires ips.Lawful() && Writable(ips, address.addr.host)
    ensures Parse(ips, Print(ips, address)) == Accepted(address)
  {
    var host, port := HostText(ips, address.addr.host), WriteNumber(address.addr.port);
    var rest := WriteHostAndPort(ips, address.addr);
    assert Print(ips, address)[..6] == WriteScheme(address.scheme) + "://" && Print(ips, address)[6..] == rest;
    assert ReadHost(ips, host) == Accepted(address.addr.host);
    if address.addr.host.IpHost? && address.addr.host.ip.V6? {
      assert rest == "[" + host + "]:" + port;
    } else {
      assert rest[0] == host[0];
    }
    ParseGives(ips, Print(ips, address), address, host, port);
  }

  /** A name that starts with a bracket is never read back: the closing bracket would have to stand where
      the port starts. */
  lemma BracketNameLost(ips: IpText, addr: HostAndPort)
    requires addr.host.Domain? && StartsWith(addr.host.name, '[')
    ensures ReadHostAndPort(ips, WriteHostAndPort(ips, addr)) != Accepted(addr)
  {
    assert IsDigit(WriteNumber(addr.port)[0]);
  }

  /** What is printed parses to the same address exactly for writable hosts, whatever the scheme and the
      port. */
  lemma RoundTripIff(ips: IpText, address: ServerAddress)
    requires ips.Lawful()
    ensures Parse(ips, Print(ips, address)) == Accepted(address) <==> Writable(ips, address.addr.host)
  {
    var host := address.addr.host;
    if Writable(ips, host) {
      WritableReadsBack(ips, address);
    } else {
      var rest := WriteHostAndPort(ips, address.addr);
      ParseRest(ips, address.scheme, rest);
      if StartsWith(host.name, '[') {
        BracketNameLost(ips, address.addr);
      } else {
        assert host.name == "" ==> rest[0] == ':';
        assert host.name != "" ==> rest[0] == host.name[0];
        SplitIff(rest, host.name, WriteNumber(address.addr.port));
      }
    }
  }

  /** Printing what was parsed is a normal form: it denotes the same address, except for names that start
      with a bracket. */
  lemma NormalForm(ips: IpText, text: string, address: ServerAddress)
    requires ips.Lawful() && Parse(ips, text) == Accepted(address)
    ensures Parse(ips, Print(ips, address)) == Accepted(address) <==>
            !(address.addr.host.Domain? && StartsWith(address.addr.host.name, '['))
  {
    RoundTripIff(ips, address);
  }

  lemma PortOne()
    ensures WriteNumber(1) == "1" && ReadPort("1") == Accepted(1)
  {
    PortRoundTrip(1);
  }

  const BRACKET_NAME: HostAndPort := HostAndPort(Domain("[x"), 1)

  lemma BracketNameRead(ips: IpText)
    requires ips.Read("[x").None?
    ensures ReadHostAndPort(ips, "[[x]:1") == Accepted(BRACKET_NAME)
  {
    PortOne();
    SplitBracketed("[[x]:1", "[x", "1");
  }

  lemma BracketNameWritten(ips: IpText)
    ensures WriteHostAndPort(ips, BRACKET_NAME) == "[x:1"
    ensures ReadHostAndPort(ips, "[x:1") == Rejected(InvalidFormat)
  {
    PortOne();
    assert "[x" + ":" + "1" == "[x:1";
  }

  /** Such names do get accepted: in brackets, with a second bracket inside. */
  lemma BracketNameAccepted(ips: IpText)
    requires ips.Read("[x").None?
    ensures Parse(ips, WriteScheme(Tcp) + "://" + "[[x]:1") == Accepted(ServerAddress(Tcp, BRACKET_NAME))
    ensures Print(ips, ServerAddress(Tcp, BRACKET_NAME)) == WriteScheme(Tcp) + "://" + "[x:1"
    ensures Parse(ips, WriteScheme(Tcp) + "://" + "[x:1") == Rejected(InvalidFormat)
  {
    BracketNameRead(ips);
    BracketNameWritten(ips);
    ParseRest(ips, Tcp, "[[x]:1");
    ParseRest(ips, Tcp, "[x:1");
  }
}
