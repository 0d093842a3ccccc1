/** SOCKS5 (RFC 1928): addresses, requests, UDP headers and the incremental front end of a client connection. */
module Socks5 {
  import opened Basics
  import opened Domain
  import Utf8

  datatype Command = Connect | UdpAssociate

  datatype Address = Ipv4(octets: seq<Byte>) | Ipv6(octets: seq<Byte>) | Name(domain: seq<Byte>)

  datatype Request = Request(command: Command, address: Address, port: U16)

  datatype UdpPacket = UdpPacket(address: Address, port: U16, payload: seq<Byte>)

  datatype ParseError =
    | Incomplete
    | Protocol
    | UnknownCommand
    | BindUnsupported
    | FragmentUnsupported
    | BadAddress
    | BadPort
    | TrailingBytes

  datatype Located = Located(address: Address, port: U16, consumed: nat)

  // ------------------------------------------------------------------ parsing

  function Size(b: Byte): nat {
    b
  }

  /** The address and the offset of the port behind it. */
  function ParseHost(input: seq<Byte>): Result<(Address, nat), ParseError> {
    if input == [] then Err(Incomplete)
    else if input[0] == 1 then
      if |input| < 5 then Err(Incomplete) else Ok((Ipv4(input[1..5]), 5))
    else if input[0] == 4 then
      if |input| < 17 then Err(Incomplete) else Ok((Ipv6(input[1..17]), 17))
    else if input[0] == 3 then
      if |input| < 2 then Err(Incomplete)
      else if input[1] == 0 then Err(BadAddress)
      else if |input| < 2 + Size(input[1]) then Err(Incomplete)
      else
        var domain := input[2..2 + Size(input[1])];
        if !Utf8.Valid(domain) || !ValidDomain(domain) then Err(BadAddress) else Ok((Name(domain), 2 + Size(input[1])))
    else Err(BadAddress)
  }

  function ParseAddress(input: seq<Byte>, allowZeroPort: bool): (r: Result<Located, ParseError>)
    ensures r.Ok? ==> r.value.consumed <= |input|
  {
    var host := ParseHost(input);
    if host.Err? then Err(host.error)
    else
      var (address, offset) := host.value;
      if |input| < offset + 2 then Err(Incomplete)
      else
        var port := (input[offset] as int) * 256 + input[offset + 1];
        if port == 0 && !allowZeroPort then Err(BadPort) else Ok(Located(address, port, offset + 2))
  }

  function ParseRequest(input: seq<Byte>): Result<Request, ParseError> {
    if |input| < 4 || input[0] != 5 || input[2] != 0 then Err(Protocol)
    else if input[1] == 2 then Err(BindUnsupported)
    else if input[1] != 1 && input[1] != 3 then Err(UnknownCommand)
    else
      var command := if input[1] == 1 then Connect else UdpAssociate;
      var located := ParseAddress(input[3..], command.UdpAssociate?);
      if located.Err? then Err(located.error)
      else if located.value.consumed + 3 != |input| then Err(TrailingBytes)
      else Ok(Request(command, located.value.address, located.value.port))
  }

  function ParseUdp(input: seq<Byte>): Result<UdpPacket, ParseError> {
    if |input| < 4 || input[..2] != [0, 0] then Err(Protocol)
    else if input[2] != 0 then Err(FragmentUnsupported)
    else
      var located := ParseAddress(input[3..], false);
      if located.Err? then Err(located.error)
      else Ok(UdpPacket(located.value.address, located.value.port, input[3 + located.value.consumed..]))
  }

  function RequestLength(input: seq<Byte>): Option<nat> {
    if |input| < 4 then None
    else if input[3] == 1 then Some(10)
    else if input[3] == 4 then Some(22)
    else if input[3] == 3 then if |input| < 5 then None else Some(7 + Size(input[4]))
    else Some(4)
  }

  // ------------------------------------------------------------------ printing

  predicate ValidAddress(address: Address) {
    match address
    case Ipv4(octets) => |octets| == 4
    case Ipv6(octets) => |octets| == 16
    case Name(domain) => ValidDomain(domain)
  }

  function PortBytes(port: U16): seq<Byte> {
    [port / 256, port % 256]
  }

  /** Address type, address and port of RFC 1928, sections 4, 5 and 7; no form for a name of 256 bytes or more. */
  function EncodeAddress(address: Address, port: U16): Option<seq<Byte>> {
    match address
    case Ipv4(octets) => Some([1] + octets + PortBytes(port))
    case Ipv6(octets) => Some([4] + octets + PortBytes(port))
    case Name(domain) => if |domain| > 255 then None else Some([3, |domain|] + domain + PortBytes(port))
  }

  function EncodeUdpHeader(address: Address, port: U16): Option<seq<Byte>> {
    match EncodeAddress(address, port)
    case None => None
    case Some(bytes) => Some([0, 0, 0] + bytes)
  }

  // ------------------------------------------------------------------ inverses

  lemma DomainIsText(domain: seq<Byte>)
    requires ValidDomain(domain)
    ensures Utf8.Valid(domain)
  {
    DomainBytes(domain);
    Utf8.AsciiIsValid(domain);
  }

  lemma NameReadsBack(domain: seq<Byte>, rest: seq<Byte>)
    requires ValidDomain(domain)
    ensures ParseHost([3, |domain|] + domain + rest) == Ok((Name(domain), 2 + |domain|))
  {
    var input := [3, |domain|] + domain + rest;
    assert input[2..2 + |domain|] == domain;
    DomainIsText(domain);
  }

  lemma HostReadsBack(address: Address, port: U16, rest: seq<Byte>)
    requires ValidAddress(address)
    ensures var bytes := EncodeAddress(address, port);
            bytes.Some? && |bytes.value| >= 2 && ParseHost(bytes.value + rest) == Ok((address, |bytes.value| - 2))
  {
    var input := EncodeAddress(address, port).value + rest;
    match address
    case Ipv4(octets) => assert input[1..5] == octets;
    case Ipv6(octets) => assert input[1..17] == octets;
    case Name(domain) =>
      assert input == [3, |domain|] + domain + (PortBytes(port) + rest);
      NameReadsBack(domain, PortBytes(port) + rest);
  }

  lemma AddressReadsBack(address: Address, port: U16, rest: seq<Byte>, allowZeroPort: bool)
    requires ValidAddress(address) && (port != 0 || allowZeroPort)
    ensures var bytes := EncodeAddress(address, port);
            bytes.Some? && ParseAddress(bytes.value + rest, allowZeroPort) == Ok(Located(address, port, |bytes.value|))
  {
    HostReadsBack(address, port, rest);
    var bytes := EncodeAddress(address, port).value;
    var n := |bytes| - 2;
    assert bytes[n..] == PortBytes(port);
    assert (bytes + rest)[n] == bytes[n..][0] && (bytes + rest)[n + 1] == bytes[n..][1];
  }

  lemma HostPrintsBack(input: seq<Byte>, port: U16)
    requires ParseHost(input).Ok?
    ensures var (address, n) := ParseHost(input).value;
            ValidAddress(address) && n <= |input| && EncodeAddress(address, port) == Some(input[..n] + PortBytes(port))
  {
    var (address, n) := ParseHost(input).value;
    match address
    case Ipv4(octets) => assert input[..5] == [1] + input[1..5];
    case Ipv6(octets) => assert input[..17] == [4] + input[1..17];
    case Name(domain) => assert input[..n] == [3, |domain|] + input[2..n];
  }

  lemma AddressPrintsBack(input: seq<Byte>, allowZeroPort: bool)
    requires ParseAddress(input, allowZeroPort).Ok?
    ensures var l := ParseAddress(input, allowZeroPort).value;
            && ValidAddress(l.address) && (l.port != 0 || allowZeroPort) && l.consumed <= |input|
            && EncodeAddress(l.address, l.port) == Some(input[..l.consumed])
  {
    var l := ParseAddress(input, allowZeroPort).value;
    HostPrintsBack(input, l.port);
    var n := l.consumed - 2;
    assert PortBytes(l.port) == [input[n], input[n + 1]];
    assert input[..l.consumed] == input[..n] + [input[n], input[n + 1]];
  }

  /** Parsing undoes printing, for every valid address, nonzero port and payload. */
  lemma UdpReadsBack(address: Address, port: U16, payload: seq<Byte>)
    requires ValidAddress(address) && port != 0
    ensures var header := EncodeUdpHeader(address, port);
            header.Some? && ParseUdp(header.value + payload) == Ok(UdpPacket(address, port, payload))
  {
    AddressReadsBack(address, port, payload, false);
    var bytes := EncodeAddress(address, port).value;
    var input := [0, 0, 0] + bytes + payload;
    assert |bytes| >= 3;
    assert input[..2] == [0, 0];
    assert input[3..] == bytes + payload;
    assert input[3 + |bytes|..] == payload;
  }

  /** Printing undoes parsing: an accepted datagram is its header followed by its payload, with nothing else accepted. */
  lemma UdpPrintsBack(input: seq<Byte>)
    requires ParseUdp(input).Ok?
    ensures var p := ParseUdp(input).value;
            && ValidAddress(p.address) && p.port != 0
            && EncodeUdpHeader(p.address, p.port).Some?
            && EncodeUdpHeader(p.address, p.port).value + p.payload == input
  {
    AddressPrintsBack(input[3..], false);
    var l := ParseAddress(input[3..], false).value;
    assert input[..2][0] == 0 && input[..2][1] == 0;
    assert input == [0, 0, 0] + input[3..][..l.consumed] + input[3 + l.consumed..];
  }

  // ------------------------------------------------------------------ requests

  lemma LengthStable(input: seq<Byte>, more: seq<Byte>)
    requires RequestLength(input).Some?
    ensures RequestLength(input + more) == RequestLength(input)
  {
  }

  /** Cut where `request_length` says, a request is either parsed or refused for what it says, never for its size. */
  lemma CutRequestIsDecided(input: seq<Byte>)
    requires RequestLength(input).Some? && RequestLength(input).value <= |input|
    ensures var r := ParseRequest(input[..RequestLength(input).value]);
            r.Ok? || (r.error != Incomplete && r.error != TrailingBytes)
  {
    var cut := input[..RequestLength(input).value];
    assert cut[3..] == input[3..|cut|];
    assert cut[3] == input[3];
    if input[3] == 3 {
      assert cut[4] == input[4];
    }
  }

  function CommandByte(command: Command): Byte {
    if command.Connect? then 1 else 3
  }

  /** A client's request, RFC 1928 section 4. */
  function EncodeRequest(r: Request): seq<Byte>
    requires ValidAddress(r.address)
  {
    [5, CommandByte(r.command), 0] + EncodeAddress(r.address, r.port).value
  }

  predicate ValidRequest(r: Request) {
    ValidAddress(r.address) && (r.port != 0 || r.command.UdpAssociate?)
  }

  lemma LengthOfRequest(r: Request, rest: seq<Byte>)
    requires ValidRequest(r)
    ensures RequestLength(EncodeRequest(r) + rest) == Some(|EncodeRequest(r)|)
  {
    var bytes := EncodeAddress(r.address, r.port).value;
    var input := EncodeRequest(r) + rest;
    assert input[3] == bytes[0];
    if r.address.Name? {
      assert input[4] == bytes[1];
    }
  }

  lemma RequestReadsBack(r: Request)
    requires ValidRequest(r)
    ensures ParseRequest(EncodeRequest(r)) == Ok(r)
  {
    var bytes := EncodeAddress(r.address, r.port).value;
    AddressReadsBack(r.address, r.port, [], r.command.UdpAssociate?);
    assert bytes + [] == bytes;
    assert EncodeRequest(r)[3..] == bytes;
  }

  /** Nothing else parses: an accepted request is valid and its printed form is the input. */
  lemma RequestPrintsBack(input: seq<Byte>)
    requires ParseRequest(input).Ok?
    ensures ValidRequest(ParseRequest(input).value) && EncodeRequest(ParseRequest(input).value) == input
  {
    var r := ParseRequest(input).value;
    AddressPrintsBack(input[3..], r.command.UdpAssociate?);
    assert input == [input[0], input[1], input[2]] + input[3..];
    assert input[3..][..|input| - 3] == input[3..];
  }

  // ------------------------------------------------------------------ the connection

  datatype Phase = Greeting | Requesting | Ready(request: Request) | Failed

  /** `queued` is every reply byte handed to the client's stream or waiting for it. */
  datatype Conn = Conn(phase: Phase, input: seq<Byte>, queued: seq<Byte>)

  const START := Conn(Greeting, [], [])
  const REFUSAL: seq<Byte> := [5, 1, 0, 1, 0, 0, 0, 0, 0, 0]

  predicate GreetingWhole(input: seq<Byte>) {
    |input| >= 2 && |input| >= 2 + Size(input[1])
  }

  predicate GreetingAccepted(input: seq<Byte>)
    requires GreetingWhole(input)
  {
    input[0] == 5 && 0 in input[2..2 + Size(input[1])]
  }

  function ParseGreeting(c: Conn): Conn {
    if !GreetingWhole(c.input) then c
    else if !GreetingAccepted(c.input) then Conn(Failed, c.input, c.queued + [5, 0xff])
    else Conn(Requesting, c.input[2 + Size(c.input[1])..], c.queued + [5, 0])
  }

  predicate RequestWhole(input: seq<Byte>) {
    RequestLength(input).Some? && RequestLength(input).value <= |input|
  }

  function ParseCommand(c: Conn): Conn {
    if !RequestWhole(c.input) then c
    else
      var length := RequestLength(c.input).value;
      match ParseRequest(c.input[..length])
      case Ok(request) => Conn(Ready(request), c.input[length..], c.queued)
      case Err(_) => Conn(Failed, c.input, c.queued + REFUSAL)
  }

  /** `parse`: both stages in one call when the bytes are there. */
  function Parse(c: Conn): Conn {
    var greeted := if c.phase.Greeting? then ParseGreeting(c) else c;
    if greeted.phase.Requesting? then ParseCommand(greeted) else greeted
  }

  function Append(c: Conn, bytes: seq<Byte>): Conn {
    c.(input := c.input + bytes)
  }

  // ------------------------------------------------------------------ fragmentation

  lemma GreetingSplits(c: Conn, more: seq<Byte>)
    requires GreetingWhole(c.input)
    ensures ParseGreeting(Append(c, more)) == Append(ParseGreeting(c), more)
  {
    var n := 2 + Size(c.input[1]);
    assert (c.input + more)[2..n] == c.input[2..n];
    assert (c.input + more)[n..] == c.input[n..] + more;
  }

  lemma CommandSplits(c: Conn, more: seq<Byte>)
    requires RequestWhole(c.input)
    ensures ParseCommand(Append(c, more)) == Append(ParseCommand(c), more)
  {
    LengthStable(c.input, more);
    var n := RequestLength(c.input).value;
    assert (c.input + more)[..n] == c.input[..n];
    assert (c.input + more)[n..] == c.input[n..] + more;
  }

  lemma CommandAgain(c: Conn, more: seq<Byte>)
    requires c.phase.Requesting?
    ensures Parse(Append(ParseCommand(c), more)) == ParseCommand(Append(c, more))
  {
    if RequestWhole(c.input) {
      CommandSplits(c, more);
    }
  }

  /** Parsing early changes nothing: one parse after both pieces has the same effect. */
  lemma ParseSplits(c: Conn, more: seq<Byte>)
    ensures Parse(Append(Parse(c), more)) == Parse(Append(c, more))
  {
    match c.phase
    case Greeting =>
      if GreetingWhole(c.input) {
        GreetingSplits(c, more);
        if GreetingAccepted(c.input) {
          CommandAgain(ParseGreeting(c), more);
        }
      }
    case Requesting => CommandAgain(c, more);
    case _ =>
  }

  function Feed(c: Conn, pieces: seq<seq<Byte>>): Conn
    decreases |pieces|
  {
    if pieces == [] then c else Feed(Parse(Append(c, pieces[0])), pieces[1..])
  }

  lemma {:induction false} PiecesDoNotMatter(c: Conn, pieces: seq<seq<Byte>>)
    ensures Feed(Parse(c), pieces) == Parse(Append(c, Flatten(pieces)))
    decreases |pieces|
  {
    if pieces == [] {
      assert Append(c, Flatten(pieces)) == c;
    } else {
      ParseSplits(c, pieces[0]);
      PiecesDoNotMatter(Append(c, pieces[0]), pieces[1..]);
      assert c.input + pieces[0] + Flatten(pieces[1..]) == c.input + Flatten(pieces);
    }
  }

  /**
   * Phase, queued replies and left-over payload depend on the bytes received only: any two ways of
   * cutting the same stream end in the same state.
   */
  lemma FragmentationIgnored(pieces: seq<seq<Byte>>, others: seq<seq<Byte>>)
    requires Flatten(pieces) == Flatten(others)
    ensures Feed(START, pieces) == Feed(START, others) == Parse(Append(START, Flatten(pieces)))
  {
    assert Parse(START) == START;
    PiecesDoNotMatter(START, pieces);
    PiecesDoNotMatter(START, others);
  }

  // ------------------------------------------------------------------ polls and the input limit

  /** The read loop of one `poll` over what the stream has: an empty read is the end of the stream. */
  function Take(c: Conn, arrivals: seq<seq<Byte>>, limit: nat): Conn
    decreases |arrivals|
  {
    if arrivals == [] then c
    else if arrivals[0] == [] || |c.input| + |arrivals[0]| > limit then c.(phase := Failed)
    else Take(Append(c, arrivals[0]), arrivals[1..], limit)
  }

  function Polls(c: Conn, polls: seq<seq<seq<Byte>>>, limit: nat): Conn
    decreases |polls|
  {
    if polls == [] then c else Polls(Parse(Take(c, polls[0], limit)), polls[1..], limit)
  }

  predicate NoEnd(arrivals: seq<seq<Byte>>) {
    forall i :: 0 <= i < |arrivals| ==> arrivals[i] != []
  }

  lemma {:induction false} TakeAppends(c: Conn, arrivals: seq<seq<Byte>>, limit: nat)
    requires NoEnd(arrivals) && |c.input| + |Flatten(arrivals)| <= limit
    ensures Take(c, arrivals, limit) == Append(c, Flatten(arrivals))
    decreases |arrivals|
  {
    if arrivals == [] {
      assert c.input + [] == c.input;
    } else {
      TakeAppends(Append(c, arrivals[0]), arrivals[1..], limit);
      assert c.input + arrivals[0] + Flatten(arrivals[1..]) == c.input + Flatten(arrivals);
    }
  }

  function Bytes(polls: seq<seq<seq<Byte>>>): seq<seq<Byte>> {
    if polls == [] then [] else [Flatten(polls[0])] + Bytes(polls[1..])
  }

  lemma ParseShrinks(c: Conn)
    ensures |Parse(c).input| <= |c.input|
  {
  }

  /** At each poll, the bytes still held and the bytes of that poll are within the limit. */
  predicate WithinLimit(c: Conn, polls: seq<seq<seq<Byte>>>, limit: nat)
    decreases |polls|
  {
    polls == []
    || (|c.input| + |Flatten(polls[0])| <= limit && WithinLimit(Parse(Append(c, Flatten(polls[0]))), polls[1..], limit))
  }

  predicate NeverEnds(polls: seq<seq<seq<Byte>>>) {
    forall i :: 0 <= i < |polls| ==> NoEnd(polls[i])
  }

  lemma {:induction false} PollsFeed(c: Conn, polls: seq<seq<seq<Byte>>>, limit: nat)
    requires NeverEnds(polls) && WithinLimit(c, polls, limit)
    ensures Polls(c, polls, limit) == Feed(c, Bytes(polls))
    decreases |polls|
  {
    if polls != [] {
      var all := Bytes(polls);
      assert all[0] == Flatten(polls[0]) && all[1..] == Bytes(polls[1..]);
      TakeAppends(c, polls[0], limit);
      PollsFeed(Parse(Append(c, all[0])), polls[1..], limit);
    }
  }

  /** A connection failed by the limit has lost bytes or a reply against one that went on. */
  predicate Behind(cut: Conn, whole: Conn) {
    && cut.phase.Failed? && |cut.queued| <= |whole.queued|
    && (whole.phase.Failed? ==> |cut.queued| < |whole.queued| || |cut.input| < |whole.input|)
  }

  /** The limit stops the reads of a poll before the last of its bytes. */
  lemma {:induction false} TakeStops(c: Conn, arrivals: seq<seq<Byte>>, limit: nat)
    requires NoEnd(arrivals) && |c.input| + |Flatten(arrivals)| > limit && |c.input| <= limit
    ensures var t := Take(c, arrivals, limit);
            t.phase.Failed? && t.queued == c.queued && |c.input| <= |t.input| < |c.input| + |Flatten(arrivals)|
    decreases |arrivals|
  {
    if arrivals != [] && |c.input| + |arrivals[0]| <= limit {
      TakeStops(Append(c, arrivals[0]), arrivals[1..], limit);
    }
  }

  lemma {:induction false} TakeAtMost(c: Conn, arrivals: seq<seq<Byte>>, limit: nat)
    ensures var t := Take(c, arrivals, limit);
            t.queued == c.queued && |t.input| <= |c.input| + |Flatten(arrivals)| && (c.phase.Failed? ==> t.phase.Failed?)
    decreases |arrivals|
  {
    if arrivals != [] && arrivals[0] != [] && |c.input| + |arrivals[0]| <= limit {
      TakeAtMost(Append(c, arrivals[0]), arrivals[1..], limit);
    }
  }

  /** A parse that fails queues a reply; one that does not keeps the replies it had. */
  lemma ParseQueues(c: Conn)
    ensures |c.queued| <= |Parse(c).queued|
    ensures !c.phase.Failed? && Parse(c).phase.Failed? ==> |c.queued| < |Parse(c).queued|
    ensures c.phase.Failed? ==> Parse(c) == c
  {
  }

  lemma {:induction false} StaysBehind(cut: Conn, whole: Conn, polls: seq<seq<seq<Byte>>>, limit: nat)
    requires Behind(cut, whole)
    ensures Behind(Polls(cut, polls, limit), Feed(whole, Bytes(polls)))
    decreases |polls|
  {
    if polls != [] {
      var all := Bytes(polls);
      assert all[0] == Flatten(polls[0]) && all[1..] == Bytes(polls[1..]);
      TakeAtMost(cut, polls[0], limit);
      ParseQueues(Take(cut, polls[0], limit));
      ParseQueues(Append(whole, all[0]));
      StaysBehind(Parse(Take(cut, polls[0], limit)), Parse(Append(whole, all[0])), polls[1..], limit);
    }
  }

  /**
   * Polls do what feeding their bytes does if and only if at each poll the bytes still held and those
   * that arrive are within the limit: a poll that overflows drops bytes and fails the connection.
   */
  lemma {:induction false} PollsFeedIff(c: Conn, polls: seq<seq<seq<Byte>>>, limit: nat)
    requires NeverEnds(polls) && |c.input| <= limit
    ensures Polls(c, polls, limit) == Feed(c, Bytes(polls)) <==> WithinLimit(c, polls, limit)
    decreases |polls|
  {
    if polls != [] {
      var all := Bytes(polls);
      assert all[0] == Flatten(polls[0]) && all[1..] == Bytes(polls[1..]);
      if |c.input| + |all[0]| <= limit {
        TakeAppends(c, polls[0], limit);
        ParseShrinks(Append(c, all[0]));
        PollsFeedIff(Parse(Append(c, all[0])), polls[1..], limit);
      } else {
        TakeStops(c, polls[0], limit);
        ParseQueues(Append(c, all[0]));
        StaysBehind(Parse(Take(c, polls[0], limit)), Parse(Append(c, all[0])), polls[1..], limit);
      }
    }
  }

  lemma OnePoll(c: Conn, x: seq<Byte>, polls: seq<seq<seq<Byte>>>, limit: nat)
    requires x != [] && |c.input| + |x| <= limit
    ensures Polls(c, [[x]] + polls, limit) == Polls(Parse(Append(c, x)), polls, limit)
  {
    FlattenTwo(x, x);
    TakeAppends(c, [x], limit);
    assert ([[x]] + polls)[0] == [x] && ([[x]] + polls)[1..] == polls;
  }

  lemma GreetedAlone()
    ensures Parse(Append(START, EncodeGreeting([0]))) == Conn(Requesting, [], [5, 0])
  {
    GreetingReadsBack([0], []);
    assert EncodeGreeting([0]) + [] == EncodeGreeting([0]);
  }

  /** The same bytes in two polls and in one: the greeting is answered, or the connection fails without a word. */
  lemma GroupingMatters(rest: seq<Byte>) returns (apart: seq<seq<seq<Byte>>>, together: seq<seq<seq<Byte>>>)
    requires |rest| == 262
    ensures NeverEnds(apart) && NeverEnds(together) && Flatten(Bytes(apart)) == Flatten(Bytes(together))
    ensures Polls(START, together, 262) == Conn(Failed, EncodeGreeting([0]), [])
    ensures |Polls(START, apart, 262).queued| >= 2
  {
    var greeting := EncodeGreeting([0]);
    apart, together := [[greeting]] + ([[rest]] + []), [[greeting, rest]];
    FlattenTwo(greeting, rest);
    FlattenTwo(rest, rest);
    FlattenTwo(greeting + rest, rest);
    assert Bytes(apart) == [greeting, rest] by {
      var tail := apart[1..];
      assert apart[0] == [greeting] && tail == [[rest]] && tail[0] == [rest] && tail[1..] == [];
      assert Bytes(tail) == [Flatten(tail[0])] + Bytes(tail[1..]) == [rest];
      assert Bytes(apart) == [Flatten(apart[0])] + Bytes(tail);
    }
    assert Bytes(together) == [greeting + rest] by {
      assert together[1..] == [];
    }
    var greeted := Conn(Requesting, [], [5, 0]);
    GreetedAlone();
    OnePoll(START, greeting, [[rest]] + [], 262);
    OnePoll(greeted, rest, [], 262);
    ParseQueues(Append(greeted, rest));
    StopsTogether(greeting, rest);
  }

  lemma StopsTogether(greeting: seq<Byte>, rest: seq<Byte>)
    requires |greeting| == 3 && |rest| == 262
    ensures Polls(START, [[greeting, rest]], 262) == Conn(Failed, greeting, [])
  {
    var arrivals := [greeting, rest];
    assert arrivals[1..] == [rest] && [] + greeting == greeting;
    assert Take(START, arrivals, 262) == Conn(Failed, greeting, []);
    var polls := [arrivals];
    assert polls[1..] == [] && polls[0] == arrivals;
  }

  // ------------------------------------------------------------------ a client that follows the protocol

  /** Version identifier and method list, RFC 1928 section 3. */
  function EncodeGreeting(methods: seq<Byte>): seq<Byte>
    requires |methods| < 256
  {
    [5, |methods|] + methods
  }

  lemma GreetingReadsBack(methods: seq<Byte>, rest: seq<Byte>)
    requires |methods| < 256
    ensures ParseGreeting(Append(START, EncodeGreeting(methods) + rest))
         == if 0 in methods then Conn(Requesting, rest, [5, 0])
            else Conn(Failed, EncodeGreeting(methods) + rest, [5, 0xff])
  {
    var input := EncodeGreeting(methods) + rest;
    assert Append(START, input).input == input;
    assert input[2..2 + |methods|] == methods && input[2 + |methods|..] == rest;
  }

  lemma CommandReadsBack(r: Request, payload: seq<Byte>, queued: seq<Byte>)
    requires ValidRequest(r)
    ensures ParseCommand(Conn(Requesting, EncodeRequest(r) + payload, queued)) == Conn(Ready(r), payload, queued)
  {
    LengthOfRequest(r, payload);
    RequestReadsBack(r);
    var input := EncodeRequest(r) + payload;
    assert input[..|EncodeRequest(r)|] == EncodeRequest(r) && input[|EncodeRequest(r)|..] == payload;
  }

  /**
   * However its bytes are cut, a client that offers "no authentication" and sends a valid request gets
   * exactly one two-byte reply, its request is read back and the payload behind it is kept untouched.
   */
  lemma ClientIsServed(methods: seq<Byte>, r: Request, payload: seq<Byte>, pieces: seq<seq<Byte>>)
    requires |methods| < 256 && 0 in methods && ValidRequest(r)
    requires Flatten(pieces) == EncodeGreeting(methods) + EncodeRequest(r) + payload
    ensures Feed(START, pieces) == Conn(Ready(r), payload, [5, 0])
  {
    FragmentationIgnored(pieces, pieces);
    var rest := EncodeRequest(r) + payload;
    assert Flatten(pieces) == EncodeGreeting(methods) + rest;
    GreetingReadsBack(methods, rest);
    CommandReadsBack(r, payload, [5, 0]);
  }

  // ------------------------------------------------------------------ in place

  /** What one write to the client's stream answers. */
  datatype WriteAnswer = Wrote(count: nat) | WouldBlock | WriteFailed

  class ClientConnection {
    var phase: Phase
    var input: seq<Byte>
    var output: seq<Byte>
    var outputOffset: nat
    ghost var written: seq<Byte>

    ghost predicate Valid()
      reads this
    {
      outputOffset <= |output|
    }

    ghost function View(): Conn
      reads this
      requires Valid()
    {
      Conn(phase, input, written + output[outputOffset..])
    }

    constructor ()
      ensures Valid() && View() == START
    {
      phase, input, output, outputOffset, written := Greeting, [], [], 0, [];
    }

    method QueueReply(bytes: seq<Byte>)
      requires Valid()
      modifies `output, `outputOffset
      ensures Valid() && View() == old(View()).(queued := old(View()).queued + bytes)
    {
      if outputOffset == |output| {
        output, outputOffset := [], 0;
      }
      ghost var before := output;
      output := output + bytes;
      assert output[outputOffset..] == before[outputOffset..] + bytes;
    }

    method ParseInput()
      requires Valid()
      modifies this
      ensures Valid() && View() == Parse(old(View())) && written == old(written)
    {
      if phase.Greeting? {
        if |input| < 2 || |input| < 2 + Size(input[1]) {
          return;
        }
        var total := 2 + Size(input[1]);
        if input[0] != 5 || 0 !in input[2..total] {
          QueueReply([5, 0xff]);
          phase := Failed;
          return;
        }
        input := input[total..];
        QueueReply([5, 0]);
        phase := Requesting;
      }
      if phase.Requesting? {
        ParseCommandInput();
      }
    }

    method ParseCommandInput()
      requires Valid()
      modifies this
      ensures Valid() && View() == ParseCommand(old(View())) && written == old(written)
    {
      var length := RequestLength(input);
      if length.None? || |input| < length.value {
        return;
      }
      match ParseRequest(input[..length.value])
      case Ok(request) =>
        input := input[length.value..];
        phase := Ready(request);
      case Err(_) =>
        QueueReply(REFUSAL);
        phase := Failed;
    }

    /** Reply bytes move to the stream in order; none is lost, repeated or added. */
    method WritePending(answers: seq<WriteAnswer>) returns (failed: bool)
      requires Valid()
      modifies `output, `outputOffset, `written
      ensures Valid() && View() == old(View())
      ensures old(written) <= written
    {
      var i := 0;
      while outputOffset < |output| && i < |answers|
        invariant outputOffset <= |output| && written + output[outputOffset..] == old(View()).queued && old(written) <= written
        decreases |answers| - i
      {
        match answers[i] {
          case Wrote(count) =>
            if count == 0 || count > |output| - outputOffset {
              return true;
            }
            assert output[outputOffset..] == output[outputOffset..outputOffset + count] + output[outputOffset + count..];
            written := written + output[outputOffset..outputOffset + count];
            outputOffset := outputOffset + count;
          case WouldBlock => return false;
          case WriteFailed => return true;
        }
        i := i + 1;
      }
      if outputOffset == |output| {
        output, outputOffset := [], 0;
      }
      return false;
    }

    /** One `poll`: everything the stream has, then `parse`, then as much of the replies as the stream takes. */
    method Poll(arrivals: seq<seq<Byte>>, limit: nat, answers: seq<WriteAnswer>) returns (failed: bool)
      requires Valid()
      modifies this
      ensures Valid() && View() == Parse(Take(old(View()), arrivals, limit))
    {
      var i := 0;
      while i < |arrivals|
        invariant i <= |arrivals| && Valid() && output == old(output) && outputOffset == old(outputOffset) && written == old(written)
        invariant Take(View(), arrivals[i..], limit) == Take(old(View()), arrivals, limit)
      {
        if arrivals[i] == [] || |input| + |arrivals[i]| > limit {
          phase := Failed;
          break;
        }
        assert arrivals[i..][1..] == arrivals[i + 1..];
        input := input + arrivals[i];
        i := i + 1;
      }
      assert View() == Take(old(View()), arrivals, limit);
      ParseInput();
      failed := WritePending(answers);
    }
  }
}
