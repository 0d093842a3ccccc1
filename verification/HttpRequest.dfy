/** An HTTP/1 request head as a client writes it, and the proof that the classifier reads its host. */
module HttpRequest {
  import opened Basics
  import opened Domain
  import opened Sniff
  import Utf8

  /** Lines as they stand in a request head: not empty, no carriage return inside. */
  predicate Line(s: seq<Byte>) {
    s != [] && forall i :: 0 <= i < |s| ==> s[i] != CR
  }

  predicate AllLines(lines: seq<seq<Byte>>) {
    forall i :: 0 <= i < |lines| ==> Line(lines[i])
  }

  function Join(lines: seq<seq<Byte>>): seq<Byte> {
    if lines == [] then [] else lines[0] + CRLF + Join(lines[1..])
  }

  /** Request line and header lines, closed by an empty line. */
  function EncodeHead(lines: seq<seq<Byte>>): seq<Byte> {
    Join(lines) + CRLF
  }

  predicate RequestLine(s: seq<Byte>) {
    && Line(s)
    && (exists i :: 0 <= i < |METHODS| && StartsWith(s, METHODS[i]))
    && (EndsWith(s, HTTP_1_0) || EndsWith(s, HTTP_1_1))
  }

  // ------------------------------------------------------------------ the blank line ends the head

  lemma NoMatchWithoutCr(s: seq<Byte>, needle: seq<Byte>, j: nat)
    requires needle != [] && needle[0] == CR && j < |s| && s[j] != CR
    ensures !MatchesAt(s, needle, j)
  {
    if j + |needle| <= |s| {
      assert s[j..j + |needle|][0] == s[j];
    }
  }

  lemma ShiftMatch(head: seq<Byte>, rest: seq<Byte>, needle: seq<Byte>, j: nat)
    requires j >= |head|
    ensures MatchesAt(head + rest, needle, j) == MatchesAt(rest, needle, j - |head|)
  {
    if j + |needle| <= |head + rest| {
      assert (head + rest)[j..j + |needle|] == rest[j - |head|..j - |head| + |needle|];
    }
  }

  /** Inside the head, before its last line break, there is no blank line. */
  lemma {:induction false} NoEarlyBlank(lines: seq<seq<Byte>>, rest: seq<Byte>, j: nat)
    requires lines != [] && AllLines(lines) && j < |Join(lines)| - 2
    ensures !MatchesAt(Join(lines) + rest, BLANK_LINE, j)
    decreases |lines|
  {
    var s := Join(lines) + rest;
    var first := lines[0];
    var tail := Join(lines[1..]) + rest;
    assert s == (first + CRLF) + tail;
    if j < |first| {
      assert s[j] == first[j];
      NoMatchWithoutCr(s, BLANK_LINE, j);
    } else if j == |first| {
      assert lines[1..] != [];
      assert Join(lines[1..])[0] == lines[1][0];
      assert s[j + 2] == lines[1][0];
      if j + 4 <= |s| { assert s[j..j + 4][2] == s[j + 2]; }
    } else if j == |first| + 1 {
      assert s[j] == LF;
      NoMatchWithoutCr(s, BLANK_LINE, j);
    } else {
      ShiftMatch(first + CRLF, tail, BLANK_LINE, j);
      NoEarlyBlank(lines[1..], rest, j - |first| - 2);
    }
  }

  /** Join ends with a line break. */
  lemma {:induction false} JoinEnds(lines: seq<seq<Byte>>)
    requires lines != []
    ensures |Join(lines)| >= 2 && Join(lines)[|Join(lines)| - 2..] == CRLF
    decreases |lines|
  {
    if |lines| > 1 {
      JoinEnds(lines[1..]);
      var tail := Join(lines[1..]);
      assert Join(lines)[|Join(lines)| - 2..] == tail[|tail| - 2..];
    } else {
      assert Join(lines[1..]) == [];
      assert Join(lines) == lines[0] + CRLF;
    }
  }

  lemma HeadEnd(lines: seq<seq<Byte>>, body: seq<Byte>)
    requires lines != [] && AllLines(lines)
    ensures IndexOf(EncodeHead(lines) + body, BLANK_LINE, 0) == Some(|Join(lines)| - 2)
  {
    JoinEnds(lines);
    var s := EncodeHead(lines) + body;
    var end := |Join(lines)| - 2;
    assert s == Join(lines) + (CRLF + body);
    assert s[end..end + 4] == Join(lines)[end..] + CRLF;
    forall j | 0 <= j < end
      ensures !MatchesAt(s, BLANK_LINE, j)
    {
      NoEarlyBlank(lines, CRLF + body, j);
    }
    IndexOfUnique(s, BLANK_LINE, 0, end);
  }

  // ------------------------------------------------------------------ splitting inverts joining

  lemma FirstBreak(line: seq<Byte>, rest: seq<Byte>)
    requires forall i :: 0 <= i < |line| ==> line[i] != CR
    ensures IndexOf(line + CRLF + rest, CRLF, 0) == Some(|line|)
  {
    var s := line + CRLF + rest;
    assert s[|line|..|line| + 2] == CRLF;
    forall j | 0 <= j < |line|
      ensures !MatchesAt(s, CRLF, j)
    {
      assert s[j] == line[j];
      NoMatchWithoutCr(s, CRLF, j);
    }
    IndexOfUnique(s, CRLF, 0, |line|);
  }

  lemma {:induction false} LinesOfHead(lines: seq<seq<Byte>>)
    requires AllLines(lines)
    ensures Lines(EncodeHead(lines)) == lines + [[], []]
    decreases |lines|
  {
    if lines == [] {
      FirstBreak([], []);
      assert EncodeHead([]) == [] + CRLF + [];
      assert CRLF[2..] == [];
    } else {
      var s, tail := EncodeHead(lines), EncodeHead(lines[1..]);
      assert s == lines[0] + CRLF + tail;
      FirstBreak(lines[0], tail);
      assert s[..|lines[0]|] == lines[0] && s[|lines[0]| + 2..] == tail;
      LinesOfHead(lines[1..]);
    }
  }

  lemma {:induction false} BlankLinesHaveNoHost(lines: seq<seq<Byte>>)
    ensures FirstHost(lines + [[], []]) == FirstHost(lines)
    decreases |lines|
  {
    if lines == [] {
      var blank: seq<seq<Byte>> := [[], []];
      assert lines + [[], []] == blank;
      assert blank[1..][1..] == [];
    } else {
      assert (lines + [[], []])[1..] == lines[1..] + [[], []];
      BlankLinesHaveNoHost(lines[1..]);
    }
  }

  /**
   * Reading inverts writing: for every request line and header lines, whatever body follows, the
   * classifier answers with the first header that carries a usable host.
   */
  lemma HeadReadsBack(request: seq<Byte>, headers: seq<seq<Byte>>, body: seq<Byte>, complete: bool)
    requires RequestLine(request) && AllLines(headers) && Utf8.Valid(EncodeHead([request] + headers))
    ensures ClassifyTcp(EncodeHead([request] + headers) + body, complete) == Complete(Http(FirstHost(headers)))
  {
    var lines := [request] + headers;
    var head := EncodeHead(lines);
    HeadEnd(lines, body);
    assert (head + body)[..|head|] == head;
    LinesOfHead(lines);
    assert (lines + [[], []])[0] == request && (lines + [[], []])[1..] == headers + [[], []];
    BlankLinesHaveNoHost(headers);
    IsHttp(request, head + body);
  }

  lemma IsHttp(request: seq<Byte>, s: seq<Byte>)
    requires RequestLine(request) && IsPrefix(request, s)
    ensures LooksLikeHttp(s) && !StartsWith(s, SSH_DASH) && s[0] != 0x16
  {
    var i :| 0 <= i < |METHODS| && StartsWith(request, METHODS[i]);
    assert s[..|METHODS[i]|] == request[..|METHODS[i]|];
    assert StartsWith(s, METHODS[i]);
    HttpIsNotSsh(s);
    StartsWithBytes(s, METHODS[i]);
    assert METHODS[i][0] != 0x16;
  }

  // ------------------------------------------------------------------ the host header

  lemma {:induction false} TrimStartSpaces(spaces: seq<Byte>, value: seq<Byte>)
    requires forall i :: 0 <= i < |spaces| ==> spaces[i] == 32 || spaces[i] == 9
    requires value != [] && SpaceWidth(value) == 0
    ensures TrimStart(spaces + value) == value
    decreases |spaces|
  {
    if spaces == [] {
      assert spaces + value == value;
    } else {
      assert (spaces + value)[0] == spaces[0] && (spaces + value)[1..] == spaces[1..] + value;
      TrimStartSpaces(spaces[1..], value);
    }
  }

  /** No white space, of any width, ends in a letter or digit. */
  lemma NoSpaceEndsAlphanumeric(s: seq<Byte>)
    requires 1 <= |s| <= 3 && Alphanumeric(s[|s| - 1])
    ensures SpaceWidth(s) != |s|
  {
  }

  lemma {:induction false} TrimEndKeeps(value: seq<Byte>)
    requires value != [] && Alphanumeric(value[|value| - 1])
    ensures TrimEnd(value) == value
  {
    NoSpaceEndsAlphanumeric(value[|value| - 1..]);
    if |value| >= 2 { NoSpaceEndsAlphanumeric(value[|value| - 2..]); }
    if |value| >= 3 { NoSpaceEndsAlphanumeric(value[|value| - 3..]); }
  }

  lemma FirstColon(name: seq<Byte>, rest: seq<Byte>)
    requires forall i :: 0 <= i < |name| ==> name[i] != 0x3a
    ensures IndexOf(name + [0x3a] + rest, [0x3a], 0) == Some(|name|)
    ensures IndexOf(name, [0x3a], 0) == None
  {
    var s := name + [0x3a] + rest;
    assert s[|name|..|name| + 1] == [0x3a];
    forall j | 0 <= j < |name|
      ensures !MatchesAt(s, [0x3a], j) && !MatchesAt(name, [0x3a], j)
    {
      assert s[j..j + 1][0] == name[j] && name[j..j + 1][0] == name[j];
    }
    IndexOfUnique(s, [0x3a], 0, |name|);
  }

  /** "Host:" in any case, blanks, a domain in any case and an optional port. */
  predicate HostHeader(name: seq<Byte>, blanks: seq<Byte>, host: seq<Byte>, port: seq<Byte>) {
    && ToLower(name) == HOST
    && (forall i :: 0 <= i < |blanks| ==> blanks[i] == 32 || blanks[i] == 9)
    && ValidDomain(ToLower(host))
    && (port == [] || (port[0] == 0x3a && Alphanumeric(port[|port| - 1])))
  }

  lemma HostHeaderReadsBack(name: seq<Byte>, blanks: seq<Byte>, host: seq<Byte>, port: seq<Byte>)
    requires HostHeader(name, blanks, host, port)
    ensures HostOf(name + [0x3a] + (blanks + (host + port))) == Some(ToLower(host))
  {
    assert |name| == 4;
    forall i | 0 <= i < |name|
      ensures name[i] != 0x3a
    {
      assert ToLower(name)[i] == Lower(name[i]);
      assert HOST[i] != 0x3a;
    }
    FirstColon(name, blanks + (host + port));
    var line := name + [0x3a] + (blanks + (host + port));
    assert line[..4] == name && line[5..] == blanks + (host + port);
    DomainEdges(host);
    TrimStartSpaces(blanks, host + port);
    assert port == [] ==> host + port == host;
    TrimEndKeeps(host + port);
    HostWithPort(host, port);
  }

  /** A domain starts and ends with a letter or digit and holds no colon or bracket. */
  lemma DomainEdges(host: seq<Byte>)
    requires ValidDomain(ToLower(host))
    ensures host != [] && Alphanumeric(host[0]) && Alphanumeric(host[|host| - 1])
    ensures forall i :: 0 <= i < |host| ==> host[i] != 0x3a && host[i] != 0x5b
  {
    var low := ToLower(host);
    DomainBytes(low);
    LabelEdges(low);
    forall i | 0 <= i < |host|
      ensures host[i] != 0x3a && host[i] != 0x5b
    {
      assert low[i] == Lower(host[i]);
    }
    assert low[0] == Lower(host[0]) && low[|host| - 1] == Lower(host[|host| - 1]);
  }

  lemma {:induction false} LabelEdges(domain: seq<Byte>)
    requires ValidLabels(domain)
    ensures domain != [] && Alphanumeric(domain[0]) && Alphanumeric(domain[|domain| - 1])
    decreases |domain|
  {
    var dot := IndexOf(domain, [0x2e], 0);
    if dot.Some? {
      var i := dot.value;
      LabelEdges(domain[i + 1..]);
      assert domain[..i][0] == domain[0];
      assert domain[i + 1..][|domain| - i - 2] == domain[|domain| - 1];
    }
  }

  lemma HostWithPort(host: seq<Byte>, port: seq<Byte>)
    requires ValidDomain(ToLower(host)) && host != [] && forall i :: 0 <= i < |host| ==> host[i] != 0x3a && host[i] != 0x5b
    requires port == [] || port[0] == 0x3a
    ensures NormalizeHost(host + port) == Some(ToLower(host))
  {
    var rest := if port == [] then [] else port[1..];
    FirstColon(host, rest);
    if port == [] {
      assert host + port == host;
    } else {
      assert host + port == host + [0x3a] + rest;
      assert (host + port)[..|host|] == host;
    }
  }

  lemma {:induction false} SkipsOtherHeaders(before: seq<seq<Byte>>, line: seq<Byte>, after: seq<seq<Byte>>)
    requires HostOf(line).Some? && forall i :: 0 <= i < |before| ==> HostOf(before[i]).None?
    ensures FirstHost(before + [line] + after) == HostOf(line)
    decreases |before|
  {
    var all := before + [line] + after;
    if before == [] {
      assert all[0] == line;
    } else {
      assert all[0] == before[0] && all[1..] == before[1..] + [line] + after;
      SkipsOtherHeaders(before[1..], line, after);
    }
  }

  /** The host of a request is found behind any other headers, without its port, in lower case. */
  lemma FindsTheHost(request: seq<Byte>, before: seq<seq<Byte>>, after: seq<seq<Byte>>, body: seq<Byte>, complete: bool,
                     name: seq<Byte>, blanks: seq<Byte>, host: seq<Byte>, port: seq<Byte>)
    requires HostHeader(name, blanks, host, port) && RequestLine(request)
    requires forall i :: 0 <= i < |before| ==> HostOf(before[i]).None?
    requires var headers := before + [name + [0x3a] + (blanks + (host + port))] + after;
             AllLines(headers) && Utf8.Valid(EncodeHead([request] + headers))
    ensures var headers := before + [name + [0x3a] + (blanks + (host + port))] + after;
            ClassifyTcp(EncodeHead([request] + headers) + body, complete) == Complete(Http(Some(ToLower(host))))
  {
    var line := name + [0x3a] + (blanks + (host + port));
    HostHeaderReadsBack(name, blanks, host, port);
    SkipsOtherHeaders(before, line, after);
    HeadReadsBack(request, before + [line] + after, body, complete);
  }
}
