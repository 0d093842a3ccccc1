/** The incremental protocol classifier: TLS, HTTP and SSH from a growing prefix of a stream. */
module Sniff {
  import opened Basics
  import opened Domain
  import Utf8

  datatype Observed =
    | Tls(sni: Option<seq<Byte>>)
    | Http(host: Option<seq<Byte>>)
    | Ssh
    | Quic
    | Unknown

  datatype Classification = NeedMore | Complete(observed: Observed)

  const CR := 0x0d
  const LF := 0x0a
  const CRLF: seq<Byte> := [CR, LF]
  const BLANK_LINE: seq<Byte> := [CR, LF, CR, LF]
  const SSH_DASH: seq<Byte> := [0x53, 0x53, 0x48, 0x2d]

  function Incomplete(complete: bool): Classification {
    if complete then Complete(Unknown) else NeedMore
  }

  function ClassifyTcp(prefix: seq<Byte>, complete: bool): Classification {
    if StartsWith(prefix, SSH_DASH) then
      if IndexOf(prefix, CRLF, 0).Some? then Complete(Ssh) else Incomplete(complete)
    else if prefix != [] && prefix[0] == 0x16 then
      ClassifyTls(prefix, complete)
    else if LooksLikeHttp(prefix) then
      ClassifyHttp(prefix, complete)
    else if complete || |prefix| >= 8 then
      Complete(Unknown)
    else
      NeedMore
  }

  // ------------------------------------------------------------------ TLS

  function U16At(s: seq<Byte>, i: nat): (n: U16)
    requires i + 2 <= |s|
  {
    (s[i] as int) * 256 + s[i + 1]
  }

  function U24At(s: seq<Byte>, i: nat): (n: nat)
    requires i + 3 <= |s|
  {
    ((s[i] as int) * 256 + s[i + 1]) * 256 + s[i + 2]
  }

  function ClassifyTls(prefix: seq<Byte>, complete: bool): Classification {
    if |prefix| < 5 || |prefix| < 5 + U16At(prefix, 3) then Incomplete(complete)
    else Complete(Tls(RecordSni(prefix[5..5 + U16At(prefix, 3)])))
  }

  function RecordSni(record: seq<Byte>): Option<seq<Byte>> {
    if |record| < 4 || record[0] != 1 || U24At(record, 1) + 4 > |record| then None
    else HelloSni(record[4..4 + U24At(record, 1)])
  }

  /** Skips session id, cipher suites and compression methods; the extensions start where it ends. */
  function ExtensionsStart(hello: seq<Byte>): (r: Option<nat>)
    ensures r.Some? ==> 2 <= r.value <= |hello|
  {
    if |hello| <= 34 then None
    else
      var ciphers := 35 + (hello[34] as int);
      if ciphers + 2 > |hello| then None
      else
        var compression := ciphers + 2 + U16At(hello, ciphers);
        if compression >= |hello| then None
        else
          var extensions := compression + 1 + hello[compression];
          if extensions + 2 > |hello| then None else Some(extensions + 2)
  }

  function HelloSni(hello: seq<Byte>): Option<seq<Byte>> {
    var start := ExtensionsStart(hello);
    if start.None? then None
    else
      var end := start.value + U16At(hello, start.value - 2);
      if end > |hello| then None else ScanExtensions(hello, start.value, end)
  }

  function ScanExtensions(hello: seq<Byte>, offset: nat, end: nat): Option<seq<Byte>>
    requires end <= |hello|
    decreases end - offset
  {
    if offset + 4 > end then None
    else
      var next := offset + 4 + U16At(hello, offset + 2);
      if next > |hello| then None
      else if U16At(hello, offset) == 0 then ParseSni(hello[offset + 4..next])
      else ScanExtensions(hello, next, end)
  }

  function ParseSni(extension: seq<Byte>): Option<seq<Byte>> {
    if |extension| < 2 || U16At(extension, 0) + 2 != |extension| then None
    else ScanNames(extension, 2)
  }

  function ScanNames(extension: seq<Byte>, offset: nat): Option<seq<Byte>>
    decreases |extension| - offset
  {
    if offset + 3 > |extension| then None
    else
      var next := offset + 3 + U16At(extension, offset + 1);
      if next > |extension| then None
      else if extension[offset] == 0 then HostName(extension[offset + 3..next])
      else ScanNames(extension, next)
  }

  function HostName(name: seq<Byte>): Option<seq<Byte>> {
    if Utf8.Valid(name) && ValidDomain(ToLower(name)) then Some(ToLower(name)) else None
  }

  /** The walk of `parse_sni` with its mutable offset. */
  method ParseSniLoop(extension: seq<Byte>) returns (sni: Option<seq<Byte>>)
    ensures sni == ParseSni(extension)
  {
    if |extension| < 2 {
      return None;
    }
    var listLength: nat := U16At(extension, 0);
    if listLength + 2 != |extension| {
      return None;
    }
    var offset := 2;
    while offset + 3 <= |extension|
      invariant ScanNames(extension, offset) == ParseSni(extension)
    {
      var kind := extension[offset];
      var length := U16At(extension, offset + 1);
      offset := offset + 3;
      if offset + length > |extension| {
        return None;
      }
      var name := extension[offset..offset + length];
      if kind == 0 {
        return HostName(name);
      }
      offset := offset + length;
    }
    return None;
  }

  /** The walk of `classify_tls`: every read stays in bounds and the loop ends on any input. */
  method ClassifyTlsLoop(prefix: seq<Byte>, complete: bool) returns (r: Classification)
    ensures r == ClassifyTls(prefix, complete)
  {
    if |prefix| < 5 {
      return Incomplete(complete);
    }
    var recordEnd := 5 + U16At(prefix, 3);
    if |prefix| < recordEnd {
      return Incomplete(complete);
    }
    var record := prefix[5..recordEnd];
    if record == [] || record[0] != 1 || |record| < 4 {
      return Complete(Tls(None));
    }
    var handshake := U24At(record, 1);
    if handshake + 4 > |record| {
      return Complete(Tls(None));
    }
    var sni := HelloSniLoop(record[4..4 + handshake]);
    return Complete(Tls(sni));
  }

  method HelloSniLoop(hello: seq<Byte>) returns (sni: Option<seq<Byte>>)
    ensures sni == HelloSni(hello)
  {
    var offset := 35;
    if |hello| <= 34 {
      return None;
    }
    offset := offset + hello[34];
    if offset + 2 > |hello| {
      return None;
    }
    offset := offset + 2 + U16At(hello, offset);
    if offset >= |hello| {
      return None;
    }
    offset := offset + 1 + hello[offset];
    if offset + 2 > |hello| {
      return None;
    }
    var length := U16At(hello, offset);
    offset := offset + 2;
    var end := offset + length;
    if end > |hello| {
      return None;
    }
    while offset + 4 <= end
      invariant ScanExtensions(hello, offset, end) == HelloSni(hello)
    {
      var kind := U16At(hello, offset);
      var size := U16At(hello, offset + 2);
      offset := offset + 4;
      if offset + size > |hello| {
        return None;
      }
      if kind == 0 {
        sni := ParseSniLoop(hello[offset..offset + size]);
        return;
      }
      offset := offset + size;
    }
    return None;
  }

  // ------------------------------------------------------------------ HTTP

  /** GET, POST, PUT, HEAD, DELETE, OPTIONS, PATCH, TRACE and CONNECT, each with its space. */
  const METHODS: seq<seq<Byte>> := [
    [0x47, 0x45, 0x54, 0x20],
    [0x50, 0x4f, 0x53, 0x54, 0x20],
    [0x50, 0x55, 0x54, 0x20],
    [0x48, 0x45, 0x41, 0x44, 0x20],
    [0x44, 0x45, 0x4c, 0x45, 0x54, 0x45, 0x20],
    [0x4f, 0x50, 0x54, 0x49, 0x4f, 0x4e, 0x53, 0x20],
    [0x50, 0x41, 0x54, 0x43, 0x48, 0x20],
    [0x54, 0x52, 0x41, 0x43, 0x45, 0x20],
    [0x43, 0x4f, 0x4e, 0x4e, 0x45, 0x43, 0x54, 0x20]]

  const HTTP_1_0: seq<Byte> := [0x20, 0x48, 0x54, 0x54, 0x50, 0x2f, 0x31, 0x2e, 0x30]
  const HTTP_1_1: seq<Byte> := [0x20, 0x48, 0x54, 0x54, 0x50, 0x2f, 0x31, 0x2e, 0x31]
  const HOST: seq<Byte> := [0x68, 0x6f, 0x73, 0x74]

  predicate LooksLikeHttp(prefix: seq<Byte>) {
    exists i :: 0 <= i < |METHODS| && (StartsWith(METHODS[i], prefix) || StartsWith(prefix, METHODS[i]))
  }

  function ClassifyHttp(prefix: seq<Byte>, complete: bool): Classification {
    match IndexOf(prefix, BLANK_LINE, 0)
    case None => Incomplete(complete)
    case Some(end) => Complete(HttpVerdict(prefix[..end + 4]))
  }

  function HttpVerdict(header: seq<Byte>): Observed {
    var lines := Lines(header);
    if !Utf8.Valid(header) || !(EndsWith(lines[0], HTTP_1_0) || EndsWith(lines[0], HTTP_1_1)) then Unknown
    else Http(FirstHost(lines[1..]))
  }

  /** `split("\r\n")`. */
  function Lines(s: seq<Byte>): (lines: seq<seq<Byte>>)
    ensures lines != []
    decreases |s|
  {
    match IndexOf(s, CRLF, 0)
    case None => [s]
    case Some(i) => [s[..i]] + Lines(s[i + 2..])
  }

  /** `find_map` over the header lines: a host that does not normalise is skipped. */
  function FirstHost(lines: seq<seq<Byte>>): Option<seq<Byte>> {
    if lines == [] then None
    else if HostOf(lines[0]).Some? then HostOf(lines[0])
    else FirstHost(lines[1..])
  }

  function HostOf(line: seq<Byte>): Option<seq<Byte>> {
    match IndexOf(line, [0x3a], 0)
    case None => None
    case Some(i) => if ToLower(line[..i]) == HOST then NormalizeHost(Trim(line[i + 1..])) else None
  }

  /** Drops the port, or the brackets around a literal, and checks the name. */
  function NormalizeHost(value: seq<Byte>): Option<seq<Byte>> {
    if value != [] && value[0] == 0x5b then
      match IndexOf(value, [0x5d], 0)
      case None => None
      case Some(i) => CheckedHost(TrimBrackets(value[..i]))
    else
      match IndexOf(value, [0x3a], 0)
      case None => CheckedHost(value)
      case Some(i) => CheckedHost(value[..i])
  }

  function CheckedHost(host: seq<Byte>): Option<seq<Byte>> {
    if ValidDomain(ToLower(host)) then Some(ToLower(host)) else None
  }

  function TrimBrackets(s: seq<Byte>): seq<Byte> {
    if s != [] && s[0] == 0x5b then TrimBrackets(s[1..]) else s
  }

  /** `str::trim`: Unicode white space at either end, in its UTF-8 encoding. */
  function Trim(s: seq<Byte>): seq<Byte> {
    TrimEnd(TrimStart(s))
  }

  function TrimStart(s: seq<Byte>): seq<Byte>
    decreases |s|
  {
    var w := SpaceWidth(s);
    if w == 0 then s else TrimStart(s[w..])
  }

  function TrimEnd(s: seq<Byte>): seq<Byte>
    decreases |s|
  {
    if |s| >= 1 && SpaceWidth(s[|s| - 1..]) == 1 then TrimEnd(s[..|s| - 1])
    else if |s| >= 2 && SpaceWidth(s[|s| - 2..]) == 2 then TrimEnd(s[..|s| - 2])
    else if |s| >= 3 && SpaceWidth(s[|s| - 3..]) == 3 then TrimEnd(s[..|s| - 3])
    else s
  }

  /** Length of the white-space character at the head of `s`, or 0. */
  function SpaceWidth(s: seq<Byte>): (w: nat)
    ensures w <= |s|
  {
    if |s| >= 1 && (9 <= s[0] <= 13 || s[0] == 32) then 1
    else if |s| >= 2 && s[0] == 0xc2 && (s[1] == 0x85 || s[1] == 0xa0) then 2
    else if |s| >= 3 && WideSpace(s[0], s[1], s[2]) then 3
    else 0
  }

  predicate WideSpace(a: Byte, b: Byte, c: Byte) {
    || (a == 0xe1 && b == 0x9a && c == 0x80)
    || (a == 0xe2 && b == 0x80 && (0x80 <= c <= 0x8a || c == 0xa8 || c == 0xa9 || c == 0xaf))
    || (a == 0xe2 && b == 0x81 && c == 0x9f)
    || (a == 0xe3 && b == 0x80 && c == 0x80)
  }

  // ------------------------------------------------------------------ stability

  /** Told that no more bytes will come, the classifier always decides. */
  lemma CompleteDecides(prefix: seq<Byte>)
    ensures ClassifyTcp(prefix, true).Complete?
  {
  }

  lemma PrefixOfSum(p: seq<Byte>, more: seq<Byte>, head: seq<Byte>)
    requires |head| <= |p|
    ensures StartsWith(p + more, head) == StartsWith(p, head)
  {
    assert (p + more)[..|head|] == p[..|head|];
  }

  lemma SshStable(p: seq<Byte>, more: seq<Byte>, complete: bool)
    requires StartsWith(p, SSH_DASH) && ClassifyTcp(p, false).Complete?
    ensures ClassifyTcp(p + more, complete) == ClassifyTcp(p, false)
  {
    PrefixOfSum(p, more, SSH_DASH);
    IndexOfStable(p, CRLF, 0, more);
  }

  lemma TlsStable(p: seq<Byte>, more: seq<Byte>, complete: bool)
    requires ClassifyTls(p, false).Complete?
    ensures ClassifyTls(p + more, complete) == ClassifyTls(p, false)
  {
    var end := 5 + U16At(p, 3);
    assert U16At(p + more, 3) == U16At(p, 3);
    assert (p + more)[5..end] == p[5..end];
  }

  lemma HttpStable(p: seq<Byte>, more: seq<Byte>, complete: bool)
    requires ClassifyHttp(p, false).Complete?
    ensures ClassifyHttp(p + more, complete) == ClassifyHttp(p, false)
  {
    IndexOfStable(p, BLANK_LINE, 0, more);
    var end := IndexOf(p, BLANK_LINE, 0).value;
    assert (p + more)[..end + 4] == p[..end + 4];
  }

  lemma MethodBytes(i: nat)
    requires i < |METHODS|
    ensures 4 <= |METHODS[i]| <= 8 && METHODS[i][0] != SSH_DASH[0]
    ensures forall k :: 0 <= k < |METHODS[i]| ==> METHODS[i][k] != CR
  {
  }

  /** Text with a blank line is no beginning of a method. */
  lemma BlankLineIsNoMethod(p: seq<Byte>, i: nat)
    requires IndexOf(p, BLANK_LINE, 0).Some? && i < |METHODS|
    ensures !StartsWith(METHODS[i], p)
  {
    MethodBytes(i);
    var at := IndexOf(p, BLANK_LINE, 0).value;
    assert p[at] == p[at..at + 4][0] == CR;
    StartsWithBytes(METHODS[i], p);
  }

  lemma LooksLikeHttpStable(p: seq<Byte>, more: seq<Byte>)
    requires IndexOf(p, BLANK_LINE, 0).Some? && LooksLikeHttp(p)
    ensures LooksLikeHttp(p + more)
  {
    var i :| 0 <= i < |METHODS| && (StartsWith(METHODS[i], p) || StartsWith(p, METHODS[i]));
    BlankLineIsNoMethod(p, i);
    PrefixOfSum(p, more, METHODS[i]);
  }

  /** Eight bytes settle whether a stream can be HTTP. */
  lemma NotHttpStable(p: seq<Byte>, more: seq<Byte>)
    requires |p| >= 8 && LooksLikeHttp(p + more)
    ensures LooksLikeHttp(p)
  {
    var i :| 0 <= i < |METHODS| && (StartsWith(METHODS[i], p + more) || StartsWith(p + more, METHODS[i]));
    MethodBytes(i);
    if StartsWith(p + more, METHODS[i]) {
      PrefixOfSum(p, more, METHODS[i]);
    } else {
      assert p + more == p;
    }
  }

  /** A verdict reached on a prefix is the verdict on every longer prefix. */
  lemma VerdictStable(p: seq<Byte>, more: seq<Byte>, complete: bool)
    requires ClassifyTcp(p, false).Complete?
    ensures ClassifyTcp(p + more, complete) == ClassifyTcp(p, false)
  {
    if StartsWith(p, SSH_DASH) {
      SshStable(p, more, complete);
    } else {
      assert p != [] by { EmptyNeedsMore(); }
      assert (p + more)[0] == p[0];
      if p[0] == 0x16 {
        TlsStable(p, more, complete);
        assert !StartsWith(p + more, SSH_DASH) by { assert (p + more)[..4][0] == 0x16; }
      } else if LooksLikeHttp(p) {
        LooksLikeHttpStable(p, more);
        HttpStable(p, more, complete);
        HttpIsNotSsh(p + more);
      } else {
        PrefixOfSum(p, more, SSH_DASH);
        if LooksLikeHttp(p + more) {
          NotHttpStable(p, more);
        }
      }
    }
  }

  lemma EmptyNeedsMore()
    ensures ClassifyTcp([], false) == NeedMore
  {
    assert StartsWith(METHODS[0], []);
    assert LooksLikeHttp([]);
  }

  lemma HttpIsNotSsh(p: seq<Byte>)
    requires LooksLikeHttp(p)
    ensures !StartsWith(p, SSH_DASH)
  {
    if p != [] {
      var i :| 0 <= i < |METHODS| && (StartsWith(METHODS[i], p) || StartsWith(p, METHODS[i]));
      MethodBytes(i);
      StartsWithBytes(METHODS[i], p);
      StartsWithBytes(p, METHODS[i]);
      StartsWithBytes(p, SSH_DASH);
    }
  }
}
