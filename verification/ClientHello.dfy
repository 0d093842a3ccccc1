/**
 * The TLS ClientHello as a client writes it (section 4.1.2 of RFC 8446, section 3 of RFC 6066), and
 * the proof that the classifier reads it back.
 */
module ClientHello {
  import opened Basics
  import opened Domain
  import opened Sniff
  import Utf8

  datatype Name = Name(kind: Byte, bytes: seq<Byte>)

  datatype Extension = Extension(kind: U16, body: seq<Byte>)

  datatype Hello = Hello(
    version: seq<Byte>,
    random: seq<Byte>,
    session: seq<Byte>,
    ciphers: seq<Byte>,
    compression: seq<Byte>,
    extensions: seq<Extension>)

  // ------------------------------------------------------------------ encoding

  function E16(n: int): (b: seq<Byte>)
    requires 0 <= n <= 0xffff
    ensures |b| == 2
  {
    [n / 256, n % 256]
  }

  function E24(n: int): (b: seq<Byte>)
    requires 0 <= n <= 0xff_ffff
    ensures |b| == 3
  {
    [n / 256 / 256, n / 256 % 256, n % 256]
  }

  predicate Short(bytes: seq<Byte>) {
    |bytes| <= 0xffff
  }

  function EncodeName(n: Name): seq<Byte>
    requires Short(n.bytes)
  {
    [n.kind] + E16(|n.bytes|) + n.bytes
  }

  predicate ShortNames(names: seq<Name>) {
    forall i :: 0 <= i < |names| ==> Short(names[i].bytes)
  }

  function EncodeNames(names: seq<Name>): seq<Byte>
    requires ShortNames(names)
  {
    if names == [] then [] else EncodeName(names[0]) + EncodeNames(names[1..])
  }

  /** The body of a server_name extension. */
  function NameList(names: seq<Name>): seq<Byte>
    requires ShortNames(names) && Short(EncodeNames(names))
  {
    E16(|EncodeNames(names)|) + EncodeNames(names)
  }

  function EncodeExtension(e: Extension): seq<Byte>
    requires Short(e.body)
  {
    E16(e.kind) + E16(|e.body|) + e.body
  }

  predicate ShortExtensions(es: seq<Extension>) {
    forall i :: 0 <= i < |es| ==> Short(es[i].body)
  }

  function EncodeExtensions(es: seq<Extension>): seq<Byte>
    requires ShortExtensions(es)
  {
    if es == [] then [] else EncodeExtension(es[0]) + EncodeExtensions(es[1..])
  }

  predicate Encodable(h: Hello) {
    && |h.version| == 2 && |h.random| == 32 && |h.session| <= 255 && Short(h.ciphers) && |h.compression| <= 255
    && ShortExtensions(h.extensions) && Short(EncodeExtensions(h.extensions))
  }

  /** Everything in front of the length of the extensions. */
  function EncodeFront(h: Hello): seq<Byte>
    requires Encodable(h)
  {
    h.version + h.random + [|h.session|] + h.session + E16(|h.ciphers|) + h.ciphers + [|h.compression|] + h.compression
  }

  function EncodeHello(h: Hello): seq<Byte>
    requires Encodable(h)
  {
    var extensions := EncodeExtensions(h.extensions);
    EncodeFront(h) + E16(|extensions|) + extensions
  }

  predicate FitsOneRecord(h: Hello) {
    Encodable(h) && |EncodeHello(h)| + 4 <= 0xffff
  }

  function EncodeRecord(h: Hello, recordVersion: seq<Byte>): seq<Byte>
    requires FitsOneRecord(h) && |recordVersion| == 2
  {
    var hello := EncodeHello(h);
    [0x16] + recordVersion + E16(|hello| + 4) + ([1] + E24(|hello|) + hello)
  }

  // ------------------------------------------------------------------ what it should say

  /** The first host_name of a name list. */
  function FirstHostName(names: seq<Name>): Option<seq<Byte>> {
    if names == [] then None
    else if names[0].kind == 0 then HostName(names[0].bytes)
    else FirstHostName(names[1..])
  }

  /** The name in the first server_name extension. */
  function FirstServerName(es: seq<Extension>): Option<seq<Byte>> {
    if es == [] then None
    else if es[0].kind == 0 then ParseSni(es[0].body)
    else FirstServerName(es[1..])
  }

  // ------------------------------------------------------------------ reading back

  lemma Read16(pre: seq<Byte>, n: int, post: seq<Byte>)
    requires 0 <= n <= 0xffff
    ensures U16At(pre + E16(n) + post, |pre|) == n
  {
  }

  lemma NameAt(extension: seq<Byte>, pre: seq<Byte>, n: Name, rest: seq<Byte>)
    requires Short(n.bytes) && extension == pre + (EncodeName(n) + rest)
    ensures |pre| + 3 + |n.bytes| <= |extension| && extension[|pre|] == n.kind
    ensures U16At(extension, |pre| + 1) == |n.bytes|
    ensures extension[|pre| + 3..|pre| + 3 + |n.bytes|] == n.bytes
    ensures extension == (pre + EncodeName(n)) + rest
  {
    assert extension == (pre + [n.kind]) + E16(|n.bytes|) + (n.bytes + rest);
    Read16(pre + [n.kind], |n.bytes|, n.bytes + rest);
  }

  lemma {:induction false} ScanNamesFinds(extension: seq<Byte>, pre: seq<Byte>, names: seq<Name>)
    requires ShortNames(names) && extension == pre + EncodeNames(names)
    ensures ScanNames(extension, |pre|) == FirstHostName(names)
    decreases |names|
  {
    if names != [] {
      NameAt(extension, pre, names[0], EncodeNames(names[1..]));
      ScanNamesFinds(extension, pre + EncodeName(names[0]), names[1..]);
    }
  }

  lemma NameListParses(names: seq<Name>)
    requires ShortNames(names) && Short(EncodeNames(names))
    ensures ParseSni(NameList(names)) == FirstHostName(names)
  {
    var pre := E16(|EncodeNames(names)|);
    ScanNamesFinds(NameList(names), pre, names);
  }

  lemma ExtensionAt(hello: seq<Byte>, pre: seq<Byte>, e: Extension, rest: seq<Byte>)
    requires Short(e.body) && hello == pre + (EncodeExtension(e) + rest)
    ensures |pre| + 4 + |e.body| <= |hello|
    ensures U16At(hello, |pre|) == e.kind && U16At(hello, |pre| + 2) == |e.body|
    ensures hello[|pre| + 4..|pre| + 4 + |e.body|] == e.body
    ensures hello == (pre + EncodeExtension(e)) + rest
  {
    assert hello == pre + E16(e.kind) + (E16(|e.body|) + e.body + rest);
    Read16(pre, e.kind, E16(|e.body|) + e.body + rest);
    assert hello == (pre + E16(e.kind)) + E16(|e.body|) + (e.body + rest);
    Read16(pre + E16(e.kind), |e.body|, e.body + rest);
  }

  lemma {:induction false} ScanExtensionsFinds(hello: seq<Byte>, pre: seq<Byte>, es: seq<Extension>)
    requires ShortExtensions(es) && hello == pre + EncodeExtensions(es)
    ensures ScanExtensions(hello, |pre|, |hello|) == FirstServerName(es)
    decreases |es|
  {
    if es == [] {
      assert hello == pre;
    } else {
      ExtensionAt(hello, pre, es[0], EncodeExtensions(es[1..]));
      if es[0].kind != 0 {
        var longer := pre + EncodeExtension(es[0]);
        assert |longer| == |pre| + 4 + |es[0].body|;
        ScanExtensionsFinds(hello, longer, es[1..]);
      }
    }
  }

  function AfterSession(h: Hello): seq<Byte>
    requires |h.session| <= 255
  {
    h.version + h.random + [|h.session|] + h.session
  }

  /** The hello split around its cipher length and around its compression length. */
  lemma FrontShape(h: Hello, tail: seq<Byte>)
    requires Encodable(h)
    ensures var front := EncodeFront(h) + tail;
            && front == AfterSession(h) + E16(|h.ciphers|) + (h.ciphers + ([|h.compression|] + (h.compression + tail)))
            && front == (AfterSession(h) + E16(|h.ciphers|) + h.ciphers) + ([|h.compression|] + (h.compression + tail))
  {
  }

  /** Session id, cipher suites and compression methods are skipped exactly. */
  lemma SkipsFront(h: Hello)
    requires Encodable(h)
    ensures ExtensionsStart(EncodeHello(h)) == Some(|EncodeFront(h)| + 2)
  {
    var hello := EncodeHello(h);
    var tail := E16(|EncodeExtensions(h.extensions)|) + EncodeExtensions(h.extensions);
    assert hello == EncodeFront(h) + tail;
    FrontShape(h, tail);
    SessionLength(h, hello);
    Read16(AfterSession(h), |h.ciphers|, h.ciphers + ([|h.compression|] + (h.compression + tail)));
    assert hello[|AfterSession(h)| + 2 + |h.ciphers|] == |h.compression|;
  }

  lemma SessionLength(h: Hello, hello: seq<Byte>)
    requires |h.version| == 2 && |h.random| == 32 && |h.session| <= 255 && IsPrefix(AfterSession(h), hello)
    ensures |hello| > 34 && hello[34] == |h.session| && |AfterSession(h)| == 35 + |h.session|
  {
    assert AfterSession(h)[34] == |h.session|;
    assert hello[..|AfterSession(h)|][34] == hello[34];
  }

  lemma HelloReadsBack(h: Hello)
    requires Encodable(h)
    ensures HelloSni(EncodeHello(h)) == FirstServerName(h.extensions)
  {
    var extensions := EncodeExtensions(h.extensions);
    SkipsFront(h);
    assert EncodeHello(h) == EncodeFront(h) + E16(|extensions|) + extensions;
    Read16(EncodeFront(h), |extensions|, extensions);
    ScanExtensionsFinds(EncodeHello(h), EncodeFront(h) + E16(|extensions|), h.extensions);
  }

  lemma Read24(n: int, post: seq<Byte>)
    requires 0 <= n <= 0xff_ffff
    ensures U24At([1] + E24(n) + post, 1) == n
  {
  }

  /**
   * Parsing inverts encoding: for every ClientHello that fits one record the classifier answers with
   * the first server name, whatever follows the record and whether or not more bytes may come.
   */
  lemma RecordReadsBack(h: Hello, recordVersion: seq<Byte>, trailing: seq<Byte>, complete: bool)
    requires FitsOneRecord(h) && |recordVersion| == 2
    ensures ClassifyTcp(EncodeRecord(h, recordVersion) + trailing, complete)
            == Complete(Tls(FirstServerName(h.extensions)))
  {
    var hello := EncodeHello(h);
    var handshake := [1] + E24(|hello|) + hello;
    var bytes := EncodeRecord(h, recordVersion) + trailing;
    assert bytes == ([0x16] + recordVersion) + E16(|handshake|) + (handshake + trailing);
    RecordAt(bytes, [0x16] + recordVersion, handshake, trailing);
    Read24(|hello|, hello);
    assert handshake[4..4 + |hello|] == hello;
    HelloReadsBack(h);
    StartsWithBytes(bytes, SSH_DASH);
  }

  lemma RecordAt(bytes: seq<Byte>, head: seq<Byte>, record: seq<Byte>, trailing: seq<Byte>)
    requires |head| == 3 && Short(record) && bytes == head + E16(|record|) + (record + trailing)
    ensures |bytes| >= 5 + |record| && U16At(bytes, 3) == |record| && bytes[5..5 + |record|] == record
  {
    Read16(head, |record|, record + trailing);
  }

  // ------------------------------------------------------------------ the first host name

  lemma {:induction false} SkipsOtherExtensions(before: seq<Extension>, e: Extension, after: seq<Extension>)
    requires e.kind == 0 && forall i :: 0 <= i < |before| ==> before[i].kind != 0
    ensures FirstServerName(before + [e] + after) == ParseSni(e.body)
    decreases |before|
  {
    var all := before + [e] + after;
    if before == [] {
      assert all[0] == e;
    } else {
      assert all[0] == before[0] && all[1..] == before[1..] + [e] + after;
      SkipsOtherExtensions(before[1..], e, after);
    }
  }

  lemma {:induction false} SkipsOtherNames(before: seq<Name>, host: seq<Byte>, after: seq<Name>)
    requires forall i :: 0 <= i < |before| ==> before[i].kind != 0
    ensures FirstHostName(before + [Name(0, host)] + after) == HostName(host)
    decreases |before|
  {
    var all := before + [Name(0, host)] + after;
    if before == [] {
      assert all[0] == Name(0, host);
    } else {
      assert all[0] == before[0] && all[1..] == before[1..] + [Name(0, host)] + after;
      SkipsOtherNames(before[1..], host, after);
    }
  }

  /** A host name is returned in lower case exactly when it is a valid domain. */
  lemma HostNameIsDomain(host: seq<Byte>)
    ensures HostName(host) == if ValidDomain(ToLower(host)) then Some(ToLower(host)) else None
  {
    if ValidDomain(ToLower(host)) {
      DomainBytes(ToLower(host));
      forall i | 0 <= i < |host|
        ensures host[i] < 0x80
      {
        assert ToLower(host)[i] == Lower(host[i]);
      }
      Utf8.AsciiIsValid(host);
    }
  }

  /** With any other extensions and names in front, the host is found and lowercased. */
  lemma FindsTheHost(h: Hello, recordVersion: seq<Byte>, trailing: seq<Byte>, complete: bool,
                     before: seq<Extension>, after: seq<Extension>,
                     names: seq<Name>, host: seq<Byte>, others: seq<Name>)
    requires FitsOneRecord(h) && |recordVersion| == 2
    requires forall i :: 0 <= i < |before| ==> before[i].kind != 0
    requires forall i :: 0 <= i < |names| ==> names[i].kind != 0
    requires var list := names + [Name(0, host)] + others;
             && ShortNames(list) && Short(EncodeNames(list))
             && h.extensions == before + [Extension(0, NameList(list))] + after
    ensures ClassifyTcp(EncodeRecord(h, recordVersion) + trailing, complete)
            == Complete(Tls(if ValidDomain(ToLower(host)) then Some(ToLower(host)) else None))
  {
    var list := names + [Name(0, host)] + others;
    RecordReadsBack(h, recordVersion, trailing, complete);
    SkipsOtherExtensions(before, Extension(0, NameList(list)), after);
    NameListParses(list);
    SkipsOtherNames(names, host, others);
    HostNameIsDomain(host);
  }
}
