/** Searching, case folding and domain-name syntax on bytes. */
module Domain {
  import opened Basics

  /** Position of the first occurrence of `needle` at or after `from`. */
  function IndexOf(s: seq<Byte>, needle: seq<Byte>, from: nat): (r: Option<nat>)
    requires from <= |s| && needle != []
    ensures r.Some? ==> from <= r.value && MatchesAt(s, needle, r.value)
    ensures r.Some? ==> forall j :: from <= j < r.value ==> !MatchesAt(s, needle, j)
    ensures r.None? ==> forall j :: from <= j ==> !MatchesAt(s, needle, j)
    decreases |s| - from
  {
    if |s| - from < |needle| then None
    else if MatchesAt(s, needle, from) then Some(from)
    else IndexOf(s, needle, from + 1)
  }

  predicate MatchesAt(s: seq<Byte>, needle: seq<Byte>, i: nat) {
    i + |needle| <= |s| && s[i..i + |needle|] == needle
  }

  /** The first occurrence stays the first one when bytes are appended. */
  lemma IndexOfStable(s: seq<Byte>, needle: seq<Byte>, from: nat, more: seq<Byte>)
    requires from <= |s| && needle != [] && IndexOf(s, needle, from).Some?
    ensures IndexOf(s + more, needle, from) == IndexOf(s, needle, from)
  {
    var i := IndexOf(s, needle, from).value;
    forall j | 0 <= j <= i
      ensures MatchesAt(s + more, needle, j) == MatchesAt(s, needle, j)
    {
      assert (s + more)[j..j + |needle|] == s[j..j + |needle|];
    }
    assert MatchesAt(s + more, needle, i);
    assert IndexOf(s + more, needle, from).Some?;
  }

  /** The only position that is an occurrence with none before it. */
  lemma IndexOfUnique(s: seq<Byte>, needle: seq<Byte>, from: nat, i: nat)
    requires from <= i && needle != [] && MatchesAt(s, needle, i)
    requires forall j :: from <= j < i ==> !MatchesAt(s, needle, j)
    ensures from <= |s| && IndexOf(s, needle, from) == Some(i)
  {
    assert from <= |s|;
    assert IndexOf(s, needle, from).Some?;
  }

  predicate StartsWith(s: seq<Byte>, head: seq<Byte>) {
    |head| <= |s| && s[..|head|] == head
  }

  lemma StartsWithBytes(s: seq<Byte>, head: seq<Byte>)
    ensures StartsWith(s, head) ==> forall k :: 0 <= k < |head| ==> s[k] == head[k]
  {
    if StartsWith(s, head) {
      forall k | 0 <= k < |head|
        ensures s[k] == head[k]
      {
        assert s[..|head|][k] == s[k];
      }
    }
  }

  predicate EndsWith(s: seq<Byte>, tail: seq<Byte>) {
    |tail| <= |s| && s[|s| - |tail|..] == tail
  }

  function Lower(b: Byte): Byte {
    if 0x41 <= b <= 0x5a then b + 32 else b
  }

  /** `to_ascii_lowercase`. */
  function ToLower(s: seq<Byte>): (r: seq<Byte>)
    ensures |r| == |s| && forall i :: 0 <= i < |s| ==> r[i] == Lower(s[i])
  {
    seq(|s|, i requires 0 <= i < |s| => Lower(s[i]))
  }

  predicate Alphanumeric(b: Byte) {
    0x30 <= b <= 0x39 || 0x41 <= b <= 0x5a || 0x61 <= b <= 0x7a
  }

  predicate ValidLabel(part: seq<Byte>) {
    && 0 < |part| <= 63
    && part[0] != 0x2d && part[|part| - 1] != 0x2d
    && forall i :: 0 <= i < |part| ==> Alphanumeric(part[i]) || part[i] == 0x2d
  }

  /** `domain.split('.').all(...)`. */
  predicate ValidLabels(domain: seq<Byte>)
    decreases |domain|
  {
    match IndexOf(domain, [0x2e], 0)
    case None => ValidLabel(domain)
    case Some(i) => ValidLabel(domain[..i]) && ValidLabels(domain[i + 1..])
  }

  predicate ValidDomain(domain: seq<Byte>) {
    0 < |domain| <= 253 && ValidLabels(domain)
  }

  /** A domain has letters, digits, hyphens and dots only. */
  lemma {:induction false} DomainBytes(domain: seq<Byte>)
    requires ValidLabels(domain)
    ensures forall i :: 0 <= i < |domain| ==> Alphanumeric(domain[i]) || domain[i] == 0x2d || domain[i] == 0x2e
    decreases |domain|
  {
    var dot := IndexOf(domain, [0x2e], 0);
    if dot.Some? {
      var i := dot.value;
      DomainBytes(domain[i + 1..]);
      assert domain[i..i + 1] == [0x2e];
      assert domain[i] == domain[i..i + 1][0] == 0x2e;
      forall j | 0 <= j < |domain|
        ensures Alphanumeric(domain[j]) || domain[j] == 0x2d || domain[j] == 0x2e
      {
        if j < i { assert domain[..i][j] == domain[j]; }
        if j > i { assert domain[i + 1..][j - i - 1] == domain[j]; }
      }
    }
  }
}
