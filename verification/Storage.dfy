/** Range scans of the ordered key-value table by key prefix. */
module Storage {
  import opened Basics

  type Key = seq<Byte>
  type Value = seq<Byte>

  datatype Entry = Entry(key: Key, value: Value)

  datatype StorageError = Invalid | Limit

  // "meta/", "user/", "credential/" and "client/"
  const PREFIXES: seq<Key> := [
    [0x6d, 0x65, 0x74, 0x61, 0x2f],
    [0x75, 0x73, 0x65, 0x72, 0x2f],
    [0x63, 0x72, 0x65, 0x64, 0x65, 0x6e, 0x74, 0x69, 0x61, 0x6c, 0x2f],
    [0x63, 0x6c, 0x69, 0x65, 0x6e, 0x74, 0x2f]]

  // ------------------------------------------------------------------ key order

  /** Byte-wise lexicographic order, as the table compares its string keys. */
  predicate Less(a: Key, b: Key) {
    b != [] && (a == [] || a[0] < b[0] || (a[0] == b[0] && Less(a[1..], b[1..])))
  }

  lemma {:induction false} LessTransitive(a: Key, b: Key, c: Key)
    requires Less(a, b) && Less(b, c)
    ensures Less(a, c)
    decreases |a|
  {
    if a != [] && a[0] == b[0] == c[0] {
      LessTransitive(a[1..], b[1..], c[1..]);
    }
  }

  predicate HasPrefix(key: Key, prefix: Key) {
    |prefix| <= |key| && key[..|prefix|] == prefix
  }

  /** `prefix_end`: the last byte of a known prefix, plus one. */
  function PrefixEnd(prefix: Key): Result<Key, StorageError> {
    if prefix !in PREFIXES then Err(Invalid) else Ok(Successor(prefix))
  }

  function Successor(prefix: Key): Key {
    if prefix == [] || prefix[|prefix| - 1] == 255 then prefix
    else prefix[..|prefix| - 1] + [(prefix[|prefix| - 1] as int) + 1]
  }

  /** The range from a prefix to its successor holds exactly the keys with that prefix. */
  lemma {:induction false} RangeIsPrefix(key: Key, prefix: Key)
    requires prefix != [] && prefix[|prefix| - 1] < 255
    ensures !Less(key, prefix) && Less(key, Successor(prefix)) <==> HasPrefix(key, prefix)
    decreases |prefix|
  {
    var end := Successor(prefix);
    if key != [] && |prefix| > 1 {
      assert end[1..] == Successor(prefix[1..]);
      assert prefix[1..][|prefix[1..]| - 1] == prefix[|prefix| - 1];
      RangeIsPrefix(key[1..], prefix[1..]);
      HasPrefixSplits(key, prefix);
    } else if key != [] {
      assert end == [(prefix[0] as int) + 1];
      HasPrefixSplits(key, prefix);
    }
  }

  lemma HasPrefixSplits(key: Key, prefix: Key)
    requires key != [] && prefix != []
    ensures HasPrefix(key, prefix) <==> key[0] == prefix[0] && HasPrefix(key[1..], prefix[1..])
  {
    if |prefix| <= |key| {
      assert key[..|prefix|] == [key[0]] + key[1..][..|prefix| - 1];
      assert prefix == [prefix[0]] + prefix[1..];
    }
  }

  lemma KnownPrefixes(prefix: Key)
    requires prefix in PREFIXES
    ensures prefix != [] && prefix[|prefix| - 1] == 0x2f
  {
  }

  // ------------------------------------------------------------------ the table

  /** Entries in strictly ascending key order. */
  predicate Ordered(entries: seq<Entry>) {
    forall i, j :: 0 <= i < j < |entries| ==> Less(entries[i].key, entries[j].key)
  }

  /** The entries with a prefix, in table order. */
  function Matching(entries: seq<Entry>, prefix: Key): seq<Entry> {
    if entries == [] then []
    else Matching(entries[..|entries| - 1], prefix)
         + (if HasPrefix(entries[|entries| - 1].key, prefix) then [entries[|entries| - 1]] else [])
  }

  lemma {:induction false} MatchingGrows(entries: seq<Entry>, prefix: Key, n: nat)
    requires n <= |entries|
    ensures |Matching(entries[..n], prefix)| <= |Matching(entries, prefix)|
    decreases |entries|
  {
    if n == |entries| {
      assert entries[..n] == entries;
    } else {
      MatchingGrows(entries[..|entries| - 1], prefix, n);
      assert entries[..|entries| - 1][..n] == entries[..n];
    }
  }

  /** Behind the first key past the range there is nothing with the prefix. */
  lemma {:induction false} NothingBehind(entries: seq<Entry>, prefix: Key, i: nat)
    requires Ordered(entries) && i < |entries| && prefix != [] && prefix[|prefix| - 1] < 255
    requires !Less(entries[i].key, Successor(prefix))
    ensures Matching(entries, prefix) == Matching(entries[..i], prefix)
    decreases |entries|
  {
    var front, last := entries[..|entries| - 1], |entries| - 1;
    RangeIsPrefix(entries[last].key, prefix);
    if i < last {
      if Less(entries[last].key, Successor(prefix)) {
        LessTransitive(entries[i].key, entries[last].key, Successor(prefix));
      }
      NothingBehind(front, prefix, i);
      assert front[..i] == entries[..i];
    }
  }

  /** `scan_values`: all entries of the range, or an error when there are more than the limit. */
  method Scan(entries: seq<Entry>, prefix: Key, limit: nat) returns (r: Result<seq<Entry>, StorageError>)
    requires Ordered(entries)
    ensures r == if prefix !in PREFIXES then Err(Invalid)
                 else if |Matching(entries, prefix)| > limit then Err(Limit)
                 else Ok(Matching(entries, prefix))
  {
    var end := PrefixEnd(prefix);
    if end.Err? {
      return Err(Invalid);
    }
    KnownPrefixes(prefix);
    var output: seq<Entry> := [];
    var i := 0;
    while i < |entries| && Less(entries[i].key, end.value)
      invariant i <= |entries| && output == Matching(entries[..i], prefix) && |output| <= limit
    {
      RangeIsPrefix(entries[i].key, prefix);
      assert entries[..i + 1][..i] == entries[..i];
      if !Less(entries[i].key, prefix) {
        if |output| == limit {
          MatchingGrows(entries, prefix, i + 1);
          return Err(Limit);
        }
        output := output + [entries[i]];
      }
      i := i + 1;
    }
    if i < |entries| {
      NothingBehind(entries, prefix, i);
    } else {
      assert entries[..i] == entries;
    }
    return Ok(output);
  }
}
