/** Destination rules, decided at once where possible and otherwise after a look at the traffic. */
module Rules {
  import opened Basics
  import opened Domain
  import opened Sniff
  import Utf8

  datatype Action = Allow | Deny

  datatype Direction = Upload | Download | Both

  datatype Protocol = AnyProtocol | OnlyTls | OnlyHttp | OnlySsh | OnlyQuic | OnlyUnknown

  datatype Address = V4(bits: nat) | V6(bits: nat) | Named(name: seq<Byte>)

  datatype Destination = Destination(address: Address, port: U16)

  /** A parsed network; text that does not parse matches nothing. */
  datatype Cidr = V4Net(bits: nat, prefix: nat) | V6Net(bits: nat, prefix: nat) | Unparsable

  datatype Rule = Rule(
    action: Action,
    direction: Direction,
    protocol: Protocol,
    unavailable: Action,
    cidr: Option<Cidr>,
    port: Option<U16>,
    domainExact: Option<seq<Byte>>,
    domainSuffix: Option<seq<Byte>>,
    tlsSni: Option<seq<Byte>>,
    httpHost: Option<seq<Byte>>,
    group: Option<string>)

  // ------------------------------------------------------------------ static part of a rule

  function Pow2(n: nat): (p: nat)
    ensures p > 0
  {
    if n == 0 then 1 else 2 * Pow2(n - 1)
  }

  /** Equal under a mask that keeps the first `prefix` of `width` bits. */
  predicate SameNetwork(a: nat, b: nat, width: nat, prefix: nat)
    requires prefix <= width
  {
    a / Pow2(width - prefix) == b / Pow2(width - prefix)
  }

  predicate CidrMatches(c: Cidr, a: Address) {
    match (c, a)
    case (V4Net(bits, prefix), V4(address)) => prefix <= 32 && SameNetwork(bits, address, 32, prefix)
    case (V6Net(bits, prefix), V6(address)) => prefix <= 128 && SameNetwork(bits, address, 128, prefix)
    case _ => false
  }

  function DomainOf(a: Address): Option<seq<Byte>> {
    if a.Named? && Utf8.Valid(a.name) then Some(a.name) else None
  }

  /** The domain itself or a subdomain of it. */
  predicate UnderSuffix(domain: seq<Byte>, suffix: seq<Byte>) {
    || domain == suffix
    || (EndsWith(domain, suffix) && EndsWith(domain[..|domain| - |suffix|], [0x2e]))
  }

  predicate AddressMatches(r: Rule, a: Address) {
    && (r.cidr.Some? ==> CidrMatches(r.cidr.value, a))
    && (r.domainExact.Some? ==> DomainOf(a) == r.domainExact)
    && (r.domainSuffix.Some? ==> DomainOf(a).Some? && UnderSuffix(DomainOf(a).value, r.domainSuffix.value))
  }

  predicate StaticMatch(r: Rule, group: string, d: Destination) {
    && !r.direction.Download?
    && (r.group.Some? ==> r.group.value == group)
    && (r.port.Some? ==> r.port.value == d.port)
    && AddressMatches(r, d.address)
  }

  predicate NeedsObservation(r: Rule) {
    r.tlsSni.Some? || r.httpHost.Some? || r.protocol != AnyProtocol
  }

  // ------------------------------------------------------------------ phase one: the destination

  datatype Policy = Policy(entries: seq<Rule>, terminal: Action, unknown: Action)

  datatype Verdict = Decided(action: Action) | Sniff(policy: Policy)

  function Survivors(rules: seq<Rule>, group: string, d: Destination): seq<Rule> {
    if rules == [] then []
    else
      var front := Survivors(rules[..|rules| - 1], group, d);
      var last := rules[|rules| - 1];
      if StaticMatch(last, group, d) then front + [last] else front
  }

  /** The first surviving rule decides alone, unless it has to see traffic. */
  function FirstDecides(survivors: seq<Rule>, terminal: Action, unknown: Action): Verdict {
    if survivors == [] then Decided(terminal)
    else if NeedsObservation(survivors[0]) then Sniff(Policy(survivors, terminal, unknown))
    else Decided(survivors[0].action)
  }

  method DestinationPolicy(rules: seq<Rule>, terminal: Action, unknown: Action, group: string, d: Destination)
    returns (v: Verdict)
    ensures v == FirstDecides(Survivors(rules, group, d), terminal, unknown)
  {
    var observed: seq<Rule> := [];
    for i := 0 to |rules|
      invariant observed == Survivors(rules[..i], group, d)
      invariant observed != [] ==> NeedsObservation(observed[0])
    {
      assert rules[..i + 1][..i] == rules[..i];
      if StaticMatch(rules[i], group, d) {
        if !NeedsObservation(rules[i]) && observed == [] {
          SurvivorsKeepHead(rules, i + 1, group, d);
          return Decided(rules[i].action);
        }
        observed := observed + [rules[i]];
      }
    }
    assert rules[..|rules|] == rules;
    if observed == [] {
      return Decided(terminal);
    }
    return Sniff(Policy(observed, terminal, unknown));
  }

  lemma {:induction false} SurvivorsKeepHead(rules: seq<Rule>, i: nat, group: string, d: Destination)
    requires i <= |rules| && Survivors(rules[..i], group, d) != []
    ensures Survivors(rules, group, d) != []
    ensures Survivors(rules, group, d)[0] == Survivors(rules[..i], group, d)[0]
    decreases |rules|
  {
    if i == |rules| {
      assert rules[..i] == rules;
    } else {
      var front := rules[..|rules| - 1];
      assert front[..i] == rules[..i];
      SurvivorsKeepHead(front, i, group, d);
    }
  }

  // ------------------------------------------------------------------ phase two: the observation

  predicate ProtocolMatches(p: Protocol, o: Observed) {
    match p
    case AnyProtocol => true
    case OnlyTls => o.Tls?
    case OnlyHttp => o.Http?
    case OnlySsh => o.Ssh?
    case OnlyQuic => o.Quic?
    case OnlyUnknown => o.Unknown?
  }

  predicate SameName(a: seq<Byte>, b: seq<Byte>) {
    ToLower(a) == ToLower(b)
  }

  /** The rule's names contradict what was seen, so it is passed over. */
  predicate NameDiffers(r: Rule, o: Observed) {
    if r.tlsSni.Some? then o.Tls? && o.sni.Some? && !SameName(o.sni.value, r.tlsSni.value)
    else r.httpHost.Some? && o.Http? && o.host.Some? && !SameName(o.host.value, r.httpHost.value)
  }

  /** Every name the rule asks for was there to be compared. */
  predicate NamesSeen(r: Rule, o: Observed) {
    && (r.tlsSni.Some? ==> o.Tls? && o.sni.Some?)
    && (r.httpHost.Some? ==> o.Http? && o.host.Some?)
  }

  function Answer(r: Rule, o: Observed): Action {
    if NamesSeen(r, o) then r.action else r.unavailable
  }

  /** The loop of `observed_allowed`. */
  method ObservedAllowed(p: Policy, o: Observed) returns (allowed: bool)
    ensures allowed == Allowed(p, o)
  {
    for i := 0 to |p.entries|
      invariant Allowed(p, o) == Allowed(p.(entries := p.entries[i..]), o)
    {
      var r := p.entries[i];
      assert p.entries[i..][1..] == p.entries[i + 1..];
      if o.Unknown? && r.protocol != OnlyUnknown {
        return r.unavailable.Allow?;
      }
      if !ProtocolMatches(r.protocol, o) {
        continue;
      }
      if r.tlsSni.Some? {
        if o.Tls? && o.sni.Some? {
          if !SameName(o.sni.value, r.tlsSni.value) { continue; }
        } else {
          return r.unavailable.Allow?;
        }
      }
      if r.httpHost.Some? {
        if o.Http? && o.host.Some? {
          if !SameName(o.host.value, r.httpHost.value) { continue; }
        } else {
          return r.unavailable.Allow?;
        }
      }
      return r.action.Allow?;
    }
    if o.Unknown? {
      return p.unknown.Allow?;
    }
    return p.terminal.Allow?;
  }

  predicate Allowed(p: Policy, o: Observed)
    decreases |p.entries|
  {
    if p.entries == [] then (if o.Unknown? then p.unknown else p.terminal).Allow?
    else
      var r := p.entries[0];
      if o.Unknown? && r.protocol != OnlyUnknown then r.unavailable.Allow?
      else if !ProtocolMatches(r.protocol, o) || NameDiffers(r, o) then Allowed(p.(entries := p.entries[1..]), o)
      else Answer(r, o).Allow?
  }

  /** Both phases together. */
  predicate TwoPhase(rules: seq<Rule>, terminal: Action, unknown: Action, group: string, d: Destination, o: Observed) {
    match FirstDecides(Survivors(rules, group, d), terminal, unknown)
    case Decided(action) => action.Allow?
    case Sniff(policy) => Allowed(policy, o)
  }

  // ------------------------------------------------------------------ one pass over the original list

  /** The rule has an opinion on this destination and this observation. */
  predicate Applies(r: Rule, group: string, d: Destination, o: Observed) {
    StaticMatch(r, group, d) && ProtocolMatches(r.protocol, o) && !NameDiffers(r, o)
  }

  /** `i` is the first rule that applies; `|rules|` when none does. */
  ghost predicate FirstApplies(rules: seq<Rule>, group: string, d: Destination, o: Observed, i: nat) {
    && i <= |rules|
    && (forall j :: 0 <= j < i ==> !Applies(rules[j], group, d, o))
    && (i < |rules| ==> Applies(rules[i], group, d, o))
  }

  ghost predicate FirstMatch(rules: seq<Rule>, terminal: Action, o: Observed, i: nat)
    requires i <= |rules|
  {
    (if i < |rules| then Answer(rules[i], o) else terminal).Allow?
  }

  /** The survivors of a first-match list give the same first match. */
  lemma {:induction false} SurvivorsDecide(rules: seq<Rule>, terminal: Action, unknown: Action, group: string, d: Destination,
                                           o: Observed, i: nat)
    requires !o.Unknown? && FirstApplies(rules, group, d, o, i)
    ensures Allowed(Policy(Survivors(rules, group, d), terminal, unknown), o) == FirstMatch(rules, terminal, o, i)
    decreases |rules|
  {
    if rules == [] {
    } else {
      var front, last := rules[..|rules| - 1], rules[|rules| - 1];
      var s := Survivors(front, group, d);
      if i < |front| {
        SurvivorsDecide(front, terminal, unknown, group, d, o, i);
        DecidedEarly(front, terminal, unknown, group, d, o, i, last);
      } else if StaticMatch(last, group, d) {
        SurvivorsPassOver(front, group, d, o);
        AllowedAtEnd(Policy(s, terminal, unknown), last, o);
      } else {
        SurvivorsDecide(front, terminal, unknown, group, d, o, |front|);
      }
    }
  }

  ghost predicate PassesOver(entries: seq<Rule>, o: Observed) {
    forall k :: 0 <= k < |entries| ==> !ProtocolMatches(entries[k].protocol, o) || NameDiffers(entries[k], o)
  }

  lemma {:induction false} SurvivorsPassOver(rules: seq<Rule>, group: string, d: Destination, o: Observed)
    requires forall j :: 0 <= j < |rules| ==> !Applies(rules[j], group, d, o)
    ensures PassesOver(Survivors(rules, group, d), o)
    decreases |rules|
  {
    if rules != [] {
      SurvivorsPassOver(rules[..|rules| - 1], group, d, o);
    }
  }

  lemma {:induction false} AllowedAtEnd(p: Policy, r: Rule, o: Observed)
    requires !o.Unknown? && PassesOver(p.entries, o)
    ensures Allowed(p.(entries := p.entries + [r]), o)
            == (if ProtocolMatches(r.protocol, o) && !NameDiffers(r, o) then Answer(r, o) else p.terminal).Allow?
    decreases |p.entries|
  {
    if p.entries == [] {
      assert p.entries + [r] == [r] && [r][1..] == [];
    } else {
      assert (p.entries + [r])[1..] == p.entries[1..] + [r];
      AllowedAtEnd(p.(entries := p.entries[1..]), r, o);
    }
  }

  /** Once some survivor answers, later rules are not consulted. */
  lemma DecidedEarly(front: seq<Rule>, terminal: Action, unknown: Action, group: string, d: Destination, o: Observed,
                     i: nat, last: Rule)
    requires !o.Unknown? && i < |front| && Applies(front[i], group, d, o)
    ensures var s := Survivors(front, group, d);
            Allowed(Policy(s + [last], terminal, unknown), o) == Allowed(Policy(s, terminal, unknown), o)
  {
    var k := SurvivorAt(front, group, d, i);
    AppendIgnored(Policy(Survivors(front, group, d), terminal, unknown), o, k, last);
  }

  lemma {:induction false} SurvivorAt(rules: seq<Rule>, group: string, d: Destination, i: nat) returns (k: nat)
    requires i < |rules| && StaticMatch(rules[i], group, d)
    ensures k < |Survivors(rules, group, d)| && Survivors(rules, group, d)[k] == rules[i]
    decreases |rules|
  {
    if i == |rules| - 1 {
      k := |Survivors(rules[..|rules| - 1], group, d)|;
    } else {
      k := SurvivorAt(rules[..|rules| - 1], group, d, i);
    }
  }

  lemma {:induction false} AppendIgnored(p: Policy, o: Observed, k: nat, last: Rule)
    requires !o.Unknown? && k < |p.entries|
    requires ProtocolMatches(p.entries[k].protocol, o) && !NameDiffers(p.entries[k], o)
    ensures Allowed(p.(entries := p.entries + [last]), o) == Allowed(p, o)
    decreases |p.entries|
  {
    assert (p.entries + [last])[1..] == p.entries[1..] + [last];
    if k > 0 {
      AppendIgnored(p.(entries := p.entries[1..]), o, k - 1, last);
    }
  }

  /**
   * Two phases refine one pass: for every rule list, destination, group and known observation the
   * answer is that of the first rule of the original list that applies.
   */
  lemma TwoPhaseIsFirstMatch(rules: seq<Rule>, terminal: Action, unknown: Action, group: string, d: Destination,
                             o: Observed, i: nat)
    requires !o.Unknown? && FirstApplies(rules, group, d, o, i)
    ensures TwoPhase(rules, terminal, unknown, group, d, o) == FirstMatch(rules, terminal, o, i)
  {
    SurvivorsDecide(rules, terminal, unknown, group, d, o, i);
    var s := Survivors(rules, group, d);
    if s != [] && !NeedsObservation(s[0]) {
      assert Allowed(Policy(s, terminal, unknown), o) == s[0].action.Allow?;
    }
  }

  /** An early decision is one that no known observation could have changed. */
  lemma EarlyDecisionIsFinal(rules: seq<Rule>, terminal: Action, unknown: Action, group: string, d: Destination,
                             o: Observed, i: nat)
    requires !o.Unknown? && FirstApplies(rules, group, d, o, i)
    requires FirstDecides(Survivors(rules, group, d), terminal, unknown).Decided?
    ensures FirstMatch(rules, terminal, o, i)
            == FirstDecides(Survivors(rules, group, d), terminal, unknown).action.Allow?
  {
    TwoPhaseIsFirstMatch(rules, terminal, unknown, group, d, o, i);
  }

  // ------------------------------------------------------------------ unknown traffic

  /**
   * Unknown traffic is answered by the first survivor alone, so the configured action for unknown
   * protocols is never consulted: a sniffing policy always has a first rule.
   */
  lemma UnknownFollowsFirstSurvivor(rules: seq<Rule>, terminal: Action, unknown: Action, group: string, d: Destination)
    ensures var s := Survivors(rules, group, d);
            TwoPhase(rules, terminal, unknown, group, d, Unknown)
            == (if s == [] then terminal
                else if !NeedsObservation(s[0]) then s[0].action
                else if s[0].protocol == OnlyUnknown && s[0].tlsSni.None? && s[0].httpHost.None? then s[0].action
                else s[0].unavailable).Allow?
  {
  }

  /** The first survivor is the first rule of the list that matches the destination. */
  lemma {:induction false} HeadSurvivor(rules: seq<Rule>, group: string, d: Destination) returns (k: nat)
    ensures k <= |rules| && forall j :: 0 <= j < k ==> !StaticMatch(rules[j], group, d)
    ensures if k == |rules| then Survivors(rules, group, d) == []
            else StaticMatch(rules[k], group, d) && Survivors(rules, group, d) != [] && Survivors(rules, group, d)[0] == rules[k]
    decreases |rules|
  {
    if rules == [] {
      k := 0;
    } else {
      var front := rules[..|rules| - 1];
      k := HeadSurvivor(front, group, d);
      if k == |front| && !StaticMatch(rules[k], group, d) {
        k := |rules|;
      }
    }
  }

  /**
   * Unknown traffic is answered by first match exactly when no rule survives, the first survivor
   * speaks about unknown traffic, or its fallback is the same as what the first rule that does speak
   * about it says: its fallback when it asks for a name, its action otherwise, the terminal action when
   * there is none.
   */
  lemma UnknownAgreesIff(rules: seq<Rule>, terminal: Action, unknown: Action, group: string, d: Destination, i: nat)
    requires FirstApplies(rules, group, d, Unknown, i)
    ensures var s := Survivors(rules, group, d);
            TwoPhase(rules, terminal, unknown, group, d, Unknown) == FirstMatch(rules, terminal, Unknown, i)
            <==> || s == [] || s[0].protocol == AnyProtocol || s[0].protocol == OnlyUnknown
                 || s[0].unavailable
                    == (if i == |rules| then terminal
                        else if rules[i].tlsSni.Some? || rules[i].httpHost.Some? then rules[i].unavailable
                        else rules[i].action)
  {
    UnknownFollowsFirstSurvivor(rules, terminal, unknown, group, d);
    var k := HeadSurvivor(rules, group, d);
    if k < |rules| && (rules[k].protocol == AnyProtocol || rules[k].protocol == OnlyUnknown) {
      assert Applies(rules[k], group, d, Unknown);
      assert i == k;
    }
  }

  /** For unknown traffic the two phases and a single pass can disagree. */
  lemma UnknownMayDiffer()
    ensures exists rules: seq<Rule>, i: nat ::
              && FirstApplies(rules, "", Destination(V4(0), 443), Unknown, i)
              && TwoPhase(rules, Deny, Deny, "", Destination(V4(0), 443), Unknown)
                 != FirstMatch(rules, Deny, Unknown, i)
  {
    var tls := Rule(Allow, Both, OnlyTls, Deny, None, None, None, None, None, None, None);
    var open := Rule(Allow, Both, AnyProtocol, Deny, None, None, None, None, None, None, None);
    var rules := [tls, open];
    assert rules[..1] == [tls] && [tls][..0] == [];
    assert Survivors([tls], "", Destination(V4(0), 443)) == [tls];
    assert Survivors(rules, "", Destination(V4(0), 443)) == rules;
    assert FirstApplies(rules, "", Destination(V4(0), 443), Unknown, 1);
  }
}
