/**
 * Subscription rules: which rule takes an event, and which per-channel filter the relay
 * is asked for on behalf of all rules.
 */
module Filters {
  import opened Prelude

  type Uuid = nat

  /**
   * A text where a channel id is expected: the canonical spelling of an id, another
   * spelling that parses as it, or something that does not parse.
   */
  datatype IdText = Canonical(id: Uuid) | Alias(id: Uuid) | Garbage(text: string)

  function Parsed(t: IdText): Option<Uuid> {
    if t.Garbage? then None else Some(t.id)
  }

  datatype Scope = All(word: string) | Listed(ids: seq<IdText>)

  datatype Rule = Rule(
    name: string,
    channels: Scope,
    kinds: seq<nat>,
    requireMention: bool,
    filter: Option<string>,
    promptTag: Option<string>)

  /** The kind of an event has 16 bits; those in a rule have 32 and nothing checks them. */
  type Kind = k: nat | k < 0x1_0000

  datatype Event = Event(channel: Uuid, kind: Kind, mentioned: bool)

  /** How evaluating a filter expression ends. */
  datatype Outcome = Holds(ok: bool) | TimedOut | Failed

  datatype MatchedRule = MatchedRule(index: nat, tag: string)

  const MAX_CONSECUTIVE_TIMEOUTS := 5

  // -------------------------------------------------------------------- one rule

  /** The rule's scope as the matcher reads it: by the text of the id. */
  predicate Matches(c: Scope, ch: Uuid) {
    match c
    case All(word) => word == "all"
    case Listed(ids) => Canonical(ch) in ids
  }

  predicate Screens(r: Rule, e: Event) {
    && Matches(r.channels, e.channel)
    && (r.kinds == [] || e.kind in r.kinds)
    && (r.requireMention ==> e.mentioned)
  }

  datatype Verdict = Skip | Accept | Abort

  /** What one rule makes of an event, and its timeout counter afterwards. */
  function Judge(r: Rule, e: Event, count: nat, outcome: Outcome): (Verdict, nat) {
    if !Screens(r, e) then (Skip, count)
    else if r.filter.None? then (Accept, count)
    else if count >= MAX_CONSECUTIVE_TIMEOUTS then (Abort, count)
    else
      match outcome
      case Holds(ok) => (if ok then Accept else Skip, 0)
      case TimedOut => (Abort, count + 1)
      case Failed => (Abort, count)
  }

  function TagOf(r: Rule): string {
    if r.promptTag.Some? then r.promptTag.value else r.name
  }

  /** One event against the rules from `i` on; `outcomes[j]` is how rule `j`'s expression would end. */
  function MatchFrom(rules: seq<Rule>, counts: seq<nat>, e: Event, outcomes: seq<Outcome>, i: nat)
    : (r: (Option<MatchedRule>, seq<nat>))
    requires |counts| == |rules| == |outcomes| && i <= |rules|
    ensures |r.1| == |rules|
    decreases |rules| - i
  {
    if i == |rules| then (None, counts)
    else
      var (verdict, count) := Judge(rules[i], e, counts[i], outcomes[i]);
      match verdict
      case Skip => MatchFrom(rules, counts[i := count], e, outcomes, i + 1)
      case Accept => (Some(MatchedRule(i, TagOf(rules[i]))), counts[i := count])
      case Abort => (None, counts[i := count])
  }

  class SubscriptionRule {
    const rule: Rule
    var consecutiveTimeouts: nat

    constructor (rule: Rule)
      ensures this.rule == rule && consecutiveTimeouts == 0
    {
      this.rule, consecutiveTimeouts := rule, 0;
    }
  }

  function RulesOf(rules: seq<SubscriptionRule>): (r: seq<Rule>)
    ensures |r| == |rules| && forall i :: 0 <= i < |r| ==> r[i] == rules[i].rule
  {
    seq(|rules|, i requires 0 <= i < |rules| => rules[i].rule)
  }

  ghost function CountsOf(rules: seq<SubscriptionRule>): (r: seq<nat>)
    reads rules
    ensures |r| == |rules| && forall i :: 0 <= i < |r| ==> r[i] == rules[i].consecutiveTimeouts
  {
    seq(|rules|, i requires 0 <= i < |rules| reads rules => rules[i].consecutiveTimeouts)
  }

  ghost predicate Separate(rules: seq<SubscriptionRule>) {
    forall i, j :: 0 <= i < j < |rules| ==> rules[i] != rules[j]
  }

  method MatchEvent(rules: seq<SubscriptionRule>, e: Event, outcomes: seq<Outcome>) returns (r: Option<MatchedRule>)
    requires Separate(rules) && |outcomes| == |rules|
    modifies rules
    ensures (r, CountsOf(rules)) == MatchFrom(RulesOf(rules), old(CountsOf(rules)), e, outcomes, 0)
  {
    ghost var spec := MatchFrom(RulesOf(rules), CountsOf(rules), e, outcomes, 0);
    for i := 0 to |rules|
      invariant MatchFrom(RulesOf(rules), CountsOf(rules), e, outcomes, i) == spec
    {
      ghost var counts := CountsOf(rules);
      var verdict := JudgeRule(rules[i], e, outcomes[i]);
      assert CountsOf(rules) == counts[i := rules[i].consecutiveTimeouts];
      match verdict {
        case Skip =>
        case Abort => return None;
        case Accept => return Some(MatchedRule(i, TagOf(rules[i].rule)));
      }
    }
    r := None;
  }

  /** The body of the matching loop: `Skip` continues, the other verdicts return. */
  method JudgeRule(rule: SubscriptionRule, e: Event, outcome: Outcome) returns (verdict: Verdict)
    modifies rule
    ensures (verdict, rule.consecutiveTimeouts) == Judge(rule.rule, e, old(rule.consecutiveTimeouts), outcome)
  {
    var r := rule.rule;
    if !Matches(r.channels, e.channel) {
      return Skip;
    }
    if r.kinds != [] && e.kind !in r.kinds {
      return Skip;
    }
    if r.requireMention && !e.mentioned {
      return Skip;
    }
    if r.filter.Some? {
      if rule.consecutiveTimeouts >= MAX_CONSECUTIVE_TIMEOUTS {
        return Abort;
      }
      match outcome {
        case Holds(ok) =>
          rule.consecutiveTimeouts := 0;
          if !ok {
            return Skip;
          }
        case TimedOut =>
          rule.consecutiveTimeouts := rule.consecutiveTimeouts + 1;
          return Abort;
        case Failed => return Abort;
      }
    }
    verdict := Accept;
  }

  // ------------------------------------------------------------- which rule matches

  function VerdictAt(rules: seq<Rule>, counts: seq<nat>, e: Event, outcomes: seq<Outcome>, i: nat): Verdict
    requires |counts| == |rules| == |outcomes| && i < |rules|
  {
    Judge(rules[i], e, counts[i], outcomes[i]).0
  }

  /** Every rule before `i` was cleanly rejected, so rule `i` is looked at. */
  ghost predicate Reached(rules: seq<Rule>, counts: seq<nat>, e: Event, outcomes: seq<Outcome>, i: nat)
    requires |counts| == |rules| == |outcomes| && i <= |rules|
  {
    forall j :: 0 <= j < i ==> VerdictAt(rules, counts, e, outcomes, j).Skip?
  }

  ghost predicate AbortsAtSome(rules: seq<Rule>, counts: seq<nat>, e: Event, outcomes: seq<Outcome>)
    requires |counts| == |rules| == |outcomes|
  {
    exists k :: 0 <= k < |rules| && Reached(rules, counts, e, outcomes, k) && VerdictAt(rules, counts, e, outcomes, k).Abort?
  }

  lemma {:induction false} MatchFromReached(rules: seq<Rule>, counts: seq<nat>, now: seq<nat>, e: Event, outcomes: seq<Outcome>, i: nat)
    requires |counts| == |now| == |rules| == |outcomes| && i <= |rules|
    requires Reached(rules, counts, e, outcomes, i) && now[i..] == counts[i..]
    ensures var r := MatchFrom(rules, now, e, outcomes, i).0;
      && (r.Some? ==> i <= r.value.index < |rules| && r.value.tag == TagOf(rules[r.value.index])
                      && Reached(rules, counts, e, outcomes, r.value.index)
                      && VerdictAt(rules, counts, e, outcomes, r.value.index).Accept?)
      && (r.None? ==> Reached(rules, counts, e, outcomes, |rules|) || AbortsAtSome(rules, counts, e, outcomes))
    decreases |rules| - i
  {
    if i < |rules| {
      assert now[i..][0] == counts[i..][0];
      var (verdict, count) := Judge(rules[i], e, now[i], outcomes[i]);
      if verdict.Skip? {
        var next := now[i := count];
        assert next[i + 1..] == now[i..][1..] == counts[i..][1..] == counts[i + 1..];
        MatchFromReached(rules, counts, next, e, outcomes, i + 1);
      }
    }
  }

  /** The rule passes all its checks. */
  predicate PassesAll(r: Rule, e: Event, count: nat, outcome: Outcome) {
    && Screens(r, e)
    && (r.filter.Some? ==> count < MAX_CONSECUTIVE_TIMEOUTS && outcome == Holds(true))
  }

  /** The rule is not meant for the event, or its expression came out false. */
  predicate CleanlyRejected(r: Rule, e: Event, count: nat, outcome: Outcome) {
    || !Screens(r, e)
    || (r.filter.Some? && count < MAX_CONSECUTIVE_TIMEOUTS && outcome == Holds(false))
  }

  predicate FailsClosed(r: Rule, e: Event, count: nat, outcome: Outcome) {
    !PassesAll(r, e, count, outcome) && !CleanlyRejected(r, e, count, outcome)
  }

  /** All the rules before `i` were cleanly rejected. */
  ghost predicate RejectedBefore(rules: seq<Rule>, counts: seq<nat>, e: Event, outcomes: seq<Outcome>, i: nat)
    requires |counts| == |rules| == |outcomes| && i <= |rules|
  {
    forall j :: 0 <= j < i ==> CleanlyRejected(rules[j], e, counts[j], outcomes[j])
  }

  lemma ReachedIffRejected(rules: seq<Rule>, counts: seq<nat>, e: Event, outcomes: seq<Outcome>, i: nat)
    requires |counts| == |rules| == |outcomes| && i <= |rules|
    ensures Reached(rules, counts, e, outcomes, i) <==> RejectedBefore(rules, counts, e, outcomes, i)
  {
    forall j | 0 <= j < i
      ensures VerdictAt(rules, counts, e, outcomes, j).Skip? <==> CleanlyRejected(rules[j], e, counts[j], outcomes[j])
    {
    }
  }

  /**
   * Rule `i` takes the event exactly when it passes all its checks and every earlier rule
   * was cleanly rejected. A rule reached that does neither - an error, a timeout, or
   * disabled - means that no rule takes it.
   */
  lemma MatchIff(rules: seq<Rule>, counts: seq<nat>, e: Event, outcomes: seq<Outcome>, i: nat)
    requires |counts| == |rules| == |outcomes| && i < |rules|
    ensures var tag := match rules[i].promptTag case Some(t) => t case None => rules[i].name;
      MatchFrom(rules, counts, e, outcomes, 0).0 == Some(MatchedRule(i, tag)) <==>
      RejectedBefore(rules, counts, e, outcomes, i) && PassesAll(rules[i], e, counts[i], outcomes[i])
    ensures RejectedBefore(rules, counts, e, outcomes, i) && FailsClosed(rules[i], e, counts[i], outcomes[i]) ==>
      MatchFrom(rules, counts, e, outcomes, 0).0.None?
  {
    MatchFromReached(rules, counts, counts, e, outcomes, 0);
    ReachedIffRejected(rules, counts, e, outcomes, i);
    var r := MatchFrom(rules, counts, e, outcomes, 0).0;
    assert PassesAll(rules[i], e, counts[i], outcomes[i]) <==> VerdictAt(rules, counts, e, outcomes, i).Accept?;
    if r.Some? {
      assert r.value.index < i ==> !VerdictAt(rules, counts, e, outcomes, r.value.index).Skip?;
    }
  }

  /** A rule's counter changes only when the rule is reached, and then as its verdict says. */
  lemma {:induction false} CounterAfter(rules: seq<Rule>, counts: seq<nat>, now: seq<nat>, e: Event, outcomes: seq<Outcome>, i: nat, k: nat)
    requires |counts| == |now| == |rules| == |outcomes| && i <= |rules| && k < |rules|
    requires Reached(rules, counts, e, outcomes, i) && now[i..] == counts[i..]
    ensures MatchFrom(rules, now, e, outcomes, i).1[k] ==
      if k < i then now[k]
      else if Reached(rules, counts, e, outcomes, k) then Judge(rules[k], e, counts[k], outcomes[k]).1
      else counts[k]
    decreases |rules| - i
  {
    if i < |rules| {
      assert now[i..][0] == counts[i..][0];
      var (verdict, count) := Judge(rules[i], e, now[i], outcomes[i]);
      var next := now[i := count];
      if k > i {
        assert now[i..][k - i] == counts[i..][k - i];
      }
      if verdict.Skip? {
        assert next[i + 1..] == now[i..][1..] == counts[i..][1..] == counts[i + 1..];
        CounterAfter(rules, counts, next, e, outcomes, i + 1, k);
      } else if k > i {
        assert !VerdictAt(rules, counts, e, outcomes, i).Skip?;
      }
    }
  }

  // ------------------------------------------------------------- a run of events

  datatype Arrival = Arrival(event: Event, outcomes: seq<Outcome>)

  ghost predicate Fits(rules: seq<Rule>, arrivals: seq<Arrival>) {
    forall n :: 0 <= n < |arrivals| ==> |arrivals[n].outcomes| == |rules|
  }

  function Zeros(n: nat): (z: seq<nat>)
    ensures |z| == n && forall i :: 0 <= i < n ==> z[i] == 0
  {
    seq(n, i => 0)
  }

  /** The timeout counters after the first `n` events. */
  ghost function Counts(rules: seq<Rule>, arrivals: seq<Arrival>, n: nat): (c: seq<nat>)
    requires Fits(rules, arrivals) && n <= |arrivals|
    ensures |c| == |rules|
  {
    if n == 0 then Zeros(|rules|)
    else MatchFrom(rules, Counts(rules, arrivals, n - 1), arrivals[n - 1].event, arrivals[n - 1].outcomes, 0).1
  }

  ghost function Answer(rules: seq<Rule>, arrivals: seq<Arrival>, n: nat): Option<MatchedRule>
    requires Fits(rules, arrivals) && n < |arrivals|
  {
    MatchFrom(rules, Counts(rules, arrivals, n), arrivals[n].event, arrivals[n].outcomes, 0).0
  }

  /** Event `n` gets as far as the expression of rule `k`. */
  ghost predicate Consults(rules: seq<Rule>, arrivals: seq<Arrival>, n: nat, k: nat)
    requires Fits(rules, arrivals) && n < |arrivals| && k < |rules|
  {
    var a := arrivals[n];
    && Reached(rules, Counts(rules, arrivals, n), a.event, a.outcomes, k)
    && Screens(rules[k], a.event) && rules[k].filter.Some?
  }

  /** The expression of rule `k` is evaluated for event `n`. */
  ghost predicate Evaluates(rules: seq<Rule>, arrivals: seq<Arrival>, n: nat, k: nat)
    requires Fits(rules, arrivals) && n < |arrivals| && k < |rules|
  {
    Consults(rules, arrivals, n, k) && Counts(rules, arrivals, n)[k] < MAX_CONSECUTIVE_TIMEOUTS
  }

  /** How the evaluations of rule `k` ended during the first `n` events. */
  ghost function Trail(rules: seq<Rule>, arrivals: seq<Arrival>, n: nat, k: nat): seq<Outcome>
    requires Fits(rules, arrivals) && n <= |arrivals| && k < |rules|
  {
    if n == 0 then []
    else
      var before := Trail(rules, arrivals, n - 1, k);
      if Evaluates(rules, arrivals, n - 1, k) then before + [arrivals[n - 1].outcomes[k]] else before
  }

  /** Timeouts since the last evaluation that came to a result; errors neither count nor reset. */
  function TimeoutsSince(trail: seq<Outcome>): nat {
    if trail == [] then 0
    else
      var before := TimeoutsSince(trail[..|trail| - 1]);
      match trail[|trail| - 1]
      case Holds(_) => 0
      case TimedOut => before + 1
      case Failed => before
  }

  lemma JudgeCount(r: Rule, e: Event, count: nat, outcome: Outcome, trail: seq<Outcome>)
    requires count == TimeoutsSince(trail)
    ensures Judge(r, e, count, outcome).1 ==
      if Screens(r, e) && r.filter.Some? && count < MAX_CONSECUTIVE_TIMEOUTS then TimeoutsSince(trail + [outcome]) else count
  {
    assert (trail + [outcome])[..|trail|] == trail;
  }

  /** The counter of a rule is the number of its timeouts since the last result, and never above five. */
  lemma {:induction false} CounterCountsTimeouts(rules: seq<Rule>, arrivals: seq<Arrival>, n: nat, k: nat)
    requires Fits(rules, arrivals) && n <= |arrivals| && k < |rules|
    ensures Counts(rules, arrivals, n)[k] == TimeoutsSince(Trail(rules, arrivals, n, k))
    ensures Counts(rules, arrivals, n)[k] <= 5
  {
    if n > 0 {
      CounterCountsTimeouts(rules, arrivals, n - 1, k);
      var a, counts := arrivals[n - 1], Counts(rules, arrivals, n - 1);
      CounterAfter(rules, counts, counts, a.event, a.outcomes, 0, k);
      JudgeCount(rules[k], a.event, counts[k], a.outcomes[k], Trail(rules, arrivals, n - 1, k));
    }
  }

  /**
   * Five timeouts without a result in between disable a rule for good: its counter stays
   * at five, and every later event that reaches it and passes its checks is taken by no rule.
   */
  lemma {:induction false} FiveTimeoutsAreFinal(rules: seq<Rule>, arrivals: seq<Arrival>, m: nat, n: nat, k: nat)
    requires Fits(rules, arrivals) && m <= n <= |arrivals| && k < |rules|
    requires TimeoutsSince(Trail(rules, arrivals, m, k)) >= 5
    ensures Counts(rules, arrivals, n)[k] == 5
    ensures n < |arrivals| && Consults(rules, arrivals, n, k) ==> Answer(rules, arrivals, n).None?
    decreases n
  {
    if m < n {
      FiveTimeoutsAreFinal(rules, arrivals, m, n - 1, k);
      var a, counts := arrivals[n - 1], Counts(rules, arrivals, n - 1);
      CounterAfter(rules, counts, counts, a.event, a.outcomes, 0, k);
    } else {
      CounterCountsTimeouts(rules, arrivals, n, k);
    }
    if n < |arrivals| {
      var a, counts := arrivals[n], Counts(rules, arrivals, n);
      ReachedIffRejected(rules, counts, a.event, a.outcomes, k);
      MatchIff(rules, counts, a.event, a.outcomes, k);
    }
  }

  // ----------------------------------------------------- filters asked of the relay

  const KIND_STREAM_MESSAGE := 9
  const KIND_STREAM_REMINDER := 40007
  const KIND_WORKFLOW_APPROVAL_REQUESTED := 46010

  /** `None` for the kinds is every kind. */
  datatype ChannelFilter = ChannelFilter(kinds: Option<seq<nat>>, requireMention: bool)

  datatype Mode = Mentions | Everything | ByRules

  datatype Config = Config(
    mode: Mode,
    kindsOverride: Option<seq<nat>>,
    noMentionFilter: bool,
    channelsOverride: Option<seq<IdText>>)

  /** The rule's scope as the resolvers read it: by the id the text parses as. */
  predicate Applies(c: Scope, ch: Uuid) {
    match c
    case All(word) => word == "all"
    case Listed(ids) => exists t :: t in ids && Parsed(t) == Some(ch)
  }

  predicate Passes(f: ChannelFilter, e: Event) {
    && (f.kinds.Some? ==> e.kind in f.kinds.value)
    && (f.requireMention ==> e.mentioned)
  }

  function AddKinds(kinds: seq<nat>, more: seq<nat>): (r: seq<nat>)
    ensures forall k :: k in r <==> k in kinds || k in more
    ensures (forall i, j :: 0 <= i < j < |kinds| ==> kinds[i] != kinds[j]) ==>
      (forall i, j :: 0 <= i < j < |r| ==> r[i] != r[j])
    decreases more
  {
    if more == [] then kinds
    else
      var before := AddKinds(kinds, more[..|more| - 1]);
      var last := more[|more| - 1];
      assert more == more[..|more| - 1] + [last];
      if last in before then before else before + [last]
  }

  function Widened(f: Option<ChannelFilter>, r: Rule): ChannelFilter {
    var g := if f.Some? then f.value else ChannelFilter(Some([]), true);
    ChannelFilter(
      if r.kinds == [] || g.kinds.None? then None else Some(AddKinds(g.kinds.value, r.kinds)),
      g.requireMention && r.requireMention)
  }

  /** The filter for a channel, merged from the rules that apply to it; none if no rule does. */
  function MergedFilter(rules: seq<Rule>, ch: Uuid): Option<ChannelFilter> {
    if rules == [] then None
    else
      var before := MergedFilter(rules[..|rules| - 1], ch);
      var last := rules[|rules| - 1];
      if Applies(last.channels, ch) then Some(Widened(before, last)) else before
  }

  ghost predicate SomeApplies(rules: seq<Rule>, ch: Uuid) {
    exists i :: 0 <= i < |rules| && Applies(rules[i].channels, ch)
  }

  ghost predicate SomeHasKind(rules: seq<Rule>, ch: Uuid, kind: nat) {
    exists i :: 0 <= i < |rules| && Applies(rules[i].channels, ch) && (rules[i].kinds == [] || kind in rules[i].kinds)
  }

  ghost predicate SomeUnmentioned(rules: seq<Rule>, ch: Uuid) {
    exists i :: 0 <= i < |rules| && Applies(rules[i].channels, ch) && !rules[i].requireMention
  }

  ghost predicate AdmitsKind(f: ChannelFilter, kind: nat) {
    f.kinds.None? || kind in f.kinds.value
  }

  /**
   * The merged filter is exact in each part: there is one if some rule applies, it admits
   * the kinds that some applying rule admits, and it asks for a mention only if all do.
   */
  lemma {:induction false} MergedFilterIs(rules: seq<Rule>, ch: Uuid)
    ensures var f := MergedFilter(rules, ch);
      && (f.Some? <==> SomeApplies(rules, ch))
      && (f.Some? ==> forall kind: nat :: AdmitsKind(f.value, kind) <==> SomeHasKind(rules, ch, kind))
      && (f.Some? ==> (!f.value.requireMention <==> SomeUnmentioned(rules, ch)))
    decreases rules
  {
    if rules != [] {
      var n := |rules| - 1;
      var init, last := rules[..n], rules[n];
      MergedFilterIs(init, ch);
      SomeSnoc(init, last, ch);
      assert rules == init + [last];
      forall kind: nat
        ensures SomeHasKind(rules, ch, kind) <==>
          SomeHasKind(init, ch, kind) || (Applies(last.channels, ch) && (last.kinds == [] || kind in last.kinds))
      {
        SomeKindSnoc(init, last, ch, kind);
      }
      if MergedFilter(init, ch).None? {
        NoneApplies(init, ch);
      }
    }
  }

  lemma SomeSnoc(rules: seq<Rule>, r: Rule, ch: Uuid)
    ensures SomeApplies(rules + [r], ch) <==> SomeApplies(rules, ch) || Applies(r.channels, ch)
    ensures SomeUnmentioned(rules + [r], ch) <==>
      SomeUnmentioned(rules, ch) || (Applies(r.channels, ch) && !r.requireMention)
  {
    var longer := rules + [r];
    assert longer[|rules|] == r && forall i :: 0 <= i < |rules| ==> longer[i] == rules[i];
  }

  lemma SomeKindSnoc(rules: seq<Rule>, r: Rule, ch: Uuid, kind: nat)
    ensures SomeHasKind(rules + [r], ch, kind) <==>
      SomeHasKind(rules, ch, kind) || (Applies(r.channels, ch) && (r.kinds == [] || kind in r.kinds))
  {
    var longer := rules + [r];
    assert longer[|rules|] == r && forall i :: 0 <= i < |rules| ==> longer[i] == rules[i];
  }

  lemma NoneApplies(rules: seq<Rule>, ch: Uuid)
    requires !SomeApplies(rules, ch)
    ensures !SomeUnmentioned(rules, ch) && forall kind: nat :: !SomeHasKind(rules, ch, kind)
  {
  }

  lemma {:induction false} MatchesApplies(c: Scope, ch: Uuid)
    ensures Matches(c, ch) ==> Applies(c, ch)
    ensures Applies(c, ch) && !Matches(c, ch) <==>
      c.Listed? && Canonical(ch) !in c.ids && Alias(ch) in c.ids
  {
    if c.Listed? {
      assert Canonical(ch) in c.ids ==> Parsed(Canonical(ch)) == Some(ch);
      assert Alias(ch) in c.ids ==> Parsed(Alias(ch)) == Some(ch);
    }
  }

  /** An event that some rule takes is one the relay was asked for. */
  lemma {:induction false} MatchedEventsArePassed(rules: seq<Rule>, counts: seq<nat>, e: Event, outcomes: seq<Outcome>)
    requires |counts| == |rules| == |outcomes|
    requires MatchFrom(rules, counts, e, outcomes, 0).0.Some?
    ensures var f := MergedFilter(rules, e.channel); f.Some? && Passes(f.value, e)
  {
    MatchFromReached(rules, counts, counts, e, outcomes, 0);
    var i := MatchFrom(rules, counts, e, outcomes, 0).0.value.index;
    assert Screens(rules[i], e);
    MatchesApplies(rules[i].channels, e.channel);
    MergedFilterIs(rules, e.channel);
    assert SomeHasKind(rules, e.channel, e.kind);
    assert !rules[i].requireMention ==> SomeUnmentioned(rules, e.channel);
  }

  /** Some event of the channel, with some outcomes of the expressions, is taken by a rule; no counter has moved yet. */
  ghost predicate CanBeTaken(rules: seq<Rule>, ch: Uuid) {
    exists e: Event, outcomes: seq<Outcome> :: e.channel == ch && |outcomes| == |rules| && Taken(rules, e, outcomes)
  }

  predicate Taken(rules: seq<Rule>, e: Event, outcomes: seq<Outcome>)
    requires |outcomes| == |rules|
  {
    MatchFrom(rules, Zeros(|rules|), e, outcomes, 0).0.Some?
  }

  /** An event can be of a kind the rule asks for. */
  ghost predicate Reachable(kinds: seq<nat>) {
    kinds == [] || exists k :: 0 <= k < |kinds| && kinds[k] < 0x1_0000
  }

  /** The rule can take an event of the channel. */
  ghost predicate CanTake(r: Rule, ch: Uuid) {
    Matches(r.channels, ch) && Reachable(r.kinds)
  }

  ghost predicate SomeCanTake(rules: seq<Rule>, ch: Uuid) {
    exists i :: 0 <= i < |rules| && CanTake(rules[i], ch)
  }

  lemma ScreensOnlyReachable(r: Rule, e: Event)
    requires Screens(r, e)
    ensures CanTake(r, e.channel)
  {
    if r.kinds != [] {
      var k :| 0 <= k < |r.kinds| && r.kinds[k] == e.kind;
      assert r.kinds[k] < 0x1_0000;
    }
  }

  lemma {:induction false} FirstTaking(rules: seq<Rule>, ch: Uuid, n: nat) returns (i: nat)
    requires n < |rules| && CanTake(rules[n], ch)
    ensures i < |rules| && CanTake(rules[i], ch)
    ensures forall j :: 0 <= j < i ==> !CanTake(rules[j], ch)
  {
    if k :| 0 <= k < n && CanTake(rules[k], ch) {
      i := FirstTaking(rules, ch, k);
    } else {
      i := n;
    }
  }

  /** A kind that the rule admits and an event can have. */
  lemma ReachableKind(kinds: seq<nat>) returns (kind: Kind)
    requires Reachable(kinds)
    ensures kinds == [] || kind in kinds
  {
    if kinds == [] {
      kind := 0;
    } else {
      var k :| 0 <= k < |kinds| && kinds[k] < 0x1_0000;
      kind := kinds[k];
    }
  }

  /** An event made for the first rule that can take one of the channel is taken. */
  lemma FirstTakingTakes(rules: seq<Rule>, ch: Uuid, i: nat)
    requires i < |rules| && CanTake(rules[i], ch)
    requires forall j :: 0 <= j < i ==> !CanTake(rules[j], ch)
    ensures CanBeTaken(rules, ch)
  {
    var kind := ReachableKind(rules[i].kinds);
    var e := Event(ch, kind, true);
    var outcomes := seq(|rules|, j => Holds(true));
    assert PassesAll(rules[i], e, Zeros(|rules|)[i], outcomes[i]);
    forall j | 0 <= j < i ensures !Screens(rules[j], e) {
      if Screens(rules[j], e) {
        ScreensOnlyReachable(rules[j], e);
      }
    }
    assert RejectedBefore(rules, Zeros(|rules|), e, outcomes, i);
    MatchIff(rules, Zeros(|rules|), e, outcomes, i);
    assert Taken(rules, e, outcomes);
  }

  lemma TakerCanTake(rules: seq<Rule>, counts: seq<nat>, e: Event, outcomes: seq<Outcome>)
    requires |counts| == |rules| == |outcomes| && MatchFrom(rules, counts, e, outcomes, 0).0.Some?
    ensures SomeCanTake(rules, e.channel)
  {
    MatchFromReached(rules, counts, counts, e, outcomes, 0);
    var i := MatchFrom(rules, counts, e, outcomes, 0).0.value.index;
    ScreensOnlyReachable(rules[i], e);
  }

  /** Where no rule can take an event of the channel nothing is taken, whatever the counters and outcomes. */
  lemma NoneCanNoneTaken(rules: seq<Rule>, counts: seq<nat>, e: Event, outcomes: seq<Outcome>)
    requires |counts| == |rules| == |outcomes| && !SomeCanTake(rules, e.channel)
    ensures MatchFrom(rules, counts, e, outcomes, 0).0.None?
  {
    if MatchFrom(rules, counts, e, outcomes, 0).0.Some? {
      TakerCanTake(rules, counts, e, outcomes);
    }
  }

  /**
   * Some event of a channel is taken, for some outcomes of the expressions, if and only if
   * some rule matches the channel and asks for no kinds or for one that an event can have.
   */
  lemma {:induction false} CanBeTakenIff(rules: seq<Rule>, ch: Uuid)
    ensures CanBeTaken(rules, ch) <==> SomeCanTake(rules, ch)
  {
    if n :| 0 <= n < |rules| && CanTake(rules[n], ch) {
      var i := FirstTaking(rules, ch, n);
      FirstTakingTakes(rules, ch, i);
    } else {
      forall e: Event, outcomes: seq<Outcome> | e.channel == ch && |outcomes| == |rules| ensures !Taken(rules, e, outcomes) {
        NoneCanNoneTaken(rules, Zeros(|rules|), e, outcomes);
      }
    }
  }

  /** The relay is asked for the channel's events, yet no rule ever takes one. */
  ghost predicate SubscribedInVain(rules: seq<Rule>, ch: Uuid) {
    MergedFilter(rules, ch).Some? && !CanBeTaken(rules, ch)
  }

  /** The scope lists the channel, but only in another spelling than the canonical one. */
  predicate ListedAsAlias(c: Scope, ch: Uuid) {
    c.Listed? && Alias(ch) in c.ids && Canonical(ch) !in c.ids
  }

  /** A rule that has the channel subscribed and cannot take any of its events. */
  ghost predicate Idle(r: Rule, ch: Uuid) {
    ListedAsAlias(r.channels, ch) || !Reachable(r.kinds)
  }

  /**
   * A channel is subscribed in vain if and only if some rule applies to it and none can
   * take its events: that is, each that applies lists it in another spelling only or asks
   * for nothing but kinds beyond 16 bits.
   */
  lemma {:induction false} SubscribedInVainIff(rules: seq<Rule>, ch: Uuid)
    ensures SubscribedInVain(rules, ch) <==> SomeApplies(rules, ch) && !SomeCanTake(rules, ch)
    ensures SubscribedInVain(rules, ch) <==>
      SomeApplies(rules, ch) && forall i :: 0 <= i < |rules| && Applies(rules[i].channels, ch) ==> Idle(rules[i], ch)
  {
    MergedFilterIs(rules, ch);
    CanBeTakenIff(rules, ch);
    forall i | 0 <= i < |rules|
      ensures CanTake(rules[i], ch) <==> Applies(rules[i].channels, ch) && !Idle(rules[i], ch)
    {
      MatchesApplies(rules[i].channels, ch);
    }
  }

  /** Two ways to be: one other spelling, or a single kind that no event has. */
  lemma {:induction false} InVainExamples(ch: Uuid)
    ensures SubscribedInVain([Rule("r", Listed([Alias(ch)]), [], false, None, None)], ch)
    ensures SubscribedInVain([Rule("r", All("all"), [70_000], false, None, None)], ch)
  {
    var a, b := Rule("r", Listed([Alias(ch)]), [], false, None, None), Rule("r", All("all"), [70_000], false, None, None);
    assert Applies([a][0].channels, ch) by { assert Parsed(Alias(ch)) == Some(ch); }
    assert Applies([b][0].channels, ch);
    SubscribedInVainIff([a], ch);
    SubscribedInVainIff([b], ch);
  }

  // ------------------------------------------------------------------- the resolvers

  const DEFAULT_KINDS := [KIND_STREAM_MESSAGE, KIND_WORKFLOW_APPROVAL_REQUESTED, KIND_STREAM_REMINDER]

  /** The filter of a channel in the modes that do not use rules. */
  function FixedFilter(c: Config): ChannelFilter {
    if c.mode.Mentions? then
      ChannelFilter(Some(if c.kindsOverride.Some? then c.kindsOverride.value else DEFAULT_KINDS), !c.noMentionFilter)
    else ChannelFilter(c.kindsOverride, false)
  }

  predicate Allowed(c: Config, ch: Uuid) {
    c.channelsOverride.Some? ==> exists t :: t in c.channelsOverride.value && Parsed(t) == Some(ch)
  }

  /** The filter a channel is subscribed with, if it is in scope. */
  function FilterFor(c: Config, rules: seq<Rule>, ch: Uuid): Option<ChannelFilter> {
    if c.mode.ByRules? then MergedFilter(rules, ch)
    else if Allowed(c, ch) then Some(FixedFilter(c)) else None
  }

  /** Some text of the list is a spelling of the channel's id. */
  ghost predicate Spelled(ids: seq<IdText>, ch: Uuid) {
    Canonical(ch) in ids || Alias(ch) in ids
  }

  /**
   * Which channels get an entry: with own rules those that some rule applies to; without
   * them all, or just those the override spells.
   */
  lemma {:induction false} InScopeIff(c: Config, rules: seq<Rule>, ch: Uuid)
    ensures FilterFor(c, rules, ch).Some? <==>
      if c.mode.ByRules? then SomeApplies(rules, ch)
      else c.channelsOverride.None? || Spelled(c.channelsOverride.value, ch)
  {
    MergedFilterIs(rules, ch);
    assert Parsed(Canonical(ch)) == Parsed(Alias(ch)) == Some(ch);
  }

  /** The merging loop that both resolvers contain. */
  method MergeRules(rules: seq<Rule>, ch: Uuid) returns (f: Option<ChannelFilter>)
    ensures f == MergedFilter(rules, ch)
  {
    var mergedKinds: Option<seq<nat>> := Some([]);
    var requireMention, hasRule := true, false;
    for i := 0 to |rules|
      invariant MergedFilter(rules[..i], ch) == if hasRule then Some(ChannelFilter(mergedKinds, requireMention)) else None
      invariant !hasRule ==> mergedKinds == Some([]) && requireMention
    {
      assert rules[..i + 1][..i] == rules[..i];
      var applies := AppliesTo(rules[i].channels, ch);
      if !applies {
        continue;
      }
      hasRule := true;
      if rules[i].kinds == [] {
        mergedKinds := None;
      } else if mergedKinds.Some? {
        var kinds := PushKinds(mergedKinds.value, rules[i].kinds);
        mergedKinds := Some(kinds);
      }
      if !rules[i].requireMention {
        requireMention := false;
      }
    }
    assert rules[..|rules|] == rules;
    f := if hasRule then Some(ChannelFilter(mergedKinds, requireMention)) else None;
  }

  method AppliesTo(c: Scope, ch: Uuid) returns (b: bool)
    ensures b == Applies(c, ch)
  {
    if c.All? {
      return c.word == "all";
    }
    b := AnyParses(c.ids, ch);
  }

  method AnyParses(ids: seq<IdText>, ch: Uuid) returns (b: bool)
    ensures b <==> exists t :: t in ids && Parsed(t) == Some(ch)
  {
    for i := 0 to |ids|
      invariant forall j :: 0 <= j < i ==> Parsed(ids[j]) != Some(ch)
    {
      if Parsed(ids[i]) == Some(ch) {
        return true;
      }
    }
    b := false;
  }

  method PushKinds(kinds: seq<nat>, more: seq<nat>) returns (r: seq<nat>)
    ensures r == AddKinds(kinds, more)
  {
    r := kinds;
    for i := 0 to |more|
      invariant r == AddKinds(kinds, more[..i])
    {
      assert more[..i + 1][..i] == more[..i];
      if more[i] !in r {
        r := r + [more[i]];
      }
    }
    assert more[..|more|] == more;
  }

  /** The batch resolver: an entry for exactly the discovered channels in scope. */
  method ResolveChannelFilters(c: Config, discovered: seq<Uuid>, rules: seq<Rule>)
    returns (result: map<Uuid, ChannelFilter>)
    ensures forall ch :: ch in result <==> ch in discovered && FilterFor(c, rules, ch).Some?
    ensures forall ch :: ch in result ==> FilterFor(c, rules, ch) == Some(result[ch])
  {
    result := map[];
    if c.mode.ByRules? {
      for i := 0 to |discovered|
        invariant forall ch :: ch in result <==> ch in discovered[..i] && MergedFilter(rules, ch).Some?
        invariant forall ch :: ch in result ==> MergedFilter(rules, ch) == Some(result[ch])
      {
        var f := MergeRules(rules, discovered[i]);
        if f.Some? {
          result := result[discovered[i] := f.value];
        }
      }
      return;
    }
    var targets := TargetChannels(c, discovered);
    for i := 0 to |targets|
      invariant forall ch :: ch in result <==> ch in targets[..i]
      invariant forall ch :: ch in result ==> result[ch] == FixedFilter(c)
    {
      result := result[targets[i] := FixedFilter(c)];
    }
  }

  method TargetChannels(c: Config, discovered: seq<Uuid>) returns (targets: seq<Uuid>)
    ensures forall ch :: ch in targets <==> ch in discovered && Allowed(c, ch)
  {
    if c.channelsOverride.None? {
      return discovered;
    }
    var ids := c.channelsOverride.value;
    targets := [];
    for i := 0 to |ids|
      invariant forall ch :: ch in targets <==> ch in discovered && exists t :: t in ids[..i] && Parsed(t) == Some(ch)
    {
      var id := Parsed(ids[i]);
      assert ids[..i + 1] == ids[..i] + [ids[i]];
      if id.Some? && id.value in discovered {
        targets := targets + [id.value];
      }
    }
    assert ids[..|ids|] == ids;
  }

  /** The resolver for one channel agrees with the batch resolver on every discovered channel. */
  method ResolveDynamicChannelFilter(c: Config, ch: Uuid, rules: seq<Rule>) returns (f: Option<ChannelFilter>)
    ensures f == FilterFor(c, rules, ch)
  {
    if !c.mode.ByRules? && c.channelsOverride.Some? {
      var allowed := AnyParses(c.channelsOverride.value, ch);
      if !allowed {
        return None;
      }
    }
    match c.mode
    case Mentions => f := Some(FixedFilter(c));
    case Everything => f := Some(FixedFilter(c));
    case ByRules => f := MergeRules(rules, ch);
  }

  // --------------------------------------------------------- modes without own rules

  /** The single rule these modes run with. */
  function BuiltRule(c: Config): Rule {
    if c.mode.Mentions? then
      Rule("mentions", All("all"), if c.kindsOverride.Some? then c.kindsOverride.value else DEFAULT_KINDS,
           !c.noMentionFilter, None, Some("@mention"))
    else
      Rule("all", All("all"), if c.kindsOverride.Some? then c.kindsOverride.value else [], false, None, Some("all"))
  }

  /** Here the rule takes exactly the events that were asked for, unless the kinds are overridden with an empty list. */
  lemma BuiltRuleTakesIff(c: Config)
    requires !c.mode.ByRules?
    ensures (forall e, outcome :: MatchFrom([BuiltRule(c)], [0], e, [outcome], 0).0.Some? <==> Passes(FixedFilter(c), e)) <==>
      c.kindsOverride != Some([])
  {
    forall e, outcome
      ensures MatchFrom([BuiltRule(c)], [0], e, [outcome], 0).0.Some? <==> Screens(BuiltRule(c), e)
    {
    }
    if c.kindsOverride == Some([]) {
      var e := Event(0, 0, true);
      assert Screens(BuiltRule(c), e) && !Passes(FixedFilter(c), e);
      assert MatchFrom([BuiltRule(c)], [0], e, [Failed], 0).0.Some?;
    }
  }
}
