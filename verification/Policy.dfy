/** Which inboxes of a matched route receive a message
    (internal/harness/policy/delivery.go and the filters it calls). */
module Policy {
  import opened Text
  import opened Improvement
  import opened Sorting

  /** Explicit targets first, then the preferred owner; a filter that matches nothing is ignored. */
  function SelectInboxes(kind: string, inboxes: seq<string>, targets: seq<string>, m: CorrectionMetadata): seq<string> {
    var byTargets := ByTargets(inboxes, targets);
    var selected := if byTargets != [] then byTargets else inboxes;
    var byAgent := ByTargetAgent(selected, PreferredTargetAgent(kind, m));
    if byAgent != [] then byAgent else selected
  }

  /** Named by the explicit targets, or no inbox of the route is. */
  predicate Targeted(inboxes: seq<string>, targets: seq<string>, i: string) {
    MatchesAny(i, targets) || !exists j :: j in inboxes && MatchesAny(j, targets)
  }

  /** Owned by the agent, or no inbox the targets leave is. */
  predicate Owned(inboxes: seq<string>, targets: seq<string>, agent: string, i: string) {
    || (agent != "" && InboxMatches(i, agent))
    || !exists j :: j in inboxes && Targeted(inboxes, targets, j) && agent != "" && InboxMatches(j, agent)
  }

  function Chosen(inboxes: seq<string>, targets: seq<string>, agent: string): string -> bool {
    (i: string) => Targeted(inboxes, targets, i) && Owned(inboxes, targets, agent, i)
  }

  lemma {:induction false} KeepIsSelect(inboxes: seq<string>, p: string -> bool)
    ensures Keep(inboxes, p) == Select(inboxes, p)
  {
    if inboxes != [] { KeepIsSelect(inboxes[1..], p); }
  }

  lemma TargetsSelect(inboxes: seq<string>, targets: seq<string>)
    ensures var byTargets := ByTargets(inboxes, targets);
            (if byTargets != [] then byTargets else inboxes) == Select(inboxes, i => Targeted(inboxes, targets, i))
  {
    hide MatchesAny;
    var p := (i: string) => MatchesAny(i, targets);
    var q := (i: string) => Targeted(inboxes, targets, i);
    NoTargetMatches(targets);
    if exists j :: j in inboxes && MatchesAny(j, targets) {
      var j :| j in inboxes && MatchesAny(j, targets);
      assert j in ByTargets(inboxes, targets);
      KeepIsSelect(inboxes, p);
      SelectSame(inboxes, p, q);
    } else {
      assert forall i :: i !in ByTargets(inboxes, targets);
      Nothing(ByTargets(inboxes, targets));
      SelectAll(inboxes, q);
    }
  }

  lemma NoTargetMatches(targets: seq<string>)
    ensures targets == [] ==> forall i :: !MatchesAny(i, targets)
  {
  }

  lemma Nothing(s: seq<string>)
    ensures (forall i :: i !in s) ==> s == []
  {
    if s != [] { assert s[0] in s; }
  }

  /** The selection, exactly and in the order of the route: the inboxes the targets name, or
      all of them if the targets name none; and of these the ones the preferred owner has,
      or all of them if it has none. */
  lemma SelectionExact(kind: string, inboxes: seq<string>, targets: seq<string>, m: CorrectionMetadata)
    ensures SelectInboxes(kind, inboxes, targets, m)
            == Select(inboxes, Chosen(inboxes, targets, PreferredTargetAgent(kind, m)))
  {
    hide PreferredTargetAgent, InboxMatches, Targeted, ByTargets, Chosen, Select;
    TargetsSelect(inboxes, targets);
    OwnerSelect(inboxes, targets, PreferredTargetAgent(kind, m));
  }

  lemma OwnedAmong(selected: seq<string>, agent: string)
    ensures ByTargetAgent(selected, agent) == Select(selected, i => agent != "" && InboxMatches(i, agent))
    ensures forall i :: i in ByTargetAgent(selected, agent) <==> i in selected && agent != "" && InboxMatches(i, agent)
  {
    hide InboxMatches;
    var matches, owned := (i: string) => InboxMatches(i, agent), (i: string) => agent != "" && InboxMatches(i, agent);
    if agent != "" {
      KeepIsSelect(selected, matches);
      SelectSame(selected, matches, owned);
    } else {
      Nothing(Select(selected, owned));
    }
  }

  lemma OwnerSelect(inboxes: seq<string>, targets: seq<string>, agent: string)
    ensures var selected := Select(inboxes, i => Targeted(inboxes, targets, i));
            var byAgent := ByTargetAgent(selected, agent);
            (if byAgent != [] then byAgent else selected) == Select(inboxes, Chosen(inboxes, targets, agent))
  {
    hide InboxMatches, Targeted;
    var t := (i: string) => Targeted(inboxes, targets, i);
    var o := (i: string) => agent != "" && InboxMatches(i, agent);
    var chosen := Chosen(inboxes, targets, agent);
    var selected := Select(inboxes, t);
    OwnedAmong(selected, agent);
    if exists j :: j in selected && o(j) {
      var both := (i: string) => t(i) && o(i);
      SelectTwice(inboxes, t, o, both);
      SelectSame(inboxes, both, chosen);
    } else {
      assert forall i :: i !in ByTargetAgent(selected, agent);
      Nothing(ByTargetAgent(selected, agent));
      SelectSame(inboxes, t, chosen);
    }
  }

  /** So it is never empty for a route that has inboxes, never leaves the route, and holds
      every inbox that passes both tests. */
  lemma SelectionSound(kind: string, inboxes: seq<string>, targets: seq<string>, m: CorrectionMetadata)
    ensures var r := SelectInboxes(kind, inboxes, targets, m);
            var agent := PreferredTargetAgent(kind, m);
            && (r == [] <==> inboxes == [])
            && forall i :: i in r <==>
                 i in inboxes && Targeted(inboxes, targets, i) && Owned(inboxes, targets, agent, i)
  {
    hide PreferredTargetAgent, InboxMatches, MatchesAny, SelectInboxes;
    SelectionExact(kind, inboxes, targets, m);
    var agent := PreferredTargetAgent(kind, m);
    if inboxes != [] {
      var first := inboxes[0];
      if j :| j in inboxes && MatchesAny(j, targets) { first := j; }
      assert first in inboxes && Targeted(inboxes, targets, first);
      if j :| j in inboxes && Targeted(inboxes, targets, j) && agent != "" && InboxMatches(j, agent) { first := j; }
      assert Chosen(inboxes, targets, agent)(first);
    }
  }

  /** Who the preferred owner is: an explicit agent wins; failing that, an improvement that
      is neither escalated nor barred from retries, and whose mode is retry or unset, goes
      to the owner of its kind; everything else has none. */
  lemma PreferredOwner(kind: string, m: CorrectionMetadata)
    ensures m.targetAgent != "" ==> PreferredTargetAgent(kind, m) == m.targetAgent
    ensures m.targetAgent == "" && IsImprovement(m) && m.outcome != "escalated" && m.retryAllowed != Some(false)
            && (m.routingMode == "" || Lower(m.routingMode) == "retry") ==>
              && (kind == "design-feedback" ==> PreferredTargetAgent(kind, m) == "sightjack")
              && (kind == "implementation-feedback" ==> PreferredTargetAgent(kind, m) == "paintress")
    ensures m.targetAgent == "" && PreferredTargetAgent(kind, m) != "" ==>
              && IsImprovement(m) && m.outcome != "escalated" && m.retryAllowed != Some(false)
              && (m.routingMode == "" || Lower(m.routingMode) == "retry")
              && (kind == "design-feedback" || kind == "implementation-feedback")
  {
    assert |Lower("")| == 0;
    var known := ["retry", "reroute", "escalate"];
    assert known[0] == "retry" && known[1] == "reroute" && known[2] == "escalate";
    assert m.routingMode != "" ==> |Lower(m.routingMode)| > 0;
    RetryIsLower(m.routingMode);
  }

  lemma RetryIsLower(s: string)
    ensures s == "retry" ==> Lower(s) == "retry"
  {
    if s == "retry" {
      assert forall i :: 0 <= i < 5 ==> LowerChar(s[i]) == s[i];
    }
  }

  /** The inner loop of FilterInboxesByTargets: leave at the first matching target. */
  method MatchesSome(inbox: string, targets: seq<string>) returns (hit: bool)
    ensures hit <==> MatchesAny(inbox, targets)
  {
    hide InboxMatches;
    for t := 0 to |targets|
      invariant forall j :: 0 <= j < t ==> !InboxMatches(inbox, targets[j])
    {
      if InboxMatches(inbox, targets[t]) { return true; }
    }
    return false;
  }

  /** The outer loop of FilterInboxesByTargets. */
  method FilterInboxesByTargets(inboxes: seq<string>, targets: seq<string>) returns (filtered: seq<string>)
    ensures filtered == ByTargets(inboxes, targets)
  {
    hide MatchesAny;
    filtered := [];
    if targets == [] { return; }
    var keep := (i: string) => MatchesAny(i, targets);
    for n := 0 to |inboxes|
      invariant filtered + Keep(inboxes[n..], keep) == Keep(inboxes, keep)
    {
      var hit := MatchesSome(inboxes[n], targets);
      assert hit <==> keep(inboxes[n]);
      assert inboxes[n..][1..] == inboxes[n + 1..];
      if hit {
        filtered := filtered + [inboxes[n]];
      }
    }
  }

  /** The loop of FilterInboxesByTargetAgent. */
  method FilterInboxesByTargetAgent(inboxes: seq<string>, agent: string) returns (filtered: seq<string>)
    ensures filtered == ByTargetAgent(inboxes, agent)
  {
    hide InboxMatches;
    filtered := [];
    if agent == "" { return; }
    var keep := (i: string) => InboxMatches(i, agent);
    for n := 0 to |inboxes|
      invariant filtered + Keep(inboxes[n..], keep) == Keep(inboxes, keep)
    {
      assert inboxes[n..][1..] == inboxes[n + 1..];
      if InboxMatches(inboxes[n], agent) {
        filtered := filtered + [inboxes[n]];
      }
    }
  }
}
