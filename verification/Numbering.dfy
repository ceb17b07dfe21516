/** Sequence numbers (internal/eventsource/seq_counter.go), the one-time cutover
    (internal/eventsource/cutover.go) and event emission (internal/usecase/emitter.go) as
    one machine: any number of emit and cutover calls share the counter and the event log,
    emit calls of one emitter share its prevID cell, every step of a call interleaves with
    those of others, each durable step may fail, and a process may die between two steps. */
module Numbering {
  import opened Text

  // ------------------------------------------------------------------------ state

  datatype Origin = Legacy | By(emitter: nat) | Cutover

  /** A stored event.  `acked` says that its append reported success: an append that fails
      at fsync has written the line and still returns an error. */
  datatype Entry = Entry(id: string, origin: Origin, seqNr: nat, causation: string, acked: bool)

  datatype Outcome = Stored | NotStored | StoredButError

  /** A call under way: an emit that has read prevID, holds a numbered event, or has stored
      it and not yet updated prevID; or a cutover at one of its points. */
  datatype Proc =
    | Began(emitter: nat, prev: string)
    | Holding(emitter: nat, event: Entry)
    | Acknowledged(emitter: nat, id: string)
    | Checked
    | Loaded
    | Saved
    | Numbered(event: Entry)

  datatype State = State(
    next: nat,                    // seq_counter.next_seq
    issued: seq<nat>,             // every number handed out, in order
    log: seq<Entry>,
    snapshot: bool,
    emitters: map<nat, string>,   // the prevID of each running emitter
    started: set<nat>,            // every emitter there ever was
    procs: map<nat, Proc>)

  datatype Action =
    | InitializeAt(n: nat)
    | Alloc
    | StartEmitter(m: nat)
    | CrashEmitter(m: nat)
    | BeginEmit(p: nat, m: nat)
    | AllocFails(p: nat)
    | Allocate(p: nat, id: string)
    | Append(p: nat, outcome: Outcome)
    | SetPrev(p: nat)
    | CheckCounter(p: nat)
    | LoadLog(p: nat)
    | SaveSnapshot(p: nat)
    | NumberCutover(p: nat, id: string)
    | Die(p: nat)

  predicate IsEmit(pr: Proc) { pr.Began? || pr.Holding? || pr.Acknowledged? }

  /** A cutover call between its check of the counter and its own allocation. */
  predicate Unnumbered(pr: Proc) { pr.Checked? || pr.Loaded? || pr.Saved? }

  function Held(pr: Proc): Option<Entry> {
    if pr.Holding? || pr.Numbered? then Some(pr.event) else None
  }

  function Latest(next: nat): nat { if next <= 1 then 0 else next - 1 }

  function Issue(s: State): State {
    s.(next := s.next + 1, issued := s.issued + [s.next])
  }

  /** The store's validation refuses an event without an id. */
  function Landed(e: Entry, outcome: Outcome): Outcome {
    if e.id == "" then NotStored else outcome
  }

  function Logged(log: seq<Entry>, e: Entry, outcome: Outcome): seq<Entry> {
    if Landed(e, outcome).NotStored? then log else log + [e.(acked := Landed(e, outcome).Stored?)]
  }

  /** A crash takes the emitter and all its emits under way. */
  function Crashed(procs: map<nat, Proc>, m: nat): map<nat, Proc> {
    map p | p in procs && !(IsEmit(procs[p]) && procs[p].emitter == m) :: procs[p]
  }

  function EmitStep(s: State, a: Action): State
    requires a.BeginEmit? || a.AllocFails? || a.Allocate? || a.SetPrev?
  {
    match a
    case BeginEmit(p, m) =>
      if p in s.procs || m !in s.emitters then s else s.(procs := s.procs[p := Began(m, s.emitters[m])])
    case AllocFails(p) =>
      if p in s.procs && s.procs[p].Began? then s.(procs := s.procs - {p}) else s
    case Allocate(p, id) =>
      if p in s.procs && s.procs[p].Began?
      then var m := s.procs[p].emitter;
           Issue(s).(procs := s.procs[p := Holding(m, Entry(id, By(m), s.next, s.procs[p].prev, false))])
      else s
    case SetPrev(p) =>
      if p in s.procs && s.procs[p].Acknowledged?
      then s.(emitters := s.emitters[s.procs[p].emitter := s.procs[p].id], procs := s.procs - {p})
      else s
  }

  function AppendStep(s: State, p: nat, outcome: Outcome): State {
    if p !in s.procs || Held(s.procs[p]).None? then s
    else
      var e := s.procs[p].event;
      var after := s.(log := Logged(s.log, e, outcome));
      if s.procs[p].Holding? && Landed(e, outcome).Stored?
      then after.(procs := s.procs[p := Acknowledged(s.procs[p].emitter, e.id)])
      else after.(procs := s.procs - {p})
  }

  function CutoverStep(s: State, a: Action): State
    requires a.CheckCounter? || a.LoadLog? || a.SaveSnapshot? || a.NumberCutover? || a.Die?
  {
    match a
    case CheckCounter(p) =>
      if p in s.procs || Latest(s.next) > 0 then s else s.(procs := s.procs[p := Checked])
    case LoadLog(p) =>
      if p in s.procs && s.procs[p].Checked?
      then s.(procs := if s.log == [] then s.procs - {p} else s.procs[p := Loaded])
      else s
    case SaveSnapshot(p) =>
      if p in s.procs && s.procs[p].Loaded? then s.(snapshot := true, procs := s.procs[p := Saved]) else s
    case NumberCutover(p, id) =>
      if p in s.procs && s.procs[p].Saved?
      then Issue(s).(procs := s.procs[p := Numbered(Entry(id, Cutover, s.next, "", false))])
      else s
    case Die(p) =>
      if p in s.procs && !IsEmit(s.procs[p]) then s.(procs := s.procs - {p}) else s
  }

  function Next(s: State, a: Action): State {
    match a
    case InitializeAt(n) => if s.next <= n + 1 then s.(next := n + 1) else s
    case Alloc => Issue(s)
    case StartEmitter(m) =>
      if m in s.started || m in s.emitters then s else s.(emitters := s.emitters[m := ""], started := s.started + {m})
    case CrashEmitter(m) => s.(emitters := s.emitters - {m}, procs := Crashed(s.procs, m))
    case Append(p, outcome) => AppendStep(s, p, outcome)
    case BeginEmit(_, _) => EmitStep(s, a)
    case AllocFails(_) => EmitStep(s, a)
    case Allocate(_, _) => EmitStep(s, a)
    case SetPrev(_) => EmitStep(s, a)
    case _ => CutoverStep(s, a)
  }

  function Run(s: State, actions: seq<Action>): State
    decreases |actions|
  {
    if actions == [] then s else Run(Next(s, actions[0]), actions[1..])
  }

  /** Before any counter existed: only legacy events. */
  ghost predicate Fresh(s: State) {
    && s.next == 1 && s.issued == [] && s.procs == map[] && s.emitters == map[] && s.started == {}
    && forall e :: e in s.log ==> e.origin == Legacy
  }

  // ------------------------------------------- what every step of every run preserves

  ghost predicate Increasing(ns: seq<nat>) {
    forall i, j :: 0 <= i < j < |ns| ==> ns[i] < ns[j]
  }

  ghost predicate IssuedInv(s: State) {
    s.next >= 1 && Increasing(s.issued) && forall n :: n in s.issued ==> 1 <= n < s.next
  }

  predicate Counted(e: Entry) { e.origin != Legacy }

  ghost predicate HeldBy(s: State, p: nat, e: Entry) {
    p in s.procs && Held(s.procs[p]) == Some(e)
  }

  /** No two events, stored or about to be, carry the same issued number. */
  ghost predicate NumbersInv(s: State) {
    && (forall i :: 0 <= i < |s.log| && Counted(s.log[i]) ==> 1 <= s.log[i].seqNr < s.next)
    && (forall i, j :: 0 <= i < j < |s.log| && Counted(s.log[i]) && Counted(s.log[j]) ==>
          s.log[i].seqNr != s.log[j].seqNr)
    && (forall p, e :: HeldBy(s, p, e) ==> Counted(e) && 1 <= e.seqNr < s.next)
    && (forall p, e, i :: HeldBy(s, p, e) && 0 <= i < |s.log| && Counted(s.log[i]) ==> s.log[i].seqNr != e.seqNr)
    && (forall p, e, q, f :: HeldBy(s, p, e) && HeldBy(s, q, f) && p != q ==> e.seqNr != f.seqNr)
  }

  predicate AckedBy(e: Entry, m: nat) { e.origin == By(m) && e.acked }

  /** The id is empty or that of an acknowledged event of the emitter in the log. */
  ghost predicate Known(log: seq<Entry>, m: nat, id: string) {
    id == "" || exists i :: 0 <= i < |log| && AckedBy(log[i], m) && log[i].id == id
  }

  /** Who holds what, and that prevID, its copies and every cause are of stored events. */
  ghost predicate CallInv(s: State, pr: Proc) {
    match pr
    case Began(m, prev) => m in s.emitters && Known(s.log, m, prev)
    case Holding(m, e) => m in s.emitters && e.origin == By(m) && Known(s.log, m, e.causation)
    case Acknowledged(m, id) => m in s.emitters && id != "" && Known(s.log, m, id)
    case Numbered(e) => e.origin == Cutover
    case _ => true
  }

  ghost predicate StoredInv(log: seq<Entry>, started: set<nat>) {
    forall i :: 0 <= i < |log| && log[i].origin.By? ==>
      && log[i].id != "" && log[i].origin.emitter in started
      && Known(log[..i], log[i].origin.emitter, log[i].causation)
  }

  ghost predicate CausesInv(s: State) {
    && (forall p :: p in s.procs ==> CallInv(s, s.procs[p]))
    && (forall m :: m in s.emitters ==> m in s.started && Known(s.log, m, s.emitters[m]))
    && StoredInv(s.log, s.started)
  }

  ghost predicate Inv(s: State) {
    IssuedInv(s) && NumbersInv(s) && CausesInv(s)
  }

  lemma FreshInv(s: State)
    requires Fresh(s)
    ensures Inv(s) && CutoverInv(s) && ChainInv(s)
  {
    forall i | 0 <= i < |s.log| ensures s.log[i].origin == Legacy { assert s.log[i] in s.log; }
  }

  lemma NextIssued(s: State, a: Action)
    requires IssuedInv(s)
    ensures IssuedInv(Next(s, a)) && s.next <= Next(s, a).next && s.issued <= Next(s, a).issued
  {
    hide Held, Logged, Crashed;
    var ns := s.issued + [s.next];
    forall i, j | 0 <= i < j < |ns| ensures ns[i] < ns[j] {
      assert ns[i] == s.issued[i] && s.issued[i] in s.issued;
    }
  }

  /** A call holds what it held, or an event with the number just issued. */
  lemma NextHeld(s: State, a: Action, p: nat, e: Entry)
    requires HeldBy(Next(s, a), p, e)
    ensures (HeldBy(s, p, e) && Next(s, a).procs[p] == s.procs[p])
            || (e.seqNr == s.next && Next(s, a).next == s.next + 1 && Next(s, a).log == s.log && Counted(e)
                && (a.Allocate? || a.NumberCutover?) && a.p == p && p in s.procs
                && (a.NumberCutover? ==> s.procs[p].Saved?)
                && (a.Allocate? ==> s.procs[p].Began? && e.origin == By(s.procs[p].emitter)))
  {
    hide Logged;
  }

  /** The log only grows, and only by the event the appending call held. */
  lemma NextLog(s: State, a: Action) returns (e: Entry)
    ensures var s' := Next(s, a);
            || s'.log == s.log
            || (a.Append? && HeldBy(s, a.p, e) && e.id != "" && a.outcome != NotStored
                && s'.log == s.log + [e.(acked := a.outcome.Stored?)] && s'.next == s.next
                && !exists f :: HeldBy(s', a.p, f))
  {
    e := Entry("", Legacy, 0, "", false);
    if a.Append? && a.p in s.procs && Held(s.procs[a.p]).Some? {
      e := Held(s.procs[a.p]).value;
    }
  }

  lemma NextNumbers(s: State, a: Action)
    requires IssuedInv(s) && NumbersInv(s)
    ensures NumbersInv(Next(s, a))
  {
    hide Next;
    var s' := Next(s, a);
    var e := NextLog(s, a);
    NextIssued(s, a);
    forall p, f | HeldBy(s', p, f)
      ensures Counted(f)
      ensures HeldBy(s, p, f)
           || (f.seqNr == s.next < s'.next && s'.log == s.log && (a.Allocate? || a.NumberCutover?) && a.p == p)
    {
      NextHeld(s, a, p, f);
    }
    hide HeldBy;
  }

  lemma KnownGrows(log: seq<Entry>, e: Entry, m: nat, id: string)
    requires Known(log, m, id)
    ensures Known(log + [e], m, id)
  {
    if id != "" {
      var i :| 0 <= i < |log| && AckedBy(log[i], m) && log[i].id == id;
      assert (log + [e])[i] == log[i];
    }
  }

  lemma CallInvGrows(s: State, s': State, pr: Proc, e: Entry)
    requires CallInv(s, pr) && s'.emitters == s.emitters && s'.log == s.log + [e]
    ensures CallInv(s', pr)
  {
    hide Known;
    match pr
    case Began(m, prev) => KnownGrows(s.log, e, m, prev);
    case Holding(m, h) => KnownGrows(s.log, e, m, h.causation);
    case Acknowledged(m, id) => KnownGrows(s.log, e, m, id);
    case _ =>
  }

  lemma StoredInvGrows(s: State, e: Entry)
    requires StoredInv(s.log, s.started) && e.id != ""
    requires e.origin.By? ==> e.origin.emitter in s.started && Known(s.log, e.origin.emitter, e.causation)
    ensures StoredInv(s.log + [e], s.started)
  {
    hide Known;
    var log := s.log + [e];
    forall i | 0 <= i < |log| && log[i].origin.By?
      ensures log[i].id != "" && log[i].origin.emitter in s.started
      ensures Known(log[..i], log[i].origin.emitter, log[i].causation)
    {
      assert log[..i] == s.log[..i];
      if i == |s.log| { assert s.log[..i] == s.log; }
    }
  }

  lemma AppendCauses(s: State, p: nat, outcome: Outcome)
    requires CausesInv(s)
    ensures CausesInv(AppendStep(s, p, outcome))
  {
    hide Known, StoredInv;
    var s' := AppendStep(s, p, outcome);
    if s'.log != s.log {
      var held := s.procs[p].event;
      var e := held.(acked := outcome.Stored?);
      assert CallInv(s, s.procs[p]) && s'.log == s.log + [e] && e.id != "";
      StoredInvGrows(s, e);
      forall m | m in s.emitters ensures Known(s'.log, m, s.emitters[m]) { KnownGrows(s.log, e, m, s.emitters[m]); }
      forall q | q in s'.procs ensures CallInv(s', s'.procs[q]) {
        if q == p {
          LastIsKnown(s.log, e, s.procs[p].emitter);
        } else {
          CallInvGrows(s, s', s.procs[q], e);
        }
      }
    }
  }

  lemma LastIsKnown(log: seq<Entry>, e: Entry, m: nat)
    requires AckedBy(e, m)
    ensures Known(log + [e], m, e.id)
  {
    assert (log + [e])[|log|] == e;
  }

  lemma NextCauses(s: State, a: Action)
    requires CausesInv(s)
    ensures CausesInv(Next(s, a))
  {
    hide Known, StoredInv, AppendStep;
    if a.Append? {
      AppendCauses(s, a.p, a.outcome);
    } else {
      if a.StartEmitter? { StoredInvMore(s.log, s.started, s.started + {a.m}); NothingKnown(s.log, a.m); }
      assert forall p :: p in s.procs ==> CallInv(s, s.procs[p]);
    }
  }

  lemma NothingKnown(log: seq<Entry>, m: nat)
    ensures Known(log, m, "")
  {
  }

  lemma StoredInvMore(log: seq<Entry>, started: set<nat>, more: set<nat>)
    requires StoredInv(log, started) && started <= more
    ensures StoredInv(log, more)
  {
    hide Known;
  }

  lemma NextInv(s: State, a: Action)
    requires Inv(s)
    ensures Inv(Next(s, a))
  {
    hide Next, NumbersInv, CausesInv, IssuedInv;
    NextIssued(s, a);
    NextNumbers(s, a);
    NextCauses(s, a);
  }

  lemma {:induction false} RunInv(s: State, actions: seq<Action>)
    requires Inv(s)
    ensures Inv(Run(s, actions))
    decreases |actions|
  {
    hide Inv, Next;
    if actions != [] {
      NextInv(s, actions[0]);
      RunInv(Next(s, actions[0]), actions[1..]);
    }
  }

  // ------------------------------------------------------------------ sequential emits

  /** No emit begins while another one of the same emitter is under way.  Nothing in emit
      or around it ensures this; it takes no lock. */
  ghost predicate Sequential(s: State, a: Action) {
    a.BeginEmit? ==> forall q :: q in s.procs && IsEmit(s.procs[q]) ==> s.procs[q].emitter != a.m
  }

  ghost predicate SequentialRun(s: State, actions: seq<Action>)
    decreases |actions|
  {
    actions != [] ==> Sequential(s, actions[0]) && SequentialRun(Next(s, actions[0]), actions[1..])
  }

  /** The id of the emitter's last acknowledged event. */
  function LastAcked(log: seq<Entry>, m: nat): string {
    if log == [] then ""
    else if AckedBy(log[|log| - 1], m) then log[|log| - 1].id
    else LastAcked(log[..|log| - 1], m)
  }

  ghost predicate AloneInv(s: State) {
    forall p, q :: p in s.procs && q in s.procs && p != q && IsEmit(s.procs[p]) && IsEmit(s.procs[q]) ==>
      s.procs[p].emitter != s.procs[q].emitter
  }

  /** What a call knows when it is the only one of its emitter. */
  ghost predicate LatestInv(s: State, pr: Proc) {
    match pr
    case Began(m, prev) => prev == LastAcked(s.log, m) && m in s.emitters && s.emitters[m] == prev
    case Holding(m, e) =>
      && e.causation == LastAcked(s.log, m) && m in s.emitters && s.emitters[m] == e.causation
      && forall i :: 0 <= i < |s.log| && s.log[i].origin == By(m) ==> s.log[i].seqNr < e.seqNr
    case Acknowledged(m, id) => id == LastAcked(s.log, m)
    case _ => true
  }

  ghost predicate Updating(s: State, m: nat) {
    exists p :: p in s.procs && s.procs[p].Acknowledged? && s.procs[p].emitter == m
  }

  ghost predicate OrderedLog(log: seq<Entry>) {
    && (forall i, j :: 0 <= i < j < |log| && log[i].origin.By? && log[i].origin == log[j].origin ==>
          log[i].seqNr < log[j].seqNr)
    && (forall i :: 0 <= i < |log| && log[i].origin.By? ==>
          log[i].causation == LastAcked(log[..i], log[i].origin.emitter))
  }

  ghost predicate ChainInv(s: State) {
    && AloneInv(s)
    && (forall p :: p in s.procs ==> LatestInv(s, s.procs[p]))
    && (forall m :: m in s.emitters && !Updating(s, m) ==> s.emitters[m] == LastAcked(s.log, m))
    && OrderedLog(s.log)
  }

  lemma {:induction false} NothingAcked(log: seq<Entry>, m: nat)
    requires forall i :: 0 <= i < |log| ==> log[i].origin != By(m)
    ensures LastAcked(log, m) == ""
  {
    if log != [] { NothingAcked(log[..|log| - 1], m); }
  }

  lemma LastAckedAppend(log: seq<Entry>, e: Entry, m: nat)
    ensures LastAcked(log + [e], m) == if AckedBy(e, m) then e.id else LastAcked(log, m)
  {
    assert (log + [e])[..|log|] == log;
  }

  lemma OrderedAppend(log: seq<Entry>, e: Entry)
    requires OrderedLog(log)
    requires e.origin.By? ==> e.causation == LastAcked(log, e.origin.emitter)
    requires e.origin.By? ==> forall i :: 0 <= i < |log| && log[i].origin == e.origin ==> log[i].seqNr < e.seqNr
    ensures OrderedLog(log + [e])
  {
    hide LastAcked;
    var log' := log + [e];
    forall i | 0 <= i < |log'| && log'[i].origin.By?
      ensures log'[i].causation == LastAcked(log'[..i], log'[i].origin.emitter)
    {
      assert log'[..i] == log[..i];
      if i == |log| { assert log[..i] == log; }
    }
  }

  /** The knowledge of another emitter's call survives an append. */
  lemma LatestInvOther(s: State, s': State, pr: Proc, e: Entry)
    requires LatestInv(s, pr) && s'.emitters == s.emitters && s'.log == s.log + [e]
    requires IsEmit(pr) ==> e.origin != By(pr.emitter)
    ensures LatestInv(s', pr)
  {
    hide LastAcked;
    if IsEmit(pr) { LastAckedAppend(s.log, e, pr.emitter); }
  }

  /** The acting call's event is in the log now; every other call knows what it knew. */
  lemma AppendLatest(s: State, p: nat, outcome: Outcome, q: nat)
    requires CausesInv(s) && ChainInv(s) && AppendStep(s, p, outcome).log != s.log
    requires q in AppendStep(s, p, outcome).procs
    ensures var s' := AppendStep(s, p, outcome); LatestInv(s', s'.procs[q])
  {
    hide LastAcked, Known, StoredInv, OrderedLog, Updating;
    var s' := AppendStep(s, p, outcome);
    var e := s.procs[p].event.(acked := outcome.Stored?);
    assert CallInv(s, s.procs[p]) && s'.log == s.log + [e] && s'.emitters == s.emitters;
    if q == p {
      LastAckedAppend(s.log, e, s.procs[p].emitter);
    } else {
      assert q in s.procs && s'.procs[q] == s.procs[q];
      hide AppendStep, CallInv;
      LatestInvOther(s, s', s.procs[q], e);
    }
  }

  lemma AppendPrev(s: State, p: nat, outcome: Outcome, m: nat)
    requires CausesInv(s) && ChainInv(s) && p in s.procs && Held(s.procs[p]).Some?
    requires m in s.emitters && !Updating(AppendStep(s, p, outcome), m)
    ensures s.emitters[m] == LastAcked(AppendStep(s, p, outcome).log, m)
  {
    hide LastAcked, Known, StoredInv, OrderedLog, Updating, AloneInv, LatestInv;
    AppendUpdating(s, p, outcome, m);
    assert CallInv(s, s.procs[p]);
    LastAckedAppend(s.log, s.procs[p].event.(acked := outcome.Stored?), m);
  }

  /** An append keeps what sequential emits know. */
  lemma AppendChain(s: State, p: nat, outcome: Outcome)
    requires CausesInv(s) && ChainInv(s)
    ensures ChainInv(AppendStep(s, p, outcome))
  {
    hide LastAcked, Known, StoredInv, OrderedLog, LatestInv, Updating;
    var s' := AppendStep(s, p, outcome);
    if p in s.procs && Held(s.procs[p]).Some? {
      assert s'.emitters == s.emitters;
      AppendOrdered(s, p, outcome);
      AppendAlone(s, p, outcome);
      forall m | m in s'.emitters && !Updating(s', m) ensures s'.emitters[m] == LastAcked(s'.log, m) {
        AppendPrev(s, p, outcome, m);
      }
      forall q | q in s'.procs ensures LatestInv(s', s'.procs[q]) {
        if s'.log != s.log { AppendLatest(s, p, outcome, q); } else { AppendKeepsCall(s, p, outcome, q); }
      }
    }
  }

  lemma AppendKeepsCall(s: State, p: nat, outcome: Outcome, q: nat)
    requires AppendStep(s, p, outcome).log == s.log && q in AppendStep(s, p, outcome).procs
    requires q in s.procs ==> LatestInv(s, s.procs[q])
    ensures var s' := AppendStep(s, p, outcome); LatestInv(s', s'.procs[q])
  {
    hide LastAcked;
  }

  lemma AppendOrdered(s: State, p: nat, outcome: Outcome)
    requires CausesInv(s) && ChainInv(s) && p in s.procs && Held(s.procs[p]).Some?
    ensures OrderedLog(AppendStep(s, p, outcome).log)
  {
    hide LastAcked, Known, StoredInv, OrderedLog, Updating, AloneInv;
    assert CallInv(s, s.procs[p]) && LatestInv(s, s.procs[p]);
    OrderedAppend(s.log, s.procs[p].event.(acked := outcome.Stored?));
  }

  lemma AppendAlone(s: State, p: nat, outcome: Outcome)
    requires AloneInv(s)
    ensures AloneInv(AppendStep(s, p, outcome))
  {
    hide Logged;
  }

  lemma AppendUpdating(s: State, p: nat, outcome: Outcome, m: nat)
    requires p in s.procs && Held(s.procs[p]).Some? && !Updating(AppendStep(s, p, outcome), m)
    ensures !Updating(s, m)
    ensures s.procs[p].Holding? && s.procs[p].emitter == m ==> !Landed(s.procs[p].event, outcome).Stored?
  {
    var s' := AppendStep(s, p, outcome);
    forall q | q in s.procs && s.procs[q].Acknowledged? ensures q in s'.procs && s'.procs[q] == s.procs[q] {}
    assert s.procs[p].Holding? && Landed(s.procs[p].event, outcome).Stored? ==> s'.procs[p].Acknowledged?;
  }

  lemma EmitChain(s: State, a: Action)
    requires a.BeginEmit? || a.AllocFails? || a.Allocate? || a.SetPrev?
    requires NumbersInv(s) && CausesInv(s) && ChainInv(s) && Sequential(s, a)
    ensures ChainInv(EmitStep(s, a))
  {
    hide LastAcked, Known, StoredInv, OrderedLog, NumbersInv, LatestInv, Updating, AloneInv;
    var s' := EmitStep(s, a);
    if s' != s {
      EmitAlone(s, a);
      forall q | q in s'.procs ensures LatestInv(s', s'.procs[q]) { EmitLatest(s, a, q); }
      forall m | m in s'.emitters && !Updating(s', m)
        ensures s'.emitters[m] == LastAcked(s'.log, m)
      {
        EmitPrev(s, a, m);
      }
    }
  }

  lemma EmitAlone(s: State, a: Action)
    requires a.BeginEmit? || a.AllocFails? || a.Allocate? || a.SetPrev?
    requires AloneInv(s) && Sequential(s, a)
    ensures AloneInv(EmitStep(s, a))
  {
  }

  lemma EmitLatest(s: State, a: Action, q: nat)
    requires a.BeginEmit? || a.AllocFails? || a.Allocate? || a.SetPrev?
    requires NumbersInv(s) && CausesInv(s) && ChainInv(s) && Sequential(s, a) && q in EmitStep(s, a).procs
    ensures var s' := EmitStep(s, a); LatestInv(s', s'.procs[q])
  {
    hide LastAcked, Known, StoredInv, OrderedLog;
    var s' := EmitStep(s, a);
    if q in s.procs { assert LatestInv(s, s.procs[q]); }
    if a.BeginEmit? && a.p == q && q !in s.procs { assert !Updating(s, a.m); }
  }

  lemma EmitPrev(s: State, a: Action, m: nat)
    requires a.BeginEmit? || a.AllocFails? || a.Allocate? || a.SetPrev?
    requires CausesInv(s) && ChainInv(s) && EmitStep(s, a) != s && m in EmitStep(s, a).emitters
    requires !Updating(EmitStep(s, a), m)
    ensures var s' := EmitStep(s, a); s'.emitters[m] == LastAcked(s'.log, m)
  {
    hide LastAcked, Known, StoredInv, OrderedLog, AloneInv, Updating;
    EmitOthers(s, a);
    if a.SetPrev? { assert LatestInv(s, s.procs[a.p]); }
  }

  lemma EmitOthers(s: State, a: Action)
    requires a.BeginEmit? || a.AllocFails? || a.Allocate? || a.SetPrev?
    requires EmitStep(s, a) != s
    ensures var s' := EmitStep(s, a);
            && (forall q :: q in s'.procs && q != a.p ==> q in s.procs && s'.procs[q] == s.procs[q])
            && (forall q :: q in s.procs && q != a.p ==> q in s'.procs && s'.procs[q] == s.procs[q])
            && forall m :: (a.SetPrev? && m == s.procs[a.p].emitter) || (Updating(s', m) <==> Updating(s, m))
  {
    var s' := EmitStep(s, a);
    forall m | !(a.SetPrev? && m == s.procs[a.p].emitter) ensures Updating(s', m) <==> Updating(s, m) {
      if p :| p in s.procs && s.procs[p].Acknowledged? && s.procs[p].emitter == m { assert s'.procs[p] == s.procs[p]; }
      if p :| p in s'.procs && s'.procs[p].Acknowledged? && s'.procs[p].emitter == m {
        assert s'.procs[p] == s.procs[p];
      }
    }
  }

  /** The remaining actions leave the log and the emits under way alone, except that a crash
      takes an emitter with all of its own. */
  lemma OtherFrame(s: State, a: Action)
    requires !(a.BeginEmit? || a.AllocFails? || a.Allocate? || a.SetPrev? || a.Append?)
    ensures var s' := Next(s, a);
            && s'.log == s.log
            && (forall p :: p in s'.procs && IsEmit(s'.procs[p]) ==> p in s.procs && s'.procs[p] == s.procs[p])
            && (forall p :: p in s.procs && IsEmit(s.procs[p]) && s.procs[p].emitter in s'.emitters ==>
                  p in s'.procs && s'.procs[p] == s.procs[p])
            && (forall p :: p in s'.procs && IsEmit(s'.procs[p]) && s'.procs[p].emitter in s.emitters ==>
                  s'.procs[p].emitter in s'.emitters)
            && (forall m :: m in s'.emitters ==>
                  if m in s.emitters then s'.emitters[m] == s.emitters[m] else m !in s.started && s'.emitters[m] == "")
  {
  }

  lemma OtherChain(s: State, a: Action)
    requires !(a.BeginEmit? || a.AllocFails? || a.Allocate? || a.SetPrev? || a.Append?)
    requires CausesInv(s) && ChainInv(s)
    ensures ChainInv(Next(s, a))
  {
    hide LastAcked, Known, OrderedLog, Next;
    var s' := Next(s, a);
    OtherFrame(s, a);
    forall p | p in s'.procs ensures LatestInv(s', s'.procs[p]) {
      if IsEmit(s'.procs[p]) { assert CallInv(s, s.procs[p]) && LatestInv(s, s.procs[p]); }
    }
    forall m | m in s'.emitters && !Updating(s', m) ensures s'.emitters[m] == LastAcked(s'.log, m) {
      if m in s.emitters {
        OtherUpdating(s, s', m);
      } else {
        NothingAcked(s.log, m);
      }
    }
  }

  lemma OtherUpdating(s: State, s': State, m: nat)
    requires !Updating(s', m) && m in s'.emitters
    requires forall p :: p in s.procs && IsEmit(s.procs[p]) && s.procs[p].emitter in s'.emitters ==>
               p in s'.procs && s'.procs[p] == s.procs[p]
    ensures !Updating(s, m)
  {
  }

  lemma NextChain(s: State, a: Action)
    requires Inv(s) && ChainInv(s) && Sequential(s, a)
    ensures ChainInv(Next(s, a))
  {
    hide NumbersInv, IssuedInv, CausesInv, ChainInv, Sequential, EmitStep, AppendStep;
    if a.Append? {
      AppendChain(s, a.p, a.outcome);
    } else if a.BeginEmit? || a.AllocFails? || a.Allocate? || a.SetPrev? {
      EmitChain(s, a);
    } else {
      OtherChain(s, a);
    }
  }

  lemma {:induction false} RunChainInv(s: State, actions: seq<Action>)
    requires Inv(s) && ChainInv(s) && SequentialRun(s, actions)
    ensures ChainInv(Run(s, actions))
    decreases |actions|
  {
    hide Inv, Next, ChainInv, Sequential;
    if actions != [] {
      NextInv(s, actions[0]);
      NextChain(s, actions[0]);
      RunChainInv(Next(s, actions[0]), actions[1..]);
    }
  }

  // --------------------------------------------------------------- lock serialisation

  predicate Issues(a: Action) {
    a.InitializeAt? || a.Alloc? || a.Allocate? || a.NumberCutover?
  }

  /** Nobody else moves the counter while a cutover call stands between its check and its
      allocation.  The lock around a start-up gives this; RunCutover does not check it. */
  ghost predicate Serialised(s: State, a: Action) {
    Issues(a) ==> forall q :: q in s.procs && Unnumbered(s.procs[q]) ==> a.NumberCutover? && a.p == q
  }

  ghost predicate SerialisedRun(s: State, actions: seq<Action>)
    decreases |actions|
  {
    actions != [] ==> Serialised(s, actions[0]) && SerialisedRun(Next(s, actions[0]), actions[1..])
  }

  ghost predicate CutoverInv(s: State) {
    && (forall q :: q in s.procs && Unnumbered(s.procs[q]) ==> s.next == 1)
    && (forall q, e :: HeldBy(s, q, e) && e.origin == Cutover ==> e.seqNr == 1)
    && (forall e :: e in s.log && e.origin == Cutover ==> e.seqNr == 1)
  }

  lemma NextCutover(s: State, a: Action)
    requires Inv(s) && CutoverInv(s) && Serialised(s, a)
    ensures CutoverInv(Next(s, a))
  {
    hide NumbersInv, Known, StoredInv;
    var s' := Next(s, a);
    var e := NextLog(s, a);
    forall q, f | HeldBy(s', q, f) && f.origin == Cutover ensures f.seqNr == 1 {
      NextHeld(s, a, q, f);
      if HeldBy(s, q, f) {
      } else if a.NumberCutover? {
        assert Unnumbered(s.procs[q]);
      }
    }
    hide Logged;
  }

  lemma {:induction false} RunCutoverInv(s: State, actions: seq<Action>)
    requires Inv(s) && CutoverInv(s) && SerialisedRun(s, actions)
    ensures CutoverInv(Run(s, actions))
    decreases |actions|
  {
    hide Inv, Next, CutoverInv, Serialised;
    if actions != [] {
      NextInv(s, actions[0]);
      NextCutover(s, actions[0]);
      RunCutoverInv(Next(s, actions[0]), actions[1..]);
    }
  }

  // ---------------------------------------------------------------------- theorems

  /** In every run, however interleaved: the numbers handed out strictly increase, and no
      two stored events share one. */
  lemma NumbersNeverRepeat(s0: State, actions: seq<Action>)
    requires Fresh(s0)
    ensures var s := Run(s0, actions);
            && Increasing(s.issued)
            && (forall n :: n in s.issued ==> 1 <= n <= Latest(s.next))
            && forall i, j :: 0 <= i < j < |s.log| && Counted(s.log[i]) && Counted(s.log[j]) ==>
                 s.log[i].seqNr != s.log[j].seqNr
  {
    hide Run, CausesInv, ChainInv;
    FreshInv(s0);
    RunInv(s0, actions);
  }

  /** In every lock-serialised run at most one cutover event exists, and its number is 1. */
  lemma OneCutover(s0: State, actions: seq<Action>)
    requires Fresh(s0) && SerialisedRun(s0, actions)
    ensures var log := Run(s0, actions).log;
            && (forall e :: e in log && e.origin == Cutover ==> e.seqNr == 1)
            && forall i, j :: 0 <= i < j < |log| ==> !(log[i].origin == Cutover && log[j].origin == Cutover)
  {
    hide Run, SerialisedRun, CausesInv, ChainInv;
    FreshInv(s0);
    RunInv(s0, actions);
    RunCutoverInv(s0, actions);
    var log := Run(s0, actions).log;
    forall i, j | 0 <= i < j < |log| ensures !(log[i].origin == Cutover && log[j].origin == Cutover) {
      assert log[i] in log && log[j] in log;
    }
  }

  /** Without the lock it fails: two overlapping cutover calls store two cutover events. */
  lemma OverlapStoresTwo(s0: State)
    requires Fresh(s0) && s0.log != []
    ensures exists actions: seq<Action>, i, j :: var log := Run(s0, actions).log;
              0 <= i < j < |log| && log[i].origin == Cutover && log[j].origin == Cutover
  {
    hide Run, Next;
    var rest3 := [NumberCutover(0, "a"), NumberCutover(1, "b")] + [Append(0, Stored), Append(1, Stored)];
    var rest2 := [SaveSnapshot(0), SaveSnapshot(1)] + rest3;
    var rest1 := [LoadLog(0), LoadLog(1)] + rest2;
    var actions := [CheckCounter(0), CheckCounter(1)] + rest1;
    var s4 := Both(s0, Numbered(Entry("a", Cutover, 1, "", false)), Numbered(Entry("b", Cutover, 2, "", false)));
    BothCheck(s0, rest1);
    BothLoad(Both(s0, Checked, Checked), rest2);
    BothSave(Both(s0, Loaded, Loaded), rest3);
    BothNumber(Both(s0, Saved, Saved).(snapshot := true), [Append(0, Stored), Append(1, Stored)]);
    BothStore(s4.(snapshot := true, next := 3, issued := s0.issued + [1] + [2]),
        [Append(0, Stored), Append(1, Stored)]);
    var log := Run(s0, actions).log;
    var n := |s0.log|;
    assert log[n].origin == Cutover && log[n + 1].origin == Cutover;
  }

  lemma RunPair(s: State, a: Action, b: Action, rest: seq<Action>)
    ensures Run(s, [a, b] + rest) == Run(Next(Next(s, a), b), rest)
  {
    hide Run;
    RunTwice(s, [a, b] + rest);
    assert ([a, b] + rest)[2..] == rest;
  }

  lemma BothCheck(s: State, rest: seq<Action>)
    requires Fresh(s)
    ensures Run(s, [CheckCounter(0), CheckCounter(1)] + rest) == Run(Both(s, Checked, Checked), rest)
  {
    hide Run;
    RunPair(s, CheckCounter(0), CheckCounter(1), rest);
    assert s.procs[0 := Checked][1 := Checked] == map[0 := Checked, 1 := Checked];
  }

  lemma BothLoad(s: State, rest: seq<Action>)
    requires s.procs == map[0 := Checked, 1 := Checked] && s.log != []
    ensures Run(s, [LoadLog(0), LoadLog(1)] + rest) == Run(Both(s, Loaded, Loaded), rest)
  {
    hide Run;
    RunPair(s, LoadLog(0), LoadLog(1), rest);
    assert s.procs[0 := Loaded][1 := Loaded] == map[0 := Loaded, 1 := Loaded];
  }

  lemma BothSave(s: State, rest: seq<Action>)
    requires s.procs == map[0 := Loaded, 1 := Loaded]
    ensures Run(s, [SaveSnapshot(0), SaveSnapshot(1)] + rest) == Run(Both(s, Saved, Saved).(snapshot := true), rest)
  {
    hide Run;
    RunPair(s, SaveSnapshot(0), SaveSnapshot(1), rest);
    assert s.procs[0 := Saved][1 := Saved] == map[0 := Saved, 1 := Saved];
  }

  lemma BothNumber(s: State, rest: seq<Action>)
    requires s.procs == map[0 := Saved, 1 := Saved] && s.next == 1
    ensures var a, b := Numbered(Entry("a", Cutover, 1, "", false)), Numbered(Entry("b", Cutover, 2, "", false));
            Run(s, [NumberCutover(0, "a"), NumberCutover(1, "b")] + rest) ==
            Run(Both(s, a, b).(next := 3, issued := s.issued + [1] + [2]), rest)
  {
    hide Run;
    RunPair(s, NumberCutover(0, "a"), NumberCutover(1, "b"), rest);
    var a, b := Numbered(Entry("a", Cutover, 1, "", false)), Numbered(Entry("b", Cutover, 2, "", false));
    assert s.procs[0 := a][1 := b] == map[0 := a, 1 := b];
  }

  function Both(s: State, a: Proc, b: Proc): State { s.(procs := map[0 := a, 1 := b]) }

  lemma BothStore(s: State, actions: seq<Action>)
    requires s.procs == map[0 := Numbered(Entry("a", Cutover, 1, "", false)),
               1 := Numbered(Entry("b", Cutover, 2, "", false))]
    requires actions == [Append(0, Stored), Append(1, Stored)]
    ensures Run(s, actions).log == s.log + [Entry("a", Cutover, 1, "", true)] + [Entry("b", Cutover, 2, "", true)]
  {
    hide Run;
    RunTwice(s, actions);
    RunNone(Next(Next(s, actions[0]), actions[1]), actions[2..]);
  }

  lemma RunTwice(s: State, actions: seq<Action>)
    requires |actions| >= 2
    ensures Run(s, actions) == Run(Next(Next(s, actions[0]), actions[1]), actions[2..])
  {
    assert actions[1..][1..] == actions[2..];
  }

  ghost predicate NoCutoverUnderWay(s: State) {
    forall q :: q in s.procs ==> IsEmit(s.procs[q])
  }

  /** Once a number has been issued and no call is under way, no run ever adds a cutover
      event: later calls do nothing. */
  lemma {:induction false} CutoverIsFinal(s: State, actions: seq<Action>)
    requires Inv(s) && s.next > 1 && NoCutoverUnderWay(s)
    ensures var s' := Run(s, actions);
            s'.next > 1 && NoCutoverUnderWay(s') && forall e :: e in s'.log && e.origin == Cutover ==> e in s.log
    decreases |actions|
  {
    if actions != [] {
      var a := actions[0];
      NoCutoverStep(s, a);
      NextInv(s, a);
      hide Inv, Next;
      CutoverIsFinal(Next(s, a), actions[1..]);
    }
  }

  lemma NoCutoverStep(s: State, a: Action)
    requires Inv(s) && s.next > 1 && NoCutoverUnderWay(s)
    ensures var s' := Next(s, a);
            s'.next > 1 && NoCutoverUnderWay(s') && forall e :: e in s'.log && e.origin == Cutover ==> e in s.log
  {
    hide NumbersInv, Known, StoredInv, IssuedInv;
    var e := NextLog(s, a);
    hide Logged;
  }

  /** A crash between the allocation and the append: from every unmigrated non-empty log it
      leaves a counter that counts as migrated, without a cutover event, and no run ever
      adds one. */
  lemma CrashLosesCutover(s0: State, p: nat, id: string, later: seq<Action>)
    requires Fresh(s0) && s0.log != []
    ensures var s := Run(s0, [CheckCounter(p), LoadLog(p), SaveSnapshot(p), NumberCutover(p, id), Die(p)]);
            && s.next == 2 && s.log == s0.log && s.procs == map[]
            && forall e :: e in Run(s, later).log ==> e.origin != Cutover
  {
    hide Run, Inv;
    var actions := [CheckCounter(p), LoadLog(p), SaveSnapshot(p), NumberCutover(p, id), Die(p)];
    var s := Run(s0, actions);
    CrashSteps(s0, p, id, actions);
    FreshInv(s0);
    RunInv(s0, actions);
    CutoverIsFinal(s, later);
  }

  lemma CrashSteps(s0: State, p: nat, id: string, actions: seq<Action>)
    requires Fresh(s0) && s0.log != []
    requires actions == [CheckCounter(p), LoadLog(p), SaveSnapshot(p), NumberCutover(p, id), Die(p)]
    ensures var s := Run(s0, actions); s.next == 2 && s.log == s0.log && s.procs == map[]
  {
    hide Run;
    var s2 := s0.(procs := map[p := Loaded]);
    RunTwice(s0, actions);
    assert map[p := Checked][p := Loaded] == s2.procs;
    assert Run(s0, actions) == Run(s2, actions[2..]);
    CrashRest(s2, p, id, actions[2..]);
  }

  lemma CrashRest(s: State, p: nat, id: string, actions: seq<Action>)
    requires s.next == 1 && s.procs == map[p := Loaded]
    requires actions == [SaveSnapshot(p), NumberCutover(p, id), Die(p)]
    ensures var r := Run(s, actions); r.next == 2 && r.log == s.log && r.procs == map[]
  {
    hide Run;
    var numbered := Numbered(Entry(id, Cutover, 1, "", false));
    var s2 := s.(snapshot := true, next := 2, issued := s.issued + [1], procs := map[p := numbered]);
    RunTwice(s, actions);
    assert s.procs[p := Saved][p := numbered] == s2.procs;
    RunOne(s2, actions[2..]);
    assert s2.procs - {p} == map[];
  }

  /** In every run, however emits overlap, no event names an unstored cause: the cause of a
      stored event is empty or an event of the same emitter, stored before it and
      acknowledged. */
  lemma CausesAreStored(s0: State, actions: seq<Action>, k: nat)
    requires Fresh(s0) && k < |Run(s0, actions).log| && Run(s0, actions).log[k].origin.By?
    ensures var log := Run(s0, actions).log;
            || log[k].causation == ""
            || exists j :: 0 <= j < k && AckedBy(log[j], log[k].origin.emitter) && log[j].id == log[k].causation
  {
    hide Run, NumbersInv, IssuedInv, ChainInv, CutoverInv;
    FreshInv(s0);
    RunInv(s0, actions);
    var log := Run(s0, actions).log;
    assert Known(log[..k], log[k].origin.emitter, log[k].causation);
  }

  /** If the emits of each emitter are sequential, its stored events have increasing numbers,
      and the cause of each is the emitter's last acknowledged event before it, or empty if
      there is none. */
  lemma CausationChain(s0: State, actions: seq<Action>)
    requires Fresh(s0) && SequentialRun(s0, actions)
    ensures var log := Run(s0, actions).log;
            && (forall i, j :: 0 <= i < j < |log| && log[i].origin.By? && log[i].origin == log[j].origin ==>
                  log[i].seqNr < log[j].seqNr)
            && forall k :: 0 <= k < |log| && log[k].origin.By? ==> IsCause(log, k)
  {
    hide Run, Inv, SequentialRun, AloneInv, LatestInv, CutoverInv;
    FreshInv(s0);
    RunChainInv(s0, actions);
    var log := Run(s0, actions).log;
    forall k | 0 <= k < |log| && log[k].origin.By? ensures IsCause(log, k) {
      LastAckedMeaning(log, k, log[k].origin.emitter);
    }
  }

  /** The cause of event `k` is stored before it, by the same emitter, and acknowledged,
      with no other acknowledged event of the emitter in between. */
  ghost predicate IsCause(log: seq<Entry>, k: int)
    requires 0 <= k < |log| && log[k].origin.By?
  {
    var m := log[k].origin.emitter;
    || (log[k].causation == "" && forall i :: 0 <= i < k ==> !AckedBy(log[i], m))
    || exists j :: 0 <= j < k && AckedBy(log[j], m) && log[j].id == log[k].causation
                   && forall i :: j < i < k ==> !AckedBy(log[i], m)
  }

  lemma {:induction false} LastAckedMeaning(log: seq<Entry>, n: nat, m: nat)
    requires n <= |log|
    ensures var id := LastAcked(log[..n], m);
            || (id == "" && forall i :: 0 <= i < n ==> !AckedBy(log[i], m))
            || exists j :: 0 <= j < n && AckedBy(log[j], m) && log[j].id == id
                           && forall i :: j < i < n ==> !AckedBy(log[i], m)
  {
    if n > 0 {
      assert log[..n][..n - 1] == log[..n - 1];
      LastAckedMeaning(log, n - 1, m);
    }
  }

  /** The event before `k` by the same emitter. */
  ghost predicate Previous(log: seq<Entry>, j: int, k: int) {
    && 0 <= j < k < |log| && log[k].origin.By? && log[j].origin == log[k].origin
    && forall i :: j < i < k ==> log[i].origin != log[k].origin
  }

  /** With sequential emits an event names its direct predecessor exactly when that one was
      acknowledged: then only an append that stored its line and still reported an error
      breaks the linear chain. */
  lemma LinearIffAcked(s0: State, actions: seq<Action>, j: int, k: int)
    requires Fresh(s0) && SequentialRun(s0, actions) && Previous(Run(s0, actions).log, j, k)
    requires var log := Run(s0, actions).log;
             forall i :: 0 <= i < |log| && i != j ==> log[i].id != log[j].id
    ensures var log := Run(s0, actions).log;
            log[k].causation == log[j].id <==> log[j].acked
  {
    hide Run, NumbersInv, IssuedInv, ChainInv, SequentialRun, CutoverInv;
    CausationChain(s0, actions);
    FreshInv(s0);
    RunInv(s0, actions);
    var log := Run(s0, actions).log;
    assert IsCause(log, k);
    assert StoredInv(log, Run(s0, actions).started);
  }

  /** Overlapping emits of one emitter break both: two of them read prevID and draw their
      numbers in one order and append in the other.  Both appends are acknowledged, yet the
      numbers decrease and the second event does not name the first. */
  lemma OverlapBreaksChain(s0: State, m: nat)
    requires Fresh(s0)
    ensures exists actions: seq<Action>, j, k :: var log := Run(s0, actions).log;
              && Previous(log, j, k) && log[j].acked && log[k].acked
              && log[k].seqNr < log[j].seqNr && log[k].causation != log[j].id
  {
    hide Run, Next;
    var rest2 := [Append(1, Stored), Append(0, Stored)];
    var rest1 := [Allocate(0, "a"), Allocate(1, "b")] + rest2;
    var actions := [StartEmitter(m)] + ([BeginEmit(0, m), BeginEmit(1, m)] + rest1);
    var a, b := Entry("a", By(m), 1, "", false), Entry("b", By(m), 2, "", false);
    RunSingle(s0, StartEmitter(m), [BeginEmit(0, m), BeginEmit(1, m)] + rest1);
    var s1 := s0.(emitters := map[m := ""], started := {m});
    assert Next(s0, StartEmitter(m)) == s1 by { EmitterStarts(s0, m); }
    BothBegin(s1, m, rest1);
    BothAllocate(Both(s1, Began(m, ""), Began(m, "")), m, rest2);
    var s3 := Both(s1, Holding(m, a), Holding(m, b)).(next := 3, issued := s1.issued + [1] + [2]);
    BothAppend(s3, m, a, b, rest2);
    var log := Run(s0, actions).log;
    var n := |s0.log|;
    assert log == s0.log + [b.(acked := true)] + [a.(acked := true)];
    assert Previous(log, n, n + 1) && log[n + 1].seqNr < log[n].seqNr && log[n].acked && log[n + 1].acked;
    assert log[n].id == "b" && log[n + 1].causation == "";
  }

  lemma RunSingle(s: State, a: Action, rest: seq<Action>)
    ensures Run(s, [a] + rest) == Run(Next(s, a), rest)
  {
    hide Next;
    assert ([a] + rest)[1..] == rest;
  }

  lemma EmitterStarts(s: State, m: nat)
    requires Fresh(s)
    ensures Next(s, StartEmitter(m)) == s.(emitters := map[m := ""], started := {m})
  {
    assert s.emitters[m := ""] == map[m := ""] && s.started + {m} == {m};
  }

  lemma BothBegin(s: State, m: nat, rest: seq<Action>)
    requires s.procs == map[] && s.emitters == map[m := ""]
    ensures Run(s, [BeginEmit(0, m), BeginEmit(1, m)] + rest) == Run(Both(s, Began(m, ""), Began(m, "")), rest)
  {
    hide Run;
    RunPair(s, BeginEmit(0, m), BeginEmit(1, m), rest);
    assert s.procs[0 := Began(m, "")][1 := Began(m, "")] == map[0 := Began(m, ""), 1 := Began(m, "")];
  }

  lemma BothAllocate(s: State, m: nat, rest: seq<Action>)
    requires s.procs == map[0 := Began(m, ""), 1 := Began(m, "")] && s.next == 1
    ensures var a, b := Entry("a", By(m), 1, "", false), Entry("b", By(m), 2, "", false);
            Run(s, [Allocate(0, "a"), Allocate(1, "b")] + rest) ==
            Run(Both(s, Holding(m, a), Holding(m, b)).(next := 3, issued := s.issued + [1] + [2]), rest)
  {
    hide Run;
    RunPair(s, Allocate(0, "a"), Allocate(1, "b"), rest);
    var a, b := Entry("a", By(m), 1, "", false), Entry("b", By(m), 2, "", false);
    assert s.procs[0 := Holding(m, a)][1 := Holding(m, b)] == map[0 := Holding(m, a), 1 := Holding(m, b)];
  }

  lemma BothAppend(s: State, m: nat, a: Entry, b: Entry, actions: seq<Action>)
    requires s.procs == map[0 := Holding(m, a), 1 := Holding(m, b)] && a.id != "" && b.id != ""
    requires actions == [Append(1, Stored), Append(0, Stored)]
    ensures Run(s, actions).log == s.log + [b.(acked := true)] + [a.(acked := true)]
  {
    hide Run;
    RunTwice(s, actions);
    RunNone(Next(Next(s, actions[0]), actions[1]), actions[2..]);
  }

  // ------------------------------------------------------------------- the programs

  class SeqCounter {
    var nextSeq: nat
    ghost var issued: seq<nat>

    /** Every number handed out so far lies below the next one. */
    ghost predicate Valid()
      reads this
    {
      nextSeq >= 1 && Increasing(issued) && forall i :: 0 <= i < |issued| ==> 1 <= issued[i] < nextSeq
    }

    constructor ()
      ensures Valid() && nextSeq == 1 && issued == []
    {
      nextSeq, issued := 1, [];
    }

    method AllocSeqNr() returns (seqNr: nat)
      requires Valid()
      modifies this
      ensures Valid() && seqNr == old(nextSeq) && nextSeq == old(nextSeq) + 1 && issued == old(issued) + [seqNr]
    {
      issued := issued + [nextSeq];
      nextSeq := nextSeq + 1;
      seqNr := nextSeq - 1;
    }

    /** No number handed out is above it, and the next one is its successor. */
    method LatestSeqNr() returns (latest: nat)
      requires Valid()
      ensures forall n :: n in issued ==> n <= latest
      ensures latest + 1 == nextSeq
    {
      if nextSeq <= 1 { return 0; }
      latest := nextSeq - 1;
    }

    method SetAtLeast(n: nat)
      requires Valid()
      modifies this
      ensures Valid() && nextSeq > n
      ensures nextSeq == (if old(nextSeq) <= n + 1 then n + 1 else old(nextSeq)) && issued == old(issued)
    {
      if nextSeq <= n + 1 { nextSeq := n + 1; }
    }
  }

  class Store {
    var log: seq<Entry>
    var snapshot: bool

    method Write(e: Entry, outcome: Outcome) returns (ok: bool)
      modifies this`log
      ensures log == Logged(old(log), e, outcome)
      ensures ok <==> Landed(e, outcome).Stored?
    {
      if e.id == "" { return false; }
      match outcome
      case NotStored => ok := false;
      case Stored => log := log + [e.(acked := true)]; ok := true;
      case StoredButError => log := log + [e.(acked := false)]; ok := false;
    }
  }

  /** The machine state `s` is what the shared stores hold. */
  ghost predicate Shows(s: State, counter: SeqCounter, store: Store)
    reads counter, store
  {
    && counter.Valid() && s.next == counter.nextSeq && s.issued == counter.issued
    && s.log == store.log && s.snapshot == store.snapshot
  }

  class Emitter {
    const m: nat
    const counter: SeqCounter
    const store: Store
    var prevID: string

    constructor (m: nat, counter: SeqCounter, store: Store)
      ensures this.m == m && this.counter == counter && this.store == store && prevID == ""
    {
      this.m, this.counter, this.store, prevID := m, counter, store, "";
    }

    ghost predicate In(s: State)
      reads this, counter, store
    {
      Shows(s, counter, store) && m in s.emitters && s.emitters[m] == prevID
    }

    /** One emit is a run of the machine: read prevID, allocate, append with the given
        outcome, and update prevID if the append was acknowledged.  Other emits may step
        in between in the machine, not in this method. */
    method Emit(ghost p: nat, id: string, allocFails: bool, outcome: Outcome, ghost s: State)
      returns (ok: bool, ghost actions: seq<Action>)
      requires In(s) && p !in s.procs
      modifies this, counter, store
      ensures In(Run(s, actions)) && Run(s, actions).procs == s.procs
      ensures Run(s, actions).emitters == s.emitters[m := prevID]
      ensures actions == EmitActions(m, p, id, allocFails, outcome)
      ensures ok <==> !allocFails && outcome.Stored? && id != ""
      ensures prevID == if ok then id else old(prevID)
      ensures ok ==> store.log == old(store.log) + [Entry(id, By(m), old(counter.nextSeq), old(prevID), true)]
    {
      actions := EmitActions(m, p, id, allocFails, outcome);
      var causation := prevID;
      EmitRun(s, m, p, id, allocFails, outcome);
      if allocFails { return false, actions; }
      var seqNr := counter.AllocSeqNr();
      ok := store.Write(Entry(id, By(m), seqNr, causation, false), outcome);
      if ok { prevID := id; }
    }
  }

  function EmitActions(m: nat, p: nat, id: string, allocFails: bool, outcome: Outcome): seq<Action> {
    if allocFails then [BeginEmit(p, m), AllocFails(p)]
    else [BeginEmit(p, m), Allocate(p, id), Append(p, outcome), SetPrev(p)]
  }

  lemma EmitRun(s: State, m: nat, p: nat, id: string, allocFails: bool, outcome: Outcome)
    requires m in s.emitters && p !in s.procs
    ensures var r := Run(s, EmitActions(m, p, id, allocFails, outcome));
            var e := Entry(id, By(m), s.next, s.emitters[m], false);
            && r.procs == s.procs && r.snapshot == s.snapshot
            && (allocFails ==> r == s)
            && (!allocFails ==>
                  && r.next == s.next + 1 && r.issued == s.issued + [s.next] && r.log == Logged(s.log, e, outcome)
                  && r.emitters == if Landed(e, outcome).Stored? then s.emitters[m := id] else s.emitters)
  {
    hide Run, Logged;
    var actions := EmitActions(m, p, id, allocFails, outcome);
    var e := Entry(id, By(m), s.next, s.emitters[m], false);
    var s1 := s.(procs := s.procs[p := Began(m, s.emitters[m])]);
    assert Next(s, BeginEmit(p, m)) == s1;
    RunTwice(s, actions);
    if allocFails {
      assert s1.procs - {p} == s.procs;
      RunNone(s, actions[2..]);
    } else {
      var s2 := Issue(s).(procs := s.procs[p := Holding(m, e)]);
      assert s1.procs[p := Holding(m, e)] == s2.procs;
      assert Next(s1, Allocate(p, id)) == s2;
      StoreRun(s2, p, outcome, actions[2..]);
      assert s2.procs - {p} == s.procs;
    }
  }

  lemma StoreRun(s: State, p: nat, outcome: Outcome, actions: seq<Action>)
    requires p in s.procs && s.procs[p].Holding? && actions == [Append(p, outcome), SetPrev(p)]
    ensures var r := Run(s, actions);
            var m, e := s.procs[p].emitter, s.procs[p].event;
            && r.procs == s.procs - {p} && r.snapshot == s.snapshot
            && r.next == s.next && r.issued == s.issued && r.log == Logged(s.log, e, outcome)
            && r.emitters == if Landed(e, outcome).Stored? then s.emitters[m := e.id] else s.emitters
  {
    hide Run, Logged;
    RunTwice(s, actions);
    RunNone(Next(Next(s, actions[0]), actions[1]), actions[2..]);
    assert s.procs[p := Acknowledged(s.procs[p].emitter, s.procs[p].event.id)] - {p} == s.procs - {p};
  }

  /** Which of RunCutover's effects report an error. */
  datatype Faults = Faults(check: bool, load: bool, save: bool, alloc: bool, append: Outcome)

  function CutoverActions(p: nat, id: string, f: Faults): seq<Action> {
    if f.check then []
    else if f.load then [CheckCounter(p), Die(p)]
    else if f.save then [CheckCounter(p), LoadLog(p), Die(p)]
    else if f.alloc then [CheckCounter(p), LoadLog(p), SaveSnapshot(p), Die(p)]
    else [CheckCounter(p), LoadLog(p), SaveSnapshot(p), NumberCutover(p, id), Append(p, f.append)]
  }

  /** RunCutover is a run of the machine, and an error-free call on a non-empty, unmigrated
      log stores the cutover event with number 1. */
  method PerformCutover(counter: SeqCounter, store: Store, p: nat, id: string, f: Faults, ghost s: State)
    returns (ok: bool, seqNr: Option<nat>)
    requires Shows(s, counter, store) && p !in s.procs
    modifies counter, store
    ensures Shows(Run(s, CutoverActions(p, id, f)), counter, store)
    ensures Run(s, CutoverActions(p, id, f)).procs == s.procs
    ensures ok <==>
            && !f.check
            && (|| old(counter.nextSeq) > 1
                || (!f.load && (old(store.log) == [] || (!f.save && !f.alloc && f.append.Stored? && id != ""))))
    ensures seqNr.Some? <==> ok && old(counter.nextSeq) == 1 && old(store.log) != []
    ensures seqNr.None? && !f.append.StoredButError? ==> store.log == old(store.log)
    ensures store.snapshot <==>
            old(store.snapshot) || (!f.check && old(counter.nextSeq) == 1 && !f.load && old(store.log) != [] && !f.save)
    ensures seqNr.Some? ==> ok && seqNr.value == 1 && store.log == old(store.log) + [Entry(id, Cutover, 1, "", true)]
  {
    ghost var actions := CutoverActions(p, id, f);
    ok, seqNr := false, None;
    if f.check { return; }
    var latest := counter.LatestSeqNr();
    if latest > 0 {
      AlreadyDone(s, p, id, f);
      ok := true;
      return;
    }
    if f.load {
      RunTwice(s, actions);
      return;
    }
    if store.log == [] {
      NothingToMigrate(s, p, id, f);
      ok := true;
      return;
    }
    CutoverSteps(s, p, id, f);
    if f.save { return; }
    store.snapshot := true;
    if f.alloc { return; }
    var n := counter.AllocSeqNr();
    ok := store.Write(Entry(id, Cutover, n, "", false), f.append);
    if ok { seqNr := Some(n); }
  }

  lemma {:induction false} Idle(s: State, actions: seq<Action>)
    requires forall a :: a in actions ==> Next(s, a) == s
    ensures Run(s, actions) == s
    decreases |actions|
  {
    if actions != [] { Idle(s, actions[1..]); }
  }

  lemma AlreadyDone(s: State, p: nat, id: string, f: Faults)
    requires Latest(s.next) > 0 && p !in s.procs
    ensures Run(s, CutoverActions(p, id, f)) == s
  {
    hide Run;
    assert s.procs - {p} == s.procs;
    Idle(s, CutoverActions(p, id, f));
  }

  lemma NothingToMigrate(s: State, p: nat, id: string, f: Faults)
    requires Latest(s.next) == 0 && p !in s.procs && s.log == [] && !f.check && !f.load
    ensures Run(s, CutoverActions(p, id, f)) == s
  {
    hide Run;
    var actions := CutoverActions(p, id, f);
    var s1 := s.(procs := s.procs[p := Checked]);
    assert Next(s, CheckCounter(p)) == s1;
    assert s1.procs - {p} == s.procs;
    assert Next(s1, LoadLog(p)) == s;
    RunTwice(s, actions);
    RestIdle(s, p, id, f);
    hide Next;
    Idle(s, actions[2..]);
  }

  lemma RestIdle(s: State, p: nat, id: string, f: Faults)
    requires p !in s.procs && !f.check && !f.load
    ensures forall a :: a in CutoverActions(p, id, f)[2..] ==> Next(s, a) == s
  {
  }

  lemma CutoverSteps(s: State, p: nat, id: string, f: Faults)
    requires Latest(s.next) == 0 && p !in s.procs && s.log != [] && !f.check && !f.load
    ensures var r := Run(s, CutoverActions(p, id, f));
            && r.procs == s.procs
            && r.snapshot == (s.snapshot || !f.save)
            && r.next == (if f.save || f.alloc then s.next else s.next + 1)
            && r.issued == (if f.save || f.alloc then s.issued else s.issued + [s.next])
            && r.log == (if f.save || f.alloc then s.log
                else Logged(s.log, Entry(id, Cutover, s.next, "", false), f.append))
  {
    hide Run, Logged;
    var actions := CutoverActions(p, id, f);
    var s2 := s.(procs := s.procs[p := Loaded]);
    assert s2.procs - {p} == s.procs;
    RunTwice(s, actions);
    assert s.procs[p := Checked][p := Loaded] == s2.procs;
    assert Run(s, actions) == Run(s2, actions[2..]);
    if f.save {
      RunOne(s2, actions[2..]);
    } else {
      RunTwice(s2, actions[2..]);
      RunMore(s2, p, id, f, actions[2..]);
    }
  }

  lemma RunOne(s: State, actions: seq<Action>)
    requires |actions| == 1
    ensures Run(s, actions) == Next(s, actions[0])
  {
  }

  lemma RunMore(s: State, p: nat, id: string, f: Faults, actions: seq<Action>)
    requires p in s.procs && s.procs[p] == Loaded
    requires actions == if f.alloc then [SaveSnapshot(p), Die(p)]
               else [SaveSnapshot(p), NumberCutover(p, id), Append(p, f.append)]
    ensures var r := Run(s, actions);
            && r.procs == s.procs - {p}
            && r.snapshot
            && r.next == (if f.alloc then s.next else s.next + 1)
            && r.issued == (if f.alloc then s.issued else s.issued + [s.next])
            && r.log == (if f.alloc then s.log else Logged(s.log, Entry(id, Cutover, s.next, "", false), f.append))
  {
    hide Run, Logged;
    RunTwice(s, actions);
    if f.alloc {
      RunNone(Next(Next(s, actions[0]), actions[1]), actions[2..]);
    } else {
      RunOne(Next(Next(s, actions[0]), actions[1]), actions[2..]);
    }
  }

  lemma RunNone(s: State, actions: seq<Action>)
    requires actions == []
    ensures Run(s, actions) == s
  {
  }
}
