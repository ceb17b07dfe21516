/** What one uninterrupted flush does to the staged rows, whatever fails in it, and what
    repeated flushes come to.  A flush reads the pending rows, writes them one by one, and
    settles each in a transaction of its own; a failing transaction ends it. */
module FlushRuns {
  import opened Text
  import opened Delivery
  import opened FlushBounds

  /** The rows a flush settled: true if written and marked, false if the write failed and
      the retry count was raised. */
  type Settlement = map<Item, bool>

  function SettleRow(k: RowKey, row: Row, done: Settlement): Row {
    if Item(k, row.data) !in done then row
    else if done[Item(k, row.data)] then row.(flushed := true)
    else row.(retry := row.retry + 1)
  }

  /** The table after the settlement; rows outside it are untouched. */
  function Settle(staged: Staged, done: Settlement): Staged {
    map k | k in staged :: SettleRow(k, staged[k], done)
  }

  function Landed(done: Settlement): set<Item> {
    set it | it in done && done[it]
  }

  /** The table after a flush in which everything succeeds. */
  function FlushAll(staged: Staged): Staged {
    map k | k in staged :: if Pending(staged[k]) then staged[k].(flushed := true) else staged[k]
  }

  function AllLand(items: set<Item>): Settlement {
    map it | it in items :: true
  }

  lemma SettleAll(staged: Staged)
    ensures Settle(staged, AllLand(Collect(staged))) == FlushAll(staged)
    ensures Landed(AllLand(Collect(staged))) == Collect(staged)
  {
    forall k | k in staged ensures Item(k, staged[k].data) in Collect(staged) <==> Pending(staged[k]) {}
  }

  /** One more settled row is one more mark or one more raised count. */
  lemma SettleMore(staged: Staged, done: Settlement, it: Item, written: bool)
    requires it in Collect(staged) && it !in done
    ensures var staged' := Settle(staged, done);
            Settle(staged, done[it := written]) == if written then Mark(staged', it.key) else Bump(staged', it.key)
    ensures Landed(done[it := written]) == Landed(done) + if written then {it} else {}
  {
    forall k | k in staged && k != it.key
      ensures SettleRow(k, staged[k], done[it := written]) == SettleRow(k, staged[k], done)
    {
    }
  }

  // ------------------------------------------------------------- the middle of a flush

  /** Rows settled as in `done`, rows `left` to settle, and writes not settled yet. */
  ghost predicate FlushState(d0: Durable, done: Settlement, left: set<Item>, open: multiset<Item>, d: Durable) {
    && left + done.Keys == Collect(d0.staged) && left !! done.Keys
    && d.staged == Settle(d0.staged, done)
    && d.writes == d0.writes + multiset(Landed(done)) + open
    && d == d0.(staged := d.staged, writes := d.writes)
  }

  lemma FlushStateStart(d: Durable)
    ensures FlushState(d, map[], Collect(d.staged), multiset{}, d)
  {
    assert Landed(map[]) == {};
    assert Settle(d.staged, map[]) == d.staged;
  }

  lemma FlushStateSettle(d0: Durable, done: Settlement, left: set<Item>, d: Durable, it: Item, written: bool)
    requires it in left && FlushState(d0, done, left, if written then multiset{it} else multiset{}, d)
    ensures FlushState(d0, done[it := written], left - {it}, multiset{},
                       d.(staged := if written then Mark(d.staged, it.key) else Bump(d.staged, it.key)))
  {
    hide Settle, Mark, Bump, Collect, Landed;
    assert it in Collect(d0.staged) && it !in done;
    SettleMore(d0.staged, done, it, written);
    assert multiset(Landed(done) + {it}) == multiset(Landed(done)) + multiset{it} by { LandedDone(done, it); }
    assert left - {it} + done[it := written].Keys == left + done.Keys;
  }

  lemma LandedDone(done: Settlement, it: Item)
    requires it !in done
    ensures it !in Landed(done)
  {
  }

  function OpenWrite(cut: Option<Item>): multiset<Item> {
    match cut case Some(it) => multiset{it} case None => multiset{}
  }

  function LostMark(cut: Option<Item>): multiset<RowKey> {
    match cut case Some(it) => multiset{it.key} case None => multiset{}
  }

  /** Everything a flush did: the rows it settled, and the one row, if any, that it wrote
      and then failed to mark. */
  ghost predicate FlushOutcome(d0: Durable, done: Settlement, cut: Option<Item>, d: Durable) {
    && done.Keys <= Collect(d0.staged)
    && (cut.Some? ==> cut.value in Collect(d0.staged) && cut.value !in done)
    && d.staged == Settle(d0.staged, done)
    && d.writes == d0.writes + multiset(Landed(done)) + OpenWrite(cut)
    && d.lost == d0.lost + LostMark(cut)
    && d == d0.(staged := d.staged, writes := d.writes, lost := d.lost)
  }

  // ------------------------------------------------------------------ runs of a flush

  predicate InFlush(p: Proc) { p.Collecting? || Flushing(p) }

  predicate Underway(s: State, w: nat) { w in s.procs && InFlush(s.procs[w]) }

  /** The steps of worker `w` alone, up to the end of its flush. */
  predicate FlushTrace(env: Env, s: State, w: nat, trace: seq<Action>)
    decreases |trace|
  {
    if trace == [] then !Underway(s, w)
    else Underway(s, w) && trace[0].Step? && trace[0].w == w && FlushTrace(env, Next(env, s, trace[0]), w, trace[1..])
  }

  /** No read of the pending rows and no settling transaction fails; writes may. */
  predicate Faultless(env: Env, s: State, w: nat, trace: seq<Action>)
    decreases |trace|
  {
    trace != [] && Underway(s, w) && trace[0].Step? ==>
      (s.procs[w].Writing? || trace[0].ok) && Faultless(env, Next(env, s, trace[0]), w, trace[1..])
  }

  /** Some settling transaction succeeds. */
  predicate SettlesSome(env: Env, s: State, w: nat, trace: seq<Action>)
    decreases |trace|
  {
    trace != [] && Underway(s, w) && trace[0].Step? &&
      (|| ((s.procs[w].Marking? || s.procs[w].Bumping?) && trace[0].ok)
       || SettlesSome(env, Next(env, s, trace[0]), w, trace[1..]))
  }

  /** What a point of the flush loop knows. */
  ghost predicate FlushPoint(d0: Durable, done: Settlement, d: Durable, p: Proc) {
    match p
    case Collecting(_) => d == d0 && done == map[]
    case Writing(_, items, _) => FlushState(d0, done, items, multiset{}, d)
    case Marking(_, item, items, _) => item !in items && FlushState(d0, done, items + {item}, multiset{item}, d)
    case Bumping(_, item, items, _) => item !in items && FlushState(d0, done, items + {item}, multiset{}, d)
    case _ => false
  }

  /** The settlement after one step of the loop. */
  function Settling(done: Settlement, p: Proc, ok: bool): Settlement {
    if ok && p.Marking? then done[p.item := true] else if ok && p.Bumping? then done[p.item := false] else done
  }

  function CutBy(p: Proc, ok: bool): Option<Item> {
    if p.Marking? && !ok then Some(p.item) else None
  }

  /** What one step of the loop does to that knowledge. */
  ghost predicate StepsOn(d0: Durable, done: Settlement, p: Proc, ok: bool, e: Effect) {
    var done' := Settling(done, p, ok);
    && (e.next.Some? && InFlush(e.next.value) ==> FlushPoint(d0, done', e.d, e.next.value))
    && (!(e.next.Some? && InFlush(e.next.value)) ==>
          && FlushOutcome(d0, done', CutBy(p, ok), e.d)
          && (p.Writing? || ok ==> done'.Keys == Collect(d0.staged)))
    && (((p.Marking? || p.Bumping?) && ok) <==> done'.Keys != done.Keys)
    && done.Keys <= done'.Keys
  }

  lemma CollectPoint(d: Durable, p: Proc, ok: bool, pick: Item)
    requires p.Collecting?
    ensures StepsOn(d, map[], p, ok, FlushStep(d, p, ok, pick))
  {
    hide Settle, Collect, Landed, InboxesOf;
    FlushStateStart(d);
  }

  lemma WritePoint(d0: Durable, done: Settlement, d: Durable, p: Proc, ok: bool, pick: Item)
    requires p.Writing? && FlushPoint(d0, done, d, p)
    ensures StepsOn(d0, done, p, ok, FlushStep(d, p, ok, pick))
  {
    hide Settle, Collect, Landed, InboxesOf;
    if pick in p.items { assert p.items - {pick} + {pick} == p.items; }
  }

  lemma SettlePoint(d0: Durable, done: Settlement, d: Durable, p: Proc, pick: Item)
    requires (p.Marking? || p.Bumping?) && FlushPoint(d0, done, d, p)
    ensures StepsOn(d0, done, p, true, FlushStep(d, p, true, pick))
  {
    hide Settle, Collect, Landed, Mark, Bump, InboxesOf, FlushState;
    FlushStateSettle(d0, done, p.items + {p.item}, d, p.item, p.Marking?);
    assert p.items + {p.item} - {p.item} == p.items;
    NewlySettled(d0, done, p.items + {p.item}, d, p);
  }

  lemma NewlySettled(d0: Durable, done: Settlement, left: set<Item>, d: Durable, p: Proc)
    requires (p.Marking? || p.Bumping?) && p.item in left
    requires FlushState(d0, done, left, if p.Marking? then multiset{p.item} else multiset{}, d)
    ensures p.item !in done
  {
  }

  lemma CutPoint(d0: Durable, done: Settlement, d: Durable, p: Proc, pick: Item)
    requires (p.Marking? || p.Bumping?) && FlushPoint(d0, done, d, p)
    ensures StepsOn(d0, done, p, false, FlushStep(d, p, false, pick))
  {
    hide Settle, Collect, Landed, InboxesOf;
  }

  lemma FlushPointStep(d0: Durable, done: Settlement, d: Durable, p: Proc, ok: bool, pick: Item)
    requires InFlush(p) && FlushPoint(d0, done, d, p)
    ensures StepsOn(d0, done, p, ok, FlushStep(d, p, ok, pick))
  {
    hide StepsOn, FlushStep, FlushState;
    match p
    case Collecting(_) => CollectPoint(d, p, ok, pick);
    case Writing(_, _, _) => WritePoint(d0, done, d, p, ok, pick);
    case _ => if ok { SettlePoint(d0, done, d, p, pick); } else { CutPoint(d0, done, d, p, pick); }
  }

  lemma {:induction false} FlushFrom(env: Env, s: State, w: nat, trace: seq<Action>, d0: Durable, done0: Settlement)
    returns (done: Settlement, cut: Option<Item>)
    requires Underway(s, w) && FlushTrace(env, s, w, trace) && FlushPoint(d0, done0, s.d, s.procs[w])
    ensures FlushOutcome(d0, done, cut, Run(env, s, trace).d) && done0.Keys <= done.Keys
    ensures Faultless(env, s, w, trace) ==> done.Keys == Collect(d0.staged) && cut.None?
    ensures done.Keys != done0.Keys <==> SettlesSome(env, s, w, trace)
    decreases |trace|
  {
    hide FlushPoint, FlushOutcome, FlushStep, Collect;
    var p, a := s.procs[w], trace[0];
    var s1 := Next(env, s, a);
    FlushPointStep(d0, done0, s.d, p, a.ok, a.pick);
    var done1 := Settling(done0, p, a.ok);
    StepOf(env, s, w, a);
    if Underway(s1, w) {
      done, cut := FlushFrom(env, s1, w, trace[1..], d0, done1);
    } else {
      assert trace[1..] == [];
      done, cut := done1, CutBy(p, a.ok);
    }
  }

  lemma StepOf(env: Env, s: State, w: nat, a: Action)
    requires a.Step? && a.w == w && Underway(s, w)
    ensures var e := FlushStep(s.d, s.procs[w], a.ok, a.pick);
            var s' := Next(env, s, a);
            && s'.d == e.d
            && (Underway(s', w) <==> e.next.Some? && InFlush(e.next.value))
            && (Underway(s', w) ==> s'.procs[w] == e.next.value)
  {
    hide FlushStep;
  }

  // ---------------------------------------------------------------------- theorems

  /** A whole flush, whatever fails in it: it settles some of the rows that were pending,
      marks those it wrote and raises the count of the others, leaves every other row
      alone, and loses at most the mark of the row it was cut at.  Unless the read or a
      settling transaction fails it settles every pending row. */
  lemma FlushExact(env: Env, s: State, w: nat, trace: seq<Action>) returns (done: Settlement, cut: Option<Item>)
    requires w in s.procs && s.procs[w].Collecting? && FlushTrace(env, s, w, trace)
    ensures FlushOutcome(s.d, done, cut, Run(env, s, trace).d)
    ensures Faultless(env, s, w, trace) ==> done.Keys == Collect(s.d.staged) && cut.None?
    ensures done.Keys != {} <==> SettlesSome(env, s, w, trace)
  {
    hide FlushTrace, Faultless, SettlesSome, Run, FlushOutcome;
    done, cut := FlushFrom(env, s, w, trace, s.d, map[]);
  }

  /** The attempts a row has left. */
  function AttemptsLeft(row: Row): nat {
    if Pending(row) then MAX_DELIVERY_RETRY - row.retry else 0
  }

  ghost function Budget(staged: Staged): nat
    decreases |staged|
  {
    if staged == map[] then 0
    else var k :| k in staged; AttemptsLeft(staged[k]) + Budget(staged - {k})
  }

  lemma {:induction false} BudgetSplit(staged: Staged, k: RowKey)
    requires k in staged
    ensures Budget(staged) == AttemptsLeft(staged[k]) + Budget(staged - {k})
    decreases |staged|
  {
    hide AttemptsLeft;
    var j :| j in staged && Budget(staged) == AttemptsLeft(staged[j]) + Budget(staged - {j});
    if j != k {
      BudgetSplit(staged - {j}, k);
      BudgetSplit(staged - {k}, j);
      assert staged - {j} - {k} == staged - {k} - {j};
    }
  }

  lemma {:induction false} BudgetMonotone(a: Staged, b: Staged)
    requires a.Keys == b.Keys && forall k :: k in a ==> AttemptsLeft(b[k]) <= AttemptsLeft(a[k])
    ensures Budget(b) <= Budget(a)
    ensures (exists k :: k in a && AttemptsLeft(b[k]) < AttemptsLeft(a[k])) ==> Budget(b) < Budget(a)
    decreases |a|
  {
    hide AttemptsLeft;
    if a == map[] {
      assert b == map[];
    } else {
      var k :| k in a;
      if j :| j in a && AttemptsLeft(b[j]) < AttemptsLeft(a[j]) { k := j; }
      BudgetSplit(a, k);
      BudgetSplit(b, k);
      assert (a - {k}).Keys == (b - {k}).Keys;
      BudgetMonotone(a - {k}, b - {k});
    }
  }

  lemma SettleSpends(staged: Staged, done: Settlement)
    requires done.Keys <= Collect(staged)
    ensures Budget(Settle(staged, done)) <= Budget(staged)
    ensures Budget(Settle(staged, done)) < Budget(staged) <==> done.Keys != {}
  {
    var staged' := Settle(staged, done);
    if it :| it in done {
      assert it in Collect(staged) && it.key in staged;
      assert AttemptsLeft(staged'[it.key]) < AttemptsLeft(staged[it.key]);
    } else {
      assert staged' == staged;
    }
    BudgetMonotone(staged, staged');
  }

  /** A flush never raises the attempts left in the store, and lowers them exactly when at
      least one of its settling transactions succeeds. */
  lemma FlushSpendsIff(env: Env, s: State, w: nat, trace: seq<Action>)
    requires w in s.procs && s.procs[w].Collecting? && FlushTrace(env, s, w, trace)
    ensures Budget(Run(env, s, trace).d.staged) <= Budget(s.d.staged)
    ensures Budget(Run(env, s, trace).d.staged) < Budget(s.d.staged) <==> SettlesSome(env, s, w, trace)
  {
    hide FlushTrace, SettlesSome, Run, Budget, Settle;
    var done, cut := FlushExact(env, s, w, trace);
    SettleSpends(s.d.staged, done);
  }

  /** Flushed, or dead-lettered. */
  predicate Settled(staged: Staged) {
    forall k :: k in staged ==> !Pending(staged[k])
  }

  /** After as many complete settlements a pending row has been tried that often. */
  predicate TriedAtLeast(staged: Staged, n: nat) {
    forall k :: k in staged && Pending(staged[k]) ==> staged[k].retry >= n
  }

  lemma CompleteTries(staged: Staged, done: Settlement, n: nat)
    requires done.Keys == Collect(staged) && TriedAtLeast(staged, n)
    ensures TriedAtLeast(Settle(staged, done), n + 1)
  {
    var staged' := Settle(staged, done);
    forall k | k in staged' && Pending(staged'[k]) ensures staged'[k].retry >= n + 1 {
      assert Item(k, staged[k].data) in Collect(staged) <==> Pending(staged[k]);
    }
  }

  lemma FaultlessTries(env: Env, s: State, w: nat, trace: seq<Action>, n: nat)
    requires w in s.procs && s.procs[w].Collecting? && FlushTrace(env, s, w, trace) && Faultless(env, s, w, trace)
    requires TriedAtLeast(s.d.staged, n)
    ensures TriedAtLeast(Run(env, s, trace).d.staged, n + 1)
  {
    hide FlushTrace, Faultless, Run;
    var done, cut := FlushExact(env, s, w, trace);
    CompleteTries(s.d.staged, done, n);
  }

  /** Three flushes without restaging in between, by whatever workers, in which every read
      and every settling transaction succeeds, leave every row flushed or dead-lettered,
      whichever writes fail. */
  lemma ThreeFlushesSettle(env: Env, s0: State, w0: nat, t0: seq<Action>, s1: State, w1: nat, t1: seq<Action>,
      s2: State, w2: nat, t2: seq<Action>)
    requires w0 in s0.procs && s0.procs[w0].Collecting? && FlushTrace(env, s0, w0, t0) && Faultless(env, s0, w0, t0)
    requires w1 in s1.procs && s1.procs[w1].Collecting? && FlushTrace(env, s1, w1, t1) && Faultless(env, s1, w1, t1)
    requires w2 in s2.procs && s2.procs[w2].Collecting? && FlushTrace(env, s2, w2, t2) && Faultless(env, s2, w2, t2)
    requires s1.d.staged == Run(env, s0, t0).d.staged && s2.d.staged == Run(env, s1, t1).d.staged
    ensures Settled(Run(env, s2, t2).d.staged)
  {
    hide FlushTrace, Faultless, Run;
    FaultlessTries(env, s0, w0, t0, 0);
    FaultlessTries(env, s1, w1, t1, 1);
    FaultlessTries(env, s2, w2, t2, 2);
  }

  /** The condition matters: a flush that finds a pending row, fails to write it and fails
      to raise its count ends in the state it began in, and may do so forever. */
  lemma FailedIncrementSpendsNothing(env: Env, s: State, w: nat, k: RowKey) returns (trace: seq<Action>)
    requires w in s.procs && s.procs[w] == Collecting(Recover) && k in s.d.staged && Pending(s.d.staged[k])
    ensures FlushTrace(env, s, w, trace) && Run(env, s, trace).d == s.d
  {
    hide Collect;
    var it := Item(k, s.d.staged[k].data);
    assert it in Collect(s.d.staged) by { CollectHas(s.d.staged, k); }
    var collect, write, bump := Step(w, true, "", it), Step(w, false, "", it), Step(w, false, "", it);
    trace := [collect, write, bump];
    var s1 := Next(env, s, collect);
    var s2 := Next(env, s1, write);
    var s3 := Next(env, s2, bump);
    assert s1.procs[w] == Writing(Recover, Collect(s.d.staged), []);
    assert s2.procs[w].Bumping? && s2.d == s.d;
    assert w !in s3.procs && s3.d == s.d;
    hide Next;
    assert trace[1..] == [write, bump] && trace[1..][1..] == [bump] && trace[1..][1..][1..] == [];
    assert FlushTrace(env, s3, w, []) && FlushTrace(env, s2, w, [bump]) && FlushTrace(env, s1, w, [write, bump]);
    assert Run(env, s2, [bump]) == s3 && Run(env, s1, [write, bump]) == s3;
  }

  lemma CollectHas(staged: Staged, k: RowKey)
    requires k in staged && Pending(staged[k])
    ensures Item(k, staged[k].data) in Collect(staged)
  {
  }

  // ----------------------------------------------------------- putting traces together

  /** Steps of the worker's flush, not necessarily to its end. */
  predicate FlushSteps(env: Env, s: State, w: nat, trace: seq<Action>)
    decreases |trace|
  {
    trace != [] ==>
        Underway(s, w) && trace[0].Step? && trace[0].w == w && FlushSteps(env, Next(env, s, trace[0]), w, trace[1..])
  }

  lemma {:induction false} FlushStepsConcat(env: Env, s: State, w: nat, t: seq<Action>, u: seq<Action>)
    requires FlushSteps(env, s, w, t) && FlushSteps(env, Run(env, s, t), w, u)
    ensures FlushSteps(env, s, w, t + u)
    decreases |t|
  {
    hide Next, Underway;
    if t == [] {
      assert t + u == u;
    } else {
      assert (t + u)[1..] == t[1..] + u;
      FlushStepsConcat(env, Next(env, s, t[0]), w, t[1..], u);
    }
  }

  lemma {:induction false} FlushStepsEnd(env: Env, s: State, w: nat, trace: seq<Action>)
    requires FlushSteps(env, s, w, trace) && !Underway(Run(env, s, trace), w)
    ensures FlushTrace(env, s, w, trace)
    decreases |trace|
  {
    hide Next, Underway;
    if trace != [] { FlushStepsEnd(env, Next(env, s, trace[0]), w, trace[1..]); }
  }
}
