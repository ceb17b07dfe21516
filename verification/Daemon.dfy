/** The courier's code as it is written: loops over inboxes, targets and rows that
    update the stores in place.  Every method is proved to perform exactly a sequence of
    machine steps of one worker, with no other worker stepping in between; interleavings
    of such sequences are runs of the machine.  A call whose own operations all succeed is
    proved to have the effect CleanCall describes, whatever happens after it. */
module Daemon {
  import opened Text
  import opened Delivery
  import opened Safety
  import opened FlushBounds
  import opened FlushRuns
  import opened Convergence
  import opened CleanRuns
  import Improvement

  /** An admissible sequence of machine steps leads from one state to the other. */
  ghost predicate Follows(env: Env, s: State, trace: seq<Action>, s': State) {
    s' == Run(env, s, trace) && AdmissibleRun(env, s, trace)
  }

  lemma FollowsOne(env: Env, s: State, a: Action)
    requires Admissible(env, s, a)
    ensures Follows(env, s, [a], Next(env, s, a))
  {
    hide Next, Admissible;
    assert [a][1..] == [];
    assert Run(env, Next(env, s, a), []) == Next(env, s, a);
    assert AdmissibleRun(env, Next(env, s, a), []);
  }

  lemma {:induction false} FollowsConcat(env: Env, s: State, t: seq<Action>, s': State, u: seq<Action>, s'': State)
    requires Follows(env, s, t, s') && Follows(env, s', u, s'')
    ensures Follows(env, s, t + u, s'')
    decreases |t|
  {
    hide Next, Admissible;
    if t == [] {
      assert t + u == u;
    } else {
      assert (t + u)[1..] == t[1..] + u;
      FollowsConcat(env, Next(env, s, t[0]), t[1..], s', u, s'');
    }
  }

  /** The code stays within the reachable states, so every theorem about reachable states
      holds between any two of its calls. */
  lemma FollowsReachable(env: Env, s: State, trace: seq<Action>, s': State)
    requires Reachable(env, s) && Follows(env, s, trace, s')
    ensures Reachable(env, s')
  {
    hide Run, AdmissibleRun;
    var actions :| AdmissibleRun(env, EMPTY, actions) && s == Run(env, EMPTY, actions);
    FollowsConcat(env, EMPTY, actions, s, trace, s');
    assert AdmissibleRun(env, EMPTY, actions + trace);
  }

  /** As Follows, but admissible only if the queue names involved were unused so far. */
  ghost predicate Performs(env: Env, unused: bool, s: State, trace: seq<Action>, s': State) {
    s' == Run(env, s, trace) && (unused ==> AdmissibleRun(env, s, trace))
  }

  lemma PerformsConcat(env: Env, unused: bool, s: State, t: seq<Action>, s': State, u: seq<Action>, s'': State)
    requires Performs(env, unused, s, t, s') && (Performs(env, unused, s', u, s'') || Follows(env, s', u, s''))
    ensures Performs(env, unused, s, t + u, s'')
  {
    hide Run, AdmissibleRun;
    RunConcat(env, s, t, u);
    if unused { FollowsConcat(env, s, t, s', u, s''); }
  }

  lemma PerformsIf(env: Env, strong: bool, unused: bool, s: State, t: seq<Action>, s': State)
    requires Performs(env, strong, s, t, s') && (unused ==> strong)
    ensures Performs(env, unused, s, t, s')
  {
    hide Run, AdmissibleRun;
  }

  lemma FollowsPerforms(env: Env, unused: bool, s: State, t: seq<Action>, s': State)
    requires Follows(env, s, t, s')
    ensures Performs(env, unused, s, t, s')
  {
    hide Run, AdmissibleRun;
  }

  /** Every operation in the window of the tape succeeds. */
  ghost predicate AllOk(outcomes: nat -> bool, from: nat, to: nat) {
    forall n: nat :: from <= n < to ==> outcomes(n)
  }

  lemma AllOkSplit(outcomes: nat -> bool, from: nat, middle: nat, to: nat)
    requires from <= middle <= to
    ensures AllOk(outcomes, from, to) <==> AllOk(outcomes, from, middle) && AllOk(outcomes, middle, to)
  {
  }

  lemma AllOkNext(outcomes: nat -> bool, from: nat, to: nat)
    requires from <= to
    ensures AllOk(outcomes, from, to + 1) <==> AllOk(outcomes, from, to) && outcomes(to)
  {
  }

  lemma AllOkOne(outcomes: nat -> bool, from: nat)
    ensures AllOk(outcomes, from, from + 1) <==> outcomes(from)
    ensures AllOk(outcomes, from, from)
  {
  }

  /** The records of the targets whose insert succeeds, tried one after the other. */
  ghost function Made(env: Env, data: Bytes, targets: seq<Inbox>, outcomes: nat -> bool, from: nat): set<(string,
      Inbox)> {
    set n | 0 <= n < |targets| && outcomes(from + n) :: (env.key(data), targets[n])
  }

  lemma MadeNext(env: Env, data: Bytes, targets: seq<Inbox>, outcomes: nat -> bool, from: nat, n: nat)
    requires n < |targets|
    ensures Made(env, data, targets[..n + 1], outcomes, from)
            == Made(env, data, targets[..n], outcomes, from)
               + if outcomes(from + n) then {(env.key(data), targets[n])} else {}
    ensures targets[n..] == [targets[n]] + targets[n + 1..]
  {
    var more, less := targets[..n + 1], targets[..n];
    forall m | 0 <= m < n ensures more[m] == less[m] {}
    forall r | r in Made(env, data, less, outcomes, from) ensures r in Made(env, data, more, outcomes, from) {
      var m :| 0 <= m < |less| && outcomes(from + m) && r == (env.key(data), less[m]);
      assert more[m] == less[m];
    }
    if outcomes(from + n) { assert more[n] == targets[n]; }
  }

  lemma MadeNone(env: Env, data: Bytes, targets: seq<Inbox>, outcomes: nat -> bool, from: nat)
    ensures Made(env, data, targets[..0], outcomes, from) == {}
    ensures targets[|targets|..] == [] && targets[..|targets|] == targets && targets[0..] == targets
  {
  }

  /** After `n` targets: which records were made, and whether all of them were. */
  ghost predicate RecordedSoFar(env: Env, data: Bytes, targets: seq<Inbox>, outcomes: nat -> bool, from: nat, n: nat,
      dedup0: set<(string, Inbox)>, recorded: bool, dedup: set<(string, Inbox)>) {
    n <= |targets| && (recorded <==> AllOk(outcomes, from, from + n))
        && dedup == dedup0 + Made(env, data, targets[..n], outcomes, from)
  }

  lemma NothingRecorded(env: Env, data: Bytes, targets: seq<Inbox>, outcomes: nat -> bool, from: nat,
      dedup: set<(string, Inbox)>)
    ensures RecordedSoFar(env, data, targets, outcomes, from, 0, dedup, true, dedup) && targets[0..] == targets
  {
    hide Made;
    MadeNone(env, data, targets, outcomes, from);
  }

  lemma RecordedNext(env: Env, data: Bytes, targets: seq<Inbox>, outcomes: nat -> bool, from: nat, n: nat,
      dedup0: set<(string, Inbox)>, recorded: bool, dedup: set<(string, Inbox)>)
    requires RecordedSoFar(env, data, targets, outcomes, from, n, dedup0, recorded, dedup) && n < |targets|
    ensures RecordedSoFar(env, data, targets, outcomes, from, n + 1, dedup0, recorded && outcomes(from + n),
                          if outcomes(from + n) then dedup + {(env.key(data), targets[n])} else dedup)
    ensures targets[n..] == [targets[n]] + targets[n + 1..]
  {
    hide Made, AllOk;
    MadeNext(env, data, targets, outcomes, from, n);
    AllOkNext(outcomes, from, from + n);
  }

  lemma AllRecorded(env: Env, data: Bytes, targets: seq<Inbox>, outcomes: nat -> bool, from: nat, dedup0: set<(string,
            Inbox)>, recorded: bool, dedup: set<(string, Inbox)>)
    requires RecordedSoFar(env, data, targets, outcomes, from, |targets|, dedup0, recorded, dedup)
    ensures (recorded <==> AllOk(outcomes, from, from + |targets|))
    ensures dedup == dedup0 + Made(env, data, targets, outcomes, from)
    ensures targets[|targets|..] == []
  {
    assert targets[..|targets|] == targets;
  }

  lemma MadeAll(env: Env, data: Bytes, targets: seq<Inbox>, outcomes: nat -> bool, from: nat)
    requires AllOk(outcomes, from, from + |targets|)
    ensures Made(env, data, targets, outcomes, from) == Records(env, data, Elements(targets))
  {
    forall i | i in targets ensures (env.key(data), i) in Made(env, data, targets, outcomes, from) {
      var n :| 0 <= n < |targets| && targets[n] == i;
      assert outcomes(from + n);
    }
  }

  class Courier {
    const env: Env
    /** The outcome of the n-th operation that can fail. */
    const outcomes: nat -> bool
    var clock: nat
    var outbox: map<OutboxPath, Bytes>
    var staged: Staged
    var dedup: set<(string, Inbox)>
    var queue: map<string, QueueRow>
    ghost var writes: multiset<Item>
    ghost var lost: multiset<RowKey>
    ghost var accepted: set<OutboxPath>
    ghost var procs: map<nat, Proc>

    ghost function D(): Durable
      reads this
    {
      Durable(outbox, staged, dedup, queue, writes, lost, accepted)
    }

    ghost function S(): State
      reads this
    {
      State(D(), procs)
    }

    constructor (env: Env, outcomes: nat -> bool)
      ensures S() == EMPTY && this.env == env && this.outcomes == outcomes
    {
      this.env, this.outcomes, clock := env, outcomes, 0;
      outbox, staged, dedup, queue := map[], map[], {}, map[];
      writes, lost, accepted, procs := multiset{}, multiset{}, {}, map[];
    }

    method Attempt() returns (ok: bool)
      modifies `clock
      ensures clock == old(clock) + 1 && ok == outcomes(old(clock))
    {
      ok := outcomes(clock);
      clock := clock + 1;
    }

    /** The worker's program counter follows the machine after a durable change has been made. */
    ghost method Advance(w: nat, before: State, ok: bool, name: string, pick: Item) returns (trace: seq<Action>)
      requires w in before.procs && procs == before.procs
      requires D() == ProcStep(env, before.d, before.procs[w], ok, name, pick).d
      requires Admissible(env, before, Step(w, ok, name, pick))
      modifies `procs
      ensures Follows(env, before, trace, S()) && trace == [Step(w, ok, name, pick)]
      ensures procs == SetProc(before.procs, w, ProcStep(env, before.d, before.procs[w], ok, name, pick).next)
    {
      hide ProcStep, Admissible;
      procs := SetProc(before.procs, w, ProcStep(env, before.d, before.procs[w], ok, name, pick).next);
      trace := [Step(w, ok, name, pick)];
      FollowsOne(env, before, trace[0]);
    }

    // ------------------------------------------------------------- delivery store

    /** StageDelivery: one upsert per target inside one transaction. */
    method StageDelivery(ghost w: nat, ghost c: Call, path: OutboxPath, data: Bytes, inboxes: seq<Inbox>)
      returns (ok: bool, ghost trace: seq<Action>)
      requires w in procs && procs[w] == Staging(c, inboxes) && c.path == path && c.data == data
      modifies `clock, `staged, `procs
      ensures Follows(env, old(S()), trace, S())
      ensures ok == outcomes(old(clock)) && clock == old(clock) + 1
      ensures staged == if ok then StageAll(old(staged), path, data, inboxes) else old(staged)
      ensures procs == old(procs)[w := if ok then Collecting(Deliver(c, inboxes)) else Failed(c)]
    {
      ghost var before := S();
      ok := Attempt();
      if ok {
        var table := staged;
        for n := 0 to |inboxes|
          invariant StageAll(table, path, data, inboxes[n..]) == StageAll(staged, path, data, inboxes)
        {
          assert inboxes[n..][1..] == inboxes[n + 1..];
          table := Upsert(table, KeyOf(path, inboxes[n]), data);
        }
        staged := table;
      }
      trace := Advance(w, before, ok, "", NO_ITEM);
    }

    /** atomicWrite of one snapshot row, outside any transaction. */
    method WriteItem(ghost w: nat, ghost job: Job, item: Item, ghost items: set<Item>, ghost flushed: seq<RowKey>)
      returns (written: bool, ghost trace: seq<Action>)
      requires w in procs && procs[w] == Writing(job, items, flushed) && item in items
      modifies `clock, `writes, `procs
      ensures Follows(env, old(S()), trace, S()) && FlushSteps(env, old(S()), w, trace)
      ensures clock == old(clock) + 1 && written == outcomes(old(clock))
      ensures writes == if written then old(writes) + multiset{item} else old(writes)
      ensures procs == old(procs)[w := AfterWrite(job, item, items - {item}, flushed, written)]
    {
      hide ProcStep, Follows, FlushSteps;
      ghost var before := S();
      written := Attempt();
      if written { writes := writes + multiset{item}; }
      WriteStep(env, before, w, job, item, items, flushed, written);
      trace := Advance(w, before, written, "", item);
      FlushStepsOne(env, before, w, trace);
    }

    /** The transaction after the write: mark the row, or raise its retry count.  `more`
        is false when the database failed, which ends the flush. */
    method SettleItem(ghost w: nat, ghost job: Job, item: Item, ghost items: set<Item>, flushed: seq<RowKey>,
        written: bool)
      returns (more: bool, flushed': seq<RowKey>, ghost trace: seq<Action>)
      requires w in procs && procs[w] == AfterWrite(job, item, items, flushed, written)
      modifies `clock, `staged, `lost, `procs
      ensures Follows(env, old(S()), trace, S()) && FlushSteps(env, old(S()), w, trace)
      ensures clock == old(clock) + 1 && more == outcomes(old(clock))
      ensures flushed' == if written && more then flushed + [item.key] else flushed
      ensures procs == SetProc(old(procs), w, if more then Some(Writing(job, items, flushed'))
                else AfterFlush(job, flushed'))
      ensures staged == if !more then old(staged) else if written then Mark(old(staged), item.key)
                else Bump(old(staged), item.key)
      ensures lost == if written && !more then old(lost) + multiset{item.key} else old(lost)
    {
      hide ProcStep, Follows, AfterFlush, Bump, Mark, FlushSteps;
      ghost var before := S();
      more := Attempt();
      flushed' := flushed;
      if !written {
        if more { staged := Bump(staged, item.key); }
      } else if more {
        staged := Mark(staged, item.key);
        flushed' := flushed + [item.key];
      } else {
        lost := lost + multiset{item.key};
      }
      SettleStep(env, before, w, job, item, items, flushed, written, more);
      trace := Advance(w, before, more, "", NO_ITEM);
      FlushStepsOne(env, before, w, trace);
    }

    /** One iteration of the flush loop. */
    method FlushItem(ghost w: nat, ghost job: Job, item: Item, ghost items: set<Item>, flushed: seq<RowKey>)
      returns (more: bool, flushed': seq<RowKey>, ghost trace: seq<Action>)
      requires w in procs && procs[w] == Writing(job, items, flushed) && item in items
      modifies `clock, `staged, `writes, `lost, `procs
      ensures Follows(env, old(S()), trace, S()) && FlushSteps(env, old(S()), w, trace)
      ensures clock == old(clock) + 2 && more == outcomes(old(clock) + 1)
      ensures procs == SetProc(old(procs), w, if more then Some(Writing(job, items - {item}, flushed'))
                else AfterFlush(job, flushed'))
      ensures D() == ItemEffect(old(D()), item, outcomes(old(clock)), more)
      ensures flushed' == if more && outcomes(old(clock)) then flushed + [item.key] else flushed
    {
      hide Follows, AfterFlush, Mark, Bump, FlushSteps;
      ghost var before := S();
      var written;
      ghost var t;
      written, t := WriteItem(w, job, item, items, flushed);
      ghost var middle := S();
      more, flushed', trace := SettleItem(w, job, item, items - {item}, flushed, written);
      FlushFurther(env, w, before, t, middle, trace, S());
      trace := t + trace;
      ForgetProc(before.procs, w, AfterWrite(job, item, items - {item}, flushed, written),
                 if more then Some(Writing(job, items - {item}, flushed')) else AfterFlush(job, flushed'));
    }

    /** FlushDeliveries: read the pending rows, then settle them one by one.  For arbitrary
        outcomes: `done` are the rows it settled, `cut` the row it wrote but failed to mark,
        and FlushResult says which they are. */
    method FlushDeliveries(ghost w: nat, ghost job: Job)
      returns (flushed: seq<RowKey>, ghost done: Settlement, ghost cut: Option<Item>, ghost trace: seq<Action>)
      requires w in procs && procs[w] == Collecting(job)
      modifies `clock, `staged, `writes, `lost, `procs
      ensures Follows(env, old(S()), trace, S()) && FlushTrace(env, old(S()), w, trace)
      ensures procs == SetProc(old(procs), w, AfterFlush(job, flushed))
      ensures clock > old(clock)
      ensures FlushResult(outcomes, old(clock), clock, old(D()), done, cut, D(), flushed)
    {
      hide ProcStep, Follows, AfterFlush, FlushResult, FlushSteps, FlushTrace, Collect;
      ghost var before := S();
      var ok := Attempt();
      flushed, done, cut := [], map[], None;
      CollectStep(env, before, w, job, ok);
      trace := Advance(w, before, ok, "", NO_ITEM);
      FlushStepsOne(env, before, w, trace);
      if !ok {
        FlushNotRead(outcomes, old(clock), before.d);
        FlushEnds(env, before, w, trace, S(), job, flushed);
        return;
      }
      ghost var s1 := S();
      ghost var t;
      flushed, done, cut, t := FlushItems(w, job, Collect(staged));
      FlushOn(env, w, before, trace, s1, t, S());
      trace := trace + t;
      ForgetProc(before.procs, w, Writing(job, Collect(before.d.staged), []), AfterFlush(job, flushed));
    }

    /** The loop over the rows read; the read itself was the operation before. */
    method FlushItems(ghost w: nat, ghost job: Job, items0: set<Item>)
      returns (flushed: seq<RowKey>, ghost done: Settlement, ghost cut: Option<Item>, ghost trace: seq<Action>)
      requires w in procs && procs[w] == Writing(job, items0, []) && items0 == Collect(staged)
      requires clock > 0 && outcomes(clock - 1)
      modifies `clock, `staged, `writes, `lost, `procs
      ensures Follows(env, old(S()), trace, S()) && FlushTrace(env, old(S()), w, trace)
      ensures procs == SetProc(old(procs), w, AfterFlush(job, flushed))
      ensures clock >= old(clock)
      ensures FlushResult(outcomes, old(clock) - 1, clock, old(D()), done, cut, D(), flushed)
    {
      hide ProcStep, Follows, AfterFlush, FlushLoop, FlushResult, FlushSteps, FlushTrace, ItemEffect, Collect;
      ghost var before, from := S(), clock - 1;
      flushed, done, cut, trace := [], map[], None, [];
      var items := items0;
      FlushLoopStart(outcomes, from, before.d);
      FollowsNothing(env, before);
      FlushStepsNone(env, before, w);
      assert before.procs[w := Writing(job, items, flushed)] == before.procs;
      while items != {}
        invariant w in procs && procs == before.procs[w := Writing(job, items, flushed)]
        invariant Follows(env, before, trace, S()) && FlushSteps(env, before, w, trace) && clock > from
        invariant FlushLoop(outcomes, from, clock, before.d, done, items, D(), flushed)
        decreases items
      {
        ghost var here, now := S(), clock;
        var item :| item in items;
        var more, flushed';
        ghost var t;
        more, flushed', t := FlushItem(w, job, item, items, flushed);
        FlushFurther(env, w, before, trace, here, t, S());
        trace := trace + t;
        ForgetProc(before.procs, w, Writing(job, items, flushed),
                   if more then Some(Writing(job, items - {item}, flushed')) else AfterFlush(job, flushed'));
        if !more {
          cut := if outcomes(now) then Some(item) else None;
          FlushLoopCut(outcomes, from, now, before.d, done, items, here.d, flushed, item);
          FlushEnds(env, before, w, trace, S(), job, flushed);
          return;
        }
        FlushLoopStep(outcomes, from, now, before.d, done, items, here.d, flushed, item);
        done := done[item := outcomes(now)];
        flushed := flushed';
        items := items - {item};
      }
      FlushLoopEnd(outcomes, from, clock, before.d, done, D(), flushed);
      trace := LeaveFlush(w, job, before, trace, flushed);
    }

    /** The loop is done: the worker leaves the flush. */
    ghost method LeaveFlush(w: nat, job: Job, before: State, trace: seq<Action>,
        flushed: seq<RowKey>) returns (trace': seq<Action>)
      requires w in before.procs && Follows(env, before, trace, S()) && FlushSteps(env, before, w, trace)
      requires procs == before.procs[w := Writing(job, {}, flushed)]
      modifies `procs
      ensures Follows(env, before, trace', S()) && FlushTrace(env, before, w, trace')
      ensures procs == SetProc(before.procs, w, AfterFlush(job, flushed))
    {
      hide ProcStep, Follows, AfterFlush, FlushSteps, FlushTrace;
      ghost var here := S();
      EndStep(env, here, w, job, flushed);
      ForgetProc(before.procs, w, Writing(job, {}, flushed), AfterFlush(job, flushed));
      ghost var t := Advance(w, here, true, "", NO_ITEM);
      FlushStepsOne(env, here, w, t);
      FlushFurther(env, w, before, trace, here, t, S());
      trace' := trace + t;
      FlushEnds(env, before, w, trace', S(), job, flushed);
    }

    // --------------------------------------------------------------- DeliverData

    /** HasDelivered for the next inbox. */
    method HasDelivered(ghost w: nat, ghost c: Call, data: Bytes, inbox: Inbox, ghost todo: seq<Inbox>,
        remaining: seq<Inbox>)
      returns (ok: bool, remaining': seq<Inbox>, ghost trace: seq<Action>)
      requires w in procs && procs[w] == Filtering(c, [inbox] + todo, remaining) && c.data == data
      modifies `clock, `procs
      ensures Follows(env, old(S()), trace, S()) && clock == old(clock) + 1 && ok == outcomes(old(clock))
      ensures remaining' == remaining + if (env.key(data), inbox) in dedup then [] else [inbox]
      ensures procs == old(procs)[w := if ok then Filtering(c, todo, remaining') else Failed(c)]
    {
      hide ProcStep, Follows;
      ghost var before := S();
      ok := Attempt();
      remaining' := remaining + if (env.key(data), inbox) in dedup then [] else [inbox];
      FilterStep(env, before, w, c, [inbox] + todo, remaining, ok);
      assert ([inbox] + todo)[1..] == todo && remaining + [] == remaining;
      trace := Advance(w, before, ok, "", NO_ITEM);
    }

    /** The dedup filter: a failed read aborts the call. */
    method FilterDelivered(ghost w: nat, ghost c: Call, data: Bytes, inboxes: seq<Inbox>)
      returns (failed: bool, remaining: seq<Inbox>, ghost trace: seq<Action>)
      requires w in procs && procs[w] == Filtering(c, inboxes, []) && c.data == data && env.dedupOn
      modifies `clock, `procs
      ensures Follows(env, old(S()), trace, S()) && clock >= old(clock)
      ensures failed ==> procs == old(procs)[w := Failed(c)]
      ensures !failed ==>
                && remaining == Remaining(env, D(), data, inboxes)
                && procs == old(procs)[w := if remaining == [] then Skipping(c) else Staging(c, remaining)]
      ensures failed <==> !AllOk(outcomes, old(clock), clock)
    {
      hide ProcStep, Follows, Remaining, AllOk, FilteredSoFar;
      ghost var before := S();
      remaining := [];
      trace := [];
      FollowsNothing(env, before);
      NothingFiltered(env, before.d, data, inboxes, outcomes, clock);
      for n := 0 to |inboxes|
        invariant w in procs && procs == before.procs[w := Filtering(c, inboxes[n..], remaining)]
        invariant clock == old(clock) + n && Follows(env, before, trace, S())
        invariant FilteredSoFar(env, before.d, data, inboxes, outcomes, old(clock), n, remaining)
      {
        ghost var here := S();
        var ok;
        ghost var t;
        FilteredNext(env, before.d, data, inboxes, outcomes, old(clock), n, remaining);
        ok, remaining, t := HasDelivered(w, c, data, inboxes[n], inboxes[n + 1..], remaining);
        FollowsConcat(env, before, trace, here, t, S());
        trace := trace + t;
        if !ok { return true, [], trace; }
      }
      AllFiltered(env, before.d, data, inboxes, outcomes, old(clock), remaining);
      ghost var here := S();
      FilterStep(env, here, w, c, [], remaining, true);
      ghost var t := Advance(w, here, true, "", NO_ITEM);
      FollowsConcat(env, before, trace, here, t, S());
      trace := trace + t;
      failed := false;
      RemainingReadsDedup(env, before.d, D(), data, inboxes);
    }

    /** RecordDelivery for the next target. */
    method RecordDelivery(ghost w: nat, ghost c: Call, data: Bytes, target: Inbox, ghost todo: seq<Inbox>,
        ghost allDone: bool, recorded: bool)
      returns (recorded': bool, ghost trace: seq<Action>)
      requires w in procs && procs[w] == Recording(c, [target] + todo, allDone, recorded) && c.data == data
      modifies `clock, `dedup, `procs
      ensures Follows(env, old(S()), trace, S()) && clock == old(clock) + 1
      ensures recorded' == (recorded && outcomes(old(clock)))
      ensures dedup == if outcomes(old(clock)) then old(dedup) + {(env.key(data), target)} else old(dedup)
      ensures procs == old(procs)[w := Recording(c, todo, allDone, recorded')]
    {
      hide ProcStep, Follows;
      ghost var before := S();
      var ok := Attempt();
      recorded' := recorded && ok;
      if ok { dedup := dedup + {(env.key(data), target)}; }
      RecordStep(env, before, w, c, [target] + todo, allDone, recorded, ok);
      assert ([target] + todo)[1..] == todo;
      trace := Advance(w, before, ok, "", NO_ITEM);
    }

    /** recordDedupForTargets: tries every target, and reports whether all were recorded. */
    method RecordDedup(ghost w: nat, ghost c: Call, data: Bytes, targets: seq<Inbox>, ghost allDone: bool)
      returns (recorded: bool, ghost trace: seq<Action>)
      requires w in procs && procs[w] == Recording(c, targets, allDone, true) && c.data == data
      modifies `clock, `dedup, `procs
      ensures Follows(env, old(S()), trace, S()) && clock >= old(clock)
      ensures procs == old(procs)[w := Finish(c, allDone, recorded)]
      ensures clock == old(clock) + |targets| && (recorded <==> AllOk(outcomes, old(clock), clock))
      ensures dedup == old(dedup) + Made(env, data, targets, outcomes, old(clock))
    {
      hide ProcStep, Follows, Finish, Made, AllOk, RecordedSoFar;
      ghost var before := S();
      recorded := true;
      trace := [];
      NothingRecorded(env, data, targets, outcomes, clock, dedup);
      FollowsNothing(env, before);
      for n := 0 to |targets|
        invariant w in procs && procs == before.procs[w := Recording(c, targets[n..], allDone, recorded)]
        invariant clock == old(clock) + n && Follows(env, before, trace, S())
        invariant RecordedSoFar(env, data, targets, outcomes, old(clock), n, before.d.dedup, recorded, dedup)
      {
        ghost var here := S();
        ghost var t;
        RecordedNext(env, data, targets, outcomes, old(clock), n, before.d.dedup, recorded, dedup);
        recorded, t := RecordDelivery(w, c, data, targets[n], targets[n + 1..], allDone, recorded);
        FollowsConcat(env, before, trace, here, t, S());
        trace := trace + t;
      }
      AllRecorded(env, data, targets, outcomes, old(clock), before.d.dedup, recorded, dedup);
      ghost var here := S();
      RecordStep(env, here, w, c, [], allDone, recorded, true);
      ghost var t := Advance(w, here, true, "", NO_ITEM);
      FollowsConcat(env, before, trace, here, t, S());
      trace := trace + t;
    }

    /** os.Remove of the source; a missing file is no error.  Only the final removal
        reports a failure. */
    method RemoveSource(ghost w: nat, ghost c: Call, path: OutboxPath, final: bool) returns (err: bool,
        ghost trace: seq<Action>)
      requires w in procs && procs[w] == (if final then Removing(c) else Skipping(c)) && c.path == path
      modifies `clock, `outbox, `procs
      ensures Follows(env, old(S()), trace, S()) && clock == old(clock) + 1
      ensures procs == old(procs)[w := if err then Failed(c) else Done(c)]
      ensures err <==> final && !outcomes(old(clock))
      ensures outbox == if outcomes(old(clock)) then old(outbox) - {path} else old(outbox)
    {
      hide Follows;
      ghost var before := S();
      var ok := Attempt();
      if ok { outbox := outbox - {path}; }
      err := final && !ok;
      trace := Advance(w, before, ok, "", NO_ITEM);
    }

    /** AllFlushedFor; a failed read counts as "not all flushed". */
    method CheckAllFlushed(ghost w: nat, ghost c: Call, path: OutboxPath, ghost remaining: seq<Inbox>,
        ghost delivered: seq<Inbox>)
      returns (allDone: bool, ghost trace: seq<Action>)
      requires w in procs && procs[w] == Checking(c, remaining, delivered) && c.path == path
      modifies `clock, `procs
      ensures Follows(env, old(S()), trace, S()) && clock == old(clock) + 1
      ensures allDone == (outcomes(old(clock)) && AllFlushedFor(staged, path))
      ensures procs == old(procs)[
                w := if env.dedupOn then Recording(c, DedupTargets(remaining, delivered, allDone), allDone, true)
                     else Finish(c, allDone, true)]
    {
      hide AllFlushedFor, DedupTargets, Finish, Follows;
      ghost var before := S();
      var ok := Attempt();
      allDone := ok && AllFlushedFor(staged, path);
      trace := Advance(w, before, ok, "", NO_ITEM);
    }

    /** After the flush: decide, record, remove. */
    method Conclude(ghost w: nat, ghost c: Call, path: OutboxPath, data: Bytes, remaining: seq<Inbox>,
        delivered: seq<Inbox>)
      returns (err: bool, ghost trace: seq<Action>)
      requires w in procs && procs[w] == Checking(c, remaining, delivered) && c.path == path && c.data == data
      modifies `clock, `outbox, `dedup, `procs
      ensures Follows(env, old(S()), trace, S()) && clock >= old(clock)
      ensures procs == old(procs)[w := if err then Failed(c) else Done(c)]
      ensures AllOk(outcomes, old(clock), clock) ==>
                !err && D() == Concluded(env, old(D()), path, data, remaining, delivered)
    {
      hide ProcStep, Follows, AllFlushedFor, DedupTargets, Records, AllOk, Elements, Made;
      ghost var before := S();
      var done;
      done, trace := CheckAndRecord(w, c, path, data, remaining, delivered);
      ghost var checked := clock;
      AllOkOne(outcomes, old(clock));
      AllOkSplit(outcomes, old(clock), old(clock) + 1, checked);
      if AllOk(outcomes, old(clock), checked) {
        CheckedRecords(env, data, remaining, delivered, outcomes, old(clock), checked, done);
      }
      AllOkOne(outcomes, clock);
      AllOkSplit(outcomes, old(clock), checked, checked + 1);
      err := false;
      if done {
        ghost var s2 := S();
        ghost var t;
        err, t := RemoveSource(w, c, path, true);
        FollowsConcat(env, before, trace, s2, t, S());
        trace := trace + t;
      }
    }

    /** The decision whether the source may go: every row flushed, every record made. */
    method CheckAndRecord(ghost w: nat, ghost c: Call, path: OutboxPath, data: Bytes, remaining: seq<Inbox>,
        delivered: seq<Inbox>)
      returns (done: bool, ghost trace: seq<Action>)
      requires w in procs && procs[w] == Checking(c, remaining, delivered) && c.path == path && c.data == data
      modifies `clock, `dedup, `procs
      ensures Follows(env, old(S()), trace, S()) && clock >= old(clock)
      ensures procs == old(procs)[w := if done then Removing(c) else Done(c)]
      ensures done <==> AllFlushedFor(staged, path) && AllOk(outcomes, old(clock), clock)
      ensures var targets := DedupTargets(remaining, delivered, outcomes(old(clock)) && AllFlushedFor(staged, path));
              && clock == old(clock) + 1 + (if env.dedupOn then |targets| else 0)
              && dedup == if env.dedupOn then old(dedup) + Made(env, data, targets, outcomes, old(clock) + 1)
                  else old(dedup)
    {
      hide ProcStep, Follows, AllFlushedFor, DedupTargets, AllOk, Made;
      ghost var before := S();
      var allDone;
      allDone, trace := CheckAllFlushed(w, c, path, remaining, delivered);
      AllOkOne(outcomes, old(clock));
      AllOkOne(outcomes, clock);
      var recorded := true;
      if env.dedupOn {
        ghost var s1 := S();
        ghost var t;
        recorded, t := RecordDedup(w, c, data, DedupTargets(remaining, delivered, allDone), allDone);
        FollowsConcat(env, before, trace, s1, t, S());
        trace := trace + t;
      }
      AllOkSplit(outcomes, old(clock), old(clock) + 1, clock);
      done := allDone && recorded;
    }

    /** The second half of DeliverData: flush, then conclude. */
    method FinishDelivery(ghost w: nat, ghost c: Call, path: OutboxPath, data: Bytes, remaining: seq<Inbox>)
      returns (err: bool, ghost trace: seq<Action>)
      requires w in procs && procs[w] == Collecting(Deliver(c, remaining)) && c.path == path && c.data == data
      modifies `clock, `outbox, `staged, `dedup, `writes, `lost, `procs
      ensures Follows(env, old(S()), trace, S()) && clock >= old(clock)
      ensures procs == old(procs)[w := if err then Failed(c) else Done(c)]
      ensures AllOk(outcomes, old(clock), clock) ==> !err && D() == FinishCall(env, old(D()), path, data, remaining)
    {
      hide ProcStep, Follows, FlushResult, Concluded, InboxesOf, FinishCall, AllOk, FlushTrace;
      ghost var before := S();
      var flushed;
      ghost var done, cut;
      flushed, done, cut, trace := FlushDeliveries(w, Deliver(c, remaining));
      ghost var s1, middle := S(), clock;
      ghost var t;
      err, t := Conclude(w, c, path, data, remaining, InboxesOf(path, flushed));
      FollowsConcat(env, before, trace, s1, t, S());
      trace := trace + t;
      AllOkSplit(outcomes, old(clock), middle, clock);
      if AllOk(outcomes, old(clock), middle) {
        CleanFlush(outcomes, old(clock), middle, before.d, done, cut, s1.d, flushed);
        CleanFinish(env, before.d, s1.d, path, data, remaining, flushed);
      }
    }

    /** DeliverData.  `err` is its error result; the machine's worker ends at Failed or
        Done accordingly.  When every operation succeeds, the effect is CleanCall and the
        only errors are an unparseable or unroutable message. */
    method DeliverData(ghost w: nat, ghost origin: Origin, path: OutboxPath, data: Bytes)
      returns (err: bool, ghost trace: seq<Action>)
      requires w in procs && procs[w] == Start(Call(path, data, origin))
      modifies `clock, `outbox, `staged, `dedup, `writes, `lost, `procs
      ensures Follows(env, old(S()), trace, S()) && clock >= old(clock)
      ensures procs == old(procs)[w := if err then Failed(Call(path, data, origin)) else Done(Call(path, data, origin))]
      ensures AllOk(outcomes, old(clock), clock) ==>
                D() == CleanCall(env, old(D()), path, data) && (err <==> Selected(env, path, data).None?)
    {
      hide ProcStep, Follows, Selected, CleanDelivery, AllOk;
      ghost var c := Call(path, data, origin);
      ghost var before := S();
      var selected := Selected(env, path, data);
      StartStep(env, before, w, c);
      trace := Advance(w, before, true, "", NO_ITEM);
      if selected.None? { return true, trace; }
      ghost var t;
      ghost var s1 := S();
      err, t := DeliverSelected(w, c, path, data, selected.value);
      FollowsConcat(env, before, trace, s1, t, S());
      trace := trace + t;
    }

    /** The rest of the call, once the inboxes are selected. */
    method DeliverSelected(ghost w: nat, ghost c: Call, path: OutboxPath, data: Bytes, inboxes: seq<Inbox>)
      returns (err: bool, ghost trace: seq<Action>)
      requires w in procs && procs[w] == (if env.dedupOn then Filtering(c, inboxes, []) else Staging(c, inboxes))
      requires c.path == path && c.data == data
      modifies `clock, `outbox, `staged, `dedup, `writes, `lost, `procs
      ensures Follows(env, old(S()), trace, S()) && clock >= old(clock)
      ensures procs == old(procs)[w := if err then Failed(c) else Done(c)]
      ensures AllOk(outcomes, old(clock), clock) ==> !err && D() == CleanDelivery(env, old(D()), path, data, inboxes)
    {
      hide ProcStep, Follows, FinishCall, StageAll, Remaining, AllOk;
      ghost var before := S();
      var remaining := inboxes;
      trace := [];
      FollowsNothing(env, before);
      AllOkOne(outcomes, clock);
      NoDedupRemaining(env, before.d, data, inboxes);
      if env.dedupOn {
        var failed;
        failed, remaining, trace := FilterDelivered(w, c, data, inboxes);
        if failed { return true, trace; }
        AllOkNext(outcomes, old(clock), clock);
        RemainingReadsDedup(env, before.d, D(), data, inboxes);
        if remaining == [] {
          ghost var s2 := S();
          ghost var t;
          err, t := RemoveSource(w, c, path, false);
          FollowsConcat(env, before, trace, s2, t, S());
          trace := trace + t;
          return;
        }
      }
      ghost var s3, middle := S(), clock;
      ghost var t;
      err, t := StageAndFinish(w, c, path, data, remaining);
      AllOkSplit(outcomes, old(clock), middle, clock);
      FollowsConcat(env, before, trace, s3, t, S());
      trace := trace + t;
    }

    method StageAndFinish(ghost w: nat, ghost c: Call, path: OutboxPath, data: Bytes, remaining: seq<Inbox>)
      returns (err: bool, ghost trace: seq<Action>)
      requires w in procs && procs[w] == Staging(c, remaining) && c.path == path && c.data == data
      modifies `clock, `outbox, `staged, `dedup, `writes, `lost, `procs
      ensures Follows(env, old(S()), trace, S()) && clock >= old(clock)
      ensures procs == old(procs)[w := if err then Failed(c) else Done(c)]
      ensures AllOk(outcomes, old(clock), clock) ==> !err && D() == FlushAndFinish(env, old(D()), path, data, remaining)
    {
      hide ProcStep, Follows, FinishCall, StageAll, AllOk;
      ghost var before := S();
      AllOkOne(outcomes, clock);
      var ok;
      ok, trace := StageDelivery(w, c, path, data, remaining);
      if !ok { return true, trace; }
      ghost var s1 := S();
      ghost var t;
      err, t := FinishDelivery(w, c, path, data, remaining);
      AllOkSplit(outcomes, old(clock), old(clock) + 1, clock);
      FollowsConcat(env, before, trace, s1, t, S());
      trace := trace + t;
    }

    // ------------------------------------------------------- callers of DeliverData

    /** One outbox file, as handleEvent and ScanAndDeliver treat it: read it, deliver it,
        and on failure move it to the error queue and remove it.  `read` is false when the
        file is gone or cannot be read, which ends the matter. */
    method HandleFile(ghost w: nat, path: OutboxPath, name: string)
      returns (read: bool, err: bool, ghost trace: seq<Action>)
      requires w !in procs
      modifies `clock, `outbox, `staged, `dedup, `queue, `writes, `lost, `procs
      ensures Performs(env, name !in old(queue), old(S()), trace, S())
      ensures procs == old(procs) && clock > old(clock)
      ensures read <==> outcomes(old(clock)) && path in old(outbox)
      ensures !read ==> !err && D() == old(D())
      ensures queue == old(queue) || (path in old(outbox)
                && queue == old(queue)[name := QueueRow(path, old(outbox)[path], 1, false)])
      ensures AllOk(outcomes, old(clock), clock) ==>
                && D() == HandledClean(env, old(D()), path, name)
                && (!read || err <==> !Routable(env, old(D()), path))
    {
      hide ProcStep, Follows, Performs, HandledClean, Routable, AllOk;
      ghost var before := S();
      trace := [];
      FollowsNothing(env, before);
      FollowsPerforms(env, name !in queue, before, [], before);
      read := Attempt();
      AllOkOne(outcomes, old(clock));
      UnreadFile(env, before.d, path, name);
      if !read || path !in outbox { return false, false, []; }
      ghost var c := Call(path, outbox[path], FromOutbox);
      procs := procs[w := Start(c)];
      trace := [ReadFile(w, path)];
      FollowsOne(env, before, trace[0]);
      FollowsPerforms(env, name !in queue, before, trace, S());
      ghost var s1, began := S(), clock;
      ghost var t;
      err, t := DeliverAndReport(w, path, outbox[path], name);
      AllOkSplit(outcomes, old(clock), began, clock);
      PerformsConcat(env, name !in s1.d.queue, before, trace, s1, t, S());
      trace := trace + t;
      assert before.procs[w := Start(c)] - {w} == before.procs;
    }

    /** A file that was read: deliver it, and on failure enqueue and remove it. */
    method DeliverAndReport(ghost w: nat, path: OutboxPath, data: Bytes, name: string)
      returns (err: bool, ghost trace: seq<Action>)
      requires w in procs && procs[w] == Start(Call(path, data, FromOutbox)) && path in outbox && outbox[path] == data
      modifies `clock, `outbox, `staged, `dedup, `queue, `writes, `lost, `procs
      ensures Performs(env, name !in old(queue), old(S()), trace, S())
      ensures procs == old(procs) - {w} && clock >= old(clock)
      ensures queue == old(queue) || queue == old(queue)[name := QueueRow(path, data, 1, false)]
      ensures AllOk(outcomes, old(clock), clock) ==>
                && D() == HandledClean(env, old(D()), path, name)
                && (err <==> !Routable(env, old(D()), path))
    {
      hide ProcStep, Follows, Performs, CleanCall, Selected, AllOk;
      ghost var before := S();
      ghost var c := Call(path, data, FromOutbox);
      err, trace := DeliverData(w, FromOutbox, path, data);
      ghost var s1, middle := S(), clock;
      FollowsPerforms(env, name !in queue, before, trace, S());
      ghost var t;
      t := ReportFile(w, c, path, data, name, err);
      AllOkSplit(outcomes, old(clock), middle, clock);
      AllOkEach(outcomes, middle, clock);
      PerformsConcat(env, name !in s1.d.queue, before, trace, s1, t, S());
      trace := trace + t;
      UnroutedCall(env, before.d, path, data);
    }

    /** Enqueue is INSERT OR IGNORE: an existing name keeps its old entry. */
    method EnqueueFailure(ghost w: nat, ghost c: Call, path: OutboxPath, data: Bytes, name: string)
      returns (ok: bool, ghost trace: seq<Action>)
      requires w in procs && procs[w] == Failed(c) && c == Call(path, data, FromOutbox)
      modifies `clock, `queue, `procs
      ensures Performs(env, name !in old(queue), old(S()), trace, S())
      ensures clock == old(clock) + 1 && ok == outcomes(old(clock))
      ensures procs == SetProc(old(procs), w, if ok then Some(Enqueued(c)) else None)
      ensures queue == if ok && name !in old(queue) then old(queue)[name := QueueRow(path, data, 1, false)]
                       else old(queue)
    {
      hide ProcStep;
      ghost var before := S();
      ok := Attempt();
      if ok && name !in queue { queue := queue[name := QueueRow(path, data, 1, false)]; }
      trace := [Step(w, ok, name, NO_ITEM)];
      FailedStep(env, before, w, c, ok, name);
      procs := SetProc(procs, w, if ok then Some(Enqueued(c)) else None);
      OneStepPerforms(env, before, trace[0]);
    }

    /** enqueueDeliveryFailure, or nothing when the delivery succeeded: the row is inserted
        iff that operation succeeds, and then the file removed iff that one does. */
    method ReportFile(ghost w: nat, ghost c: Call, path: OutboxPath, data: Bytes, name: string, err: bool)
      returns (ghost trace: seq<Action>)
      requires w in procs && procs[w] == (if err then Failed(c) else Done(c)) && c == Call(path, data, FromOutbox)
      modifies `clock, `outbox, `queue, `procs
      ensures Performs(env, name !in old(queue), old(S()), trace, S())
      ensures procs == old(procs) - {w}
      ensures clock == old(clock) + if !err then 0 else if outcomes(old(clock)) then 2 else 1
      ensures queue == if err && outcomes(old(clock)) && name !in old(queue)
                       then old(queue)[name := QueueRow(path, data, 1, false)] else old(queue)
      ensures outbox == if err && outcomes(old(clock)) && outcomes(old(clock) + 1) then old(outbox) - {path}
                        else old(outbox)
    {
      hide ProcStep, Follows, Performs;
      ghost var before := S();
      if !err {
        DoneStep(env, before, w, c);
        trace := Advance(w, before, true, "", NO_ITEM);
        FollowsPerforms(env, name !in queue, before, trace, S());
        return;
      }
      var ok;
      ok, trace := EnqueueFailure(w, c, path, data, name);
      if ok {
        ghost var s1 := S();
        var removed := Attempt();
        if removed { outbox := outbox - {path}; }
        EnqueuedStep(env, s1, w, c, removed);
        ghost var t := Advance(w, s1, removed, "", NO_ITEM);
        PerformsConcat(env, name !in before.d.queue, before, trace, s1, t, S());
        trace := trace + t;
        assert s1.procs - {w} == before.procs - {w};
      }
    }

    /** ScanAndDeliver over a directory listing: files the Bloom filter claims to know are
        skipped, the others are handled one after the other.  When its own operations all
        succeed the effect is ScanClean, and for distinct files the errors are those that
        could not be delivered. */
    method ScanAndDeliver(ghost w: nat, files: seq<OutboxPath>, mayContain: OutboxPath -> bool, names: seq<string>)
      returns (errors: nat, ghost trace: seq<Action>)
      requires w !in procs && |names| == |files|
      modifies `clock, `outbox, `staged, `dedup, `queue, `writes, `lost, `procs
      ensures Performs(env, FreshNames(old(queue), names), old(S()), trace, S()) && procs == old(procs)
      ensures errors <= |files| && clock >= old(clock)
      ensures AllOk(outcomes, old(clock), clock) ==> D() == ScanClean(env, old(D()), files, mayContain, names, |files|)
      ensures AllOk(outcomes, old(clock), clock) && ScanInput(env, old(D()), files, names) ==>
                errors == |Unserved(env, old(D()), files, mayContain, |files|)|
    {
      hide Performs, CleanCall, Selected, AllOk, HandledClean, Routable, ScanInput, Unserved;
      ghost var before := S();
      ghost var unused := FreshNames(queue, names);
      errors, trace := 0, [];
      FollowsNothing(env, before);
      FollowsPerforms(env, unused, before, [], before);
      AllOkOne(outcomes, clock);
      NoneUnserved(env, before.d, files, mayContain);
      for n := 0 to |files|
        invariant Performs(env, unused, before, trace, S()) && procs == before.procs
        invariant errors <= n && clock >= old(clock)
        invariant unused ==> forall m :: n <= m < |names| ==> names[m] !in queue
        invariant AllOk(outcomes, old(clock), clock) ==>
                    && D() == ScanClean(env, before.d, files, mayContain, names, n)
                    && (ScanInput(env, before.d, files, names) ==>
                          errors == |Unserved(env, before.d, files, mayContain, n)|)
      {
        ghost var here, now := S(), clock;
        if ScanInput(env, before.d, files, names) { ScanNext(env, before.d, files, mayContain, names, n); }
        if !mayContain(files[n]) {
          var read, err;
          ghost var t;
          read, err, t := HandleFile(w, files[n], names[n]);
          AllOkSplit(outcomes, old(clock), now, clock);
          PerformsIf(env, names[n] !in here.d.queue, unused, here, t, S());
          PerformsConcat(env, unused, before, trace, here, t, S());
          trace := trace + t;
          if !read || err { errors := errors + 1; }
        }
      }
    }

    /** One claimed entry, as retryPending treats it: deliver its bytes, then resolve it or
        raise its retry count.  The row changes iff this last operation succeeds. */
    method RetryEntry(ghost w: nat, name: string) returns (success: bool, ghost trace: seq<Action>)
      requires w !in procs && name in queue && !queue[name].resolved
      modifies `clock, `outbox, `staged, `dedup, `queue, `writes, `lost, `procs
      ensures Follows(env, old(S()), trace, S()) && procs == old(procs)
      ensures clock > old(clock)
      ensures var row := old(queue)[name];
              queue == if !outcomes(clock - 1) then old(queue)
                       else old(queue)[name := if success then row.(resolved := true) else row.(retry := row.retry + 1)]
      ensures AllOk(outcomes, old(clock), clock) ==>
                && D() == RetriedClean(env, old(D()), name)
                && (success <==> Selected(env, old(queue)[name].path, old(queue)[name].data).Some?)
    {
      hide ProcStep, Follows, CleanCall, Selected, AllOk;
      ghost var before := S();
      var row := queue[name];
      ghost var c := Call(row.path, row.data, FromQueue(name));
      procs := procs[w := Start(c)];
      trace := [ClaimEntry(w, name)];
      FollowsOne(env, before, trace[0]);
      ghost var s1 := S();
      var err;
      ghost var t;
      err, t := DeliverData(w, FromQueue(name), row.path, row.data);
      ghost var middle := clock;
      FollowsConcat(env, before, trace, s1, t, S());
      trace := trace + t;
      ghost var s2 := S();
      success := !err;
      t := ReportEntry(w, c, name, err);
      AllOkNext(outcomes, old(clock), middle);
      FollowsConcat(env, before, trace, s2, t, S());
      trace := trace + t;
      assert before.procs[w := Start(c)] - {w} == before.procs;
    }

    /** incrementRetry or markResolved, if the operation succeeds. */
    method ReportEntry(ghost w: nat, ghost c: Call, name: string, err: bool) returns (ghost trace: seq<Action>)
      requires w in procs && procs[w] == (if err then Failed(c) else Done(c))
      requires c.origin == FromQueue(name) && name in queue
      modifies `clock, `queue, `procs
      ensures Follows(env, old(S()), trace, S())
      ensures procs == old(procs) - {w} && clock == old(clock) + 1
      ensures var row := old(queue)[name];
              queue == if !outcomes(old(clock)) then old(queue)
                       else old(queue)[name := if err then row.(retry := row.retry + 1) else row.(resolved := true)]
    {
      hide Follows;
      ghost var before := S();
      var ok := Attempt();
      if ok {
        var row := queue[name];
        queue := queue[name := if err then row.(retry := row.retry + 1) else row.(resolved := true)];
      }
      trace := Advance(w, before, ok, "", NO_ITEM);
    }

    /** retryPending over the claimed entries; returns the number of successes.  When its own
        operations all succeed the effect is RetryClean, and the successes are the entries
        with a selection. */
    method RetryPending(ghost w: nat, entries: seq<string>) returns (successes: nat, ghost trace: seq<Action>)
      requires w !in procs
      requires forall n :: 0 <= n < |entries| ==> entries[n] in queue && !queue[entries[n]].resolved
      requires Distinct(entries)
      modifies `clock, `outbox, `staged, `dedup, `queue, `writes, `lost, `procs
      ensures Follows(env, old(S()), trace, S()) && procs == old(procs)
      ensures successes <= |entries| && clock >= old(clock)
      ensures AllOk(outcomes, old(clock), clock) ==>
                && D() == RetryClean(env, old(D()), entries, |entries|)
                && successes == |Deliverable(env, old(D()), entries, |entries|)|
    {
      hide Follows, AllOk, RetriedClean, Selected, Deliverable;
      ghost var before := S();
      successes, trace := 0, [];
      FollowsNothing(env, before);
      AllOkOne(outcomes, clock);
      NoneDeliverable(env, before.d, entries);
      for n := 0 to |entries|
        invariant Follows(env, before, trace, S()) && procs == before.procs && successes <= n && clock >= old(clock)
        invariant forall m :: n <= m < |entries| ==>
                    && entries[m] in queue && !queue[entries[m]].resolved
                    && queue[entries[m]] == before.d.queue[entries[m]]
        invariant AllOk(outcomes, old(clock), clock) ==>
                    && D() == RetryClean(env, before.d, entries, n)
                    && successes == |Deliverable(env, before.d, entries, n)|
      {
        ghost var here, now := S(), clock;
        var ok;
        ghost var t;
        DeliverableNext(env, before.d, entries, n);
        ok, t := RetryEntry(w, entries[n]);
        AllOkSplit(outcomes, old(clock), now, clock);
        FollowsConcat(env, before, trace, here, t, S());
        trace := trace + t;
        if ok { successes := successes + 1; }
      }
    }

    /** Startup recovery: if the store can be read and anything is unflushed, flush once. */
    method RecoverUnflushed(ghost w: nat)
      returns (ghost done: Settlement, ghost cut: Option<Item>, ghost flushed: seq<RowKey>, ghost trace: seq<Action>)
      requires w !in procs
      modifies `clock, `staged, `writes, `lost, `procs
      ensures Follows(env, old(S()), trace, S()) && procs == old(procs) && clock > old(clock)
      ensures if outcomes(old(clock)) && exists k :: k in old(staged) && !old(staged)[k].flushed
              then FlushResult(outcomes, old(clock) + 1, clock, old(D()), done, cut, D(), flushed)
              else D() == old(D())
      ensures AllOk(outcomes, old(clock), clock) ==> staged == FlushAll(old(staged))
    {
      hide ProcStep, Follows, FlushResult, FlushAll, FlushTrace, AllOk;
      ghost var before := S();
      trace, done, cut, flushed := [], map[], None, [];
      FollowsNothing(env, before);
      var ok := Attempt();
      ghost var read := clock;
      AllOkOne(outcomes, old(clock));
      if !ok { return; }
      if exists k :: k in staged && !staged[k].flushed {
        procs := procs[w := Collecting(Recover)];
        trace := [RecoverFlush(w)];
        FollowsOne(env, before, trace[0]);
        ghost var s1 := S();
        ghost var t;
        flushed, done, cut, t := FlushDeliveries(w, Recover);
        AllOkSplit(outcomes, old(clock), read, clock);
        if AllOk(outcomes, read, clock) {
          CleanFlush(outcomes, read, clock, before.d, done, cut, D(), flushed);
        }
        FollowsConcat(env, before, trace, s1, t, S());
        trace := trace + t;
        assert before.procs[w := Collecting(Recover)] - {w} == before.procs;
      } else {
        NothingToFlush(staged);
      }
    }
  }

  function AfterWrite(job: Job, item: Item, items: set<Item>, flushed: seq<RowKey>, written: bool): Proc {
    if written then Marking(job, item, items, flushed) else Bumping(job, item, items, flushed)
  }

  lemma ForgetProc(procs: map<nat, Proc>, w: nat, p: Proc, q: Option<Proc>)
    requires w in procs
    ensures SetProc(procs[w := p], w, q) == SetProc(procs, w, q)
  {
  }

  lemma WriteStep(env: Env, s: State, w: nat, job: Job, item: Item, items: set<Item>, flushed: seq<RowKey>, ok: bool)
    requires w in s.procs && s.procs[w] == Writing(job, items, flushed) && item in items
    ensures ProcStep(env, s.d, s.procs[w], ok, "", item)
            == Effect(if ok then s.d.(writes := s.d.writes + multiset{item}) else s.d,
                      Some(AfterWrite(job, item, items - {item}, flushed, ok)))
  {
    hide AfterFlush;
  }

  lemma SettleStep(env: Env, s: State, w: nat, job: Job, item: Item, items: set<Item>, flushed: seq<RowKey>,
      written: bool, ok: bool)
    requires w in s.procs && s.procs[w] == AfterWrite(job, item, items, flushed, written)
    ensures ProcStep(env, s.d, s.procs[w], ok, "", NO_ITEM)
            == Effect(
                 if written && ok then s.d.(staged := Mark(s.d.staged, item.key))
                 else if written then s.d.(lost := s.d.lost + multiset{item.key})
                 else if ok then s.d.(staged := Bump(s.d.staged, item.key))
                 else s.d,
                 if ok then Some(Writing(job, items, if written then flushed + [item.key] else flushed))
                 else AfterFlush(job, flushed))
  {
    hide AfterFlush, Mark, Bump;
  }

  /** The durable effect of one iteration of the flush loop. */
  function ItemEffect(d: Durable, item: Item, written: bool, settled: bool): Durable {
    d.(writes := if written then d.writes + multiset{item} else d.writes,
       staged := if !settled then d.staged else if written then Mark(d.staged, item.key) else Bump(d.staged, item.key),
       lost := if written && !settled then d.lost + multiset{item.key} else d.lost)
  }

  /** The read of the pending rows and the settling transactions succeed: the flush uses
      the tape for the read, and then for a write and a settling by turns. */
  ghost predicate SettlingOk(outcomes: nat -> bool, from: nat, to: nat) {
    forall n: nat :: from + 2 * n < to ==> outcomes(from + 2 * n)
  }

  /** In the middle of a flush that has not failed, with `items` left to settle. */
  ghost predicate FlushLoop(outcomes: nat -> bool, from: nat, to: nat, d0: Durable, done: Settlement,
      items: set<Item>, d: Durable, flushed: seq<RowKey>) {
    && to > from && (to - from) % 2 == 1 && SettlingOk(outcomes, from, to)
    && FlushState(d0, done, items, multiset{}, d)
    && (forall k :: k in flushed <==> k in Keys(Landed(done)))
    && (AllOk(outcomes, from, to) ==> forall it :: it in done ==> done[it])
    && (done.Keys == {} <==> to == from + 1)
  }

  /** The result of a flush on any tape. */
  ghost predicate FlushResult(outcomes: nat -> bool, from: nat, to: nat, d0: Durable, done: Settlement,
      cut: Option<Item>, d: Durable, flushed: seq<RowKey>) {
    var all := Collect(d0.staged);
    && FlushOutcome(d0, done, cut, d)
    && (forall k :: k in flushed <==> k in Keys(Landed(done)))
    && (SettlingOk(outcomes, from, to) ==> done.Keys == all && cut.None?)
    && (all != {} && done.Keys == all ==> SettlingOk(outcomes, from, to))
    && (AllOk(outcomes, from, to) ==> done == AllLand(all))
    && (done.Keys != {} <==> all != {} && outcomes(from) && outcomes(from + 2))
  }

  lemma FlushNotRead(outcomes: nat -> bool, from: nat, d: Durable)
    requires !outcomes(from)
    ensures FlushResult(outcomes, from, from + 1, d, map[], None, d, [])
  {
    hide Collect;
    assert outcomes(from + 2 * 0) == outcomes(from);
    assert Settle(d.staged, map[]) == d.staged;
    assert Landed(map[]) == {};
  }

  lemma FlushLoopStart(outcomes: nat -> bool, from: nat, d: Durable)
    requires outcomes(from)
    ensures FlushLoop(outcomes, from, from + 1, d, map[], Collect(d.staged), d, [])
  {
    hide Collect;
    FlushStateStart(d);
    assert Keys(Landed(map[])) == {};
  }

  lemma SettlingOkNext(outcomes: nat -> bool, from: nat, to: nat)
    requires to > from && (to - from) % 2 == 1 && SettlingOk(outcomes, from, to)
    ensures SettlingOk(outcomes, from, to + 2) <==> outcomes(to + 1)
  {
    if outcomes(to + 1) {
      forall n: nat | from + 2 * n < to + 2 ensures outcomes(from + 2 * n) {
        if from + 2 * n >= to { assert from + 2 * n == to + 1; }
      }
    } else {
      var n: nat := (to + 1 - from) / 2;
      assert from + 2 * n == to + 1;
    }
  }

  lemma FlushLoopStep(outcomes: nat -> bool, from: nat, to: nat, d0: Durable, done: Settlement, items: set<Item>,
      d: Durable, flushed: seq<RowKey>, item: Item)
    requires FlushLoop(outcomes, from, to, d0, done, items, d, flushed) && item in items && outcomes(to + 1)
    ensures FlushLoop(outcomes, from, to + 2, d0, done[item := outcomes(to)], items - {item},
              ItemEffect(d, item, outcomes(to), true),
                      if outcomes(to) then flushed + [item.key] else flushed)
  {
    hide SettlingOk, ItemEffect, Landed, FlushState;
    SettlingOkNext(outcomes, from, to);
    FlushStateItem(d0, done, items, d, item, outcomes(to));
    LandedKeys(done, item, outcomes(to));
    AllOkSplit(outcomes, from, to, to + 2);
  }

  lemma FlushStateItem(d0: Durable, done: Settlement, items: set<Item>, d: Durable, item: Item, written: bool)
    requires FlushState(d0, done, items, multiset{}, d) && item in items
    ensures FlushState(d0, done[item := written], items - {item}, multiset{}, ItemEffect(d, item, written, true))
    ensures item !in done
  {
    hide Settle, Collect, Mark, Bump, Landed;
    var d1 := if written then d.(writes := d.writes + multiset{item}) else d;
    FlushStateSettle(d0, done, items, d1, item, written);
  }

  lemma LandedKeys(done: Settlement, item: Item, written: bool)
    requires item !in done
    ensures Keys(Landed(done[item := written])) == Keys(Landed(done)) + if written then {item.key} else {}
  {
    assert Landed(done[item := written]) == Landed(done) + if written then {item} else {};
  }

  lemma FlushLoopCut(outcomes: nat -> bool, from: nat, to: nat, d0: Durable, done: Settlement, items: set<Item>,
      d: Durable, flushed: seq<RowKey>, item: Item)
    requires FlushLoop(outcomes, from, to, d0, done, items, d, flushed) && item in items && !outcomes(to + 1)
    ensures FlushResult(outcomes, from, to + 2, d0, done, if outcomes(to) then Some(item) else None,
                        ItemEffect(d, item, outcomes(to), false), flushed)
  {
    hide FlushState, FlushOutcome, ItemEffect, Collect, Landed;
    CutOutcome(d0, done, items, d, item, outcomes(to));
    FirstSettling(outcomes, from, to);
    SettlingOkNext(outcomes, from, to);
    AllOkSplit(outcomes, from, to + 1, to + 2);
    hide SettlingOk;
  }

  lemma CutOutcome(d0: Durable, done: Settlement, items: set<Item>, d: Durable, item: Item, written: bool)
    requires FlushState(d0, done, items, multiset{}, d) && item in items
    ensures FlushOutcome(d0, done, if written then Some(item) else None, ItemEffect(d, item, written, false))
    ensures item in Collect(d0.staged) && item !in done
  {
    hide Settle, Collect, Landed;
  }

  /** The first two settling operations of a flush that got this far. */
  lemma FirstSettling(outcomes: nat -> bool, from: nat, to: nat)
    requires to > from && (to - from) % 2 == 1 && SettlingOk(outcomes, from, to)
    ensures outcomes(from) && (to > from + 1 ==> outcomes(from + 2))
  {
    assert outcomes(from + 2 * 0);
    if to > from + 1 { assert outcomes(from + 2 * 1); }
  }

  lemma FlushLoopEnd(outcomes: nat -> bool, from: nat, to: nat, d0: Durable, done: Settlement, d: Durable,
      flushed: seq<RowKey>)
    requires FlushLoop(outcomes, from, to, d0, done, {}, d, flushed)
    ensures FlushResult(outcomes, from, to, d0, done, None, d, flushed)
  {
    hide Settle, Collect, Landed;
    FirstSettling(outcomes, from, to);
    hide SettlingOk;
    assert {} + done.Keys == done.Keys;
    if AllOk(outcomes, from, to) { assert done == AllLand(Collect(d0.staged)); }
  }

  lemma CleanFlush(outcomes: nat -> bool, from: nat, to: nat, d0: Durable, done: Settlement, cut: Option<Item>,
      d: Durable, flushed: seq<RowKey>)
    requires FlushResult(outcomes, from, to, d0, done, cut, d, flushed) && AllOk(outcomes, from, to)
    ensures d == d0.(staged := FlushAll(d0.staged), writes := d0.writes + multiset(Collect(d0.staged)))
    ensures forall k :: k in flushed <==> k in Keys(Collect(d0.staged))
  {
    hide Settle, Collect, Landed, AllLand, FlushAll;
    SettleAll(d0.staged);
  }

  lemma NothingToFlush(staged: Staged)
    requires forall k :: k in staged ==> staged[k].flushed
    ensures FlushAll(staged) == staged
  {
  }

  /** When the check and every record succeed, all the targets are recorded. */
  lemma CheckedRecords(env: Env, data: Bytes, remaining: seq<Inbox>, delivered: seq<Inbox>, outcomes: nat -> bool,
      from: nat, to: nat, allDone: bool)
    requires from < to && AllOk(outcomes, from, to)
    requires env.dedupOn ==> to == from + 1 + |DedupTargets(remaining, delivered, allDone)|
    ensures outcomes(from)
    ensures env.dedupOn ==> Made(env, data, DedupTargets(remaining, delivered, allDone), outcomes, from + 1)
                            == Records(env, data, Elements(DedupTargets(remaining, delivered, allDone)))
  {
    hide Made, Records, Elements, DedupTargets;
    if env.dedupOn { MadeAll(env, data, DedupTargets(remaining, delivered, allDone), outcomes, from + 1); }
  }

  lemma FlushFurther(env: Env, w: nat, s: State, t: seq<Action>, s': State, u: seq<Action>, s'': State)
    requires Follows(env, s, t, s') && FlushSteps(env, s, w, t) && Follows(env, s', u, s'') && FlushSteps(env, s', w, u)
    ensures Follows(env, s, t + u, s'') && FlushSteps(env, s, w, t + u)
  {
    hide Run, AdmissibleRun, FlushSteps;
    FlushStepsConcat(env, s, w, t, u);
    FollowsConcat(env, s, t, s', u, s'');
  }

  lemma FlushStepsNone(env: Env, s: State, w: nat)
    ensures FlushSteps(env, s, w, [])
  {
  }

  lemma {:induction false} FlushOn(env: Env, w: nat, s: State, t: seq<Action>, s': State, u: seq<Action>, s'': State)
    requires Follows(env, s, t, s') && FlushSteps(env, s, w, t) && Follows(env, s', u, s'') && FlushTrace(env, s', w, u)
    ensures Follows(env, s, t + u, s'') && FlushTrace(env, s, w, t + u)
    decreases |t|
  {
    hide Next, Admissible, Underway;
    FollowsConcat(env, s, t, s', u, s'');
    if t == [] {
      assert t + u == u;
    } else {
      assert (t + u)[1..] == t[1..] + u;
      FlushOn(env, w, Next(env, s, t[0]), t[1..], s', u, s'');
    }
  }

  lemma FlushStepsOne(env: Env, s: State, w: nat, trace: seq<Action>)
    requires Underway(s, w) && |trace| == 1 && trace[0].Step? && trace[0].w == w
    ensures FlushSteps(env, s, w, trace)
  {
    hide Next, Underway;
    assert trace[1..] == [];
  }

  lemma FlushEnds(env: Env, s: State, w: nat, trace: seq<Action>, s': State, job: Job, flushed: seq<RowKey>)
    requires Follows(env, s, trace, s') && FlushSteps(env, s, w, trace) && w in s.procs
    requires s'.procs == SetProc(s.procs, w, AfterFlush(job, flushed))
    ensures FlushTrace(env, s, w, trace)
  {
    hide Run, AdmissibleRun, FlushSteps, FlushTrace, InboxesOf;
    FlushStepsEnd(env, s, w, trace);
  }

  /** What a flush on any tape means for the attempts left: they drop exactly when a row was
      settled, and when reading and settling succeed every pending row is tried once more. */
  lemma FlushResultSpends(outcomes: nat -> bool, from: nat, to: nat, d0: Durable, done: Settlement, cut: Option<Item>,
      d: Durable, flushed: seq<RowKey>, n: nat)
    requires FlushResult(outcomes, from, to, d0, done, cut, d, flushed)
    ensures Budget(d.staged) <= Budget(d0.staged)
    ensures Budget(d.staged) < Budget(d0.staged) <==> Collect(d0.staged) != {} && outcomes(from) && outcomes(from + 2)
    ensures SettlingOk(outcomes, from, to) && TriedAtLeast(d0.staged, n) ==> TriedAtLeast(d.staged, n + 1)
  {
    hide Settle, Collect, Budget, TriedAtLeast, SettlingOk, AllOk, Landed;
    SettleSpends(d0.staged, done);
    if done.Keys == Collect(d0.staged) && TriedAtLeast(d0.staged, n) { CompleteTries(d0.staged, done, n); }
  }

  lemma CollectStep(env: Env, s: State, w: nat, job: Job, ok: bool)
    requires w in s.procs && s.procs[w] == Collecting(job)
    ensures ProcStep(env, s.d, s.procs[w], ok, "", NO_ITEM)
            == Effect(s.d, if ok then Some(Writing(job, Collect(s.d.staged), [])) else AfterFlush(job, []))
  {
  }

  lemma EndStep(env: Env, s: State, w: nat, job: Job, flushed: seq<RowKey>)
    requires w in s.procs && s.procs[w] == Writing(job, {}, flushed)
    ensures ProcStep(env, s.d, s.procs[w], true, "", NO_ITEM) == Effect(s.d, AfterFlush(job, flushed))
  {
  }

  lemma FollowsNothing(env: Env, s: State)
    ensures Follows(env, s, [], s)
  {
  }

  lemma {:induction false} KeepAppend(a: seq<Inbox>, i: Inbox, f: Inbox -> bool)
    ensures Improvement.Keep(a + [i], f) == Improvement.Keep(a, f) + if f(i) then [i] else []
  {
    if a == [] {
      assert a + [i] == [i];
    } else {
      assert (a + [i])[1..] == a[1..] + [i];
      KeepAppend(a[1..], i, f);
    }
  }

  lemma FilterSoFar(env: Env, d: Durable, data: Bytes, inboxes: seq<Inbox>, n: nat)
    requires n <= |inboxes| && env.dedupOn
    ensures n == 0 ==> Remaining(env, d, data, inboxes[..n]) == []
    ensures n > 0 ==> Remaining(env, d, data, inboxes[..n]) == Remaining(env, d, data, inboxes[..n - 1])
                       + if (env.key(data), inboxes[n - 1]) in d.dedup then [] else [inboxes[n - 1]]
  {
    if n > 0 {
      assert inboxes[..n] == inboxes[..n - 1] + [inboxes[n - 1]];
      KeepAppend(inboxes[..n - 1], inboxes[n - 1], i => (env.key(data), i) !in d.dedup);
    }
  }

  /** After `n` lookups that all succeeded. */
  ghost predicate FilteredSoFar(env: Env, d: Durable, data: Bytes, inboxes: seq<Inbox>, outcomes: nat -> bool,
      from: nat, n: nat, remaining: seq<Inbox>) {
    n <= |inboxes| && AllOk(outcomes, from, from + n) && remaining == Remaining(env, d, data, inboxes[..n])
  }

  lemma NothingFiltered(env: Env, d: Durable, data: Bytes, inboxes: seq<Inbox>, outcomes: nat -> bool, from: nat)
    requires env.dedupOn
    ensures FilteredSoFar(env, d, data, inboxes, outcomes, from, 0, []) && inboxes[0..] == inboxes
  {
    hide Remaining;
    FilterSoFar(env, d, data, inboxes, 0);
  }

  lemma FilteredNext(env: Env, d: Durable, data: Bytes, inboxes: seq<Inbox>, outcomes: nat -> bool, from: nat, n: nat,
      remaining: seq<Inbox>)
    requires FilteredSoFar(env, d, data, inboxes, outcomes, from, n, remaining) && n < |inboxes| && env.dedupOn
    ensures outcomes(from + n) ==>
              FilteredSoFar(env, d, data, inboxes, outcomes, from, n + 1,
                  remaining + if (env.key(data), inboxes[n]) in d.dedup then [] else [inboxes[n]])
    ensures AllOk(outcomes, from, from + n + 1) <==> outcomes(from + n)
    ensures inboxes[n..] == [inboxes[n]] + inboxes[n + 1..]
  {
    hide Remaining, AllOk;
    AllOkNext(outcomes, from, from + n);
    FilterSoFar(env, d, data, inboxes, n + 1);
  }

  lemma AllFiltered(env: Env, d: Durable, data: Bytes, inboxes: seq<Inbox>, outcomes: nat -> bool, from: nat,
      remaining: seq<Inbox>)
    requires FilteredSoFar(env, d, data, inboxes, outcomes, from, |inboxes|, remaining)
    ensures AllOk(outcomes, from, from + |inboxes|) && remaining == Remaining(env, d, data, inboxes)
    ensures inboxes[|inboxes|..] == []
  {
    hide Remaining, AllOk;
    assert inboxes[..|inboxes|] == inboxes;
  }

  lemma {:induction false} RemainingReadsDedup(env: Env, d: Durable, d': Durable, data: Bytes, inboxes: seq<Inbox>)
    requires d.dedup == d'.dedup
    ensures Remaining(env, d, data, inboxes) == Remaining(env, d', data, inboxes)
  {
    if inboxes != [] { RemainingReadsDedup(env, d, d', data, inboxes[1..]); }
  }

  lemma FilterStep(env: Env, s: State, w: nat, c: Call, todo: seq<Inbox>, remaining: seq<Inbox>, ok: bool)
    requires w in s.procs && s.procs[w] == Filtering(c, todo, remaining)
    ensures ProcStep(env, s.d, s.procs[w], ok, "", NO_ITEM) == Effect(s.d, Some(
              if todo == [] then if remaining == [] then Skipping(c) else Staging(c, remaining)
              else if !ok then Failed(c)
              else if (env.key(c.data), todo[0]) in s.d.dedup then Filtering(c, todo[1..], remaining)
              else Filtering(c, todo[1..], remaining + [todo[0]])))
  {
  }

  lemma RecordStep(env: Env, s: State, w: nat, c: Call, todo: seq<Inbox>, allDone: bool, recorded: bool, ok: bool)
    requires w in s.procs && s.procs[w] == Recording(c, todo, allDone, recorded)
    ensures ProcStep(env, s.d, s.procs[w], ok, "", NO_ITEM) ==
              if todo == [] then Effect(s.d, Some(Finish(c, allDone, recorded)))
              else Effect(if ok then s.d.(dedup := s.d.dedup + {(env.key(c.data), todo[0])}) else s.d,
                          Some(Recording(c, todo[1..], allDone, recorded && ok)))
  {
    hide Finish;
  }

  lemma {:induction false} InboxesOfKeys(p: OutboxPath, flushed: seq<RowKey>)
    ensures forall i :: i in InboxesOf(p, flushed) <==> exists k :: k in flushed && k.path == p && k.target.inbox == i
  {
    if flushed != [] {
      InboxesOfKeys(p, flushed[1..]);
      assert forall k :: k in flushed <==> k == flushed[0] || k in flushed[1..];
    }
  }

  /** A flush without failures followed by the recording of its targets and the removal
      of the source is FinishCall. */
  lemma CleanFinish(env: Env, d: Durable, d1: Durable, p: OutboxPath, data: Bytes, remaining: seq<Inbox>,
      flushed: seq<RowKey>)
    requires d1 == d.(staged := FlushAll(d.staged), writes := d.writes + multiset(Collect(d.staged)))
    requires forall k :: k in flushed <==> k in Keys(Collect(d.staged))
    ensures FinishCall(env, d, p, data, remaining) == Concluded(env, d1, p, data, remaining, InboxesOf(p, flushed))
  {
    hide FlushAll, AllFlushedFor, InboxesOf, Collect;
    var all := Collect(d.staged);
    InboxesOfKeys(p, flushed);
    var delivered := InboxesOf(p, flushed);
    assert Elements(delivered) == FlushedInboxes(all, p) by {
      forall i ensures i in delivered <==> i in FlushedInboxes(all, p) {
        if i in delivered {
          var k :| k in flushed && k.path == p && k.target.inbox == i;
          var it :| it in all && it.key == k;
        }
        if i in FlushedInboxes(all, p) {
          var it :| it in all && it.key.path == p && it.key.target.inbox == i;
          assert it.key in flushed;
        }
      }
    }
    var allDone := AllFlushedFor(d1.staged, p);
    assert Elements(DedupTargets(remaining, delivered, allDone))
        == FlushedInboxes(all, p) + if allDone then Elements(remaining) else {};
  }

  /** Recording and removal when every operation succeeds. */
  function Concluded(env: Env, d: Durable, p: OutboxPath, data: Bytes, remaining: seq<Inbox>,
      delivered: seq<Inbox>): Durable {
    var allDone := AllFlushedFor(d.staged, p);
    var records := Records(env, data, Elements(DedupTargets(remaining, delivered, allDone)));
    d.(dedup := if env.dedupOn then d.dedup + records else d.dedup,
       outbox := if allDone then d.outbox - {p} else d.outbox)
  }

  lemma StartStep(env: Env, s: State, w: nat, c: Call)
    requires w in s.procs && s.procs[w] == Start(c)
    ensures ProcStep(env, s.d, s.procs[w], true, "", NO_ITEM) == Effect(s.d, Some(
              match Selected(env, c.path, c.data)
              case None => Failed(c)
              case Some(inboxes) => if env.dedupOn then Filtering(c, inboxes, []) else Staging(c, inboxes)))
  {
    hide Selected;
  }

  lemma NoDedupRemaining(env: Env, d: Durable, data: Bytes, inboxes: seq<Inbox>)
    ensures !env.dedupOn ==> Remaining(env, d, data, inboxes) == inboxes
  {
  }

  lemma AllOkEach(outcomes: nat -> bool, from: nat, to: nat)
    ensures AllOk(outcomes, from, to) ==> forall n: nat :: from <= n < to ==> outcomes(n)
  {
  }

  lemma UnreadFile(env: Env, d: Durable, path: OutboxPath, name: string)
    ensures path !in d.outbox ==> HandledClean(env, d, path, name) == d && !Routable(env, d, path)
  {
  }

  lemma UnroutedCall(env: Env, d: Durable, path: OutboxPath, data: Bytes)
    ensures Selected(env, path, data).None? ==> CleanCall(env, d, path, data) == d
  {
    hide Selected;
  }

  lemma NoneUnserved(env: Env, d: Durable, files: seq<OutboxPath>, mayContain: OutboxPath -> bool)
    ensures Unserved(env, d, files, mayContain, 0) == {}
  {
  }

  lemma NoneDeliverable(env: Env, d: Durable, entries: seq<string>)
    requires forall i :: 0 <= i < |entries| ==> entries[i] in d.queue
    ensures Deliverable(env, d, entries, 0) == {}
  {
  }

  /** The next file of a scan is as it was at the start. */
  lemma ScanNext(env: Env, d: Durable, files: seq<OutboxPath>, mayContain: OutboxPath -> bool, names: seq<string>,
      n: nat)
    requires ScanInput(env, d, files, names) && n < |files|
    ensures Routable(env, ScanClean(env, d, files, mayContain, names, n), files[n]) <==> Routable(env, d, files[n])
    ensures |Unserved(env, d, files, mayContain, n + 1)| == |Unserved(env, d, files, mayContain, n)| +
            if !mayContain(files[n]) && !Routable(env, d, files[n]) then 1 else 0
  {
    hide Routable, DurableInv, InjectiveKeys;
    ScanFrame(env, d, files, mayContain, names, n);
    SameRoutable(env, d, ScanClean(env, d, files, mayContain, names, n), files[n]);
    UnservedNext(env, d, files, mayContain, n);
  }

  lemma OneStepPerforms(env: Env, s: State, a: Action)
    ensures Performs(env, Admissible(env, s, a), s, [a], Next(env, s, a))
  {
    hide Next, Admissible;
    assert [a][1..] == [];
    assert Run(env, Next(env, s, a), []) == Next(env, s, a);
    assert AdmissibleRun(env, Next(env, s, a), []);
  }

  lemma FailedStep(env: Env, s: State, w: nat, c: Call, ok: bool, name: string)
    requires w in s.procs && s.procs[w] == Failed(c) && c.origin.FromOutbox?
    ensures ProcStep(env, s.d, s.procs[w], ok, name, NO_ITEM) ==
              if ok then Effect(Enqueue(s.d, name, c), Some(Enqueued(c))) else Effect(s.d, None)
  {
  }

  lemma DoneStep(env: Env, s: State, w: nat, c: Call)
    requires w in s.procs && s.procs[w] == Done(c) && c.origin.FromOutbox?
    ensures ProcStep(env, s.d, s.procs[w], true, "", NO_ITEM) == Effect(s.d, None)
  {
  }

  lemma EnqueuedStep(env: Env, s: State, w: nat, c: Call, ok: bool)
    requires w in s.procs && s.procs[w] == Enqueued(c)
    ensures ProcStep(env, s.d, s.procs[w], ok, "", NO_ITEM) == Effect(RemoveFile(s.d, c.path, ok), None)
  {
  }
}
