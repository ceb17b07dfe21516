/** Why the hypotheses on runs are needed: for each of them a run without it that loses a
    message, and for the store operations concerned the exact condition under which they
    keep one. */
module Necessity {
  import opened Text
  import opened Delivery
  import opened Safety
  import opened Convergence
  import opened Scenarios
  import Improvement

  /** Enqueue is INSERT OR IGNORE.  Moving a failed file to the queue keeps its message
      exactly when the generated name is fresh, or the message was safe elsewhere. */
  lemma EnqueueKeepsIff(env: Env, d: Durable, c: Call, name: string)
    ensures Kept(env, RemoveFile(Enqueue(d, name, c), c.path, true), c.path)
            <==> name !in d.queue || KeptElsewhere(env, d, c.path)
  {
    hide Plan;
    var d' := RemoveFile(Enqueue(d, name, c), c.path, true);
    if name !in d.queue {
      assert name in d'.queue && d'.queue[name].path == c.path && !d'.queue[name].resolved;
    } else {
      SameStoresEvolves(env, d, d');
      SameStoresEvolves(env, d', d);
      SecuredGrows(env, d, d', c.path);
      SecuredGrows(env, d', d, c.path);
    }
  }

  /** Purging dead letters keeps a message exactly when it still has its source or an
      unresolved queue entry, or every selected inbox was written to or waits in a row
      below the retry limit. */
  lemma PurgeKeepsIff(env: Env, d: Durable, p: OutboxPath)
    ensures Kept(env, d.(staged := PurgeDeadLetters(d.staged)), p) <==>
            || p in d.outbox || Queued(d, p)
            || (Plan(env, p).Some? && forall i :: i in Plan(env, p).value ==>
                  || Written(d, i, env.content(p))
                  || (Waiting(d, p, i) && d.staged[KeyOf(p, i)].retry < MAX_DELIVERY_RETRY))
  {
    hide Plan, Written;
    var d' := d.(staged := PurgeDeadLetters(d.staged));
    assert Queued(d, p) <==> Queued(d', p);
    forall i ensures Secured(env, d', p, i) <==>
                     || Written(d, i, env.content(p))
                     || (Waiting(d, p, i) && d.staged[KeyOf(p, i)].retry < MAX_DELIVERY_RETRY)
    {
      SameWritten(d, d', i, env.content(p));
    }
  }

  lemma SameWritten(d: Durable, d': Durable, i: Inbox, data: Bytes)
    requires d.writes == d'.writes
    ensures Written(d, i, data) <==> Written(d', i, data)
  {
  }

  /** Staging other bytes under a path keeps the bytes of an unflushed row exactly when the
      row belongs to another path or inbox, or the bytes are the same. */
  lemma RestageKeepsRowIff(staged: Staged, p: OutboxPath, data: Bytes, inboxes: seq<Inbox>, k: RowKey)
    requires k in staged && !staged[k].flushed
    ensures k in StageAll(staged, p, data, inboxes)
    ensures StageAll(staged, p, data, inboxes)[k].data == staged[k].data
            <==> data == staged[k].data || forall i :: i in inboxes ==> k != KeyOf(p, i)
  {
    hide StageAll;
    StageRow(staged, p, data, inboxes, k);
  }

  // -------------------------------------------------------- reusing a path, and purging

  /** A message in nothing but an unwritten row: the file failed and moved to the queue, and
      its retry staged it, failed to write it, and resolved the entry. */
  function OnlyStaged(p: OutboxPath, data: Bytes, a: Inbox, tries: nat): Durable {
    Durable(map[], map[KeyOf(p, a) := Row(data, false, tries)], {}, map["n" := QueueRow(p, data, 1, true)],
            multiset{}, multiset{}, {p})
  }

  lemma RetryOnlyStages(env: Env, p: OutboxPath, a: Inbox)
    requires env.dedupOn && Plan(env, p) == Some([a])
    ensures Leads(env, EMPTY, Idle(OnlyStaged(p, env.content(p), a, 1)))
  {
    hide Leads, Selected, StageAll, Collect;
    var data := env.content(p);
    var c, r := Call(p, data, FromOutbox), Call(p, data, FromQueue("n"));
    var it := Item(KeyOf(p, a), data);
    LeadsNowhere(env, EMPTY);
    Receive(env, EMPTY, EMPTY.d, p, data);
    var d1 := Arrived(EMPTY.d, p, data);
    Go(env, EMPTY, d1, Start(c), true, NO_ITEM, d1, Filtering(c, [a], []));
    Go(env, EMPTY, d1, Filtering(c, [a], []), false, NO_ITEM, d1, Failed(c));
    MoveToQueue(env, EMPTY, d1, c, "n");
    var d2 := d1.(outbox := map[], queue := map["n" := QueueRow(p, data, 1, false)]);
    assert d1.outbox - {p} == map[] && d1.queue["n" := QueueRow(p, data, 1, false)] == d2.queue;
    Claim(env, EMPTY, d2, "n");
    StageAndCollect(env, EMPTY, d2, r, [a]);
    StageOne(map[], p, data, a);
    OneCollected(p, data, a, 0);
    var d3 := d2.(staged := map[KeyOf(p, a) := Fresh(data)]);
    FlushBad(env, EMPTY, d3, Deliver(r, [a]), {it}, [], it);
    assert {it} - {it} == {};
    var d4 := Failing(d3, it);
    EndFlush(env, EMPTY, d4, r, [a], []);
    assert KeyOf(p, a) in d4.staged && !AllFlushedFor(d4.staged, p);
    assert InboxesOf(p, []) == [] && DedupTargets([a], [], false) == [];
    Leave(env, EMPTY, d4, r, false, true);
    Resolve(env, EMPTY, d4, r);
    assert d4.queue["n" := d4.queue["n"].(resolved := true)] == map["n" := QueueRow(p, data, 1, true)];
    assert d4.staged == map[KeyOf(p, a) := Row(data, false, 1)];
    assert d4.(queue := map["n" := QueueRow(p, data, 1, true)]) == OnlyStaged(p, data, a, 1);
  }

  lemma OneCollected(p: OutboxPath, data: Bytes, a: Inbox, tries: nat)
    ensures Collect(map[KeyOf(p, a) := Row(data, false, tries)])
              == if tries < MAX_DELIVERY_RETRY then {Item(KeyOf(p, a), data)} else {}
  {
    var staged := map[KeyOf(p, a) := Row(data, false, tries)];
    assert staged[KeyOf(p, a)] == Row(data, false, tries);
    if tries < MAX_DELIVERY_RETRY { assert Item(KeyOf(p, a), staged[KeyOf(p, a)].data) in Collect(staged); }
  }

  /** The bytes are in no file, no open queue entry, no row and no write. */
  ghost predicate Nowhere(d: Durable, data: Bytes) {
    && (forall p :: p in d.outbox ==> d.outbox[p] != data)
    && (forall n :: n in d.queue && !d.queue[n].resolved ==> d.queue[n].data != data)
    && (forall k :: k in d.staged ==> d.staged[k].data != data)
    && (forall it :: it in d.writes ==> it.data != data)
  }

  /** Without one content per path a message is lost: from an admissible state that holds it
      only in an unwritten row, other content arrives under its path, and after this one
      inadmissible action an admissible run replaces the row. */
  lemma PathReuseLosesMessage(env: Env, p: OutboxPath, a: Inbox, other: Bytes) returns (s: State, lost: State)
    requires env.dedupOn && InjectiveKeys(env) && Plan(env, p) == Some([a])
    requires other != env.content(p) && Selected(env, p, other) == Some([a])
    ensures Reachable(env, s) && p in s.d.accepted && Waiting(s.d, p, a) && s.procs == map[]
    ensures Leads(env, Next(env, s, Arrive(p, other)), lost)
    ensures lost.procs == map[] && Nowhere(lost.d, env.content(p))
  {
    hide Leads, Reachable, Selected, StageAll, Collect;
    var data := env.content(p);
    var c := Call(p, other, FromOutbox);
    var d := OnlyStaged(p, data, a, 1);
    s := Idle(d);
    RetryOnlyStages(env, p, a);
    LeadsReachable(env, s);
    var d1 := Arrived(d, p, other);
    var s1 := Idle(d1);
    LeadsNowhere(env, s1);
    Extend(env, s1, s1, ReadFile(0, p));
    assert map[][0 := Start(c)] == map[0 := Start(c)];
    StageAndCollect(env, s1, d1, c, [a]);
    StageOne(d.staged, p, other, a);
    var d2 := d1.(staged := StageAll(d.staged, p, other, [a]));
    var worker := Writing(Deliver(c, [a]), Collect(d2.staged), []);
    Extend(env, s1, At(d2, worker), Kill(0));
    assert map[0 := worker] - {0} == map[] && d2.lost + multiset{} == d2.lost;
    lost := Idle(d2);
  }

  /** Purging dead letters loses a message: its only copy is a row that failed three times. */
  lemma PurgeLosesMessage(env: Env, p: OutboxPath, a: Inbox) returns (s: State)
    requires env.dedupOn && InjectiveKeys(env) && Plan(env, p) == Some([a])
    ensures Reachable(env, s) && p in s.d.accepted && Kept(env, s.d, p)
    ensures !Kept(env, Next(env, s, Purge).d, p)
  {
    hide Leads, Reachable, Selected, Collect;
    var data := env.content(p);
    var it := Item(KeyOf(p, a), data);
    RetryOnlyStages(env, p, a);
    OneCollected(p, data, a, 1);
    OneCollected(p, data, a, 2);
    FailedRecovery(env, EMPTY, OnlyStaged(p, data, a, 1), it);
    assert Failing(OnlyStaged(p, data, a, 1), it) == OnlyStaged(p, data, a, 2);
    FailedRecovery(env, EMPTY, OnlyStaged(p, data, a, 2), it);
    assert Failing(OnlyStaged(p, data, a, 2), it) == OnlyStaged(p, data, a, 3);
    s := Idle(OnlyStaged(p, data, a, 3));
    LeadsReachable(env, s);
    assert Waiting(s.d, p, a) && a in [a];
  }

  // ------------------------------------------------------------------- colliding keys

  /** A message delivered without failures. */
  function DeliveredClean(p: OutboxPath, data: Bytes, a: Inbox, key: string): Durable {
    Durable(map[], map[KeyOf(p, a) := Row(data, true, 0)], {(key, a)}, map[], multiset{Item(KeyOf(p, a), data)},
            multiset{}, {p})
  }

  lemma DeliverClean(env: Env, p: OutboxPath, a: Inbox)
    requires env.dedupOn && Plan(env, p) == Some([a])
    ensures Leads(env, EMPTY, Idle(DeliveredClean(p, env.content(p), a, env.key(env.content(p)))))
  {
    hide Leads, Selected, StageAll, Collect;
    var data := env.content(p);
    var c := Call(p, data, FromOutbox);
    var it := Item(KeyOf(p, a), data);
    LeadsNowhere(env, EMPTY);
    Receive(env, EMPTY, EMPTY.d, p, data);
    var d1 := Arrived(EMPTY.d, p, data);
    StageAndCollect(env, EMPTY, d1, c, [a]);
    StageOne(map[], p, data, a);
    OneCollected(p, data, a, 0);
    var d2 := d1.(staged := map[KeyOf(p, a) := Fresh(data)]);
    FlushGood(env, EMPTY, d2, Deliver(c, [a]), {it}, [], it);
    assert {it} - {it} == {} && [] + [it.key] == [it.key];
    var d3 := WrittenAndMarked(d2, it);
    assert d3.staged == map[KeyOf(p, a) := Row(data, true, 0)] && AllFlushedFor(d3.staged, p);
    EndFlush(env, EMPTY, d3, c, [a], [it.key]);
    DeliveredOne(p, a, it.key);
    SomeElement(Improvement.Keep([a], i => i !in [a]));
    assert DedupTargets([a], [a], true) == [a] + [];
    Record(env, EMPTY, d3, c, a, [], true, true, true);
    var d4 := d3.(dedup := d3.dedup + {(env.key(data), a)});
    Remove(env, EMPTY, d4, c);
    assert d4.outbox - {p} == map[];
    assert d4.(outbox := map[]) == DeliveredClean(p, data, a, env.key(data));
    Return(env, EMPTY, d4.(outbox := map[]), c);
  }

  /** Without injective keys a message is lost in an admissible run: the dedup filter takes
      it for one delivered before, and its source is removed without a write. */
  lemma KeyCollisionLosesMessage(env: Env, p: OutboxPath, q: OutboxPath, a: Inbox) returns (s: State)
    requires env.dedupOn && Plan(env, p) == Some([a]) && Plan(env, q) == Some([a]) && p != q
    requires env.content(p) != env.content(q) && env.key(env.content(p)) == env.key(env.content(q))
    ensures Leads(env, EMPTY, s) && s.procs == map[] && q in s.d.accepted && !Kept(env, s.d, q)
  {
    hide Leads, Selected;
    var data := env.content(q);
    var d := DeliveredClean(p, env.content(p), a, env.key(data));
    var c := Call(q, data, FromOutbox);
    DeliverClean(env, p, a);
    Receive(env, EMPTY, d, q, data);
    var d1 := Arrived(d, q, data);
    Go(env, EMPTY, d1, Start(c), true, NO_ITEM, d1, Filtering(c, [a], []));
    assert [a][1..] == [];
    Go(env, EMPTY, d1, Filtering(c, [a], []), true, NO_ITEM, d1, Filtering(c, [], []));
    Go(env, EMPTY, d1, Filtering(c, [], []), true, NO_ITEM, d1, Skipping(c));
    var d2 := d1.(outbox := map[]);
    assert d1.outbox - {q} == map[];
    Go(env, EMPTY, d1, Skipping(c), true, NO_ITEM, d2, Done(c));
    Return(env, EMPTY, d2, c);
    s := Idle(d2);
    assert !Written(d2, a, data) && !Waiting(d2, q, a) && a in [a];
  }

  // ------------------------------------------------------------------- clashing names

  /** The worker holding a failed file, after another one was queued under the name. */
  function NameTaken(p: OutboxPath, x: Bytes, q: OutboxPath, y: Bytes, name: string): Durable {
    Durable(map[q := y], map[], {}, map[name := QueueRow(p, x, 1, false)], multiset{}, multiset{}, {p, q})
  }

  lemma SecondFails(env: Env, p: OutboxPath, q: OutboxPath, name: string)
    requires Plan(env, p).None? && Plan(env, q).None? && p != q
    ensures Leads(env, EMPTY,
              At(NameTaken(p, env.content(p), q, env.content(q), name), Failed(Call(q, env.content(q), FromOutbox))))
  {
    hide Leads, Selected;
    var x, y := env.content(p), env.content(q);
    var c, e := Call(p, x, FromOutbox), Call(q, y, FromOutbox);
    LeadsNowhere(env, EMPTY);
    Receive(env, EMPTY, EMPTY.d, p, x);
    var d1 := Arrived(EMPTY.d, p, x);
    Go(env, EMPTY, d1, Start(c), true, NO_ITEM, d1, Failed(c));
    MoveToQueue(env, EMPTY, d1, c, name);
    var d2 := d1.(outbox := map[], queue := map[name := QueueRow(p, x, 1, false)]);
    assert d1.outbox - {p} == map[] && d1.queue[name := QueueRow(p, x, 1, false)] == d2.queue;
    Receive(env, EMPTY, d2, q, y);
    var d3 := Arrived(d2, q, y);
    assert d3 == NameTaken(p, x, q, y, name);
    Go(env, EMPTY, d3, Start(e), true, NO_ITEM, d3, Failed(e));
  }

  /** Without fresh names a message is lost: from an admissible state, enqueueing a failed
      file under a name in use drops it, and the file is removed. */
  lemma NameClashLosesMessage(env: Env, p: OutboxPath, q: OutboxPath, name: string) returns (s: State)
    requires InjectiveKeys(env) && Plan(env, p).None? && Plan(env, q).None? && p != q
    ensures Reachable(env, s) && q in s.d.accepted && Kept(env, s.d, q)
    ensures !Kept(env, Next(env, Next(env, s, Step(0, true, name, NO_ITEM)), Step(0, true, "", NO_ITEM)).d, q)
  {
    hide Leads, Reachable, Selected;
    var x, y := env.content(p), env.content(q);
    var e := Call(q, y, FromOutbox);
    SecondFails(env, p, q, name);
    s := At(NameTaken(p, x, q, y, name), Failed(e));
    LeadsReachable(env, s);
    assert Next(env, s, Step(0, true, name, NO_ITEM)) == At(s.d, Enqueued(e)) by {
      assert map[0 := Failed(e)][0 := Enqueued(e)] == map[0 := Enqueued(e)];
    }
  }
}
