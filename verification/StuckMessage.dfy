/** A run, within every hypothesis of the protocol, after which a message stays in its
    outbox through every further failure-free call for it. */
module StuckMessage {
  import opened Text
  import opened Delivery
  import opened Safety
  import opened FlushBounds
  import opened Convergence
  import opened Scenarios
  import Improvement
  import Policy

  lemma StageTwo(staged: Staged, p: OutboxPath, data: Bytes, a: Inbox, b: Inbox)
    requires a != b && KeyOf(p, a) !in staged && KeyOf(p, b) !in staged
    ensures StageAll(staged, p, data, [a, b]) == staged[KeyOf(p, a) := Fresh(data)][KeyOf(p, b) := Fresh(data)]
  {
    var staged1 := staged[KeyOf(p, a) := Fresh(data)];
    assert Upsert(staged, KeyOf(p, a), data) == staged1;
    assert Upsert(staged1, KeyOf(p, b), data) == staged1[KeyOf(p, b) := Fresh(data)];
    assert [a, b][1..] == [b] && [b][1..] == [];
    assert StageAll(staged1, p, data, [b]) == StageAll(staged1[KeyOf(p, b) := Fresh(data)], p, data, []);
  }

  lemma CollectTwo(staged: Staged, p: OutboxPath, data: Bytes, a: Inbox, b: Inbox)
    requires a != b && KeyOf(p, a) !in staged && KeyOf(p, b) !in staged && Collect(staged) == {}
    ensures Collect(staged[KeyOf(p, a) := Fresh(data)][KeyOf(p, b) := Fresh(data)])
              == {Item(KeyOf(p, a), data), Item(KeyOf(p, b), data)}
  {
    var staged2 := staged[KeyOf(p, a) := Fresh(data)][KeyOf(p, b) := Fresh(data)];
    assert KeyOf(p, a) != KeyOf(p, b) && Pending(staged2[KeyOf(p, a)]) && Pending(staged2[KeyOf(p, b)]);
    assert Item(KeyOf(p, a), staged2[KeyOf(p, a)].data) in Collect(staged2)
        && Item(KeyOf(p, b), staged2[KeyOf(p, b)].data) in Collect(staged2);
    forall it ensures it in Collect(staged2) <==> it == Item(KeyOf(p, a), data) || it == Item(KeyOf(p, b), data) {
      assert it in Collect(staged2) && it.key != KeyOf(p, a) && it.key != KeyOf(p, b) ==> it in Collect(staged);
    }
  }

  /** Both rows staged, one call later: the row of `a` failed `tries` times, the row of `b`
      was written, and nothing is recorded. */
  function HalfDelivered(p: OutboxPath, data: Bytes, a: Inbox, b: Inbox, tries: nat): Durable {
    Durable(map[p := data], map[KeyOf(p, a) := Row(data, false, tries), KeyOf(p, b) := Row(data, true, 0)],
            {}, map[], multiset{Item(KeyOf(p, b), data)}, multiset{}, {p})
  }

  /** The first call: the write to `a` fails, `b` is written, its record fails. */
  lemma FirstCall(env: Env, p: OutboxPath, a: Inbox, b: Inbox)
    requires env.dedupOn && Plan(env, p) == Some([a, b]) && a != b
    ensures Leads(env, EMPTY, Idle(HalfDelivered(p, env.content(p), a, b, 1)))
  {
    hide Leads, Selected, StageAll, Collect;
    var data := env.content(p);
    var c := Call(p, data, FromOutbox);
    var ia, ib := Item(KeyOf(p, a), data), Item(KeyOf(p, b), data);
    var job := Deliver(c, [a, b]);
    LeadsNowhere(env, EMPTY);
    Receive(env, EMPTY, EMPTY.d, p, data);
    var d1 := Arrived(EMPTY.d, p, data);
    StageAndCollect(env, EMPTY, d1, c, [a, b]);
    StageTwo(map[], p, data, a, b);
    NothingCollected();
    CollectTwo(map[], p, data, a, b);
    var d2 := d1.(staged := map[KeyOf(p, a) := Fresh(data), KeyOf(p, b) := Fresh(data)]);
    assert d2.staged == map[][KeyOf(p, a) := Fresh(data)][KeyOf(p, b) := Fresh(data)];
    FlushBad(env, EMPTY, d2, job, {ia, ib}, [], ia);
    assert {ia, ib} - {ia} == {ib};
    FlushGood(env, EMPTY, Failing(d2, ia), job, {ib}, [], ib);
    assert {ib} - {ib} == {} && [] + [ib.key] == [ib.key];
    var d3 := WrittenAndMarked(Failing(d2, ia), ib);
    assert d3 == HalfDelivered(p, data, a, b, 1);
    EndFlush(env, EMPTY, d3, c, [a, b], [ib.key]);
    DeliveredOne(p, b, ib.key);
    assert !AllFlushedFor(d3.staged, p);
    assert DedupTargets([a, b], [b], false) == [b] + [];
    Record(env, EMPTY, d3, c, b, [], false, true, false);
    Leave(env, EMPTY, d3, c, false, false);
    Return(env, EMPTY, d3, c);
  }

  lemma DeliveredTwo(p: OutboxPath, a: Inbox, b: Inbox)
    ensures InboxesOf(p, [KeyOf(p, a), KeyOf(p, b)]) == [a, b]
  {
    var ks := [KeyOf(p, a), KeyOf(p, b)];
    assert ks[1..] == [KeyOf(p, b)];
    DeliveredOne(p, b, KeyOf(p, b));
  }

  lemma HalfCollected(p: OutboxPath, data: Bytes, a: Inbox, b: Inbox, tries: nat)
    requires a != b
    ensures Collect(HalfDelivered(p, data, a, b, tries).staged)
              == if tries < MAX_DELIVERY_RETRY then {Item(KeyOf(p, a), data)} else {}
  {
    var staged := HalfDelivered(p, data, a, b, tries).staged;
    assert KeyOf(p, a) != KeyOf(p, b) && staged[KeyOf(p, a)] == Row(data, false, tries) && staged[KeyOf(p, b)].flushed;
    if tries < MAX_DELIVERY_RETRY { assert Item(KeyOf(p, a), staged[KeyOf(p, a)].data) in Collect(staged); }
  }

  /** Two recovery flushes fail to write to `a`, and its row is dead. */
  lemma TwoRecoveries(env: Env, p: OutboxPath, a: Inbox, b: Inbox)
    requires env.dedupOn && Plan(env, p) == Some([a, b]) && a != b
    ensures Leads(env, EMPTY, Idle(HalfDelivered(p, env.content(p), a, b, 3)))
  {
    hide Leads, Selected, Collect;
    var data := env.content(p);
    FirstCall(env, p, a, b);
    HalfCollected(p, data, a, b, 1);
    HalfCollected(p, data, a, b, 2);
    FailedRecovery(env, EMPTY, HalfDelivered(p, data, a, b, 1), Item(KeyOf(p, a), data));
    FailedAgain(p, data, a, b, 1);
    FailedRecovery(env, EMPTY, HalfDelivered(p, data, a, b, 2), Item(KeyOf(p, a), data));
    FailedAgain(p, data, a, b, 2);
  }

  lemma FailedAgain(p: OutboxPath, data: Bytes, a: Inbox, b: Inbox, tries: nat)
    requires a != b
    ensures Failing(HalfDelivered(p, data, a, b, tries), Item(KeyOf(p, a), data))
              == HalfDelivered(p, data, a, b, tries + 1)
  {
  }

  /** The second path delivers the same content to both inboxes and records only `a`. */
  function Shadowed(p: OutboxPath, q: OutboxPath, data: Bytes, a: Inbox, b: Inbox, key: string): Durable {
    var d := HalfDelivered(p, data, a, b, 3);
    d.(outbox := map[p := data, q := data],
       staged := d.staged[KeyOf(q, a) := Row(data, true, 0)][KeyOf(q, b) := Row(data, true, 0)],
       dedup := {(key, a)},
       writes := d.writes + multiset{Item(KeyOf(q, a), data)} + multiset{Item(KeyOf(q, b), data)},
       accepted := {p, q})
  }

  lemma SecondPath(env: Env, p: OutboxPath, q: OutboxPath, a: Inbox, b: Inbox)
    requires env.dedupOn && Plan(env, p) == Some([a, b]) && Plan(env, q) == Some([a, b]) && a != b
    requires p != q && env.content(p) == env.content(q)
    ensures Leads(env, EMPTY, Idle(Shadowed(p, q, env.content(p), a, b, env.key(env.content(p)))))
  {
    hide Leads, Selected, StageAll, Collect, AllFlushedFor;
    var data := env.content(p);
    var c := Call(q, data, FromOutbox);
    var ia, ib := Item(KeyOf(q, a), data), Item(KeyOf(q, b), data);
    var job := Deliver(c, [a, b]);
    var d0 := HalfDelivered(p, data, a, b, 3);
    TwoRecoveries(env, p, a, b);
    Receive(env, EMPTY, d0, q, data);
    var d1 := Arrived(d0, q, data);
    StageAndCollect(env, EMPTY, d1, c, [a, b]);
    StageTwo(d0.staged, q, data, a, b);
    HalfCollected(p, data, a, b, 3);
    CollectTwo(d0.staged, q, data, a, b);
    var d2 := d1.(staged := d0.staged[KeyOf(q, a) := Fresh(data)][KeyOf(q, b) := Fresh(data)]);
    FlushGood(env, EMPTY, d2, job, {ia, ib}, [], ia);
    assert {ia, ib} - {ia} == {ib} && [] + [ia.key] == [ia.key];
    FlushGood(env, EMPTY, WrittenAndMarked(d2, ia), job, {ib}, [ia.key], ib);
    assert {ib} - {ib} == {} && [ia.key] + [ib.key] == [ia.key, ib.key];
    var d3 := WrittenAndMarked(WrittenAndMarked(d2, ia), ib);
    BothWritten(p, q, data, a, b, env.key(data));
    EndFlush(env, EMPTY, d3, c, [a, b], [ia.key, ib.key]);
    DeliveredTwo(q, a, b);
    AllRecordedTargets(a, b);
    Record(env, EMPTY, d3, c, a, [b], true, true, true);
    var d4 := d3.(dedup := d3.dedup + {(env.key(data), a)});
    assert [b] == [b] + [];
    Record(env, EMPTY, d4, c, b, [], true, true, false);
    Leave(env, EMPTY, d4, c, true, false);
    Return(env, EMPTY, d4, c);
  }

  lemma BothWritten(p: OutboxPath, q: OutboxPath, data: Bytes, a: Inbox, b: Inbox, key: string)
    requires p != q && a != b
    ensures var d1 := Arrived(HalfDelivered(p, data, a, b, 3), q, data);
            var d2 := d1.(staged := d1.staged[KeyOf(q, a) := Fresh(data)][KeyOf(q, b) := Fresh(data)]);
            var d3 := WrittenAndMarked(WrittenAndMarked(d2, Item(KeyOf(q, a), data)), Item(KeyOf(q, b), data));
            AllFlushedFor(d3.staged, q) && d3.(dedup := d3.dedup + {(key, a)}) == Shadowed(p, q, data, a, b, key)
  {
    var d1 := Arrived(HalfDelivered(p, data, a, b, 3), q, data);
    var d2 := d1.(staged := d1.staged[KeyOf(q, a) := Fresh(data)][KeyOf(q, b) := Fresh(data)]);
    var d3 := WrittenAndMarked(WrittenAndMarked(d2, Item(KeyOf(q, a), data)), Item(KeyOf(q, b), data));
    assert d3.staged == Shadowed(p, q, data, a, b, key).staged;
  }

  lemma AllRecordedTargets(a: Inbox, b: Inbox)
    ensures DedupTargets([a, b], [a, b], true) == [a] + [b]
  {
    SomeElement(Improvement.Keep([a, b], i => i !in [a, b]));
  }

  /** Whenever two paths carry the same content to two inboxes, an admissible run leads to a
      state in which the first is stuck, although all its rows belong to its selection:
      the second path recorded `a`, so that the dead row is never restaged, and the
      written row of `b` never got its record. */
  lemma StuckIsReachable(env: Env, p: OutboxPath, q: OutboxPath, a: Inbox, b: Inbox) returns (s: State)
    requires env.dedupOn && InjectiveKeys(env) && Plan(env, p) == Some([a, b]) && Plan(env, q) == Some([a, b]) && a != b
    requires p != q && env.content(p) == env.content(q)
    ensures Reachable(env, s) && s.procs == map[] && p in s.d.outbox && Stuck(env, s.d, p)
    ensures forall k :: k in s.d.staged && k.path == p ==> exists i :: i in [a, b] && k == KeyOf(p, i)
  {
    hide Leads, Reachable, Selected;
    var data := env.content(p);
    var d := Shadowed(p, q, data, a, b, env.key(data));
    SecondPath(env, p, q, a, b);
    s := Idle(d);
    LeadsReachable(env, s);
    var remaining := Remaining(env, d, data, [a, b]);
    assert a in [a, b] && b in [a, b];
    assert (env.key(data), a) in d.dedup && (env.key(data), b) !in d.dedup;
    assert a !in remaining && b in remaining;
    assert DeadRow(d, KeyOf(p, a)) && FlushedRow(d, KeyOf(p, b));
    assert Blocked(env, d, p, remaining);
  }

  /** What frees a stuck message: records made through other paths do so exactly when they
      cover every inbox that remains and was flushed. */
  lemma FreedIff(env: Env, d: Durable, p: OutboxPath, records: set<(string, Inbox)>)
    requires env.dedupOn && Stuck(env, d, p)
    ensures var key, remaining := env.key(env.content(p)), Remaining(env, d, env.content(p), Plan(env, p).value);
            !Stuck(env, d.(dedup := d.dedup + records), p) <==>
            forall i :: i in remaining && FlushedRow(d, KeyOf(p, i)) ==> (key, i) in records
  {
    hide Selected, DeadRow;
    var d' := d.(dedup := d.dedup + records);
    var before := Remaining(env, d, env.content(p), Plan(env, p).value);
    var after := Remaining(env, d', env.content(p), Plan(env, p).value);
    var k :| k in d.staged && DeadRow(d, k) && k.path == p && forall i :: i in before ==> k != KeyOf(p, i);
    SameDead(d, d', k);
    assert Blocked(env, d', p, after);
  }

  lemma SameDead(d: Durable, d': Durable, k: RowKey)
    requires d'.staged == d.staged
    ensures DeadRow(d', k) <==> DeadRow(d, k)
  {
  }

  /** Such paths exist: a report without targets goes to both inboxes of its route. */
  lemma TwoInboxesExist() returns (env: Env, p: OutboxPath, q: OutboxPath)
    ensures env.dedupOn && InjectiveKeys(env) && Plan(env, p) == Some(["a", "b"]) && Plan(env, q) == Some(["a", "b"])
    ensures p != q && env.content(p) == env.content(q)
  {
    var fm := Frontmatter("1", "report", [], map[]);
    env := Env((r: OutboxPath) => "", (data: Bytes) => Some(fm), (data: Bytes) => data,
               [ResolvedRoute("report", "out", ["a", "b"])], true);
    p, q := OutboxPath("out", "m"), OutboxPath("out", "n");
    assert VALID_KINDS[1] == "report";
    assert p.name[0] != q.name[0];
    NoPreference(Improvement.FromMap(map[]));
  }

  lemma NoPreference(m: Improvement.CorrectionMetadata)
    requires m.targetAgent == ""
    ensures Policy.SelectInboxes("report", ["a", "b"], [], m) == ["a", "b"]
  {
  }
}
