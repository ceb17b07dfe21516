/** Runs of the delivery machine written out: one worker at a time, step by step, with
    chosen failures.  They show what the protocol can reach, with its hypotheses and
    without them. */
module Scenarios {
  import opened Text
  import opened Delivery
  import opened Safety

  /** Some admissible run leads from one state to the other. */
  ghost predicate Leads(env: Env, o: State, s: State) {
    exists actions :: AdmissibleRun(env, o, actions) && s == Run(env, o, actions)
  }

  lemma LeadsNowhere(env: Env, o: State)
    ensures Leads(env, o, o)
  {
    assert AdmissibleRun(env, o, []) && Run(env, o, []) == o;
  }

  lemma {:induction false} AdmissibleThen(env: Env, s: State, actions: seq<Action>, a: Action)
    requires AdmissibleRun(env, s, actions) && Admissible(env, Run(env, s, actions), a)
    ensures AdmissibleRun(env, s, actions + [a])
    decreases |actions|
  {
    hide Next, Admissible;
    if actions == [] {
      assert [a][1..] == [] && actions + [a] == [a];
      assert AdmissibleRun(env, Next(env, s, a), []);
    } else {
      assert (actions + [a])[1..] == actions[1..] + [a];
      AdmissibleThen(env, Next(env, s, actions[0]), actions[1..], a);
    }
  }

  lemma RunOne(env: Env, s: State, a: Action)
    ensures Run(env, s, [a]) == Next(env, s, a)
  {
    hide Next;
    assert [a][1..] == [];
  }

  lemma Extend(env: Env, o: State, s: State, a: Action)
    requires Leads(env, o, s) && Admissible(env, s, a)
    ensures Leads(env, o, Next(env, s, a))
  {
    hide Run, AdmissibleRun, Next, Admissible;
    var actions :| AdmissibleRun(env, o, actions) && s == Run(env, o, actions);
    RunConcat(env, o, actions, [a]);
    RunOne(env, s, a);
    AdmissibleThen(env, o, actions, a);
    assert AdmissibleRun(env, o, actions + [a]) && Next(env, s, a) == Run(env, o, actions + [a]);
  }

  lemma LeadsReachable(env: Env, s: State)
    requires InjectiveKeys(env) && Leads(env, EMPTY, s)
    ensures Reachable(env, s)
  {
    hide Run, AdmissibleRun;
  }

  // --------------------------------------------------------------- one worker's steps

  /** Only worker 0 is under way. */
  function At(d: Durable, p: Proc): State { State(d, map[0 := p]) }

  function Idle(d: Durable): State { State(d, map[]) }

  lemma Go(env: Env, o: State, d: Durable, p: Proc, ok: bool, pick: Item, d': Durable, q: Proc)
    requires Leads(env, o, At(d, p)) && !p.Failed? && ProcStep(env, d, p, ok, "", pick) == Effect(d', Some(q))
    ensures Leads(env, o, At(d', q))
  {
    hide ProcStep, Leads;
    Extend(env, o, At(d, p), Step(0, ok, "", pick));
    assert map[0 := p][0 := q] == map[0 := q];
  }

  lemma Stop(env: Env, o: State, d: Durable, p: Proc, ok: bool, pick: Item, d': Durable)
    requires Leads(env, o, At(d, p)) && !p.Failed? && ProcStep(env, d, p, ok, "", pick) == Effect(d', None)
    ensures Leads(env, o, Idle(d'))
  {
    hide ProcStep, Leads;
    Extend(env, o, At(d, p), Step(0, ok, "", pick));
    assert map[0 := p] - {0} == map[];
  }

  function Arrived(d: Durable, p: OutboxPath, data: Bytes): Durable {
    d.(outbox := d.outbox[p := data], accepted := d.accepted + {p})
  }

  /** A file arrives and a worker reads it. */
  lemma Receive(env: Env, o: State, d: Durable, p: OutboxPath, data: Bytes)
    requires Leads(env, o, Idle(d)) && data == env.content(p)
    ensures Leads(env, o, At(Arrived(d, p, data), Start(Call(p, data, FromOutbox))))
  {
    hide Leads;
    Extend(env, o, Idle(d), Arrive(p, data));
    Extend(env, o, Idle(Arrived(d, p, data)), ReadFile(0, p));
  }

  /** The dedup filter finds no record. */
  lemma {:induction false} FilterNone(env: Env, o: State, d: Durable, c: Call, todo: seq<Inbox>, remaining: seq<Inbox>)
    requires Leads(env, o, At(d, Filtering(c, todo, remaining))) && remaining + todo != []
    requires forall i :: i in todo ==> (env.key(c.data), i) !in d.dedup
    ensures Leads(env, o, At(d, Staging(c, remaining + todo)))
    decreases |todo|
  {
    hide Leads;
    if todo == [] {
      assert remaining + todo == remaining;
      Go(env, o, d, Filtering(c, todo, remaining), true, NO_ITEM, d, Staging(c, remaining));
    } else {
      Go(env, o, d, Filtering(c, todo, remaining), true, NO_ITEM, d, Filtering(c, todo[1..], remaining + [todo[0]]));
      assert remaining + [todo[0]] + todo[1..] == remaining + todo;
      FilterNone(env, o, d, c, todo[1..], remaining + [todo[0]]);
    }
  }

  /** A call that finds nothing recorded stages its rows and reads what is pending. */
  lemma StageAndCollect(env: Env, o: State, d: Durable, c: Call, inboxes: seq<Inbox>)
    requires Leads(env, o, At(d, Start(c))) && env.dedupOn && Selected(env, c.path, c.data) == Some(inboxes)
    requires inboxes != []
    requires forall i :: i in inboxes ==> (env.key(c.data), i) !in d.dedup
    ensures var d1 := d.(staged := StageAll(d.staged, c.path, c.data, inboxes));
            Leads(env, o, At(d1, Writing(Deliver(c, inboxes), Collect(d1.staged), [])))
  {
    hide Leads, Selected, StageAll, Collect;
    var d1 := d.(staged := StageAll(d.staged, c.path, c.data, inboxes));
    Go(env, o, d, Start(c), true, NO_ITEM, d, Filtering(c, inboxes, []));
    assert [] + inboxes == inboxes;
    FilterNone(env, o, d, c, inboxes, []);
    Go(env, o, d, Staging(c, inboxes), true, NO_ITEM, d1, Collecting(Deliver(c, inboxes)));
    Go(env, o, d1, Collecting(Deliver(c, inboxes)), true, NO_ITEM, d1,
        Writing(Deliver(c, inboxes), Collect(d1.staged), []));
  }

  function WrittenAndMarked(d: Durable, it: Item): Durable {
    d.(writes := d.writes + multiset{it}, staged := Mark(d.staged, it.key))
  }

  lemma FlushGood(env: Env, o: State, d: Durable, job: Job, items: set<Item>, flushed: seq<RowKey>, it: Item)
    requires Leads(env, o, At(d, Writing(job, items, flushed))) && it in items
    ensures Leads(env, o, At(WrittenAndMarked(d, it), Writing(job, items - {it}, flushed + [it.key])))
  {
    hide Leads, Mark, InboxesOf;
    var d1 := d.(writes := d.writes + multiset{it});
    Go(env, o, d, Writing(job, items, flushed), true, it, d1, Marking(job, it, items - {it}, flushed));
    Go(env, o, d1, Marking(job, it, items - {it}, flushed), true, NO_ITEM, WrittenAndMarked(d, it),
        Writing(job, items - {it}, flushed + [it.key]));
  }

  function Failing(d: Durable, it: Item): Durable {
    d.(staged := Bump(d.staged, it.key))
  }

  lemma FlushBad(env: Env, o: State, d: Durable, job: Job, items: set<Item>, flushed: seq<RowKey>, it: Item)
    requires Leads(env, o, At(d, Writing(job, items, flushed))) && it in items
    ensures Leads(env, o, At(Failing(d, it), Writing(job, items - {it}, flushed)))
  {
    hide Leads, Bump, InboxesOf;
    Go(env, o, d, Writing(job, items, flushed), false, it, d, Bumping(job, it, items - {it}, flushed));
    Go(env, o, d, Bumping(job, it, items - {it}, flushed), true, NO_ITEM, Failing(d, it),
        Writing(job, items - {it}, flushed));
  }

  /** A recovery flush that finds one pending row and fails to write it. */
  lemma FailedRecovery(env: Env, o: State, d: Durable, it: Item)
    requires Leads(env, o, Idle(d)) && Collect(d.staged) == {it}
    ensures Leads(env, o, Idle(Failing(d, it)))
  {
    hide Leads, Collect, Failing;
    Extend(env, o, Idle(d), RecoverFlush(0));
    Go(env, o, d, Collecting(Recover), true, NO_ITEM, d, Writing(Recover, {it}, []));
    FlushBad(env, o, d, Recover, {it}, [], it);
    assert {it} - {it} == {};
    Stop(env, o, Failing(d, it), Writing(Recover, {}, []), true, NO_ITEM, Failing(d, it));
  }

  /** The end of a flush inside a call, with the records it has to make. */
  lemma EndFlush(env: Env, o: State, d: Durable, c: Call, inboxes: seq<Inbox>, flushed: seq<RowKey>)
    requires Leads(env, o, At(d, Writing(Deliver(c, inboxes), {}, flushed))) && env.dedupOn
    ensures var delivered := InboxesOf(c.path, flushed);
            var allDone := AllFlushedFor(d.staged, c.path);
            Leads(env, o, At(d, Recording(c, DedupTargets(inboxes, delivered, allDone), allDone, true)))
  {
    hide Leads, InboxesOf, DedupTargets, AllFlushedFor;
    var delivered := InboxesOf(c.path, flushed);
    var allDone := AllFlushedFor(d.staged, c.path);
    Go(env, o, d, Writing(Deliver(c, inboxes), {}, flushed), true, NO_ITEM, d, Checking(c, inboxes, delivered));
    Go(env, o, d, Checking(c, inboxes, delivered), true, NO_ITEM, d,
        Recording(c, DedupTargets(inboxes, delivered, allDone), allDone, true));
  }

  lemma Record(env: Env, o: State, d: Durable, c: Call, i: Inbox, todo: seq<Inbox>, allDone: bool, recorded: bool,
      ok: bool)
    requires Leads(env, o, At(d, Recording(c, [i] + todo, allDone, recorded)))
    ensures Leads(env, o, At(if ok then d.(dedup := d.dedup + {(env.key(c.data), i)}) else d,
                                Recording(c, todo, allDone, recorded && ok)))
  {
    hide Leads;
    assert ([i] + todo)[1..] == todo;
    Go(env, o, d, Recording(c, [i] + todo, allDone, recorded), ok, NO_ITEM,
       if ok then d.(dedup := d.dedup + {(env.key(c.data), i)}) else d, Recording(c, todo, allDone, recorded && ok));
  }

  /** A call that may not remove its source returns without an error. */
  lemma Leave(env: Env, o: State, d: Durable, c: Call, allDone: bool, recorded: bool)
    requires Leads(env, o, At(d, Recording(c, [], allDone, recorded))) && !(allDone && recorded)
    ensures Leads(env, o, At(d, Done(c)))
  {
    hide Leads;
    Go(env, o, d, Recording(c, [], allDone, recorded), true, NO_ITEM, d, Done(c));
  }

  /** A call that may remove its source does so. */
  lemma Remove(env: Env, o: State, d: Durable, c: Call)
    requires Leads(env, o, At(d, Recording(c, [], true, true)))
    ensures Leads(env, o, At(d.(outbox := d.outbox - {c.path}), Done(c)))
  {
    hide Leads;
    Go(env, o, d, Recording(c, [], true, true), true, NO_ITEM, d, Removing(c));
    Go(env, o, d, Removing(c), true, NO_ITEM, d.(outbox := d.outbox - {c.path}), Done(c));
  }

  lemma Return(env: Env, o: State, d: Durable, c: Call)
    requires Leads(env, o, At(d, Done(c))) && c.origin.FromOutbox?
    ensures Leads(env, o, Idle(d))
  {
    hide Leads;
    Stop(env, o, d, Done(c), true, NO_ITEM, d);
  }

  /** A failed call for an outbox file moves its bytes to the queue and removes the file. */
  lemma MoveToQueue(env: Env, o: State, d: Durable, c: Call, name: string)
    requires Leads(env, o, At(d, Failed(c))) && c.origin.FromOutbox? && name !in d.queue
    ensures Leads(env, o,
              Idle(d.(outbox := d.outbox - {c.path}, queue := d.queue[name := QueueRow(c.path, c.data, 1, false)])))
  {
    hide Leads;
    var d1 := d.(queue := d.queue[name := QueueRow(c.path, c.data, 1, false)]);
    Extend(env, o, At(d, Failed(c)), Step(0, true, name, NO_ITEM));
    assert map[0 := Failed(c)][0 := Enqueued(c)] == map[0 := Enqueued(c)];
    Stop(env, o, d1, Enqueued(c), true, NO_ITEM, d1.(outbox := d1.outbox - {c.path}));
  }

  /** A retry worker takes up a queue entry. */
  lemma Claim(env: Env, o: State, d: Durable, name: string)
    requires Leads(env, o, Idle(d)) && name in d.queue && !d.queue[name].resolved
    ensures Leads(env, o, At(d, Start(Call(d.queue[name].path, d.queue[name].data, FromQueue(name)))))
  {
    hide Leads;
    Extend(env, o, Idle(d), ClaimEntry(0, name));
  }

  /** A retried call that returns without an error resolves its entry. */
  lemma Resolve(env: Env, o: State, d: Durable, c: Call)
    requires Leads(env, o, At(d, Done(c))) && c.origin.FromQueue? && c.origin.name in d.queue
    ensures var n := c.origin.name; Leads(env, o, Idle(d.(queue := d.queue[n := d.queue[n].(resolved := true)])))
  {
    hide Leads;
    var n := c.origin.name;
    Stop(env, o, d, Done(c), true, NO_ITEM, d.(queue := d.queue[n := d.queue[n].(resolved := true)]));
  }

  // ------------------------------------------------------------------- small facts

  function Fresh(data: Bytes): Row { Row(data, false, 0) }

  lemma NothingCollected()
    ensures Collect(map[]) == {}
  {
  }

  lemma DeliveredOne(p: OutboxPath, b: Inbox, k: RowKey)
    requires k == KeyOf(p, b)
    ensures InboxesOf(p, [k]) == [b]
  {
    assert [k][1..] == [];
    assert InboxesOf(p, []) == [];
  }

  lemma StageOne(staged: Staged, p: OutboxPath, data: Bytes, a: Inbox)
    ensures StageAll(staged, p, data, [a]) == Upsert(staged, KeyOf(p, a), data)
  {
    assert [a][1..] == [];
    assert StageAll(Upsert(staged, KeyOf(p, a), data), p, data, []) == Upsert(staged, KeyOf(p, a), data);
  }
}
