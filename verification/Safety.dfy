/** Safety of the delivery protocol over every admissible run: no accepted message is
    lost, flush marks are truthful, dedup records are backed by writes, and a source is
    removed only once its bytes are safe. */
module Safety {
  import opened Text
  import opened Delivery
  import Improvement
  import Policy

  // ------------------------------------------------------------------- vocabulary

  /** The bytes were written to some file of the inbox. */
  ghost predicate Written(d: Durable, inbox: Inbox, data: Bytes) {
    exists w :: w in d.writes && w.key.target.inbox == inbox && w.data == data
  }

  /** An unflushed staged row still carries the path to the inbox. */
  predicate Waiting(d: Durable, p: OutboxPath, inbox: Inbox) {
    KeyOf(p, inbox) in d.staged && !d.staged[KeyOf(p, inbox)].flushed
  }

  ghost predicate Secured(env: Env, d: Durable, p: OutboxPath, inbox: Inbox) {
    Written(d, inbox, env.content(p)) || Waiting(d, p, inbox)
  }

  function Plan(env: Env, p: OutboxPath): Option<seq<Inbox>> {
    Selected(env, p, env.content(p))
  }

  ghost predicate AllSecured(env: Env, d: Durable, p: OutboxPath) {
    Plan(env, p).Some? && forall i :: i in Plan(env, p).value ==> Secured(env, d, p, i)
  }

  ghost predicate AllWritten(env: Env, d: Durable, p: OutboxPath) {
    Plan(env, p).Some? && forall i :: i in Plan(env, p).value ==> Written(d, i, env.content(p))
  }

  ghost predicate Queued(d: Durable, p: OutboxPath) {
    exists n :: n in d.queue && d.queue[n].path == p && !d.queue[n].resolved
  }

  /** An unresolved queue entry of the path holds the path's bytes. */
  ghost predicate QueuedBytes(env: Env, d: Durable, p: OutboxPath) {
    exists n :: n in d.queue && d.queue[n].path == p && !d.queue[n].resolved && d.queue[n].data == env.content(p)
  }

  ghost predicate KeptElsewhere(env: Env, d: Durable, p: OutboxPath) {
    Queued(d, p) || AllSecured(env, d, p)
  }

  /** The message of the path is not lost. */
  ghost predicate Kept(env: Env, d: Durable, p: OutboxPath) {
    p in d.outbox || KeptElsewhere(env, d, p)
  }

  // -------------------------------------------------------------------- invariants

  /** Every copy of a path's message holds the path's bytes, under the path's file name. */
  ghost predicate FaithfulCopies(env: Env, d: Durable) {
    && (forall p :: p in d.outbox ==> d.outbox[p] == env.content(p))
    && (forall k :: k in d.staged ==> d.staged[k].data == env.content(k.path) && k.target.name == k.path.name)
    && (forall n :: n in d.queue ==> d.queue[n].data == env.content(d.queue[n].path))
  }

  /** A flushed row's exact bytes were written to its exact target. */
  ghost predicate TruthfulMarks(d: Durable) {
    forall k :: k in d.staged && d.staged[k].flushed ==> Item(k, d.staged[k].data) in d.writes
  }

  ghost predicate Backed(env: Env, d: Durable, record: (string, Inbox)) {
    exists w :: w in d.writes && w.key.target.inbox == record.1 && env.key(w.data) == record.0
  }

  /** Every dedup record is backed by a write of content with that key into that inbox. */
  ghost predicate SoundDedup(env: Env, d: Durable) {
    forall r :: r in d.dedup ==> Backed(env, d, r)
  }

  ghost predicate DurableInv(env: Env, d: Durable) {
    FaithfulCopies(env, d) && TruthfulMarks(d) && SoundDedup(env, d)
  }

  predicate CallOk(env: Env, d: Durable, c: Call) {
    && c.data == env.content(c.path)
    && (c.origin.FromQueue? ==> c.origin.name in d.queue && d.queue[c.origin.name].path == c.path)
  }

  ghost predicate JobOk(env: Env, d: Durable, job: Job) {
    job.Deliver? ==>
      && CallOk(env, d, job.call) && AllSecured(env, d, job.call.path)
      && forall i :: i in job.remaining ==> i in Plan(env, job.call.path).value
  }

  ghost predicate ItemsOk(env: Env, items: set<Item>) {
    forall it :: it in items ==> it.data == env.content(it.key.path)
  }

  ghost predicate FlushedOk(env: Env, d: Durable, flushed: seq<RowKey>) {
    forall k :: k in flushed ==> Item(k, env.content(k.path)) in d.writes
  }

  /** What each program point knows about durable state. */
  ghost predicate WorkerInv(env: Env, d: Durable, p: Proc) {
    match p
    case Start(c) => CallOk(env, d, c)
    case Filtering(c, todo, remaining) =>
      && CallOk(env, d, c) && Plan(env, c.path).Some?
      && (forall i :: i in todo || i in remaining ==> i in Plan(env, c.path).value)
      && (forall i :: i in Plan(env, c.path).value ==> i in todo || i in remaining || Written(d, i, c.data))
    case Skipping(c) => CallOk(env, d, c) && AllWritten(env, d, c.path)
    case Staging(c, remaining) =>
      && CallOk(env, d, c) && Plan(env, c.path).Some?
      && (forall i :: i in remaining ==> i in Plan(env, c.path).value)
      && (forall i :: i in Plan(env, c.path).value ==> i in remaining || Written(d, i, c.data))
    case Collecting(job) => JobOk(env, d, job)
    case Writing(job, items, flushed) => JobOk(env, d, job) && ItemsOk(env, items) && FlushedOk(env, d, flushed)
    case Marking(job, item, items, flushed) =>
      && JobOk(env, d, job) && ItemsOk(env, items) && FlushedOk(env, d, flushed)
      && item.data == env.content(item.key.path) && item in d.writes
    case Bumping(job, item, items, flushed) => JobOk(env, d, job) && ItemsOk(env, items) && FlushedOk(env, d, flushed)
    case Checking(c, remaining, delivered) =>
      && CallOk(env, d, c) && AllSecured(env, d, c.path)
      && (forall i :: i in remaining ==> i in Plan(env, c.path).value)
      && (forall i :: i in delivered ==> Written(d, i, c.data))
    case Recording(c, todo, allDone, _) =>
      && CallOk(env, d, c) && AllSecured(env, d, c.path)
      && (forall i :: i in todo ==> Written(d, i, c.data))
      && (allDone ==> AllWritten(env, d, c.path))
    case Removing(c) => CallOk(env, d, c) && AllWritten(env, d, c.path)
    case Done(c) => CallOk(env, d, c) && AllSecured(env, d, c.path)
    case Failed(c) => CallOk(env, d, c)
    case Enqueued(c) => KeptElsewhere(env, d, c.path)
  }

  ghost predicate Inv(env: Env, s: State) {
    && DurableInv(env, s.d)
    && (forall w :: w in s.procs ==> WorkerInv(env, s.d, s.procs[w]))
    && (forall p :: p in s.d.accepted ==> Kept(env, s.d, p))
  }

  // --------------------------------------------------- what every step guarantees

  /** Durable state only moves forward: writes are kept, what was secured stays
      secured, and a queue entry is resolved only once its message is secured. */
  ghost predicate Evolves(env: Env, d: Durable, d': Durable) {
    && d.writes <= d'.writes
    && (forall n :: n in d.queue ==>
          && n in d'.queue && d'.queue[n].path == d.queue[n].path
          && (d'.queue[n].resolved ==> d.queue[n].resolved || AllSecured(env, d', d.queue[n].path)))
    && (forall p, i :: Secured(env, d, p, i) ==> Secured(env, d', p, i))
  }

  lemma WrittenGrows(d: Durable, d': Durable, i: Inbox, data: Bytes)
    requires d.writes <= d'.writes && Written(d, i, data)
    ensures Written(d', i, data)
  {
    var w :| w in d.writes && w.key.target.inbox == i && w.data == data;
    assert d.writes[w] <= d'.writes[w];
  }

  lemma SecuredGrows(env: Env, d: Durable, d': Durable, p: OutboxPath)
    requires Evolves(env, d, d')
    ensures AllSecured(env, d, p) ==> AllSecured(env, d', p)
    ensures AllWritten(env, d, p) ==> AllWritten(env, d', p)
    ensures KeptElsewhere(env, d, p) ==> KeptElsewhere(env, d', p)
  {
    hide Plan, Secured, Written;
    if AllWritten(env, d, p) {
      forall i | i in Plan(env, p).value ensures Written(d', i, env.content(p)) {
        WrittenGrows(d, d', i, env.content(p));
      }
    }
    if n :| n in d.queue && d.queue[n].path == p && !d.queue[n].resolved {
      assert n in d'.queue;
    }
  }

  lemma EvolvesTransitive(env: Env, a: Durable, b: Durable, c: Durable)
    requires Evolves(env, a, b) && Evolves(env, b, c)
    ensures Evolves(env, a, c)
  {
    hide Secured, AllSecured;
    forall n | n in a.queue
      ensures n in c.queue && c.queue[n].path == a.queue[n].path
      ensures c.queue[n].resolved ==> a.queue[n].resolved || AllSecured(env, c, a.queue[n].path)
    {
      SecuredGrows(env, b, c, a.queue[n].path);
    }
  }

  lemma KnowledgeStable(env: Env, d: Durable, d': Durable, p: Proc)
    requires Evolves(env, d, d') && WorkerInv(env, d, p)
    ensures WorkerInv(env, d', p)
  {
    hide Plan, Written, AllSecured, AllWritten, KeptElsewhere, Secured;
    forall c: Call | CallOk(env, d, c) ensures CallOk(env, d', c) { }
    forall i, data | Written(d, i, data) ensures Written(d', i, data) { WrittenGrows(d, d', i, data); }
    forall q ensures AllSecured(env, d, q) ==> AllSecured(env, d', q)
             ensures AllWritten(env, d, q) ==> AllWritten(env, d', q)
             ensures KeptElsewhere(env, d, q) ==> KeptElsewhere(env, d', q)
    {
      SecuredGrows(env, d, d', q);
    }
    forall it | it in d.writes ensures it in d'.writes { assert d.writes[it] <= d'.writes[it]; }
  }

  // ------------------------------------------------------------ durable operations

  /** Nothing but outbox files, the history of lost marks and new acceptances changed. */
  predicate SameStores(d: Durable, d': Durable) {
    d.staged == d'.staged && d.dedup == d'.dedup && d.queue == d'.queue && d.writes == d'.writes
  }

  lemma SameStoresEvolves(env: Env, d: Durable, d': Durable)
    requires SameStores(d, d')
    ensures Evolves(env, d, d')
  {
    hide Plan;
    forall p, i | Secured(env, d, p, i) ensures Secured(env, d', p, i) { }
  }

  lemma UpsertSafe(env: Env, d: Durable, p: OutboxPath, inbox: Inbox)
    requires DurableInv(env, d)
    ensures var d' := d.(staged := Upsert(d.staged, KeyOf(p, inbox), env.content(p)));
            DurableInv(env, d') && Evolves(env, d, d') && Secured(env, d', p, inbox)
  {
    hide Plan;
    var k := KeyOf(p, inbox);
    var d' := d.(staged := Upsert(d.staged, k, env.content(p)));
    forall q, i | Secured(env, d, q, i) ensures Secured(env, d', q, i) {
      if Waiting(d, q, i) { assert Waiting(d', q, i); }
    }
    forall r | r in d'.dedup ensures Backed(env, d', r) { assert Backed(env, d, r); }
    if k in d.staged && d.staged[k].flushed && d.staged[k].data == env.content(p) {
      var w := Item(k, d.staged[k].data);
      assert w in d'.writes && w.key.target.inbox == inbox && w.data == env.content(p);
      assert Written(d', inbox, env.content(p));
    } else {
      assert Waiting(d', p, inbox);
    }
  }

  lemma {:induction false} StageSafe(env: Env, d: Durable, p: OutboxPath, inboxes: seq<Inbox>)
    requires DurableInv(env, d)
    ensures var d' := d.(staged := StageAll(d.staged, p, env.content(p), inboxes));
            && DurableInv(env, d') && Evolves(env, d, d')
            && forall i :: i in inboxes ==> Secured(env, d', p, i)
    decreases |inboxes|
  {
    hide DurableInv, Plan, Upsert, Secured;
    if inboxes == [] {
      SameStoresEvolves(env, d, d);
    } else {
      UpsertSafe(env, d, p, inboxes[0]);
      var d1 := d.(staged := Upsert(d.staged, KeyOf(p, inboxes[0]), env.content(p)));
      StageSafe(env, d1, p, inboxes[1..]);
      var d2 := d1.(staged := StageAll(d1.staged, p, env.content(p), inboxes[1..]));
      EvolvesTransitive(env, d, d1, d2);
      assert Secured(env, d2, p, inboxes[0]);
    }
  }

  lemma WriteSafe(env: Env, d: Durable, item: Item)
    requires DurableInv(env, d)
    ensures var d' := d.(writes := d.writes + multiset{item}); DurableInv(env, d') && Evolves(env, d, d')
  {
    hide Plan;
    var d' := d.(writes := d.writes + multiset{item});
    forall p, i | Secured(env, d, p, i) ensures Secured(env, d', p, i) {
      if Written(d, i, env.content(p)) { WrittenGrows(d, d', i, env.content(p)); } else { assert Waiting(d', p, i); }
    }
    forall r | r in d'.dedup ensures Backed(env, d', r) {
      assert Backed(env, d, r);
      var w :| w in d.writes && w.key.target.inbox == r.1 && env.key(w.data) == r.0;
      assert w in d'.writes;
    }
  }

  lemma MarkSafe(env: Env, d: Durable, item: Item)
    requires DurableInv(env, d) && item in d.writes && item.data == env.content(item.key.path)
    ensures var d' := d.(staged := Mark(d.staged, item.key)); DurableInv(env, d') && Evolves(env, d, d')
  {
    hide Plan;
    var d' := d.(staged := Mark(d.staged, item.key));
    forall p, i | Secured(env, d, p, i) ensures Secured(env, d', p, i) {
      if KeyOf(p, i) == item.key {
        assert item in d'.writes && item.key.target.inbox == i && item.data == env.content(p);
      } else if Written(d, i, env.content(p)) {
        WrittenGrows(d, d', i, env.content(p));
      } else {
        assert Waiting(d', p, i);
      }
    }
    forall r | r in d'.dedup ensures Backed(env, d', r) { assert Backed(env, d, r); }
  }

  lemma BumpSafe(env: Env, d: Durable, k: RowKey)
    requires DurableInv(env, d)
    ensures var d' := d.(staged := Bump(d.staged, k)); DurableInv(env, d') && Evolves(env, d, d')
  {
    hide Plan;
    var d' := d.(staged := Bump(d.staged, k));
    forall p, i | Secured(env, d, p, i) ensures Secured(env, d', p, i) {
      if Waiting(d, p, i) { assert Waiting(d', p, i); }
    }
    forall r | r in d'.dedup ensures Backed(env, d', r) { assert Backed(env, d, r); }
  }

  lemma PruneSafe(env: Env, d: Durable)
    requires DurableInv(env, d)
    ensures var d' := d.(staged := PruneFlushed(d.staged)); DurableInv(env, d') && Evolves(env, d, d')
  {
    hide Plan;
    var d' := d.(staged := PruneFlushed(d.staged));
    forall p, i | Secured(env, d, p, i) ensures Secured(env, d', p, i) {
      if Waiting(d, p, i) { assert Waiting(d', p, i); }
    }
    forall r | r in d'.dedup ensures Backed(env, d', r) { assert Backed(env, d, r); }
  }

  lemma RecordSafe(env: Env, d: Durable, i: Inbox, data: Bytes)
    requires DurableInv(env, d) && Written(d, i, data)
    ensures var d' := d.(dedup := d.dedup + {(env.key(data), i)}); DurableInv(env, d') && Evolves(env, d, d')
  {
    hide Plan;
    var d' := d.(dedup := d.dedup + {(env.key(data), i)});
    var w :| w in d.writes && w.key.target.inbox == i && w.data == data;
    forall r | r in d'.dedup ensures Backed(env, d', r) {
      if r in d.dedup { assert Backed(env, d, r); } else { assert w in d'.writes; }
    }
    forall p, j | Secured(env, d, p, j) ensures Secured(env, d', p, j) {
      if Waiting(d, p, j) { assert Waiting(d', p, j); }
    }
  }

  /** A queue row may be added, or changed without moving it to another path; it may be
      resolved once its message is secured. */
  lemma QueueSafe(env: Env, d: Durable, n: string, row: QueueRow)
    requires DurableInv(env, d) && row.data == env.content(row.path)
    requires n in d.queue ==> d.queue[n].path == row.path
    requires n in d.queue && row.resolved ==> d.queue[n].resolved || AllSecured(env, d, row.path)
    ensures var d' := d.(queue := d.queue[n := row]); DurableInv(env, d') && Evolves(env, d, d')
  {
    hide Plan;
    var d' := d.(queue := d.queue[n := row]);
    forall p, j ensures Secured(env, d, p, j) <==> Secured(env, d', p, j) { }
    forall r | r in d'.dedup ensures Backed(env, d', r) { assert Backed(env, d, r); }
  }

  // ------------------------------------------------------------------ worker steps

  /** The guarantee of one worker step. */
  ghost predicate SafeEffect(env: Env, d: Durable, e: Effect) {
    && DurableInv(env, e.d) && Evolves(env, d, e.d)
    && (e.next.Some? ==> WorkerInv(env, e.d, e.next.value))
    && e.d.accepted == d.accepted
    && (forall p :: p in d.outbox && p !in e.d.outbox ==> KeptElsewhere(env, e.d, p))
  }

  lemma RemoveSafe(env: Env, d: Durable, p: OutboxPath, ok: bool)
    requires DurableInv(env, d)
    ensures var d' := RemoveFile(d, p, ok);
            && DurableInv(env, d') && Evolves(env, d, d')
            && (forall q :: q in d.outbox && q !in d'.outbox ==> q == p)
  {
    hide Plan;
    var d' := RemoveFile(d, p, ok);
    SameStoresEvolves(env, d, d');
    forall r | r in d'.dedup ensures Backed(env, d', r) { assert Backed(env, d, r); }
  }

  lemma WrittenIsSecured(env: Env, d: Durable, p: OutboxPath)
    ensures AllWritten(env, d, p) ==> AllSecured(env, d, p)
  {
    hide Plan, Written;
  }

  lemma InboxesOfFlushed(env: Env, d: Durable, p: OutboxPath, flushed: seq<RowKey>)
    requires FlushedOk(env, d, flushed)
    ensures forall i :: i in InboxesOf(p, flushed) ==> Written(d, i, env.content(p))
  {
    if flushed != [] {
      InboxesOfFlushed(env, d, p, flushed[1..]);
      var w := Item(flushed[0], env.content(flushed[0].path));
      assert flushed[0] in flushed;
      assert w in d.writes;
    }
  }

  lemma AfterFlushSafe(env: Env, d: Durable, job: Job, flushed: seq<RowKey>)
    requires JobOk(env, d, job) && FlushedOk(env, d, flushed)
    ensures AfterFlush(job, flushed).Some? ==> WorkerInv(env, d, AfterFlush(job, flushed).value)
  {
    hide Plan, Written, InboxesOf, AllSecured;
    if job.Deliver? {
      InboxesOfFlushed(env, d, job.call.path, flushed);
    }
  }

  lemma WriteStepSafe(env: Env, d: Durable, p: Proc, ok: bool, pick: Item)
    requires p.Collecting? || p.Writing?
    requires DurableInv(env, d) && WorkerInv(env, d, p)
    ensures SafeEffect(env, d, FlushStep(d, p, ok, pick))
  {
    hide Plan, Secured, AllSecured, AfterFlush, SoundDedup, JobOk;
    var e := FlushStep(d, p, ok, pick);
    SameStoresEvolves(env, d, d);
    AfterFlushSafe(env, d, p.job, if p.Collecting? then [] else p.flushed);
    if p.Writing? && pick in p.items && ok {
      WriteSafe(env, d, pick);
      KnowledgeStable(env, d, e.d, p);
    }
  }

  lemma MarkStepSafe(env: Env, d: Durable, p: Proc, ok: bool, pick: Item)
    requires p.Marking? && DurableInv(env, d) && WorkerInv(env, d, p)
    ensures SafeEffect(env, d, FlushStep(d, p, ok, pick))
  {
    hide Plan, Secured, AllSecured, Mark, AfterFlush, SoundDedup, JobOk;
    var e := FlushStep(d, p, ok, pick);
    if ok {
      MarkSafe(env, d, p.item);
      KnowledgeStable(env, d, e.d, p);
    } else {
      LostMarkSafe(env, d, p.item.key);
      KnowledgeStable(env, d, e.d, p);
      AfterFlushSafe(env, e.d, p.job, p.flushed);
    }
  }

  lemma BumpStepSafe(env: Env, d: Durable, p: Proc, ok: bool, pick: Item)
    requires p.Bumping? && DurableInv(env, d) && WorkerInv(env, d, p)
    ensures SafeEffect(env, d, FlushStep(d, p, ok, pick))
  {
    hide Plan, Secured, AllSecured, Bump, AfterFlush, SoundDedup, JobOk;
    var e := FlushStep(d, p, ok, pick);
    SameStoresEvolves(env, d, d);
    AfterFlushSafe(env, d, p.job, p.flushed);
    if ok {
      BumpSafe(env, d, p.item.key);
      KnowledgeStable(env, d, e.d, p);
    }
  }

  lemma LostMarkSafe(env: Env, d: Durable, k: RowKey)
    requires DurableInv(env, d)
    ensures var d' := d.(lost := d.lost + multiset{k}); DurableInv(env, d') && Evolves(env, d, d')
  {
    hide Plan;
    var d' := d.(lost := d.lost + multiset{k});
    SameStoresEvolves(env, d, d');
    forall r | r in d'.dedup ensures Backed(env, d', r) { assert Backed(env, d, r); }
  }

  /** A dedup hit means the message's own bytes reached the inbox. */
  lemma DedupHit(env: Env, d: Durable, data: Bytes, i: Inbox)
    requires InjectiveKeys(env) && SoundDedup(env, d) && (env.key(data), i) in d.dedup
    ensures Written(d, i, data)
  {
    assert Backed(env, d, (env.key(data), i));
    var w :| w in d.writes && w.key.target.inbox == i && env.key(w.data) == env.key(data);
    assert w.data == data;
  }

  lemma FilterStepSafe(env: Env, d: Durable, p: Proc, ok: bool)
    requires p.Filtering? && InjectiveKeys(env) && DurableInv(env, d) && WorkerInv(env, d, p)
    ensures SafeEffect(env, d, CallStep(env, d, p, ok))
  {
    hide Plan, Written, Secured, AllSecured;
    SameStoresEvolves(env, d, d);
    var todo := p.todo;
    if todo != [] && ok && (env.key(p.call.data), todo[0]) in d.dedup {
      DedupHit(env, d, p.call.data, todo[0]);
    }
    assert todo != [] ==> forall i :: i in todo <==> i == todo[0] || i in todo[1..];
  }

  lemma StageStepSafe(env: Env, d: Durable, p: Proc, ok: bool)
    requires p.Staging? && DurableInv(env, d) && WorkerInv(env, d, p)
    ensures SafeEffect(env, d, CallStep(env, d, p, ok))
  {
    hide Plan, Written, Waiting, StageAll;
    var e := CallStep(env, d, p, ok);
    if ok {
      StageSafe(env, d, p.call.path, p.remaining);
      KnowledgeStable(env, d, e.d, p);
    } else {
      SameStoresEvolves(env, d, d);
    }
  }

  /** "All rows of the path are flushed" really means every selected inbox was written:
      a secured inbox that has no unflushed row has been written to. */
  lemma AllFlushedMeansWritten(env: Env, d: Durable, p: OutboxPath)
    requires AllSecured(env, d, p) && AllFlushedFor(d.staged, p)
    ensures AllWritten(env, d, p)
  {
    hide Plan;
    forall i | i in Plan(env, p).value ensures Written(d, i, env.content(p)) {
      assert Secured(env, d, p, i);
    }
  }

  lemma CheckStepSafe(env: Env, d: Durable, p: Proc, ok: bool)
    requires p.Checking? && DurableInv(env, d) && WorkerInv(env, d, p)
    ensures SafeEffect(env, d, CallStep(env, d, p, ok))
  {
    hide Plan, Written, Secured, AllSecured, AllFlushedFor;
    SameStoresEvolves(env, d, d);
    if ok && AllFlushedFor(d.staged, p.call.path) {
      AllFlushedMeansWritten(env, d, p.call.path);
    }
  }

  lemma RecordStepSafe(env: Env, d: Durable, p: Proc, ok: bool)
    requires p.Recording? && DurableInv(env, d) && WorkerInv(env, d, p)
    ensures SafeEffect(env, d, CallStep(env, d, p, ok))
  {
    hide Plan, Written, Secured, AllSecured, AllWritten;
    var e := CallStep(env, d, p, ok);
    SameStoresEvolves(env, d, d);
    if p.todo != [] && ok {
      RecordSafe(env, d, p.todo[0], p.call.data);
      KnowledgeStable(env, d, e.d, p);
    }
  }

  lemma RemoveStepSafe(env: Env, d: Durable, p: Proc, ok: bool)
    requires (p.Skipping? || p.Removing?) && DurableInv(env, d) && WorkerInv(env, d, p)
    ensures SafeEffect(env, d, CallStep(env, d, p, ok))
  {
    hide Plan, Written, Secured, AllSecured, AllWritten;
    var e := CallStep(env, d, p, ok);
    RemoveSafe(env, d, p.call.path, ok);
    KnowledgeStable(env, d, e.d, p);
    WrittenIsSecured(env, e.d, p.call.path);
  }

  lemma StartStepSafe(env: Env, d: Durable, p: Proc, ok: bool)
    requires p.Start? && DurableInv(env, d) && WorkerInv(env, d, p)
    ensures SafeEffect(env, d, CallStep(env, d, p, ok))
  {
    hide Selected, Written, Secured, AllSecured;
    SameStoresEvolves(env, d, d);
  }

  lemma DoneStepSafe(env: Env, d: Durable, p: Proc, ok: bool, name: string)
    requires p.Done? && DurableInv(env, d) && WorkerInv(env, d, p)
    ensures SafeEffect(env, d, CallerStep(d, p, ok, name))
  {
    hide Plan, Written, Secured, AllSecured, SoundDedup, TruthfulMarks;
    var c := p.call;
    SameStoresEvolves(env, d, d);
    if c.origin.FromQueue? && ok {
      QueueSafe(env, d, c.origin.name, d.queue[c.origin.name].(resolved := true));
    }
  }

  lemma FailedStepSafe(env: Env, d: Durable, p: Proc, ok: bool, name: string)
    requires p.Failed? && DurableInv(env, d) && WorkerInv(env, d, p)
    requires p.call.origin.FromOutbox? && ok ==> name !in d.queue
    ensures SafeEffect(env, d, CallerStep(d, p, ok, name))
  {
    hide Plan, Written, Secured, AllSecured, SoundDedup, TruthfulMarks;
    var e := CallerStep(d, p, ok, name);
    var c := p.call;
    SameStoresEvolves(env, d, d);
    if c.origin.FromQueue? && ok {
      QueueSafe(env, d, c.origin.name, d.queue[c.origin.name].(retry := d.queue[c.origin.name].retry + 1));
    } else if ok {
      QueueSafe(env, d, name, QueueRow(c.path, c.data, 1, false));
      assert name in e.d.queue && e.d.queue[name].path == c.path && !e.d.queue[name].resolved;
    }
  }

  lemma EnqueuedStepSafe(env: Env, d: Durable, p: Proc, ok: bool, name: string)
    requires p.Enqueued? && DurableInv(env, d) && WorkerInv(env, d, p)
    ensures SafeEffect(env, d, CallerStep(d, p, ok, name))
  {
    hide Plan, Written, Secured, AllSecured, SoundDedup, TruthfulMarks;
    var e := CallerStep(d, p, ok, name);
    RemoveSafe(env, d, p.call.path, ok);
    SecuredGrows(env, d, e.d, p.call.path);
  }

  lemma ProcStepSafe(env: Env, d: Durable, p: Proc, ok: bool, name: string, pick: Item)
    requires InjectiveKeys(env) && DurableInv(env, d) && WorkerInv(env, d, p)
    requires p.Failed? && p.call.origin.FromOutbox? && ok ==> name !in d.queue
    ensures SafeEffect(env, d, ProcStep(env, d, p, ok, name, pick))
  {
    hide SafeEffect, DurableInv, WorkerInv, FlushStep, CallStep, CallerStep;
    if p.Collecting? || p.Writing? { WriteStepSafe(env, d, p, ok, pick); }
    else if p.Marking? { MarkStepSafe(env, d, p, ok, pick); }
    else if p.Bumping? { BumpStepSafe(env, d, p, ok, pick); }
    else if p.Done? { DoneStepSafe(env, d, p, ok, name); }
    else if p.Failed? { FailedStepSafe(env, d, p, ok, name); }
    else if p.Enqueued? { EnqueuedStepSafe(env, d, p, ok, name); }
    else if p.Start? { StartStepSafe(env, d, p, ok); }
    else if p.Filtering? { FilterStepSafe(env, d, p, ok); }
    else if p.Staging? { StageStepSafe(env, d, p, ok); }
    else if p.Checking? { CheckStepSafe(env, d, p, ok); }
    else if p.Recording? { RecordStepSafe(env, d, p, ok); }
    else { RemoveStepSafe(env, d, p, ok); }
  }

  // ---------------------------------------------------------------- steps and runs

  lemma InvFromEvolution(env: Env, s: State, d': Durable, procs': map<nat, Proc>)
    requires Inv(env, s) && DurableInv(env, d') && Evolves(env, s.d, d')
    requires forall w :: w in procs' ==> WorkerInv(env, d', procs'[w]) || (w in s.procs && s.procs[w] == procs'[w])
    requires forall p :: p in d'.accepted ==> p in s.d.accepted || p in d'.outbox
    requires forall p :: p in s.d.outbox && p !in d'.outbox ==> KeptElsewhere(env, d', p)
    ensures Inv(env, State(d', procs'))
  {
    hide DurableInv, WorkerInv, KeptElsewhere;
    forall w | w in procs' ensures WorkerInv(env, d', procs'[w]) {
      if w in s.procs && s.procs[w] == procs'[w] { KnowledgeStable(env, s.d, d', procs'[w]); }
    }
    forall p | p in d'.accepted ensures Kept(env, d', p) {
      if p in s.d.accepted { SecuredGrows(env, s.d, d', p); }
    }
  }

  lemma NextPreservesInv(env: Env, s: State, a: Action)
    requires InjectiveKeys(env) && Inv(env, s) && Admissible(env, s, a)
    ensures Inv(env, Next(env, s, a))
  {
    hide WorkerInv, KeptElsewhere, ProcStep, PruneFlushed, Plan, Secured, AllSecured;
    var s' := Next(env, s, a);
    match a
    case Arrive(p, data) =>
      SameStoresEvolves(env, s.d, s'.d);
      DurableInvIgnores(env, s.d, s'.d);
      InvFromEvolution(env, s, s'.d, s'.procs);
    case Step(w, ok, name, pick) =>
      if w in s.procs {
        ProcStepSafe(env, s.d, s.procs[w], ok, name, pick);
        InvFromEvolution(env, s, s'.d, s'.procs);
      }
    case Kill(w) =>
      SameStoresEvolves(env, s.d, s'.d);
      DurableInvIgnores(env, s.d, s'.d);
      InvFromEvolution(env, s, s'.d, s'.procs);
    case Prune =>
      PruneSafe(env, s.d);
      InvFromEvolution(env, s, s'.d, s'.procs);
    case _ =>
      SameStoresEvolves(env, s.d, s'.d);
      NewWorkerOk(env, s, a);
      InvFromEvolution(env, s, s'.d, s'.procs);
  }

  lemma DurableInvIgnores(env: Env, d: Durable, d': Durable)
    requires DurableInv(env, d) && SameStores(d, d')
    requires forall p :: p in d'.outbox ==> d'.outbox[p] == env.content(p)
    ensures DurableInv(env, d')
  {
    forall r | r in d'.dedup ensures Backed(env, d', r) { assert Backed(env, d, r); }
  }

  /** A worker that starts knows what its program point requires. */
  lemma NewWorkerOk(env: Env, s: State, a: Action)
    requires DurableInv(env, s.d) && (a.ReadFile? || a.ClaimEntry? || a.RecoverFlush?)
    ensures var s' := Next(env, s, a);
            forall w :: w in s'.procs ==>
                WorkerInv(env, s'.d, s'.procs[w]) || (w in s.procs && s.procs[w] == s'.procs[w])
  {
    hide Plan, SoundDedup;
  }

  /** The invariant holds in every state reachable by an admissible run. */
  lemma {:induction false} InvAlongRun(env: Env, s: State, actions: seq<Action>)
    requires InjectiveKeys(env) && Inv(env, s) && AdmissibleRun(env, s, actions)
    ensures Inv(env, Run(env, s, actions))
    decreases |actions|
  {
    hide Inv, Next, Admissible;
    if actions != [] {
      NextPreservesInv(env, s, actions[0]);
      InvAlongRun(env, Next(env, s, actions[0]), actions[1..]);
    }
  }

  lemma InvInitially(env: Env)
    ensures Inv(env, EMPTY)
  {
  }

  /** The state an admissible run from the empty courier reaches. */
  ghost predicate Reachable(env: Env, s: State) {
    InjectiveKeys(env) && exists actions :: AdmissibleRun(env, EMPTY, actions) && s == Run(env, EMPTY, actions)
  }

  lemma ReachableInv(env: Env, s: State)
    requires Reachable(env, s)
    ensures Inv(env, s)
  {
    hide Inv;
    var actions :| AdmissibleRun(env, EMPTY, actions) && s == Run(env, EMPTY, actions);
    InvInitially(env);
    InvAlongRun(env, EMPTY, actions);
  }

  // ---------------------------------------------------------------------- theorems

  /** No message is ever lost.  Whatever workers did, failed at or crashed in, for every
      path that ever arrived: an unroutable message is still a source file or an
      unresolved queue entry, and a routable one has, for each inbox it selects, its
      bytes in the source file, an unresolved queue entry, an unflushed staged row, or
      the inbox write history. */
  lemma NoMessageLost(env: Env, s: State, p: OutboxPath)
    requires Reachable(env, s) && p in s.d.accepted
    ensures Plan(env, p).None? ==> (p in s.d.outbox && s.d.outbox[p] == env.content(p)) || QueuedBytes(env, s.d, p)
    ensures Plan(env, p).Some? ==> forall i :: i in Plan(env, p).value ==>
              || (p in s.d.outbox && s.d.outbox[p] == env.content(p))
              || QueuedBytes(env, s.d, p)
              || (Waiting(s.d, p, i) && s.d.staged[KeyOf(p, i)].data == env.content(p))
              || Written(s.d, i, env.content(p))
  {
    hide Plan, Written;
    ReachableInv(env, s);
    assert Kept(env, s.d, p);
    forall i | Plan(env, p).Some? && i in Plan(env, p).value && p !in s.d.outbox && !Queued(s.d, p)
      ensures Secured(env, s.d, p, i)
    {
      assert AllSecured(env, s.d, p);
    }
  }

  /** Flush marks are truthful and dedup records are backed by writes, in every
      reachable state, however stale the snapshots the workers hold. */
  lemma MarksAndRecordsTruthful(env: Env, s: State)
    requires Reachable(env, s)
    ensures forall k :: k in s.d.staged && s.d.staged[k].flushed ==> Item(k, s.d.staged[k].data) in s.d.writes
    ensures forall data, i :: (env.key(data), i) in s.d.dedup ==> Written(s.d, i, data)
  {
    hide WorkerInv, Kept, Written;
    ReachableInv(env, s);
    forall data, i | (env.key(data), i) in s.d.dedup ensures Written(s.d, i, data) {
      DedupHit(env, s.d, data, i);
    }
  }

  /** Only three program points remove a file, and only their own call's file. */
  lemma RemoversOnly(env: Env, s: State, a: Action, p: OutboxPath)
    requires p in s.d.outbox && p !in Next(env, s, a).d.outbox
    ensures a.Step? && a.w in s.procs
    ensures var q := s.procs[a.w]; (q.Skipping? || q.Removing? || q.Enqueued?) && q.call.path == p
  {
    hide Mark, Bump, StageAll, AfterFlush, Collect, Selected, DedupTargets, Finish, AllFlushedFor,
      IncrementRetry, MarkResolved, FlushStep;
    FlushKeepsOutbox(s.d, s.procs, a);
    QueueOpsKeepOutbox(s.d);
  }

  lemma FlushKeepsOutbox(d: Durable, procs: map<nat, Proc>, a: Action)
    ensures a.Step? && a.w in procs
            && (procs[a.w].Collecting? || procs[a.w].Writing? || procs[a.w].Marking? || procs[a.w].Bumping?) ==>
              FlushStep(d, procs[a.w], a.ok, a.pick).d.outbox == d.outbox
  {
    hide Mark, Bump, AfterFlush, Collect;
  }

  lemma QueueOpsKeepOutbox(d: Durable)
    ensures forall n :: IncrementRetry(d, n).outbox == d.outbox
    ensures forall n :: MarkResolved(d, n).outbox == d.outbox
  {
  }

  /** A source file disappears only safely.  When DeliverData removes it, every selected
      inbox has already received exactly the bytes of the file; when a caller removes it
      after a failure, its message is queued or secured. */
  lemma RemovalSafe(env: Env, s: State, a: Action, p: OutboxPath)
    requires Reachable(env, s) && Admissible(env, s, a)
    requires p in s.d.outbox && p !in Next(env, s, a).d.outbox
    ensures a.Step? && a.w in s.procs && s.procs[a.w].Enqueued? ==> KeptElsewhere(env, s.d, p)
    ensures !(a.Step? && a.w in s.procs && s.procs[a.w].Enqueued?) ==>
              Plan(env, p).Some? && forall i :: i in Plan(env, p).value ==> Written(s.d, i, s.d.outbox[p])
  {
    hide Plan, Written, KeptElsewhere, Next;
    RemoversOnly(env, s, a, p);
    ReachableInv(env, s);
    assert WorkerInv(env, s.d, s.procs[a.w]);
  }

  /** Removal is never vacuous: when every route has an inbox, every routable message
      selects at least one. */
  lemma PlanNonEmpty(env: Env, p: OutboxPath)
    requires forall i :: 0 <= i < |env.routes| ==> env.routes[i].toInboxes != []
    requires Plan(env, p).Some?
    ensures Plan(env, p).value != []
  {
    var fm := Validate(env, env.content(p)).value;
    MatchedRouteIsRoute(env.routes, fm.kind, p.dir);
    var r := MatchRoute(env.routes, fm.kind, p.dir).value;
    Policy.SelectionSound(fm.kind, r.toInboxes, fm.targets, Improvement.FromMap(fm.metadata));
  }

  lemma {:induction false} MatchedRouteIsRoute(routes: seq<ResolvedRoute>, kind: string, dir: string)
    requires MatchRoute(routes, kind, dir).Some?
    ensures MatchRoute(routes, kind, dir).value in routes
  {
    if !(routes[0].kind == kind && routes[0].fromOutbox == dir) {
      MatchedRouteIsRoute(routes[1..], kind, dir);
    }
  }
}
