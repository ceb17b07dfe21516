/** What one failure-free DeliverData call achieves from any state the protocol can be
    left in, and exactly when it finishes the message. */
module Convergence {
  import opened Text
  import opened Delivery
  import opened Safety
  import opened FlushBounds
  import opened FlushRuns
  import Improvement

  /** The selected inboxes that have no dedup record yet. */
  function Remaining(env: Env, d: Durable, data: Bytes, inboxes: seq<Inbox>): (r: seq<Inbox>)
    ensures forall i :: i in r <==> i in inboxes && !(env.dedupOn && (env.key(data), i) in d.dedup)
  {
    if env.dedupOn then Improvement.Keep(inboxes, i => (env.key(data), i) !in d.dedup) else inboxes
  }

  function FlushedInboxes(items: set<Item>, p: OutboxPath): set<Inbox> {
    set it | it in items && it.key.path == p :: it.key.target.inbox
  }

  function Records(env: Env, data: Bytes, inboxes: set<Inbox>): set<(string, Inbox)> {
    set i | i in inboxes :: (env.key(data), i)
  }

  /** Flush, record and remove with every operation succeeding. */
  function FinishCall(env: Env, d: Durable, p: OutboxPath, data: Bytes, remaining: seq<Inbox>): Durable {
    var items := Collect(d.staged);
    var staged := FlushAll(d.staged);
    var allDone := AllFlushedFor(staged, p);
    var recorded := FlushedInboxes(items, p) + if allDone then Elements(remaining) else {};
    d.(staged := staged,
       writes := d.writes + multiset(items),
       dedup := if env.dedupOn then d.dedup + Records(env, data, recorded) else d.dedup,
       outbox := if allDone then d.outbox - {p} else d.outbox)
  }

  function FlushAndFinish(env: Env, d: Durable, p: OutboxPath, data: Bytes, remaining: seq<Inbox>): Durable {
    FinishCall(env, d.(staged := StageAll(d.staged, p, data, remaining)), p, data, remaining)
  }

  /** The durable effect of a failure-free DeliverData call. */
  function CleanCall(env: Env, d: Durable, p: OutboxPath, data: Bytes): Durable {
    match Selected(env, p, data)
    case None => d
    case Some(inboxes) => CleanDelivery(env, d, p, data, inboxes)
  }

  function CleanDelivery(env: Env, d: Durable, p: OutboxPath, data: Bytes, inboxes: seq<Inbox>): Durable {
    var remaining := Remaining(env, d, data, inboxes);
    if env.dedupOn && remaining == [] then d.(outbox := d.outbox - {p})
    else FlushAndFinish(env, d, p, data, remaining)
  }

  predicate DeadRow(d: Durable, k: RowKey) {
    k in d.staged && !d.staged[k].flushed && d.staged[k].retry >= MAX_DELIVERY_RETRY
  }

  /** A dead-lettered row of the path that the call will not restage. */
  predicate Blocked(env: Env, d: Durable, p: OutboxPath, remaining: seq<Inbox>) {
    exists k :: k in d.staged && DeadRow(d, k) && k.path == p && forall i :: i in remaining ==> k != KeyOf(p, i)
  }

  /** The row of every staged inbox is flushed or about to be; other rows are untouched. */
  lemma {:induction false} StageRow(staged: Staged, p: OutboxPath, data: Bytes, inboxes: seq<Inbox>, k: RowKey)
    ensures var staged' := StageAll(staged, p, data, inboxes);
            && ((exists i :: i in inboxes && k == KeyOf(p, i)) ==>
                  k in staged' && staged'[k] == if k in staged && staged[k].flushed && staged[k].data == data
                                               then staged[k] else Row(data, false, 0))
            && (!(exists i :: i in inboxes && k == KeyOf(p, i)) ==>
                  (k in staged' <==> k in staged) && (k in staged ==> staged'[k] == staged[k]))
    decreases |inboxes|
  {
    if inboxes != [] {
      StageRow(Upsert(staged, KeyOf(p, inboxes[0]), data), p, data, inboxes[1..], k);
    }
  }

  /** The rows of the path after a failure-free stage and flush. */
  lemma FlushedRows(d: Durable, p: OutboxPath, data: Bytes, remaining: seq<Inbox>, k: RowKey)
    requires k.path == p
    ensures var staged1 := StageAll(d.staged, p, data, remaining);
            var staged2 := FlushAll(staged1);
            && ((exists i :: i in remaining && k == KeyOf(p, i)) ==> k in staged2 && staged2[k].flushed)
            && (!(exists i :: i in remaining && k == KeyOf(p, i)) ==>
                  && (k in staged2 <==> k in d.staged)
                  && (k in d.staged ==> (staged2[k].flushed <==> !DeadRow(d, k)))
                  && (DeadRow(d, k) ==> staged2[k] == d.staged[k]))
  {
    hide StageAll;
    StageRow(d.staged, p, data, remaining, k);
  }

  /** Every row of the path ends flushed unless a dead letter stands outside the
      restaged inboxes. */
  lemma AllDoneUnlessBlocked(env: Env, d: Durable, p: OutboxPath, data: Bytes, remaining: seq<Inbox>)
    ensures AllFlushedFor(FlushAll(StageAll(d.staged, p, data, remaining)), p) <==> !Blocked(env, d, p, remaining)
  {
    hide StageAll, FlushAll;
    var staged2 := FlushAll(StageAll(d.staged, p, data, remaining));
    forall k: RowKey | k.path == p
      ensures k in staged2 && !staged2[k].flushed <==> DeadRow(d, k) && forall i :: i in remaining ==> k != KeyOf(p, i)
    {
      FlushedRows(d, p, data, remaining, k);
    }
  }

  /** One failure-free call covers every selected inbox, from any state the protocol
      can leave behind. */
  lemma CleanCallCovers(env: Env, d: Durable, p: OutboxPath)
    requires InjectiveKeys(env) && DurableInv(env, d) && Plan(env, p).Some?
    ensures AllWritten(env, CleanCall(env, d, p, env.content(p)), p)
  {
    hide Selected, FlushAll, AllFlushedFor, FlushedInboxes, Records, Collect;
    var data := env.content(p);
    var d' := CleanCall(env, d, p, data);
    var remaining := Remaining(env, d, data, Plan(env, p).value);
    forall i | i in Plan(env, p).value ensures Written(d', i, data) {
      if i in remaining {
        RestagedIsWritten(env, d, p, remaining, i);
      } else {
        DedupHit(env, d, data, i);
        WrittenGrows(d, d', i, data);
      }
    }
  }

  lemma RestagedIsWritten(env: Env, d: Durable, p: OutboxPath, remaining: seq<Inbox>, i: Inbox)
    requires DurableInv(env, d) && i in remaining
    ensures Written(FlushAndFinish(env, d, p, env.content(p), remaining), i, env.content(p))
  {
    hide StageAll, FlushAll, AllFlushedFor, FlushedInboxes, Records, SoundDedup;
    var d' := FlushAndFinish(env, d, p, env.content(p), remaining);
    var k := KeyOf(p, i);
    var staged1 := StageAll(d.staged, p, env.content(p), remaining);
    StageRow(d.staged, p, env.content(p), remaining, k);
    var w := Item(k, env.content(p));
    if staged1[k].flushed {
      assert w in d.writes;
    } else {
      assert w in Collect(staged1);
      assert w in multiset(Collect(staged1));
    }
    assert w in d'.writes && w.key.target.inbox == i && w.data == env.content(p);
  }

  /** The call removes the source exactly when nothing remained, or no dead-lettered row
      of the path stands outside the inboxes that remained; and then every selected
      inbox has its dedup record. */
  lemma CleanCallFinishesIff(env: Env, d: Durable, p: OutboxPath)
    requires Plan(env, p).Some? && p in d.outbox
    ensures var data := env.content(p);
            var d' := CleanCall(env, d, p, data);
            var remaining := Remaining(env, d, data, Plan(env, p).value);
            && (p !in d'.outbox <==> (env.dedupOn && remaining == []) || !Blocked(env, d, p, remaining))
            && (p !in d'.outbox && env.dedupOn ==> forall i :: i in Plan(env, p).value ==>
                (env.key(data), i) in d'.dedup)
  {
    hide Selected, StageAll, FlushAll, AllFlushedFor, Collect, Blocked, FlushedInboxes;
    var data := env.content(p);
    var remaining := Remaining(env, d, data, Plan(env, p).value);
    AllDoneUnlessBlocked(env, d, p, data, remaining);
  }

  /** What a failure-free call leaves unrecorded: nothing if it finishes, and otherwise
      exactly the remaining inboxes whose row was flushed before the call. */
  lemma UnrecordedAfter(env: Env, d: Durable, p: OutboxPath)
    requires env.dedupOn && InjectiveKeys(env) && DurableInv(env, d) && Plan(env, p).Some?
    ensures var data := env.content(p);
            var d' := CleanCall(env, d, p, data);
            var before := Remaining(env, d, data, Plan(env, p).value);
            var after := Remaining(env, d', data, Plan(env, p).value);
            forall i :: i in after <==> i in before && Blocked(env, d, p, before) && FlushedRow(d, KeyOf(p, i))
  {
    hide Selected, StageAll, FlushAll, AllFlushedFor, Blocked, SoundDedup, TruthfulMarks;
    var data := env.content(p);
    var d' := CleanCall(env, d, p, data);
    var before := Remaining(env, d, data, Plan(env, p).value);
    var after := Remaining(env, d', data, Plan(env, p).value);
    if before != [] {
      AllDoneUnlessBlocked(env, d, p, data, before);
      forall i | i in before
        ensures i in FlushedInboxes(Collect(StageAll(d.staged, p, data, before)), p) <==> !FlushedRow(d, KeyOf(p, i))
      {
        NewlyFlushed(env, d, p, before, i);
      }
      forall i ensures i in after <==> i in before && Blocked(env, d, p, before) && FlushedRow(d, KeyOf(p, i)) {
        assert (env.key(data), i) in d'.dedup <==>
          || (env.key(data), i) in d.dedup
          || i in FlushedInboxes(Collect(StageAll(d.staged, p, data, before)), p)
          || (!Blocked(env, d, p, before) && i in before);
      }
    }
  }

  lemma NewlyFlushed(env: Env, d: Durable, p: OutboxPath, remaining: seq<Inbox>, i: Inbox)
    requires FaithfulCopies(env, d) && i in remaining
    ensures i in FlushedInboxes(Collect(StageAll(d.staged, p, env.content(p), remaining)), p)
            <==> !FlushedRow(d, KeyOf(p, i))
  {
    hide StageAll;
    var staged1 := StageAll(d.staged, p, env.content(p), remaining);
    StageRow(d.staged, p, env.content(p), remaining, KeyOf(p, i));
    var k := KeyOf(p, i);
    if !FlushedRow(d, k) {
      assert Item(k, staged1[k].data) in Collect(staged1);
    }
    if i in FlushedInboxes(Collect(staged1), p) {
      var it :| it in Collect(staged1) && it.key.path == p && it.key.target.inbox == i;
      StageRow(d.staged, p, env.content(p), remaining, it.key);
      assert it.key == k;
    }
  }

  /** After a failure-free call no row of the path is pending, and restaging the
      inboxes still unrecorded creates none. */
  lemma NothingLeftToFlush(env: Env, d: Durable, p: OutboxPath, remaining: seq<Inbox>, again: seq<Inbox>, k: RowKey)
    requires FaithfulCopies(env, d) && k.path == p
    requires forall i :: i in again ==> i in remaining
    ensures var d' := FlushAndFinish(env, d, p, env.content(p), remaining);
            var staged := StageAll(d'.staged, p, env.content(p), again);
            k in staged ==> !Pending(staged[k])
  {
    hide StageAll, AllFlushedFor, FlushedInboxes, Records, Collect;
    var data := env.content(p);
    var d' := FlushAndFinish(env, d, p, data, remaining);
    StageRow(d.staged, p, data, remaining, k);
    FlushedRows(d, p, data, remaining, k);
    StageRow(d'.staged, p, data, again, k);
  }

  /** A repeated failure-free call writes no row of the path again. */
  lemma RepeatWritesNothing(env: Env, d: Durable, p: OutboxPath, item: Item)
    requires InjectiveKeys(env) && DurableInv(env, d) && Plan(env, p).Some? && item.key.path == p
    ensures var data := env.content(p);
            var d' := CleanCall(env, d, p, data);
            CleanCall(env, d', p, data).writes[item] == d'.writes[item]
  {
    hide Selected, StageAll, FlushAll, AllFlushedFor, FlushedInboxes, Records, SoundDedup, TruthfulMarks;
    var data := env.content(p);
    var inboxes := Plan(env, p).value;
    var remaining := Remaining(env, d, data, inboxes);
    if !(env.dedupOn && remaining == []) {
      var d' := FlushAndFinish(env, d, p, data, remaining);
      var again := Remaining(env, d', data, inboxes);
      if !(env.dedupOn && again == []) {
        NothingLeftToFlush(env, d, p, remaining, again, item.key);
        assert item !in Collect(StageAll(d'.staged, p, data, again));
      }
    }
  }

  /** A message is stuck when a dead letter blocks it and an inbox that remains was
      flushed earlier without its dedup record. */
  predicate Stuck(env: Env, d: Durable, p: OutboxPath) {
    Plan(env, p).Some? &&
    var remaining := Remaining(env, d, env.content(p), Plan(env, p).value);
    Blocked(env, d, p, remaining) && exists i :: i in remaining && FlushedRow(d, KeyOf(p, i))
  }

  lemma BlockedStays(env: Env, d: Durable, p: OutboxPath, before: seq<Inbox>, after: seq<Inbox>, i: Inbox)
    requires Blocked(env, d, p, before) && (forall j :: j in after ==> j in before)
    requires i in before && FlushedRow(d, KeyOf(p, i))
    ensures var d' := FlushAndFinish(env, d, p, env.content(p), before);
            Blocked(env, d', p, after) && FlushedRow(d', KeyOf(p, i))
  {
    hide StageAll, FlushAll, AllFlushedFor, FlushedInboxes, Records, Collect;
    var data := env.content(p);
    var d' := FlushAndFinish(env, d, p, data, before);
    var k :| k in d.staged && DeadRow(d, k) && k.path == p && forall j :: j in before ==> k != KeyOf(p, j);
    FlushedRows(d, p, data, before, k);
    FlushedRows(d, p, data, before, KeyOf(p, i));
    assert DeadRow(d', k);
  }

  /** With exact dedup on, the second failure-free call decides: it finishes the message
      unless it is stuck, and a stuck message stays stuck, its source in the outbox,
      through every further failure-free call for it.  Only something outside these calls
      frees it, such as a record made through another path. */
  lemma SecondCallDecides(env: Env, d: Durable, p: OutboxPath)
    requires env.dedupOn && InjectiveKeys(env) && DurableInv(env, d) && Plan(env, p).Some? && p in d.outbox
    ensures var data := env.content(p);
            var d' := CleanCall(env, d, p, data);
            var d'' := CleanCall(env, d', p, data);
            && (p !in d''.outbox <==> !Stuck(env, d, p))
            && (Stuck(env, d, p) ==> Stuck(env, d', p) && p in d'.outbox)
  {
    hide Selected, CleanCall, Blocked, SoundDedup, TruthfulMarks, FaithfulCopies;
    var data := env.content(p);
    var inboxes := Plan(env, p).value;
    var d' := CleanCall(env, d, p, data);
    var before := Remaining(env, d, data, inboxes);
    var after := Remaining(env, d', data, inboxes);
    CleanCallFinishesIff(env, d, p);
    UnrecordedAfter(env, d, p);
    if Stuck(env, d, p) {
      var i :| i in before && FlushedRow(d, KeyOf(p, i));
      CleanCallFlushes(env, d, p);
      BlockedStays(env, d, p, before, after, i);
      assert i in after;
      assert Stuck(env, d', p);
      CleanCallFinishesIff(env, d', p);
    } else if p in d'.outbox {
      assert forall i :: i !in after;
      SomeElement(after);
      CleanCallFinishesIff(env, d', p);
    } else {
      CleanCallKeepsRemoved(env, d', p);
    }
  }

  // ------------------------------------------------------------- any number of calls

  lemma {:induction false} StageKeepsInv(env: Env, d: Durable, p: OutboxPath, inboxes: seq<Inbox>)
    requires DurableInv(env, d)
    ensures DurableInv(env, d.(staged := StageAll(d.staged, p, env.content(p), inboxes)))
    decreases |inboxes|
  {
    if inboxes != [] {
      var d1 := d.(staged := Upsert(d.staged, KeyOf(p, inboxes[0]), env.content(p)));
      forall r | r in d1.dedup ensures Backed(env, d1, r) { assert Backed(env, d, r); }
      StageKeepsInv(env, d1, p, inboxes[1..]);
    }
  }

  lemma FlushKeepsInv(env: Env, d: Durable)
    requires DurableInv(env, d)
    ensures DurableInv(env, d.(staged := FlushAll(d.staged), writes := d.writes + multiset(Collect(d.staged))))
  {
    var d' := d.(staged := FlushAll(d.staged), writes := d.writes + multiset(Collect(d.staged)));
    forall r | r in d'.dedup ensures Backed(env, d', r) {
      assert Backed(env, d, r);
      var w :| w in d.writes && w.key.target.inbox == r.1 && env.key(w.data) == r.0;
      assert w in d'.writes;
    }
    forall k | k in d'.staged && d'.staged[k].flushed ensures Item(k, d'.staged[k].data) in d'.writes {
      if !d.staged[k].flushed { assert Item(k, d.staged[k].data) in Collect(d.staged); }
    }
  }

  lemma RecordsKeepInv(env: Env, d: Durable, p: OutboxPath, inboxes: set<Inbox>, outbox: map<OutboxPath, Bytes>)
    requires DurableInv(env, d) && outbox.Keys <= d.outbox.Keys
    requires forall q :: q in outbox ==> outbox[q] == d.outbox[q]
    requires forall i :: i in inboxes ==> Written(d, i, env.content(p))
    ensures DurableInv(env, d.(dedup := d.dedup + Records(env, env.content(p), inboxes), outbox := outbox))
    ensures DurableInv(env, d.(outbox := outbox))
  {
    var d' := d.(dedup := d.dedup + Records(env, env.content(p), inboxes), outbox := outbox);
    forall r | r in d'.dedup ensures Backed(env, d', r) {
      if r in d.dedup {
        assert Backed(env, d, r);
      } else {
        var w :| w in d.writes && w.key.target.inbox == r.1 && w.data == env.content(p);
        assert w in d'.writes;
      }
    }
    forall r | r in d.dedup ensures Backed(env, d.(outbox := outbox), r) { assert Backed(env, d, r); }
  }

  /** Every inbox that a flush and its call record has the bytes. */
  lemma RecordedIsWritten(env: Env, d: Durable, p: OutboxPath, remaining: seq<Inbox>, i: Inbox)
    requires DurableInv(env, d)
    requires var d1 := d.(staged := StageAll(d.staged, p, env.content(p), remaining));
             i in FlushedInboxes(Collect(d1.staged), p) || i in remaining
    ensures var d1 := d.(staged := StageAll(d.staged, p, env.content(p), remaining));
            Written(d1.(staged := FlushAll(d1.staged), writes := d1.writes + multiset(Collect(d1.staged))), i,
                env.content(p))
  {
    hide StageAll, FlushAll, SoundDedup;
    var d1 := d.(staged := StageAll(d.staged, p, env.content(p), remaining));
    var d2 := d1.(staged := FlushAll(d1.staged), writes := d1.writes + multiset(Collect(d1.staged)));
    if i in FlushedInboxes(Collect(d1.staged), p) {
      StageKeepsInv(env, d, p, remaining);
      var it :| it in Collect(d1.staged) && it.key.path == p && it.key.target.inbox == i;
      assert it in d2.writes && it.data == env.content(p);
    } else {
      hide AllFlushedFor, FlushedInboxes, Records;
      RestagedIsWritten(env, d, p, remaining, i);
      var f := FlushAndFinish(env, d, p, env.content(p), remaining);
      assert f.writes == d2.writes;
      WrittenGrows(f, d2, i, env.content(p));
    }
  }

  /** A failure-free call keeps the protocol's invariant. */
  lemma CleanCallKeepsInv(env: Env, d: Durable, p: OutboxPath)
    requires DurableInv(env, d)
    ensures DurableInv(env, CleanCall(env, d, p, env.content(p)))
  {
    hide Selected, StageAll, FlushAll, AllFlushedFor, FlushedInboxes, DurableInv, Collect, Records, Written;
    var data := env.content(p);
    if Plan(env, p).Some? {
      var remaining := Remaining(env, d, data, Plan(env, p).value);
      if env.dedupOn && remaining == [] {
        RecordsKeepInv(env, d, p, {}, d.outbox - {p});
      } else {
        var d1 := d.(staged := StageAll(d.staged, p, data, remaining));
        var d2 := d1.(staged := FlushAll(d1.staged), writes := d1.writes + multiset(Collect(d1.staged)));
        var allDone := AllFlushedFor(d2.staged, p);
        var recorded := FlushedInboxes(Collect(d1.staged), p) + if allDone then Elements(remaining) else {};
        StageKeepsInv(env, d, p, remaining);
        FlushKeepsInv(env, d1);
        forall i | i in recorded ensures Written(d2, i, data) { RecordedIsWritten(env, d, p, remaining, i); }
        RecordsKeepInv(env, d2, p, recorded, if allDone then d.outbox - {p} else d.outbox);
      }
    }
  }

  /** `n` failure-free calls for the message, one after the other. */
  function CleanCalls(env: Env, d: Durable, p: OutboxPath, n: nat): Durable {
    if n == 0 then d else CleanCall(env, CleanCalls(env, d, p, n - 1), p, env.content(p))
  }

  /** A message is still in its outbox after any number of at least two failure-free calls
      exactly when it was stuck before them. */
  lemma {:induction false} StuckThroughCalls(env: Env, d: Durable, p: OutboxPath, n: nat)
    requires env.dedupOn && InjectiveKeys(env) && DurableInv(env, d) && Plan(env, p).Some? && p in d.outbox
    ensures DurableInv(env, CleanCalls(env, d, p, n))
    ensures Stuck(env, d, p) ==> Stuck(env, CleanCalls(env, d, p, n), p) && p in CleanCalls(env, d, p, n).outbox
    ensures n >= 2 && !Stuck(env, d, p) ==> p !in CleanCalls(env, d, p, n).outbox
  {
    hide Stuck, DurableInv, CleanCall, Plan;
    if n > 0 {
      var before := CleanCalls(env, d, p, n - 1);
      StuckThroughCalls(env, d, p, n - 1);
      CleanCallKeepsInv(env, before, p);
      if Stuck(env, d, p) {
        SecondCallDecides(env, before, p);
      } else if n > 2 {
        CleanCallKeepsRemoved(env, before, p);
      } else if n == 2 {
        assert before == CleanCall(env, CleanCalls(env, d, p, 0), p, env.content(p));
        SecondCallDecides(env, d, p);
      }
    }
  }

  lemma CleanCallFlushes(env: Env, d: Durable, p: OutboxPath)
    requires Plan(env, p).Some?
    ensures var remaining := Remaining(env, d, env.content(p), Plan(env, p).value);
            remaining != [] ==>
                CleanCall(env, d, p, env.content(p)) == FlushAndFinish(env, d, p, env.content(p), remaining)
  {
    hide Selected, FlushAndFinish;
  }

  lemma CleanCallKeepsRemoved(env: Env, d: Durable, p: OutboxPath)
    requires p !in d.outbox
    ensures p !in CleanCall(env, d, p, env.content(p)).outbox
  {
    hide Selected, StageAll, FlushAll, AllFlushedFor, FlushedInboxes, Records, Collect;
  }

  lemma SomeElement(s: seq<Inbox>)
    ensures s != [] ==> exists i :: i in s
  {
    if s != [] { assert s[0] in s; }
  }

  /** The theorems above speak about something: an environment with a routable message. */
  lemma RoutableMessageExists() returns (env: Env, d: Durable, p: OutboxPath)
    ensures env.dedupOn && InjectiveKeys(env) && DurableInv(env, d) && Plan(env, p).Some? && p in d.outbox
  {
    var fm := Frontmatter("1", "report", [], map[]);
    env := Env((q: OutboxPath) => q.name, (data: Bytes) => Some(fm), (data: Bytes) => data,
               [ResolvedRoute("report", "out", ["in"])], true);
    p := OutboxPath("out", "m");
    d := Durable(map[p := "m"], map[], {}, map[], multiset{}, multiset{}, {p});
    assert VALID_KINDS[1] == "report";
  }
}
