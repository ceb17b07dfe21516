/** Quantitative properties of the flush loop under concurrency: how often a row can be
    retried and how often its bytes can be written. */
module FlushBounds {
  import opened Text
  import opened Delivery
  import opened Safety

  // ---------------------------------------------------------- outstanding snapshots

  predicate Flushing(p: Proc) {
    p.Writing? || p.Marking? || p.Bumping?
  }

  function Keys(items: set<Item>): set<RowKey> {
    set it | it in items :: it.key
  }

  /** The rows a worker's snapshot still has to settle. */
  function Held(p: Proc): set<RowKey> {
    match p
    case Writing(_, items, _) => Keys(items)
    case Marking(_, item, items, _) => Keys(items) + {item.key}
    case Bumping(_, item, items, _) => Keys(items) + {item.key}
    case _ => {}
  }

  function Flushers(s: State): set<nat> {
    set w | w in s.procs && Flushing(s.procs[w])
  }

  function Holders(s: State, k: RowKey): set<nat> {
    set w | w in s.procs && k in Held(s.procs[w])
  }

  /** A snapshot lists a row once. */
  predicate DistinctKeys(p: Proc) {
    && (Flushing(p) ==> forall a, b :: a in p.items && b in p.items && a.key == b.key ==> a == b)
    && (p.Marking? || p.Bumping? ==> p.item.key !in Keys(p.items))
  }

  /** At most `n` snapshots are open in every state of the run. */
  predicate BoundedRun(env: Env, s: State, actions: seq<Action>, n: nat)
    decreases |actions|
  {
    |Flushers(s)| <= n && (actions == [] || BoundedRun(env, Next(env, s, actions[0]), actions[1..], n))
  }

  predicate RetryInv(s: State, n: nat) {
    && (forall w :: w in s.procs ==> DistinctKeys(s.procs[w]))
    && (forall k :: k in s.d.staged ==> s.d.staged[k].retry + |Holders(s, k)| <= n + 2)
  }

  lemma HoldersAreFlushers(s: State, k: RowKey)
    ensures |Holders(s, k)| <= |Flushers(s)|
  {
    SubsetSmaller(Holders(s, k), Flushers(s));
  }

  /** What a worker step may do to a row and to who holds it. */
  ghost predicate RowStep(d: Durable, p: Proc, d': Durable, q: Option<Proc>, k: RowKey) {
    k in d'.staged ==>
      || (&& k in d.staged && d'.staged[k].retry == d.staged[k].retry
          && (q.Some? && k in Held(q.value) ==> k in Held(p)))
      || d'.staged[k].retry < MAX_DELIVERY_RETRY
      || (&& k in d.staged && d'.staged[k].retry == d.staged[k].retry + 1
          && k in Held(p) && (q.Some? ==> k !in Held(q.value)))
  }

  lemma {:induction false} StageRows(staged: Staged, path: OutboxPath, data: Bytes, inboxes: seq<Inbox>, k: RowKey)
    ensures k in staged ==> k in StageAll(staged, path, data, inboxes)
    ensures k in StageAll(staged, path, data, inboxes) ==>
              || (k in staged && StageAll(staged, path, data, inboxes)[k] == staged[k])
              || StageAll(staged, path, data, inboxes)[k] == Row(data, false, 0)
    decreases |inboxes|
  {
    if inboxes != [] {
      StageRows(Upsert(staged, KeyOf(path, inboxes[0]), data), path, data, inboxes[1..], k);
    }
  }

  lemma FlushRowStep(d: Durable, p: Proc, ok: bool, pick: Item, k: RowKey)
    requires p.Collecting? || p.Writing? || p.Marking? || p.Bumping?
    requires DistinctKeys(p)
    ensures var e := FlushStep(d, p, ok, pick);
            RowStep(d, p, e.d, e.next, k) && (e.next.Some? ==> DistinctKeys(e.next.value))
  {
    hide InboxesOf;
    var e := FlushStep(d, p, ok, pick);
    if p.Writing? && pick in p.items {
      assert Keys(p.items) == Keys(p.items - {pick}) + {pick.key};
    }
    if p.Collecting? && ok {
      if k in Held(e.next.value) {
        var it :| it in Collect(d.staged) && it.key == k;
      }
    }
  }

  lemma CallRowStep(env: Env, d: Durable, p: Proc, ok: bool, name: string, k: RowKey)
    requires !(p.Collecting? || p.Writing? || p.Marking? || p.Bumping?)
    ensures var e := ProcStep(env, d, p, ok, name, Item(k, ""));
            RowStep(d, p, e.d, e.next, k) && (e.next.Some? ==> DistinctKeys(e.next.value) && !Flushing(e.next.value))
  {
    hide StageAll, Selected, DedupTargets, AllFlushedFor, InboxesOf;
    if p.Staging? { StageRows(d.staged, p.call.path, p.call.data, p.remaining, k); }
  }

  lemma PickIrrelevant(env: Env, d: Durable, p: Proc, ok: bool, name: string, a: Item, b: Item)
    requires !(p.Collecting? || p.Writing? || p.Marking? || p.Bumping?)
    ensures ProcStep(env, d, p, ok, name, a) == ProcStep(env, d, p, ok, name, b)
  {
  }

  lemma RowBound(s: State, s': State, w: nat, n: nat, k: RowKey)
    requires RetryInv(s, n) && |Flushers(s')| <= n && w in s.procs && k in s'.d.staged
    requires forall v :: v in s'.procs && v != w ==> v in s.procs && s'.procs[v] == s.procs[v]
    requires RowStep(s.d, s.procs[w], s'.d, if w in s'.procs then Some(s'.procs[w]) else None, k)
    ensures s'.d.staged[k].retry + |Holders(s', k)| <= n + 2
  {
    hide Held, Flushers;
    HoldersAreFlushers(s', k);
    if k in s.d.staged && s'.d.staged[k].retry == s.d.staged[k].retry && Holders(s', k) <= Holders(s, k) {
      SubsetSmaller(Holders(s', k), Holders(s, k));
    } else if s'.d.staged[k].retry >= MAX_DELIVERY_RETRY {
      assert w in Holders(s, k);
      assert Holders(s', k) <= Holders(s, k) - {w};
      SubsetSmaller(Holders(s', k), Holders(s, k) - {w});
    }
  }

  lemma NextKeepsRetryInv(env: Env, s: State, a: Action, n: nat)
    requires RetryInv(s, n) && |Flushers(Next(env, s, a))| <= n
    ensures RetryInv(Next(env, s, a), n)
  {
    hide ProcStep, PruneFlushed, PurgeDeadLetters, Flushers, RowStep;
    var s' := Next(env, s, a);
    if a.Step? && a.w in s.procs {
      var p := s.procs[a.w];
      var e := ProcStep(env, s.d, p, a.ok, a.name, a.pick);
      StepRow(env, s.d, p, a, a.pick.key);
      forall k | k in s'.d.staged ensures s'.d.staged[k].retry + |Holders(s', k)| <= n + 2 {
        StepRow(env, s.d, p, a, k);
        RowBound(s, s', a.w, n, k);
      }
    } else {
      OtherActionsKeepRows(env, s, a);
      forall k | k in s'.d.staged ensures s'.d.staged[k].retry + |Holders(s', k)| <= n + 2 {
        SubsetSmaller(Holders(s', k), Holders(s, k));
      }
    }
  }

  lemma StepRow(env: Env, d: Durable, p: Proc, a: Action, k: RowKey)
    requires a.Step? && DistinctKeys(p)
    ensures var e := ProcStep(env, d, p, a.ok, a.name, a.pick);
            RowStep(d, p, e.d, e.next, k) && (e.next.Some? ==> DistinctKeys(e.next.value))
  {
    hide RowStep, DistinctKeys, FlushStep, CallStep, CallerStep;
    if p.Collecting? || p.Writing? || p.Marking? || p.Bumping? {
      FlushRowStep(d, p, a.ok, a.pick, k);
    } else {
      CallRowStep(env, d, p, a.ok, a.name, k);
      PickIrrelevant(env, d, p, a.ok, a.name, a.pick, Item(k, ""));
    }
  }

  lemma OtherActionsKeepRows(env: Env, s: State, a: Action)
    requires !(a.Step? && a.w in s.procs)
    ensures var s' := Next(env, s, a);
            && (forall w :: w in s'.procs ==>
                  (w in s.procs && s'.procs[w] == s.procs[w]) || (Held(s'.procs[w]) == {} && DistinctKeys(s'.procs[w])))
            && (forall k :: Holders(s', k) <= Holders(s, k))
            && (forall k :: k in s'.d.staged ==> k in s.d.staged && s'.d.staged[k] == s.d.staged[k])
  {
  }

  lemma {:induction false} RetryAlongRun(env: Env, s: State, actions: seq<Action>, n: nat)
    requires RetryInv(s, n) && BoundedRun(env, s, actions, n)
    ensures RetryInv(Run(env, s, actions), n)
    decreases |actions|
  {
    hide Next, RetryInv, Flushers;
    if actions != [] {
      NextKeepsRetryInv(env, s, actions[0], n);
      RetryAlongRun(env, Next(env, s, actions[0]), actions[1..], n);
    }
  }

  /** With at most `n` snapshots open at a time, whatever else happens, a row's retry
      count plus the snapshots that may still raise it never exceeds n + 2; a single
      flusher therefore never takes a row beyond the limit of three. */
  lemma RetryBounded(env: Env, actions: seq<Action>, n: nat, k: RowKey)
    requires BoundedRun(env, EMPTY, actions, n)
    ensures var s := Run(env, EMPTY, actions);
            k in s.d.staged ==> s.d.staged[k].retry + |Holders(s, k)| <= n + 2
  {
    RetryAlongRun(env, EMPTY, actions, n);
  }

  // ------------------------------------------------------------ duplicate accounting

  predicate InMark(s: State, k: RowKey) {
    exists w :: w in s.procs && s.procs[w].Marking? && s.procs[w].item.key == k
  }

  function Bit(b: bool): nat { if b then 1 else 0 }

  predicate FlushedRow(d: Durable, k: RowKey) {
    k in d.staged && d.staged[k].flushed
  }

  /** Every write of a row is accounted for: by a lost mark, by the mark about to
      happen, or by the row being flushed. */
  ghost predicate Accounted(env: Env, s: State, k: RowKey) {
    s.d.writes[Item(k, env.content(k.path))] == s.d.lost[k] + Bit(InMark(s, k)) + Bit(FlushedRow(s.d, k))
  }

  /** The open snapshot holds only rows that are present and unflushed. */
  predicate FreshSnapshot(d: Durable, p: Proc) {
    forall k :: k in Held(p) ==> k in d.staged && !d.staged[k].flushed
  }

  predicate OneFlusher(s: State) {
    forall v, w :: v in s.procs && w in s.procs && Flushing(s.procs[v]) && Flushing(s.procs[w]) ==> v == w
  }

  ghost predicate AccountInv(env: Env, s: State) {
    && (forall k :: Accounted(env, s, k))
    && (forall w :: w in s.procs ==> FreshSnapshot(s.d, s.procs[w]) && DistinctKeys(s.procs[w]))
  }

  /** One flusher at a time and no pruning. */
  predicate CalmRun(env: Env, s: State, actions: seq<Action>)
    decreases |actions|
  {
    && OneFlusher(s)
    && (actions == [] || (!actions[0].Prune? && CalmRun(env, Next(env, s, actions[0]), actions[1..])))
  }

  /** The flush steps, which move one unit between the three accounts. */
  lemma FlushAccounts(env: Env, s: State, w: nat, ok: bool, pick: Item, k: RowKey)
    requires w in s.procs && OneFlusher(s) && AccountInv(env, s)
    requires Flushing(s.procs[w]) && WorkerInv(env, s.d, s.procs[w])
    ensures var e := FlushStep(s.d, s.procs[w], ok, pick);
            Accounted(env, State(e.d, SetProc(s.procs, w, e.next)), k)
  {
    hide JobOk, FlushedOk, InboxesOf;
    var p := s.procs[w];
    var e := FlushStep(s.d, p, ok, pick);
    var s' := State(e.d, SetProc(s.procs, w, e.next));
    assert Accounted(env, s, k);
    assert InMark(s, k) <==> p.Marking? && p.item.key == k;
    if w in s'.procs && s'.procs[w].Marking? { assert InMark(s', s'.procs[w].item.key); }
    assert InMark(s', k) <==> w in s'.procs && s'.procs[w].Marking? && s'.procs[w].item.key == k;
    if p.Marking? { assert p.item.key in Held(p); }
  }

  /** Under one content per path, staging never turns a flushed row back, nor drops one. */
  lemma {:induction false} StageKeepsFlushed(env: Env, staged: Staged, path: OutboxPath, inboxes: seq<Inbox>, k: RowKey)
    requires forall j :: j in staged ==> staged[j].data == env.content(j.path)
    ensures var staged' := StageAll(staged, path, env.content(path), inboxes);
            && (k in staged ==> k in staged')
            && ((k in staged' && staged'[k].flushed) <==> (k in staged && staged[k].flushed))
    decreases |inboxes|
  {
    if inboxes != [] {
      StageKeepsFlushed(env, Upsert(staged, KeyOf(path, inboxes[0]), env.content(path)), path, inboxes[1..], k);
    }
  }

  /** A step outside the flush loop leaves the three accounts of a row alone. */
  lemma QuietStep(env: Env, d: Durable, p: Proc, ok: bool, name: string, pick: Item, k: RowKey)
    requires FaithfulCopies(env, d) && !Flushing(p) && WorkerInv(env, d, p)
    ensures var e := ProcStep(env, d, p, ok, name, pick);
            && e.d.writes == d.writes && e.d.lost == d.lost
            && (FlushedRow(e.d, k) <==> FlushedRow(d, k))
            && (k in d.staged ==> k in e.d.staged)
            && (e.next.Some? ==> !e.next.value.Marking? && !e.next.value.Bumping?)
            && (e.next.Some? ==> (e.next.value.Writing? ==> e.d == d && e.next.value.items == Collect(d.staged)))
  {
    hide StageAll, Plan, Selected, DedupTargets, AllFlushedFor, InboxesOf, Written, AllSecured, KeptElsewhere, Collect;
    if p.Staging? { StageKeepsFlushed(env, d.staged, p.call.path, p.remaining, k); }
  }

  /** A crash between a write and its mark is one lost mark. */
  lemma KillAccounts(env: Env, s: State, w: nat, k: RowKey)
    requires AccountInv(env, s) && OneFlusher(s) && w in s.procs
    ensures Accounted(env, Next(env, s, Kill(w)), k)
  {
    hide Held;
    var s' := Next(env, s, Kill(w));
    assert Accounted(env, s, k);
    if s.procs[w].Marking? {
      assert !InMark(s', k);
      assert InMark(s, k) <==> s.procs[w].item.key == k;
    } else {
      SameMarks(s, s', k);
    }
  }

  lemma SameMarks(s: State, s': State, k: RowKey)
    requires forall w :: w in s.procs && s.procs[w].Marking? ==> w in s'.procs && s'.procs[w] == s.procs[w]
    requires forall w :: w in s'.procs && s'.procs[w].Marking? ==> w in s.procs && s'.procs[w] == s.procs[w]
    ensures InMark(s, k) <==> InMark(s', k)
  {
  }

  lemma OtherStepAccounts(env: Env, s: State, a: Action, k: RowKey)
    requires Inv(env, s) && AccountInv(env, s) && OneFlusher(s) && !a.Prune? && !a.Purge?
    requires !(a.Step? && a.w in s.procs && Flushing(s.procs[a.w]))
    ensures Accounted(env, Next(env, s, a), k)
  {
    hide WorkerInv, Kept, ProcStep, SoundDedup, TruthfulMarks, InMark, FreshSnapshot, DistinctKeys;
    var s' := Next(env, s, a);
    assert Accounted(env, s, k);
    if a.Kill? && a.w in s.procs {
      KillAccounts(env, s, a.w, k);
    } else {
      if a.Step? && a.w in s.procs { QuietStep(env, s.d, s.procs[a.w], a.ok, a.name, a.pick, k); }
      SameMarks(s, s', k);
    }
  }

  /** Snapshots stay fresh: only the flusher itself marks rows, and it lets go of the row
      it marks. */
  lemma SnapshotsStayFresh(env: Env, s: State, a: Action, v: nat)
    requires Inv(env, s) && AccountInv(env, s) && OneFlusher(s) && OneFlusher(Next(env, s, a)) && !a.Prune? && !a.Purge?
    requires v in Next(env, s, a).procs
    ensures var s' := Next(env, s, a); FreshSnapshot(s'.d, s'.procs[v]) && DistinctKeys(s'.procs[v])
  {
    hide WorkerInv, Kept, ProcStep, SoundDedup, TruthfulMarks, DistinctKeys;
    var s' := Next(env, s, a);
    if a.Step? && a.w in s.procs {
      var p := s.procs[a.w];
      StepRow(env, s.d, p, a, a.pick.key);
      if Flushing(p) {
        FlusherLetsGo(s.d, p, a.ok, a.pick);
        FlushStepIsProcStep(env, s.d, p, a);
        assert v != a.w ==> Held(s.procs[v]) == {};
      } else {
        forall k ensures FlushedRow(s'.d, k) <==> FlushedRow(s.d, k)
                 ensures k in s.d.staged ==> k in s'.d.staged
        {
          QuietStep(env, s.d, p, a.ok, a.name, a.pick, k);
        }
        QuietStep(env, s.d, p, a.ok, a.name, a.pick, a.pick.key);
        FreshFromRows(s, s', a.w, v);
      }
    } else {
      OtherActionsKeepRows(env, s, a);
    }
  }

  lemma FlushStepIsProcStep(env: Env, d: Durable, p: Proc, a: Action)
    requires a.Step? && Flushing(p)
    ensures ProcStep(env, d, p, a.ok, a.name, a.pick) == FlushStep(d, p, a.ok, a.pick)
  {
    hide FlushStep;
  }

  lemma FlusherLetsGo(d: Durable, p: Proc, ok: bool, pick: Item)
    requires Flushing(p) && FreshSnapshot(d, p) && DistinctKeys(p)
    ensures var e := FlushStep(d, p, ok, pick); e.next.Some? ==> FreshSnapshot(e.d, e.next.value)
  {
    hide InboxesOf;
  }

  lemma FreshFromRows(s: State, s': State, w: nat, v: nat)
    requires v in s'.procs && w in s.procs
    requires forall u :: u in s.procs ==> FreshSnapshot(s.d, s.procs[u])
    requires v != w ==> v in s.procs && s.procs[v] == s'.procs[v]
    requires v == w && s'.procs[v].Writing? ==> s'.d == s.d && s'.procs[v].items == Collect(s.d.staged)
    requires v == w ==> !s'.procs[v].Marking? && !s'.procs[v].Bumping?
    requires forall k :: (FlushedRow(s'.d, k) <==> FlushedRow(s.d, k)) && (k in s.d.staged ==> k in s'.d.staged)
    ensures FreshSnapshot(s'.d, s'.procs[v])
  {
    forall k | k in Held(s'.procs[v]) ensures k in s'.d.staged && !s'.d.staged[k].flushed {
      if v == w {
        var it :| it in s'.procs[v].items && it.key == k;
      } else {
        assert k in Held(s.procs[v]);
        assert FlushedRow(s'.d, k) <==> FlushedRow(s.d, k);
      }
    }
  }

  lemma NextKeepsAccounts(env: Env, s: State, a: Action)
    requires Inv(env, s) && AccountInv(env, s) && OneFlusher(s) && OneFlusher(Next(env, s, a)) && !a.Prune? && !a.Purge?
    ensures AccountInv(env, Next(env, s, a))
  {
    hide Inv, Accounted, FreshSnapshot, DistinctKeys, OneFlusher, ProcStep, FlushStep;
    var s' := Next(env, s, a);
    forall k ensures Accounted(env, s', k) {
      if a.Step? && a.w in s.procs && Flushing(s.procs[a.w]) {
        InvGivesWorker(env, s, a.w);
        FlushAccounts(env, s, a.w, a.ok, a.pick, k);
        FlushStepIsProcStep(env, s.d, s.procs[a.w], a);
      } else {
        OtherStepAccounts(env, s, a, k);
      }
    }
    forall v | v in s'.procs ensures FreshSnapshot(s'.d, s'.procs[v]) && DistinctKeys(s'.procs[v]) {
      SnapshotsStayFresh(env, s, a, v);
    }
  }

  lemma InvGivesWorker(env: Env, s: State, w: nat)
    requires Inv(env, s) && w in s.procs
    ensures WorkerInv(env, s.d, s.procs[w])
  {
    hide WorkerInv, DurableInv, Kept;
  }

  lemma {:induction false} AccountsAlongRun(env: Env, s: State, actions: seq<Action>)
    requires InjectiveKeys(env) && Inv(env, s) && AccountInv(env, s)
    requires AdmissibleRun(env, s, actions) && CalmRun(env, s, actions)
    ensures AccountInv(env, Run(env, s, actions))
    decreases |actions|
  {
    hide Inv, Next, AccountInv, OneFlusher;
    if actions != [] {
      var s' := Next(env, s, actions[0]);
      assert OneFlusher(s) && OneFlusher(s');
      NextPreservesInv(env, s, actions[0]);
      NextKeepsAccounts(env, s, actions[0]);
      AccountsAlongRun(env, s', actions[1..]);
    }
  }

  /** Duplicates are exactly the lost marks: with one flusher and no pruning, a row's
      bytes are written once per lost mark, plus once for the mark that stands or is
      about to be made; so at most one write more than marks were lost. */
  lemma WritesBoundedByLostMarks(env: Env, actions: seq<Action>, k: RowKey)
    requires InjectiveKeys(env) && AdmissibleRun(env, EMPTY, actions) && CalmRun(env, EMPTY, actions)
    ensures var s := Run(env, EMPTY, actions);
            && Accounted(env, s, k)
            && s.d.writes[Item(k, env.content(k.path))] <= s.d.lost[k] + 1
  {
    hide Next, Inv, Run, AdmissibleRun, CalmRun;
    var s := Run(env, EMPTY, actions);
    EmptyAccounted(env);
    InvInitially(env);
    AccountsAlongRun(env, EMPTY, actions);
    assert Accounted(env, s, k);
    if w :| w in s.procs && s.procs[w].Marking? && s.procs[w].item.key == k {
      assert FreshSnapshot(s.d, s.procs[w]);
      assert k in Held(s.procs[w]);
    }
  }

  lemma EmptyAccounted(env: Env)
    ensures AccountInv(env, EMPTY)
  {
  }
}
