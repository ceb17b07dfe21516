/** What a scan of an outbox and a round of retries achieve when every one of their own
    operations succeeds. */
module CleanRuns {
  import opened Text
  import opened Delivery
  import opened Safety
  import opened FlushBounds
  import opened FlushRuns
  import opened Convergence

  /** The message can be read, parsed and routed. */
  predicate Routable(env: Env, d: Durable, path: OutboxPath) {
    path in d.outbox && Selected(env, path, d.outbox[path]).Some?
  }

  /** One outbox file: delivered if it can be, otherwise moved to the queue. */
  function HandledClean(env: Env, d: Durable, path: OutboxPath, name: string): Durable {
    if path !in d.outbox then d
    else if Routable(env, d, path) then CleanCall(env, d, path, d.outbox[path])
    else Enqueue(d, name, Call(path, d.outbox[path], FromOutbox)).(outbox := d.outbox - {path})
  }

  /** The first `n` files of a scan, without those the filter claims to know. */
  function ScanClean(env: Env, d: Durable, files: seq<OutboxPath>, mayContain: OutboxPath -> bool, names: seq<string>,
      n: nat): Durable
    requires n <= |files| == |names|
  {
    if n == 0 then d
    else
      var before := ScanClean(env, d, files, mayContain, names, n - 1);
      if mayContain(files[n - 1]) then before else HandledClean(env, before, files[n - 1], names[n - 1])
  }

  /** The files of the first `n` that are handled and cannot be delivered. */
  function Unserved(env: Env, d: Durable, files: seq<OutboxPath>, mayContain: OutboxPath -> bool, n: nat): set<nat>
    requires n <= |files|
  {
    set i: nat | i < n && !mayContain(files[i]) && !Routable(env, d, files[i])
  }

  predicate Distinct<T(==)>(s: seq<T>) {
    forall m, n :: 0 <= m < n < |s| ==> s[m] != s[n]
  }

  predicate FreshNames(queue: map<string, QueueRow>, names: seq<string>) {
    (forall n :: 0 <= n < |names| ==> names[n] !in queue) && Distinct(names)
  }

  /** One claimed entry: delivered and resolved, or its count raised. */
  function RetriedClean(env: Env, d: Durable, name: string): Durable
    requires name in d.queue
  {
    var row := d.queue[name];
    CleanCall(env, d, row.path, row.data).(queue := d.queue[name := Reported(env, row)])
  }

  function Reported(env: Env, row: QueueRow): QueueRow {
    if Selected(env, row.path, row.data).Some? then row.(resolved := true) else row.(retry := row.retry + 1)
  }

  function RetryClean(env: Env, d: Durable, entries: seq<string>, n: nat): (d': Durable)
    requires n <= |entries| && forall i :: 0 <= i < |entries| ==> entries[i] in d.queue
    ensures d'.queue.Keys == d.queue.Keys
  {
    if n == 0 then d else RetriedClean(env, RetryClean(env, d, entries, n - 1), entries[n - 1])
  }

  function Deliverable(env: Env, d: Durable, entries: seq<string>, n: nat): set<nat>
    requires n <= |entries| && forall i :: 0 <= i < |entries| ==> entries[i] in d.queue
  {
    set i: nat | i < n && Selected(env, d.queue[entries[i]].path, d.queue[entries[i]].data).Some?
  }

  // ------------------------------------------------------------------ one step's frame

  lemma CleanCallFrame(env: Env, d: Durable, p: OutboxPath, data: Bytes)
    ensures var d' := CleanCall(env, d, p, data);
            && d'.queue == d.queue && d.writes <= d'.writes
            && (d'.outbox == d.outbox || d'.outbox == d.outbox - {p})
  {
    hide Selected, StageAll, FlushAll, AllFlushedFor, FlushedInboxes, Collect, Records, Remaining;
  }

  lemma HandledFrame(env: Env, d: Durable, path: OutboxPath, name: string)
    ensures var d' := HandledClean(env, d, path, name);
            && d.writes <= d'.writes
            && (d'.outbox == d.outbox || d'.outbox == d.outbox - {path})
            && (d'.queue == d.queue || (path in d.outbox && !Routable(env, d, path) && name !in d.queue
                                         && d'.queue == d.queue[name := QueueRow(path, d.outbox[path], 1, false)]))
  {
    hide Selected, CleanCall;
    if Routable(env, d, path) { CleanCallFrame(env, d, path, d.outbox[path]); }
  }

  lemma HandledKeepsInv(env: Env, d: Durable, path: OutboxPath, name: string)
    requires DurableInv(env, d)
    ensures DurableInv(env, HandledClean(env, d, path, name))
  {
    hide Selected, CleanCall;
    if Routable(env, d, path) {
      CleanCallKeepsInv(env, d, path);
    } else {
      var d' := HandledClean(env, d, path, name);
      forall r | r in d'.dedup ensures Backed(env, d', r) { assert Backed(env, d, r); }
    }
  }

  /** A handled file that can be delivered reaches every inbox it selects; one that cannot
      is in the queue and gone from the outbox. */
  lemma HandledServes(env: Env, d: Durable, path: OutboxPath, name: string)
    requires InjectiveKeys(env) && DurableInv(env, d) && path in d.outbox
    ensures var d' := HandledClean(env, d, path, name);
            && (Routable(env, d, path) ==> forall i :: i in Selected(env, path, d.outbox[path]).value ==>
                  Written(d', i, d.outbox[path]))
            && (!Routable(env, d, path) && name !in d.queue ==>
                  && path !in d'.outbox && name in d'.queue
                  && d'.queue[name] == QueueRow(path, d.outbox[path], 1, false))
  {
    hide Selected, CleanCall, Written, SoundDedup, TruthfulMarks;
    assert d.outbox[path] == env.content(path);
    if Routable(env, d, path) { CleanCallCovers(env, d, path); }
  }

  // ------------------------------------------------------------------------ the scan

  ghost predicate ScanInput(env: Env, d: Durable, files: seq<OutboxPath>, names: seq<string>) {
    && InjectiveKeys(env) && DurableInv(env, d) && |files| == |names|
    && Distinct(files) && FreshNames(d.queue, names)
  }

  /** Files not handled yet, and those skipped, are as they were; unused names are unused. */
  lemma {:induction false} ScanFrame(env: Env, d: Durable, files: seq<OutboxPath>, mayContain: OutboxPath -> bool,
      names: seq<string>, n: nat)
    requires ScanInput(env, d, files, names) && n <= |files|
    ensures var d' := ScanClean(env, d, files, mayContain, names, n);
            && DurableInv(env, d') && d.writes <= d'.writes
            && (forall i :: 0 <= i < |files| && (i >= n || mayContain(files[i])) ==>
                  (files[i] in d'.outbox <==> files[i] in d.outbox)
                  && (files[i] in d.outbox ==> d'.outbox[files[i]] == d.outbox[files[i]]))
            && (forall i :: n <= i < |files| ==> names[i] !in d'.queue)
  {
    hide DurableInv, HandledClean, Routable, InjectiveKeys;
    if n > 0 {
      ScanFrame(env, d, files, mayContain, names, n - 1);
      var before := ScanClean(env, d, files, mayContain, names, n - 1);
      HandledFrame(env, before, files[n - 1], names[n - 1]);
      HandledKeepsInv(env, before, files[n - 1], names[n - 1]);
    }
  }

  lemma SameRoutable(env: Env, d: Durable, d': Durable, path: OutboxPath)
    requires path in d'.outbox <==> path in d.outbox
    requires path in d.outbox ==> d'.outbox[path] == d.outbox[path]
    ensures Routable(env, d', path) <==> Routable(env, d, path)
  {
    hide Selected;
  }

  /** What a scan owes the i-th file. */
  ghost predicate Served(env: Env, d: Durable, path: OutboxPath, known: bool, name: string, d': Durable) {
    path in d.outbox ==>
      && (known ==> path in d'.outbox && d'.outbox[path] == d.outbox[path])
      && (!known && Routable(env, d, path) ==>
            forall i :: i in Selected(env, path, d.outbox[path]).value ==> Written(d', i, d.outbox[path]))
      && (!known && !Routable(env, d, path) ==>
            path !in d'.outbox && name in d'.queue && d'.queue[name] == QueueRow(path, d.outbox[path], 1, false))
  }

  lemma ServedStays(env: Env, d: Durable, path: OutboxPath, known: bool, name: string, d': Durable, d'': Durable)
    requires Served(env, d, path, known, name, d') && d'.writes <= d''.writes
    requires path in d'.outbox ==> known ==> path in d''.outbox && d''.outbox[path] == d'.outbox[path]
    requires path !in d'.outbox ==> path !in d''.outbox
    requires forall n :: n in d'.queue ==> n in d''.queue && d''.queue[n] == d'.queue[n]
    ensures Served(env, d, path, known, name, d'')
  {
    hide Selected, Written;
    if path in d.outbox && !known && Routable(env, d, path) {
      var data := d.outbox[path];
      forall i | i in Selected(env, path, data).value ensures Written(d'', i, data) { WrittenGrows(d', d'', i, data); }
    }
  }

  /** A scan without failures: every file the filter claims to know is still there; every
      other one that can be delivered has its exact bytes in the write history of each inbox
      it selects; every other one that cannot is in the queue under its name and gone from
      the outbox. */
  lemma {:induction false} ScanServes(env: Env, d: Durable, files: seq<OutboxPath>, mayContain: OutboxPath -> bool,
      names: seq<string>, n: nat, i: nat)
    requires ScanInput(env, d, files, names) && i < n <= |files|
    ensures Served(env, d, files[i], mayContain(files[i]), names[i], ScanClean(env, d, files, mayContain, names, n))
  {
    hide HandledClean, Routable, Served, DurableInv, InjectiveKeys;
    var before := ScanClean(env, d, files, mayContain, names, n - 1);
    var after := ScanClean(env, d, files, mayContain, names, n);
    ScanFrame(env, d, files, mayContain, names, n - 1);
    ScanFrame(env, d, files, mayContain, names, n);
    HandledFrame(env, before, files[n - 1], names[n - 1]);
    if i < n - 1 {
      ScanServes(env, d, files, mayContain, names, n - 1, i);
      ServedStays(env, d, files[i], mayContain(files[i]), names[i], before, after);
    } else {
      LastServed(env, d, before, files[i], mayContain(files[i]), names[i], after);
    }
  }

  lemma LastServed(env: Env, d: Durable, before: Durable, path: OutboxPath, known: bool, name: string, after: Durable)
    requires InjectiveKeys(env) && DurableInv(env, before) && name !in before.queue
    requires path in before.outbox <==> path in d.outbox
    requires path in d.outbox ==> before.outbox[path] == d.outbox[path]
    requires after == if known then before else HandledClean(env, before, path, name)
    ensures Served(env, d, path, known, name, after)
  {
    hide HandledClean, Routable, DurableInv, Selected, Written;
    SameRoutable(env, d, before, path);
    if path in d.outbox && !known { HandledServes(env, before, path, name); }
  }

  lemma UnservedNext(env: Env, d: Durable, files: seq<OutboxPath>, mayContain: OutboxPath -> bool, n: nat)
    requires n < |files|
    ensures |Unserved(env, d, files, mayContain, n + 1)| ==
            |Unserved(env, d, files, mayContain, n)| +
            if !mayContain(files[n]) && !Routable(env, d, files[n]) then 1 else 0
  {
    hide *;
    var less, more := Unserved(env, d, files, mayContain, n), Unserved(env, d, files, mayContain, n + 1);
    forall i: nat ensures i in more <==> i in less || (i == n && n in more) {
      UnservedAt(env, d, files, mayContain, i, n);
    }
    UnservedAt(env, d, files, mayContain, n, n);
    OneMore(less, more, n);
  }

  lemma UnservedAt(env: Env, d: Durable, files: seq<OutboxPath>, mayContain: OutboxPath -> bool, i: nat, n: nat)
    requires n < |files|
    ensures i in Unserved(env, d, files, mayContain, n + 1) <==>
            || i in Unserved(env, d, files, mayContain, n)
            || (i == n && !mayContain(files[n]) && !Routable(env, d, files[n]))
    ensures n !in Unserved(env, d, files, mayContain, n)
  {
    hide Routable;
  }

  lemma OneMore(less: set<nat>, more: set<nat>, n: nat)
    requires n !in less && forall i: nat :: i in more <==> i in less || (i == n && n in more)
    ensures |more| == |less| + if n in more then 1 else 0
  {
    assert more == if n in more then less + {n} else less;
  }

  // --------------------------------------------------------------------- the retries

  /** A round of retries without failures: exactly the entries with a selection are
      resolved, every other one has its count raised by one, and no other row changes. */
  lemma {:induction false} RetryReports(env: Env, d: Durable, entries: seq<string>, n: nat, name: string)
    requires n <= |entries| && Distinct(entries) && forall i :: 0 <= i < |entries| ==> entries[i] in d.queue
    requires name in d.queue
    ensures RetryClean(env, d, entries, n).queue[name] ==
            if name in entries[..n] then Reported(env, d.queue[name]) else d.queue[name]
  {
    hide CleanCall, Reported;
    if n > 0 {
      var before, last := RetryClean(env, d, entries, n - 1), entries[n - 1];
      RetryStep(env, d, entries, n);
      hide RetryClean;
      RetryReports(env, d, entries, n - 1, name);
      RetryReports(env, d, entries, n - 1, last);
      LastEntry(entries, n, name);
    }
  }

  lemma RetryStep(env: Env, d: Durable, entries: seq<string>, n: nat)
    requires 0 < n <= |entries| && forall i :: 0 <= i < |entries| ==> entries[i] in d.queue
    ensures var before, last := RetryClean(env, d, entries, n - 1), entries[n - 1];
            RetryClean(env, d, entries, n).queue == before.queue[last := Reported(env, before.queue[last])]
  {
    hide CleanCall, Reported;
  }

  lemma LastEntry(entries: seq<string>, n: nat, name: string)
    requires 0 < n <= |entries| && Distinct(entries)
    ensures name in entries[..n] <==> name in entries[..n - 1] || name == entries[n - 1]
    ensures entries[n - 1] !in entries[..n - 1]
  {
    assert entries[..n] == entries[..n - 1] + [entries[n - 1]];
  }

  /** And the bytes of each resolved entry are with every inbox it selects. */
  lemma {:induction false} RetryServes(env: Env, d: Durable, entries: seq<string>, n: nat, k: nat)
    requires InjectiveKeys(env) && DurableInv(env, d) && Distinct(entries)
    requires k < n <= |entries| && forall i :: 0 <= i < |entries| ==> entries[i] in d.queue
    ensures DurableInv(env, RetryClean(env, d, entries, n))
    ensures var row := d.queue[entries[k]];
            var selected := Selected(env, row.path, row.data);
            selected.Some? ==> forall i :: i in selected.value ==> Written(RetryClean(env, d, entries, n), i, row.data)
  {
    hide CleanCall, Reported, DurableInv, Selected, Written, InjectiveKeys;
    var before, after := RetryClean(env, d, entries, n - 1), RetryClean(env, d, entries, n);
    if n > 1 { RetryServes(env, d, entries, n - 1, if k < n - 1 then k else 0); }
    var name, row := entries[n - 1], d.queue[entries[n - 1]];
    RetryReports(env, d, entries, n - 1, name);
    LastEntry(entries, n, name);
    RetriedServes(env, before, name);
    CleanCallFrame(env, before, row.path, row.data);
    if k < n - 1 {
      var mine := d.queue[entries[k]];
      forall i | Selected(env, mine.path, mine.data).Some? && i in Selected(env, mine.path, mine.data).value
        ensures Written(after, i, mine.data)
      {
        WrittenGrows(before, after, i, mine.data);
      }
    }
  }

  lemma RetriedServes(env: Env, d: Durable, name: string)
    requires InjectiveKeys(env) && DurableInv(env, d) && name in d.queue
    ensures DurableInv(env, RetriedClean(env, d, name))
    ensures var row := d.queue[name];
            var selected := Selected(env, row.path, row.data);
            selected.Some? ==> forall i :: i in selected.value ==> Written(RetriedClean(env, d, name), i, row.data)
  {
    hide Selected, CleanCall, Written;
    var row := d.queue[name];
    assert row.data == env.content(row.path);
    CleanCallKeepsInv(env, d, row.path);
    CleanCallFrame(env, d, row.path, row.data);
    var called, d' := CleanCall(env, d, row.path, row.data), RetriedClean(env, d, name);
    forall r | r in d'.dedup ensures Backed(env, d', r) { assert Backed(env, called, r); }
    if Selected(env, row.path, row.data).Some? {
      CleanCallCovers(env, d, row.path);
      forall i | i in Selected(env, row.path, row.data).value ensures Written(d', i, row.data) {
        WrittenGrows(called, d', i, row.data);
      }
    }
  }

  lemma DeliverableNext(env: Env, d: Durable, entries: seq<string>, n: nat)
    requires n < |entries| && forall i :: 0 <= i < |entries| ==> entries[i] in d.queue
    ensures |Deliverable(env, d, entries, n + 1)| == |Deliverable(env, d, entries, n)| +
            if Selected(env, d.queue[entries[n]].path, d.queue[entries[n]].data).Some? then 1 else 0
  {
    hide Selected;
    OneMore(Deliverable(env, d, entries, n), Deliverable(env, d, entries, n + 1), n);
  }
}
