/** The error queue and its claim protocol (internal/session/error_queue_store.go).
    Times are seconds, as datetime('now') has them. */
module ErrorQueue {
  import opened Text

  const CLAIM_TTL := 300

  datatype Entry = Entry(
    data: string, sourceOutbox: string, kind: string, originalName: string, error: string,
    retry: int, resolved: bool, claimedBy: string, claimedAt: Option<int>)

  type Rows = map<string, Entry>

  datatype Op =
    | Enqueue(name: string, data: string, sourceOutbox: string, kind: string, originalName: string, error: string,
              attempts: int)
    | Claim(now: int, claimer: string, maxRetries: int)
    | IncrementRetry(name: string, error: string)
    | MarkResolved(name: string)

  /** claimed_at < datetime('now', '-5 minutes'); the empty string sorts first. */
  predicate Expired(claimedAt: Option<int>, now: int) {
    claimedAt.None? || claimedAt.value < now - CLAIM_TTL
  }

  predicate PendingBelow(e: Entry, maxRetries: int) {
    !e.resolved && e.retry < maxRetries
  }

  predicate Claimable(e: Entry, now: int, maxRetries: int) {
    PendingBelow(e, maxRetries) && (e.claimedBy == "" || Expired(e.claimedAt, now))
  }

  function Stamp(rows: Rows, now: int, claimer: string, maxRetries: int): Rows {
    map n | n in rows ::
      if Claimable(rows[n], now, maxRetries)
      then rows[n].(claimedBy := claimer, claimedAt := Some(now)) else rows[n]
  }

  /** The entries a claim hands out: everything unresolved under the claimer's name. */
  function ClaimedBy(rows: Rows, claimer: string): set<string> {
    set n | n in rows && rows[n].claimedBy == claimer && !rows[n].resolved
  }

  function PendingSet(rows: Rows, maxRetries: int): set<string> {
    set n | n in rows && PendingBelow(rows[n], maxRetries)
  }

  /** The entries that a claim at some time could take. */
  ghost function EverClaimable(rows: Rows, maxRetries: int): set<string> {
    set n | n in rows && exists now :: Claimable(rows[n], now, maxRetries)
  }

  /** Pending and claimable at some time are the same: every claim expires. */
  lemma PendingIffClaimable(rows: Rows, maxRetries: int)
    ensures PendingSet(rows, maxRetries) == EverClaimable(rows, maxRetries)
  {
    forall n | n in rows && PendingBelow(rows[n], maxRetries)
      ensures exists now :: Claimable(rows[n], now, maxRetries)
    {
      var now := if rows[n].claimedAt.Some? then rows[n].claimedAt.value + CLAIM_TTL + 1 else 0;
      assert Claimable(rows[n], now, maxRetries);
    }
  }

  function Apply(rows: Rows, op: Op): Rows {
    match op
    case Enqueue(name, data, outbox, kind, original, error, attempts) =>
      if name in rows then rows
      else rows[name := Entry(data, outbox, kind, original, error, attempts, false, "", None)]
    case Claim(now, claimer, maxRetries) => Stamp(rows, now, claimer, maxRetries)
    case IncrementRetry(name, error) =>
      if name !in rows then rows
      else rows[name := rows[name].(retry := rows[name].retry + 1, error := error, claimedBy := "", claimedAt := None)]
    case MarkResolved(name) =>
      if name !in rows then rows else rows[name := rows[name].(resolved := true)]
  }

  // ------------------------------------------------------------------ the store

  /** The SQLite store; every method is one transaction, which `ok` lets fail. */
  class ErrorQueueStore {
    var rows: Rows

    constructor ()
      ensures rows == map[]
    {
      rows := map[];
    }

    method Enqueue(ok: bool, name: string, data: string, sourceOutbox: string, kind: string, originalName: string,
        error: string, attempts: int)
      modifies this
      ensures rows == if ok then Apply(old(rows),
                Op.Enqueue(name, data, sourceOutbox, kind, originalName, error, attempts)) else old(rows)
    {
      if ok && name !in rows {
        rows := rows[name := Entry(data, sourceOutbox, kind, originalName, error, attempts, false, "", None)];
      }
    }

    /** Stamp the claimable rows, then read back every unresolved row under the name. */
    method ClaimPendingRetries(ok: bool, now: int, claimer: string, maxRetries: int)
      returns (entries: seq<(string, Entry)>)
      modifies this
      ensures rows == if ok then Apply(old(rows), Claim(now, claimer, maxRetries)) else old(rows)
      ensures !ok ==> entries == []
      ensures ok ==>
                && (forall i :: 0 <= i < |entries| ==>
                    entries[i].0 in ClaimedBy(rows, claimer) && entries[i].1 == rows[entries[i].0])
                && (forall n :: n in ClaimedBy(rows, claimer) ==> (n, rows[n]) in entries)
                && (forall i, j :: 0 <= i < j < |entries| ==> entries[i].0 != entries[j].0)
    {
      entries := [];
      if !ok { return; }
      rows := Stamp(rows, now, claimer, maxRetries);
      var left := ClaimedBy(rows, claimer);
      while left != {}
        invariant left <= ClaimedBy(rows, claimer)
        invariant forall i :: 0 <= i < |entries| ==>
                    entries[i].0 in ClaimedBy(rows, claimer) - left && entries[i].1 == rows[entries[i].0]
        invariant forall n :: n in ClaimedBy(rows, claimer) - left ==> (n, rows[n]) in entries
        invariant forall i, j :: 0 <= i < j < |entries| ==> entries[i].0 != entries[j].0
        decreases left
      {
        var n :| n in left;
        entries := entries + [(n, rows[n])];
        left := left - {n};
      }
    }

    /** How many entries are still to be retried: those that some claim, sooner or later,
        could take. */
    method PendingCount(maxRetries: int) returns (count: nat)
      ensures count == |EverClaimable(rows, maxRetries)|
    {
      count := 0;
      var left := rows.Keys;
      ghost var counted: set<string> := {};
      while left != {}
        invariant left <= rows.Keys && count == |counted| && counted !! left
        invariant forall n :: n in counted <==> n in rows && n !in left && PendingBelow(rows[n], maxRetries)
        decreases left
      {
        var n :| n in left;
        if !rows[n].resolved && rows[n].retry < maxRetries {
          count := count + 1;
          counted := counted + {n};
        }
        left := left - {n};
      }
      PendingIffClaimable(rows, maxRetries);
      assert counted == EverClaimable(rows, maxRetries);
    }

    method IncrementRetry(ok: bool, name: string, error: string)
      modifies this
      ensures rows == if ok then Apply(old(rows), Op.IncrementRetry(name, error)) else old(rows)
    {
      if ok && name in rows {
        var e := rows[name];
        rows := rows[name := e.(retry := e.retry + 1, error := error, claimedBy := "", claimedAt := None)];
      }
    }

    method MarkResolved(ok: bool, name: string)
      modifies this
      ensures rows == if ok then Apply(old(rows), Op.MarkResolved(name)) else old(rows)
    {
      if ok && name in rows {
        rows := rows[name := rows[name].(resolved := true)];
      }
    }
  }

  // ------------------------------------------------------------ claim exclusivity

  function At(rows: Rows, ops: seq<Op>, k: nat): Rows
    requires k <= |ops|
  {
    if k == 0 then rows else Apply(At(rows, ops, k - 1), ops[k - 1])
  }

  /** The k-th operation puts a claim stamp on the row. */
  predicate Stamps(rows: Rows, ops: seq<Op>, k: nat, n: string) {
    && k < |ops| && ops[k].Claim? && n in At(rows, ops, k)
    && Claimable(At(rows, ops, k)[n], ops[k].now, ops[k].maxRetries)
  }

  /** Claims read a clock that never goes back, under non-empty names. */
  predicate GoodClaims(ops: seq<Op>) {
    && (forall k :: 0 <= k < |ops| && ops[k].Claim? ==> ops[k].claimer != "")
    && (forall i, j :: 0 <= i < j < |ops| && ops[i].Claim? && ops[j].Claim? ==> ops[i].now <= ops[j].now)
  }

  /** A stamp holds until the row is released. */
  lemma {:induction false} StampHolds(rows: Rows, ops: seq<Op>, i: nat, k: nat, n: string)
    requires GoodClaims(ops) && Stamps(rows, ops, i, n) && i < k <= |ops|
    requires forall m :: i < m < k ==> !(ops[m].IncrementRetry? && ops[m].name == n)
    ensures var s := At(rows, ops, k);
            n in s && s[n].claimedBy != "" && s[n].claimedAt.Some? && s[n].claimedAt.value >= ops[i].now
  {
    if k > i + 1 {
      StampHolds(rows, ops, i, k - 1, n);
    }
  }

  /** Two stamps on one row are separated by a release of the row, or by more than five
      minutes; so two claimers never hold one entry at the same time within that span. */
  lemma ClaimExclusive(rows: Rows, ops: seq<Op>, i: nat, j: nat, n: string)
    requires GoodClaims(ops) && i < j && Stamps(rows, ops, i, n) && Stamps(rows, ops, j, n)
    ensures (exists m :: i < m < j && ops[m].IncrementRetry? && ops[m].name == n) || ops[j].now > ops[i].now + 300
  {
    if forall m :: i < m < j ==> !(ops[m].IncrementRetry? && ops[m].name == n) {
      StampHolds(rows, ops, i, j, n);
    }
  }

  /** What the operations other than a claim do to the rows. */
  lemma OpEffects(rows: Rows, op: Op)
    requires !op.Claim?
    ensures var rows' := Apply(rows, op);
            && (forall n :: n in rows && n != op.name ==> n in rows' && rows'[n] == rows[n])
            && (forall n :: n in rows' && n != op.name ==> n in rows)
            && (op.Enqueue? ==> op.name in rows' && rows'[op.name] == if op.name in rows then rows[op.name] else
                  Entry(op.data, op.sourceOutbox, op.kind, op.originalName, op.error, op.attempts, false, "", None))
            && (!op.Enqueue? ==> (op.name in rows' <==> op.name in rows))
            && (op.IncrementRetry? && op.name in rows ==>
                  var e, e' := rows[op.name], rows'[op.name];
                  && e'.retry == e.retry + 1 && e'.error == op.error && e'.claimedBy == "" && e'.claimedAt == None
                  && e'.data == e.data && e'.sourceOutbox == e.sourceOutbox && e'.kind == e.kind
                  && e'.originalName == e.originalName && e'.resolved == e.resolved)
            && (op.MarkResolved? && op.name in rows ==>
                  rows'[op.name].resolved && rows'[op.name].(resolved := rows[op.name].resolved) == rows[op.name])
  {
  }

  /** A claim takes every unresolved entry below the limit that nobody holds, or that was
      claimed more than five minutes ago; it hands out these and what the claimer holds
      already, and changes nothing else. */
  lemma ClaimExact(rows: Rows, now: int, claimer: string, maxRetries: int, n: string)
    requires n in rows
    ensures var rows' := Apply(rows, Claim(now, claimer, maxRetries));
            var e := rows[n];
            var free := e.claimedBy == "" || e.claimedAt == None || now > e.claimedAt.value + 300;
            var taken := !e.resolved && e.retry < maxRetries && free;
            && rows'.Keys == rows.Keys
            && rows'[n] == (if taken then e.(claimedBy := claimer, claimedAt := Some(now)) else e)
            && (n in ClaimedBy(rows', claimer) <==> taken || (!e.resolved && e.claimedBy == claimer))
  {
  }

  /** A resolved entry stays resolved through every later operation: no claim ever hands it
      out, and nothing counts it as pending. */
  lemma {:induction false} ResolvedForGood(rows: Rows, ops: seq<Op>, k: nat, j: nat, n: string)
    requires k < j <= |ops| && ops[k] == Op.MarkResolved(n) && n in At(rows, ops, k)
    ensures var after := At(rows, ops, j);
            && n in after && after[n].resolved
            && (forall claimer :: n !in ClaimedBy(after, claimer))
            && (forall maxRetries :: n !in EverClaimable(after, maxRetries) && n !in PendingSet(after, maxRetries))
  {
    if j == k + 1 {
      OpEffects(At(rows, ops, k), ops[k]);
    } else {
      ResolvedForGood(rows, ops, k, j - 1, n);
      if !ops[j - 1].Claim? { OpEffects(At(rows, ops, j - 1), ops[j - 1]); }
    }
  }

  /** With one retry limit, an entry under a claim is below it. */
  predicate ClaimsBelow(rows: Rows, maxRetries: int) {
    forall n :: n in rows && rows[n].claimedBy != "" ==> rows[n].retry < maxRetries
  }

  lemma {:induction false} ClaimsStayBelow(ops: seq<Op>, k: nat, maxRetries: int)
    requires k <= |ops| && GoodClaims(ops)
    requires forall i :: 0 <= i < |ops| && ops[i].Claim? ==> ops[i].maxRetries == maxRetries
    ensures ClaimsBelow(At(map[], ops, k), maxRetries)
  {
    if k > 0 {
      ClaimsStayBelow(ops, k - 1, maxRetries);
    }
  }

  /** Every entry a claim returns is unresolved, below the limit, and counted by
      PendingCount, although the read-back does not look at the retry count. */
  lemma ReturnedArePending(ops: seq<Op>, k: nat, maxRetries: int)
    requires k < |ops| && GoodClaims(ops) && ops[k].Claim?
    requires forall i :: 0 <= i < |ops| && ops[i].Claim? ==> ops[i].maxRetries == maxRetries
    ensures var after := At(map[], ops, k + 1);
            && ClaimedBy(after, ops[k].claimer) <= PendingSet(after, maxRetries)
            && |ClaimedBy(after, ops[k].claimer)| <= |PendingSet(after, maxRetries)|
  {
    ClaimsStayBelow(ops, k + 1, maxRetries);
    var after := At(map[], ops, k + 1);
    var a, b := ClaimedBy(after, ops[k].claimer), PendingSet(after, maxRetries);
    assert a <= b;
    assert b == a + (b - a);
  }

  /** With two limits it fails: a claimer that lowers its limit gets back an entry above it. */
  lemma LimitMustBeConstant()
    ensures var ops := [Op.Enqueue("e", "", "", "", "", "", 5), Claim(0, "d", 10), Claim(1, "d", 3)];
            var after := At(map[], ops, 3);
            GoodClaims(ops) && "e" in ClaimedBy(after, "d") && after["e"].retry >= 3
  {
    var ops := [Op.Enqueue("e", "", "", "", "", "", 5), Claim(0, "d", 10), Claim(1, "d", 3)];
    assert At(map[], ops, 0) == map[];
    assert At(map[], ops, 1) == map["e" := Entry("", "", "", "", "", 5, false, "", None)];
    assert At(map[], ops, 2) == map["e" := Entry("", "", "", "", "", 5, false, "d", Some(0))];
    assert At(map[], ops, 3) == map["e" := Entry("", "", "", "", "", 5, false, "d", Some(0))];
  }

  // ---------------------------------------------------------------- retry limit

  /** Claimers running retry cycles: each holds the entries its last claim returned and reports each of
      them at most once; a crash drops what it holds. */
  datatype Claimers = Claimers(rows: Rows, held: map<string, set<string>>)

  datatype CycleStep =
    | Enqueued(op: Op)
    | Claims(now: int, claimer: string)
    | Failed(claimer: string, name: string)
    | Succeeded(claimer: string, name: string, ok: bool)
    | Crashed(claimer: string)

  function Holding(c: Claimers, claimer: string): set<string> {
    if claimer in c.held then c.held[claimer] else {}
  }

  function CycleNext(c: Claimers, t: CycleStep, maxRetries: int): Claimers {
    match t
    case Enqueued(op) => if op.Enqueue? then c.(rows := Apply(c.rows, op)) else c
    case Claims(now, claimer) =>
      var rows := Stamp(c.rows, now, claimer, maxRetries);
      Claimers(rows, c.held[claimer := ClaimedBy(rows, claimer)])
    case Failed(claimer, name) =>
      if name !in Holding(c, claimer) then c
      else Claimers(Apply(c.rows, IncrementRetry(name, "")), c.held[claimer := Holding(c, claimer) - {name}])
    case Succeeded(claimer, name, ok) =>
      if name !in Holding(c, claimer) then c
      else Claimers(if ok then Apply(c.rows, MarkResolved(name)) else c.rows,
                    c.held[claimer := Holding(c, claimer) - {name}])
    case Crashed(claimer) => c.(held := c.held - {claimer})
  }

  function RetryCycles(c: Claimers, steps: seq<CycleStep>, maxRetries: int): Claimers
    decreases |steps|
  {
    if steps == [] then c else RetryCycles(CycleNext(c, steps[0], maxRetries), steps[1..], maxRetries)
  }

  function ClaimerOf(t: CycleStep): Option<string> {
    match t
    case Enqueued(_) => None
    case Claims(_, c) => Some(c)
    case Failed(c, _) => Some(c)
    case Succeeded(c, _, _) => Some(c)
    case Crashed(c) => Some(c)
  }

  /** Only `claimers` take part, under non-empty names, and entries start at or below the limit. */
  predicate OnlyClaimers(steps: seq<CycleStep>, claimers: set<string>, maxRetries: int) {
    && claimers != {} && "" !in claimers
    && forall i :: 0 <= i < |steps| ==>
         && (ClaimerOf(steps[i]).Some? ==> ClaimerOf(steps[i]).value in claimers)
         && (steps[i].Enqueued? && steps[i].op.Enqueue? ==> steps[i].op.attempts <= maxRetries)
  }

  function Holders(c: Claimers, n: string): set<string> {
    set k | k in c.held && n in c.held[k]
  }

  predicate ClaimersInv(c: Claimers, claimers: set<string>, maxRetries: int) {
    && c.held.Keys <= claimers
    && (forall k, n :: k in c.held && n in c.held[k] ==> n in c.rows)
    && (forall n :: n in c.rows ==>
          && (c.rows[n].claimedBy != "" ==> c.rows[n].retry < maxRetries)
          && c.rows[n].retry + |Holders(c, n)| < maxRetries + |claimers|)
  }

  lemma CycleKeepsInv(c: Claimers, t: CycleStep, claimers: set<string>, maxRetries: int)
    requires ClaimersInv(c, claimers, maxRetries) && OnlyClaimers([t], claimers, maxRetries)
    ensures ClaimersInv(CycleNext(c, t, maxRetries), claimers, maxRetries)
  {
    assert [t][0] == t;
    match t
    case Claims(now, claimer) => ClaimKeepsInv(c, now, claimer, claimers, maxRetries);
    case Enqueued(op) => EnqueueKeepsInv(c, op, claimers, maxRetries);
    case _ => ReportKeepsInv(c, t, claimers, maxRetries);
  }

  lemma ClaimKeepsInv(c: Claimers, now: int, claimer: string, claimers: set<string>, maxRetries: int)
    requires ClaimersInv(c, claimers, maxRetries) && claimer in claimers && "" !in claimers
    ensures ClaimersInv(CycleNext(c, Claims(now, claimer), maxRetries), claimers, maxRetries)
  {
    var c' := CycleNext(c, Claims(now, claimer), maxRetries);
    forall n | n in c'.rows
      ensures c'.rows[n].claimedBy != "" ==> c'.rows[n].retry < maxRetries
      ensures c'.rows[n].retry + |Holders(c', n)| < maxRetries + |claimers|
    {
      SubsetSmaller(Holders(c', n), claimers);
      if Holders(c', n) <= Holders(c, n) { SubsetSmaller(Holders(c', n), Holders(c, n)); }
    }
  }

  lemma EnqueueKeepsInv(c: Claimers, op: Op, claimers: set<string>, maxRetries: int)
    requires ClaimersInv(c, claimers, maxRetries) && claimers != {} && (op.Enqueue? ==> op.attempts <= maxRetries)
    ensures ClaimersInv(CycleNext(c, Enqueued(op), maxRetries), claimers, maxRetries)
  {
    var c' := CycleNext(c, Enqueued(op), maxRetries);
    forall n | n in c'.rows && n !in c.rows ensures Holders(c', n) == {} && |claimers| > 0 {
      SubsetSmaller({var k :| k in claimers; k}, claimers);
    }
    forall n ensures Holders(c', n) == Holders(c, n) {}
  }

  lemma ReportKeepsInv(c: Claimers, t: CycleStep, claimers: set<string>, maxRetries: int)
    requires ClaimersInv(c, claimers, maxRetries) && (t.Failed? || t.Succeeded? || t.Crashed?)
    requires ClaimerOf(t).value in claimers
    ensures ClaimersInv(CycleNext(c, t, maxRetries), claimers, maxRetries)
  {
    var c' := CycleNext(c, t, maxRetries);
    forall n | n in c'.rows
      ensures c'.rows[n].claimedBy != "" ==> c'.rows[n].retry < maxRetries
      ensures c'.rows[n].retry + |Holders(c', n)| < maxRetries + |claimers|
    {
      SubsetSmaller(Holders(c', n), Holders(c, n));
      if t.Failed? && n == t.name && n in Holding(c, t.claimer) {
        assert Holders(c, n) == Holders(c', n) + {t.claimer};
      }
    }
  }

  lemma {:induction false} InvAlongCycles(c: Claimers, steps: seq<CycleStep>, claimers: set<string>, maxRetries: int)
    requires ClaimersInv(c, claimers, maxRetries) && OnlyClaimers(steps, claimers, maxRetries)
    ensures ClaimersInv(RetryCycles(c, steps, maxRetries), claimers, maxRetries)
    decreases |steps|
  {
    hide ClaimersInv, CycleNext;
    if steps != [] {
      CycleKeepsInv(c, steps[0], claimers, maxRetries);
      InvAlongCycles(CycleNext(c, steps[0], maxRetries), steps[1..], claimers, maxRetries);
    }
  }

  /** With `k` claimers the retry count of an entry enqueued at or below the limit never
      exceeds the limit by more than k - 1; a single claimer never exceeds it. */
  lemma RetriesWithinLimit(steps: seq<CycleStep>, claimers: set<string>, maxRetries: int, n: string)
    requires OnlyClaimers(steps, claimers, maxRetries)
    ensures var c := RetryCycles(Claimers(map[], map[]), steps, maxRetries);
            n in c.rows ==> c.rows[n].retry <= maxRetries + |claimers| - 1
  {
    InvAlongCycles(Claimers(map[], map[]), steps, claimers, maxRetries);
  }

  // ------------------------------------------------------- the bound is reached

  lemma {:induction false} CyclesConcat(c: Claimers, a: seq<CycleStep>, b: seq<CycleStep>, maxRetries: int)
    ensures RetryCycles(c, a + b, maxRetries) == RetryCycles(RetryCycles(c, a, maxRetries), b, maxRetries)
    decreases |a|
  {
    hide CycleNext;
    if a == [] {
      assert a + b == b;
    } else {
      assert (a + b)[1..] == a[1..] + b;
      CyclesConcat(CycleNext(c, a[0], maxRetries), a[1..], b, maxRetries);
    }
  }

  /** Each claims after the claim before it has expired. */
  function ClaimInTurn(names: seq<string>): seq<CycleStep> {
    seq(|names|, i requires 0 <= i < |names| => Claims((CLAIM_TTL + 1) * i, names[i]))
  }

  /** Then each reports its failed delivery. */
  function FailInTurn(names: seq<string>): seq<CycleStep> {
    seq(|names|, i requires 0 <= i < |names| => Failed(names[i], "e"))
  }

  /** The one entry, unresolved, with any claim on it older than `now` allows. */
  predicate OneEntry(c: Claimers, retry: int, now: int) {
    && c.rows.Keys == {"e"} && !c.rows["e"].resolved && c.rows["e"].retry == retry
    && (c.rows["e"].claimedBy == "" || Expired(c.rows["e"].claimedAt, now))
  }

  lemma {:induction false} AllClaim(c: Claimers, names: seq<string>, n: nat, maxRetries: int)
    requires OneEntry(c, maxRetries - 1, 0) && n <= |names| && forall i :: 0 <= i < |names| ==> names[i] != ""
    ensures var c' := RetryCycles(c, ClaimInTurn(names)[..n], maxRetries);
            && OneEntry(c', maxRetries - 1, (CLAIM_TTL + 1) * n)
            && forall i :: 0 <= i < n ==> "e" in Holding(c', names[i])
  {
    hide CycleNext, OneEntry, Holding;
    var steps := ClaimInTurn(names);
    if n > 0 {
      hide RetryCycles;
      AllClaim(c, names, n - 1, maxRetries);
      var before := RetryCycles(c, steps[..n - 1], maxRetries);
      assert steps[..n] == steps[..n - 1] + [steps[n - 1]];
      CyclesConcat(c, steps[..n - 1], [steps[n - 1]], maxRetries);
      CyclesOne(before, steps[n - 1], maxRetries);
      ClaimsEntry(before, (CLAIM_TTL + 1) * (n - 1), names[n - 1], maxRetries);
    }
  }

  lemma CyclesOne(c: Claimers, t: CycleStep, maxRetries: int)
    ensures RetryCycles(c, [t], maxRetries) == CycleNext(c, t, maxRetries)
  {
    hide CycleNext;
    assert [t][1..] == [];
  }

  lemma ClaimsEntry(c: Claimers, now: int, name: string, maxRetries: int)
    requires OneEntry(c, maxRetries - 1, now) && name != ""
    ensures var c' := CycleNext(c, Claims(now, name), maxRetries);
            && OneEntry(c', maxRetries - 1, now + CLAIM_TTL + 1)
            && "e" in Holding(c', name) && forall k :: "e" in Holding(c, k) ==> "e" in Holding(c', k)
  {
    var c' := CycleNext(c, Claims(now, name), maxRetries);
    assert Claimable(c.rows["e"], now, maxRetries);
    assert c'.rows["e"] == c.rows["e"].(claimedBy := name, claimedAt := Some(now));
    assert "e" in ClaimedBy(c'.rows, name);
  }

  lemma {:induction false} AllFail(c: Claimers, names: seq<string>, n: nat, maxRetries: int)
    requires "e" in c.rows && n <= |names| && (forall i, j :: 0 <= i < j < |names| ==> names[i] != names[j])
    requires forall i :: 0 <= i < |names| ==> "e" in Holding(c, names[i])
    ensures var c' := RetryCycles(c, FailInTurn(names)[..n], maxRetries);
            && "e" in c'.rows && c'.rows["e"].retry == c.rows["e"].retry + n
            && forall i :: n <= i < |names| ==> "e" in Holding(c', names[i])
  {
    var steps := FailInTurn(names);
    if n > 0 {
      AllFail(c, names, n - 1, maxRetries);
      assert steps[..n] == steps[..n - 1] + [steps[n - 1]];
      CyclesConcat(c, steps[..n - 1], [steps[n - 1]], maxRetries);
      CyclesOne(RetryCycles(c, steps[..n - 1], maxRetries), steps[n - 1], maxRetries);
    }
  }

  /** One claimer alone: claim and report a failed delivery, `n` times. */
  function RetryAlone(name: string, n: nat): seq<CycleStep> {
    if n == 0 then [] else RetryAlone(name, n - 1) + [Claims(0, name), Failed(name, "e")]
  }

  /** The one entry, unresolved and unclaimed. */
  predicate Unclaimed(c: Claimers, retry: int) {
    c.rows.Keys == {"e"} && !c.rows["e"].resolved && c.rows["e"].retry == retry && c.rows["e"].claimedBy == ""
  }

  lemma {:induction false} AloneRaises(c: Claimers, name: string, n: nat, retry: int, maxRetries: int)
    requires Unclaimed(c, retry) && name != "" && retry + n < maxRetries
    ensures Unclaimed(RetryCycles(c, RetryAlone(name, n), maxRetries), retry + n)
  {
    hide CycleNext, Unclaimed;
    if n > 0 {
      AloneRaises(c, name, n - 1, retry, maxRetries);
      var before := RetryCycles(c, RetryAlone(name, n - 1), maxRetries);
      var claim, fail := Claims(0, name), Failed(name, "e");
      CyclesConcat(c, RetryAlone(name, n - 1), [claim, fail], maxRetries);
      assert [claim, fail] == [claim] + [fail];
      CyclesConcat(before, [claim], [fail], maxRetries);
      CyclesOne(before, claim, maxRetries);
      CyclesOne(CycleNext(before, claim, maxRetries), fail, maxRetries);
      OnceAround(before, name, retry + n - 1, maxRetries);
    }
  }

  lemma OnceAround(c: Claimers, name: string, retry: int, maxRetries: int)
    requires Unclaimed(c, retry) && name != "" && retry < maxRetries
    ensures Unclaimed(CycleNext(CycleNext(c, Claims(0, name), maxRetries), Failed(name, "e"), maxRetries), retry + 1)
  {
    var c1 := CycleNext(c, Claims(0, name), maxRetries);
    assert Claimable(c.rows["e"], 0, maxRetries);
    assert c1.rows["e"] == c.rows["e"].(claimedBy := name, claimedAt := Some(0));
    assert "e" in ClaimedBy(c1.rows, name) && "e" in Holding(c1, name);
  }

  /** As the daemon enqueues them: with one attempt made. */
  predicate EnqueuedOnce(steps: seq<CycleStep>) {
    forall i :: 0 <= i < |steps| && steps[i].Enqueued? && steps[i].op.Enqueue? ==> steps[i].op.attempts == 1
  }

  /** Every number of claimers and every limit from two on has a history that reaches the
      bound: an entry enqueued with one attempt is retried alone up to one below the limit,
      then each claims it after the previous claim has expired, and then each reports a
      failed delivery. */
  lemma BoundReached(names: seq<string>, maxRetries: int) returns (steps: seq<CycleStep>)
    requires maxRetries >= 2 && names != []
    requires (forall i, j :: 0 <= i < j < |names| ==> names[i] != names[j])
    requires forall i :: 0 <= i < |names| ==> names[i] != ""
    ensures OnlyClaimers(steps, Elements(names), maxRetries) && |Elements(names)| == |names| && EnqueuedOnce(steps)
    ensures var c := RetryCycles(Claimers(map[], map[]), steps, maxRetries);
            "e" in c.rows && c.rows["e"].retry == maxRetries + |names| - 1
  {
    hide RetryCycles, RetryAlone;
    var enqueue := Enqueued(Op.Enqueue("e", "", "", "", "", "", 1));
    var alone, claims, fails := RetryAlone(names[0], maxRetries - 2), ClaimInTurn(names), FailInTurn(names);
    steps := [enqueue] + alone + claims + fails;
    var c0 := Claimers(map[], map[]);
    var c1 := CycleNext(c0, enqueue, maxRetries);
    assert Unclaimed(c1, 1);
    CyclesOne(c0, enqueue, maxRetries);
    CyclesConcat(c0, [enqueue], alone, maxRetries);
    CyclesConcat(c0, [enqueue] + alone, claims, maxRetries);
    CyclesConcat(c0, [enqueue] + alone + claims, fails, maxRetries);
    AloneRaises(c1, names[0], maxRetries - 2, 1, maxRetries);
    var c2 := RetryCycles(c1, alone, maxRetries);
    AllClaim(c2, names, |names|, maxRetries);
    assert claims[..|names|] == claims && fails[..|names|] == fails;
    AllFail(RetryCycles(c2, claims, maxRetries), names, |names|, maxRetries);
    DistinctCount(names);
    assert names[0] in Elements(names);
    AloneClaimer(names[0], maxRetries - 2);
    ByClaimers([enqueue], alone, claims, fails, Elements(names), maxRetries);
  }

  lemma {:induction false} AloneClaimer(name: string, n: nat)
    ensures forall i :: 0 <= i < |RetryAlone(name, n)| ==> ClaimerOf(RetryAlone(name, n)[i]) == Some(name)
    ensures forall i :: 0 <= i < |RetryAlone(name, n)| ==> !RetryAlone(name, n)[i].Enqueued?
  {
    if n > 0 { AloneClaimer(name, n - 1); }
  }

  lemma ByClaimers(a: seq<CycleStep>, b: seq<CycleStep>, c: seq<CycleStep>, d: seq<CycleStep>, names: set<string>,
      maxRetries: int)
    requires names != {} && "" !in names && maxRetries >= 1
    requires |a| == 1 && a[0].Enqueued? && a[0].op.Enqueue? && a[0].op.attempts == 1
    requires forall i :: 0 <= i < |b| ==> !b[i].Enqueued? && ClaimerOf(b[i]).Some? && ClaimerOf(b[i]).value in names
    requires forall i :: 0 <= i < |c| ==> !c[i].Enqueued? && ClaimerOf(c[i]).Some? && ClaimerOf(c[i]).value in names
    requires forall i :: 0 <= i < |d| ==> !d[i].Enqueued? && ClaimerOf(d[i]).Some? && ClaimerOf(d[i]).value in names
    ensures OnlyClaimers(a + b + c + d, names, maxRetries) && EnqueuedOnce(a + b + c + d)
  {
  }

  /** With a limit of one nothing the daemon enqueues is ever claimed, so that the limit is
      never exceeded. */
  lemma {:induction false} LimitOneHolds(c: Claimers, steps: seq<CycleStep>, n: string)
    requires OnceOnly(c) && EnqueuedOnce(steps)
    requires forall i :: 0 <= i < |steps| && ClaimerOf(steps[i]).Some? ==> ClaimerOf(steps[i]).value != ""
    ensures OnceOnly(RetryCycles(c, steps, 1))
    ensures var c' := RetryCycles(c, steps, 1); n in c'.rows ==> c'.rows[n].retry == 1
    decreases |steps|
  {
    hide CycleNext, OnceOnly;
    if steps != [] {
      OnceStep(c, steps[0]);
      LimitOneHolds(CycleNext(c, steps[0], 1), steps[1..], n);
    } else {
      OnceMeans(c, n);
    }
  }

  /** Every entry was tried once and is held by nobody. */
  predicate OnceOnly(c: Claimers) {
    && (forall n :: n in c.rows ==> c.rows[n].retry == 1 && c.rows[n].claimedBy == "")
    && (forall k :: k in c.held ==> c.held[k] == {})
  }

  lemma OnceMeans(c: Claimers, n: string)
    requires OnceOnly(c)
    ensures n in c.rows ==> c.rows[n].retry == 1
  {
  }

  lemma OnceStep(c: Claimers, t: CycleStep)
    requires OnceOnly(c) && EnqueuedOnce([t]) && (ClaimerOf(t).Some? ==> ClaimerOf(t).value != "")
    ensures OnceOnly(CycleNext(c, t, 1))
  {
    assert [t][0] == t;
  }

  lemma {:induction false} DistinctCount(names: seq<string>)
    requires forall i, j :: 0 <= i < j < |names| ==> names[i] != names[j]
    ensures |Elements(names)| == |names|
  {
    if names != [] {
      DistinctCount(names[1..]);
      assert Elements(names) == Elements(names[1..]) + {names[0]};
    }
  }
}
