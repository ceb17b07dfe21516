/** The delivery protocol as a step machine over durable state.

    One Step is one durable operation of one worker (a file removal, a SQLite
    transaction, an inbox write) or one local decision, and carries the outcome the
    environment chose for it.  A run is an arbitrary sequence of actions, so the runs
    cover every interleaving of scan, event, retry and recovery workers, every failure
    and every crash between two steps.  Follows internal/session/deliver.go,
    delivery_store.go, daemon_deliver.go, scan_deliver.go and daemon_runner.go. */
module Delivery {
  import opened Text
  import Improvement
  import Policy

  type Bytes = string
  type Inbox = string

  const MAX_DELIVERY_RETRY := 3

  // -------------------------------------------------------------------- entities

  datatype OutboxPath = OutboxPath(dir: string, name: string)

  /** filepath.Join(inbox, fileName); the inbox is its filepath.Dir. */
  datatype Target = Target(inbox: Inbox, name: string)

  /** The primary key of staged_delivery. */
  datatype RowKey = RowKey(path: OutboxPath, target: Target)

  datatype Row = Row(data: Bytes, flushed: bool, retry: nat)

  /** An entry of a flush snapshot, and of the history of inbox writes. */
  datatype Item = Item(key: RowKey, data: Bytes)

  /** For steps that pick no row. */
  const NO_ITEM := Item(RowKey(OutboxPath("", ""), Target("", "")), "")

  /** An error_queue row; its path is filepath.Join(source_outbox, original_name). */
  datatype QueueRow = QueueRow(path: OutboxPath, data: Bytes, retry: nat, resolved: bool)

  datatype Frontmatter = Frontmatter(
    schemaVersion: string, kind: string, targets: seq<string>, metadata: Improvement.Meta)

  datatype ResolvedRoute = ResolvedRoute(kind: string, fromOutbox: string, toInboxes: seq<Inbox>)

  /** What does not change during a run: the bytes each outbox path stands for, the
      frontmatter parser, the content key, the routes, and whether exact dedup is on. */
  datatype Env = Env(
    content: OutboxPath -> Bytes,
    parse: Bytes -> Option<Frontmatter>,
    key: Bytes -> string,
    routes: seq<ResolvedRoute>,
    dedupOn: bool)

  // ------------------------------------------------- parsing, routing, selection

  const VALID_KINDS := ["specification", "report", "design-feedback", "implementation-feedback",
                        "convergence", "ci-result", "stall-escalation"]

  /** The checks at the head of DeliverData. */
  function Validate(env: Env, data: Bytes): Option<Frontmatter> {
    match env.parse(data)
    case None => None
    case Some(fm) => if fm.schemaVersion == "1" && fm.kind in VALID_KINDS then Some(fm) else None
  }

  /** The first route for the kind out of the directory. */
  function MatchRoute(routes: seq<ResolvedRoute>, kind: string, dir: string): Option<ResolvedRoute> {
    if routes == [] then None
    else if routes[0].kind == kind && routes[0].fromOutbox == dir then Some(routes[0])
    else MatchRoute(routes[1..], kind, dir)
  }

  /** The inboxes DeliverData selects for a file, or None when it does not parse or has no route. */
  function Selected(env: Env, path: OutboxPath, data: Bytes): Option<seq<Inbox>> {
    match Validate(env, data)
    case None => None
    case Some(fm) =>
      match MatchRoute(env.routes, fm.kind, path.dir)
      case None => None
      case Some(r) =>
        Some(Policy.SelectInboxes(fm.kind, r.toInboxes, fm.targets, Improvement.FromMap(fm.metadata)))
  }

  /** The first route that fits. */
  lemma {:induction false} MatchExact(routes: seq<ResolvedRoute>, kind: string, dir: string)
    ensures match MatchRoute(routes, kind, dir)
            case None => forall r :: r in routes ==> r.kind != kind || r.fromOutbox != dir
            case Some(r) =>
              && r.kind == kind && r.fromOutbox == dir
              && exists n :: 0 <= n < |routes| && routes[n] == r
                             && forall j :: 0 <= j < n ==> routes[j].kind != kind || routes[j].fromOutbox != dir
  {
    if routes != [] {
      var rest := routes[1..];
      MatchExact(rest, kind, dir);
      assert routes == [routes[0]] + rest;
      if MatchRoute(routes, kind, dir).Some? && !(routes[0].kind == kind && routes[0].fromOutbox == dir) {
        var n :| 0 <= n < |rest| && rest[n] == MatchRoute(rest, kind, dir).value
                 && forall j :: 0 <= j < n ==> rest[j].kind != kind || rest[j].fromOutbox != dir;
        assert routes[n + 1] == rest[n];
        forall j | 0 <= j < n + 1 ensures routes[j].kind != kind || routes[j].fromOutbox != dir {
          if j > 0 { assert routes[j] == rest[j - 1]; }
        }
      }
    }
  }

  /** Which messages are routable, and where they go: the frontmatter parses, has version 1
      and one of the seven kinds, and some route takes that kind out of the directory; the
      first such route decides. */
  lemma SelectedExactly(env: Env, path: OutboxPath, data: Bytes)
    ensures Selected(env, path, data).Some? <==>
            && env.parse(data).Some? && env.parse(data).value.schemaVersion == "1"
            && env.parse(data).value.kind in {"specification", "report", "design-feedback", "implementation-feedback",
                                              "convergence", "ci-result", "stall-escalation"}
            && exists r :: r in env.routes && r.kind == env.parse(data).value.kind && r.fromOutbox == path.dir
    ensures Selected(env, path, data).Some? ==>
              var fm := env.parse(data).value;
              exists n :: 0 <= n < |env.routes|
                && env.routes[n].kind == fm.kind && env.routes[n].fromOutbox == path.dir
                && (forall j :: 0 <= j < n ==> env.routes[j].kind != fm.kind || env.routes[j].fromOutbox != path.dir)
                && Selected(env, path, data).value == Policy.SelectInboxes(fm.kind, env.routes[n].toInboxes, fm.targets,
                                                                           Improvement.FromMap(fm.metadata))
  {
    hide MatchRoute;
    if env.parse(data).Some? { MatchExact(env.routes, env.parse(data).value.kind, path.dir); }
  }

  // ------------------------------------------------------------- store operations

  type Staged = map<RowKey, Row>

  function KeyOf(path: OutboxPath, inbox: Inbox): RowKey {
    RowKey(path, Target(inbox, path.name))
  }

  /** INSERT ... ON CONFLICT DO UPDATE ... WHERE flushed = 0 OR data != excluded.data */
  function Upsert(staged: Staged, k: RowKey, data: Bytes): Staged {
    if k !in staged || !staged[k].flushed || staged[k].data != data
    then staged[k := Row(data, false, 0)]
    else staged
  }

  function StageAll(staged: Staged, path: OutboxPath, data: Bytes, inboxes: seq<Inbox>): Staged
    decreases |inboxes|
  {
    if inboxes == [] then staged
    else StageAll(Upsert(staged, KeyOf(path, inboxes[0]), data), path, data, inboxes[1..])
  }

  predicate Pending(row: Row) {
    !row.flushed && row.retry < MAX_DELIVERY_RETRY
  }

  /** The rows a flush reads: unflushed and below the retry limit. */
  function Collect(staged: Staged): set<Item> {
    set k | k in staged && Pending(staged[k]) :: Item(k, staged[k].data)
  }

  function Mark(staged: Staged, k: RowKey): Staged {
    if k in staged then staged[k := staged[k].(flushed := true)] else staged
  }

  function Bump(staged: Staged, k: RowKey): Staged {
    if k in staged then staged[k := staged[k].(retry := staged[k].retry + 1)] else staged
  }

  predicate AllFlushedFor(staged: Staged, path: OutboxPath) {
    forall k :: k in staged && k.path == path ==> staged[k].flushed
  }

  function PruneFlushed(staged: Staged): Staged {
    map k | k in staged && !staged[k].flushed :: staged[k]
  }

  function PurgeDeadLetters(staged: Staged): Staged {
    map k | k in staged && (staged[k].flushed || staged[k].retry < MAX_DELIVERY_RETRY) :: staged[k]
  }

  /** Three kinds of row: a flushed one is what pruning drops, a dead one, after three failed
      writes, is what purging drops, and a flush reads exactly the rest, with their bytes. */
  lemma RowKinds(staged: Staged, k: RowKey)
    requires k in staged
    ensures var row := staged[k];
            && (Item(k, row.data) in Collect(staged) <==> k in PruneFlushed(staged) && k in PurgeDeadLetters(staged))
            && (k !in PruneFlushed(staged) <==> row.flushed)
            && (k !in PurgeDeadLetters(staged) <==> !row.flushed && row.retry >= 3)
            && (k in PruneFlushed(staged) ==> PruneFlushed(staged)[k] == row)
            && (k in PurgeDeadLetters(staged) ==> PurgeDeadLetters(staged)[k] == row)
    ensures PruneFlushed(staged).Keys <= staged.Keys && PurgeDeadLetters(staged).Keys <= staged.Keys
    ensures forall it :: it in Collect(staged) ==> it.key in staged && it.data == staged[it.key].data
  {
  }

  function InboxesOf(path: OutboxPath, flushed: seq<RowKey>): seq<Inbox> {
    if flushed == [] then []
    else (if flushed[0].path == path then [flushed[0].target.inbox] else []) + InboxesOf(path, flushed[1..])
  }

  /** The inboxes DeliverData records: those it flushed, and, when every row of the path
      is flushed, the remaining ones too. */
  function DedupTargets(remaining: seq<Inbox>, delivered: seq<Inbox>, allDone: bool): seq<Inbox> {
    delivered + if allDone then Improvement.Keep(remaining, i => i !in delivered) else []
  }

  // ---------------------------------------------------------------------- state

  /** Durable state plus three history variables: `writes` counts inbox writes, `lost`
      counts marks lost after a write, `accepted` holds every path that ever arrived. */
  datatype Durable = Durable(
    outbox: map<OutboxPath, Bytes>,
    staged: Staged,
    dedup: set<(string, Inbox)>,
    queue: map<string, QueueRow>,
    writes: multiset<Item>,
    lost: multiset<RowKey>,
    accepted: set<OutboxPath>)

  datatype Origin = FromOutbox | FromQueue(name: string)

  /** The arguments of one DeliverData call and who made it. */
  datatype Call = Call(path: OutboxPath, data: Bytes, origin: Origin)

  /** Why a flush runs: inside a call, or on its own at startup. */
  datatype Job = Deliver(call: Call, remaining: seq<Inbox>) | Recover

  /** A worker's program counter and locals; an idle worker is absent from the map. */
  datatype Proc =
    | Start(call: Call)
    | Filtering(call: Call, todo: seq<Inbox>, remaining: seq<Inbox>)
    | Skipping(call: Call)
    | Staging(call: Call, remaining: seq<Inbox>)
    | Collecting(job: Job)
    | Writing(job: Job, items: set<Item>, flushed: seq<RowKey>)
    | Marking(job: Job, item: Item, items: set<Item>, flushed: seq<RowKey>)
    | Bumping(job: Job, item: Item, items: set<Item>, flushed: seq<RowKey>)
    | Checking(call: Call, remaining: seq<Inbox>, delivered: seq<Inbox>)
    | Recording(call: Call, todo: seq<Inbox>, allDone: bool, recorded: bool)
    | Removing(call: Call)
    | Done(call: Call)
    | Failed(call: Call)
    | Enqueued(call: Call)

  datatype State = State(d: Durable, procs: map<nat, Proc>)

  const EMPTY := State(Durable(map[], map[], {}, map[], multiset{}, multiset{}, {}), map[])

  /** `ok` is the outcome of the operation, `name` the generated error-queue name,
      `pick` the row the flush loop takes next. */
  datatype Action =
    | Arrive(path: OutboxPath, data: Bytes)
    | ReadFile(w: nat, path: OutboxPath)
    | ClaimEntry(w: nat, name: string)
    | RecoverFlush(w: nat)
    | Step(w: nat, ok: bool, name: string, pick: Item)
    | Kill(w: nat)
    | Prune
    | Purge

  // ------------------------------------------------------------------------ steps

  datatype Effect = Effect(d: Durable, next: Option<Proc>)

  function AfterFlush(job: Job, flushed: seq<RowKey>): Option<Proc> {
    match job
    case Recover => None
    case Deliver(c, remaining) => Some(Checking(c, remaining, InboxesOf(c.path, flushed)))
  }

  function Finish(c: Call, allDone: bool, recorded: bool): Proc {
    if allDone && recorded then Removing(c) else Done(c)
  }

  function RemoveFile(d: Durable, path: OutboxPath, ok: bool): Durable {
    if ok then d.(outbox := d.outbox - {path}) else d
  }

  /** INSERT OR IGNORE INTO error_queue */
  function Enqueue(d: Durable, name: string, c: Call): Durable {
    if name in d.queue then d
    else d.(queue := d.queue[name := QueueRow(c.path, c.data, 1, false)])
  }

  function IncrementRetry(d: Durable, name: string): Durable {
    if name in d.queue then d.(queue := d.queue[name := d.queue[name].(retry := d.queue[name].retry + 1)]) else d
  }

  function MarkResolved(d: Durable, name: string): Durable {
    if name in d.queue then d.(queue := d.queue[name := d.queue[name].(resolved := true)]) else d
  }

  function FlushStep(d: Durable, p: Proc, ok: bool, pick: Item): Effect
    requires p.Collecting? || p.Writing? || p.Marking? || p.Bumping?
  {
    match p
    case Collecting(job) =>
      Effect(d, if ok then Some(Writing(job, Collect(d.staged), [])) else AfterFlush(job, []))
    case Writing(job, items, flushed) =>
      if items == {} then Effect(d, AfterFlush(job, flushed))
      else if pick !in items then Effect(d, Some(p))
      else if ok then Effect(d.(writes := d.writes + multiset{pick}), Some(Marking(job, pick, items - {pick}, flushed)))
      else Effect(d, Some(Bumping(job, pick, items - {pick}, flushed)))
    case Marking(job, item, items, flushed) =>
      if ok then Effect(d.(staged := Mark(d.staged, item.key)), Some(Writing(job, items, flushed + [item.key])))
      else Effect(d.(lost := d.lost + multiset{item.key}), AfterFlush(job, flushed))
    case Bumping(job, item, items, flushed) =>
      if ok then Effect(d.(staged := Bump(d.staged, item.key)), Some(Writing(job, items, flushed)))
      else Effect(d, AfterFlush(job, flushed))
  }

  /** One step of DeliverData outside the flush. */
  function CallStep(env: Env, d: Durable, p: Proc, ok: bool): Effect
    requires p.Start? || p.Filtering? || p.Skipping? || p.Staging? || p.Checking? || p.Recording? || p.Removing?
  {
    match p
    case Start(c) =>
      (match Selected(env, c.path, c.data)
       case None => Effect(d, Some(Failed(c)))
       case Some(inboxes) => Effect(d, Some(if env.dedupOn then Filtering(c, inboxes, []) else Staging(c, inboxes))))
    case Filtering(c, todo, remaining) =>
      if todo == [] then Effect(d, Some(if remaining == [] then Skipping(c) else Staging(c, remaining)))
      else if !ok then Effect(d, Some(Failed(c)))
      else if (env.key(c.data), todo[0]) in d.dedup then Effect(d, Some(Filtering(c, todo[1..], remaining)))
      else Effect(d, Some(Filtering(c, todo[1..], remaining + [todo[0]])))
    case Skipping(c) =>
      Effect(RemoveFile(d, c.path, ok), Some(Done(c)))
    case Staging(c, remaining) =>
      if ok then Effect(d.(staged := StageAll(d.staged, c.path, c.data, remaining)),
          Some(Collecting(Deliver(c, remaining))))
      else Effect(d, Some(Failed(c)))
    case Checking(c, remaining, delivered) =>
      var allDone := ok && AllFlushedFor(d.staged, c.path);
      Effect(d, Some(if env.dedupOn then Recording(c, DedupTargets(remaining, delivered, allDone), allDone, true)
                     else Finish(c, allDone, true)))
    case Recording(c, todo, allDone, recorded) =>
      if todo == [] then Effect(d, Some(Finish(c, allDone, recorded)))
      else Effect(if ok then d.(dedup := d.dedup + {(env.key(c.data), todo[0])}) else d,
                  Some(Recording(c, todo[1..], allDone, recorded && ok)))
    case Removing(c) =>
      Effect(RemoveFile(d, c.path, ok), Some(if ok then Done(c) else Failed(c)))
  }

  /** What the caller of DeliverData does with its result: a failed outbox file moves to
      the error queue and is then removed; a claimed entry is resolved or bumped. */
  function CallerStep(d: Durable, p: Proc, ok: bool, name: string): Effect
    requires p.Done? || p.Failed? || p.Enqueued?
  {
    match p
    case Done(c) =>
      Effect(if c.origin.FromQueue? && ok then MarkResolved(d, c.origin.name) else d, None)
    case Failed(c) =>
      if c.origin.FromQueue? then Effect(if ok then IncrementRetry(d, c.origin.name) else d, None)
      else if ok then Effect(Enqueue(d, name, c), Some(Enqueued(c)))
      else Effect(d, None)
    case Enqueued(c) =>
      Effect(RemoveFile(d, c.path, ok), None)
  }

  function ProcStep(env: Env, d: Durable, p: Proc, ok: bool, name: string, pick: Item): Effect {
    if p.Collecting? || p.Writing? || p.Marking? || p.Bumping? then FlushStep(d, p, ok, pick)
    else if p.Done? || p.Failed? || p.Enqueued? then CallerStep(d, p, ok, name)
    else CallStep(env, d, p, ok)
  }

  function SetProc(procs: map<nat, Proc>, w: nat, p: Option<Proc>): map<nat, Proc> {
    match p case Some(q) => procs[w := q] case None => procs - {w}
  }

  /** The process stops between a write and its mark. */
  function LostBy(p: Proc): multiset<RowKey> {
    if p.Marking? then multiset{p.item.key} else multiset{}
  }

  /** An action that is not enabled leaves the state unchanged. */
  function Next(env: Env, s: State, a: Action): State {
    match a
    case Arrive(p, data) =>
      s.(d := s.d.(outbox := s.d.outbox[p := data], accepted := s.d.accepted + {p}))
    case ReadFile(w, p) =>
      if w in s.procs || p !in s.d.outbox then s
      else s.(procs := s.procs[w := Start(Call(p, s.d.outbox[p], FromOutbox))])
    case ClaimEntry(w, n) =>
      if w in s.procs || n !in s.d.queue || s.d.queue[n].resolved then s
      else s.(procs := s.procs[w := Start(Call(s.d.queue[n].path, s.d.queue[n].data, FromQueue(n)))])
    case RecoverFlush(w) =>
      if w in s.procs then s else s.(procs := s.procs[w := Collecting(Recover)])
    case Step(w, ok, name, pick) =>
      if w !in s.procs then s
      else var e := ProcStep(env, s.d, s.procs[w], ok, name, pick);
        State(e.d, SetProc(s.procs, w, e.next))
    case Kill(w) =>
      if w !in s.procs then s
      else State(s.d.(lost := s.d.lost + LostBy(s.procs[w])), s.procs - {w})
    case Prune => s.(d := s.d.(staged := PruneFlushed(s.d.staged)))
    case Purge => s.(d := s.d.(staged := PurgeDeadLetters(s.d.staged)))
  }

  function Run(env: Env, s: State, actions: seq<Action>): State
    decreases |actions|
  {
    if actions == [] then s else Run(env, Next(env, s, actions[0]), actions[1..])
  }

  lemma {:induction false} RunConcat(env: Env, s: State, a: seq<Action>, b: seq<Action>)
    ensures Run(env, s, a + b) == Run(env, Run(env, s, a), b)
    decreases |a|
  {
    hide Next;
    if a == [] {
      assert a + b == b;
    } else {
      assert (a + b)[1..] == a[1..] + b;
      RunConcat(env, Next(env, s, a[0]), a[1..], b);
    }
  }

  // ------------------------------------------------------------------- hypotheses

  /** Content keys are injective: SHA-256 has no collisions. */
  ghost predicate InjectiveKeys(env: Env) {
    forall a: Bytes, b: Bytes :: env.key(a) == env.key(b) ==> a == b
  }

  /** What the code relies on without enforcing it: a path stands for one content, a
      generated queue name is fresh, and nobody purges dead letters. */
  predicate Admissible(env: Env, s: State, a: Action) {
    match a
    case Arrive(p, data) => data == env.content(p)
    case Step(w, ok, name, _) =>
      w in s.procs && s.procs[w].Failed? && s.procs[w].call.origin.FromOutbox? && ok ==> name !in s.d.queue
    case Purge => false
    case _ => true
  }

  predicate AdmissibleRun(env: Env, s: State, actions: seq<Action>)
    decreases |actions|
  {
    actions == [] || (Admissible(env, s, actions[0]) && AdmissibleRun(env, Next(env, s, actions[0]), actions[1..]))
  }
}
