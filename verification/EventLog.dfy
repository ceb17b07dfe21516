/** The day-sharded event store (internal/eventsource/store_file.go) against one plain
    append log.  A timestamp is an instant in seconds with the offset of its zone; the
    file of an event is named after its local date.  Dates are numbered, which orders
    them as their YYYY-MM-DD names do. */
module EventLog {
  import opened Sorting

  const DAY := 86400
  const ZERO_TIME := -62135596800

  datatype Event = Event(id: string, kind: string, ts: int, offset: int, seqNr: nat, data: string)

  datatype Day = Day(number: int)

  function Date(e: Event): Day { Day((e.ts + e.offset) / DAY) }

  predicate Earlier(a: Day, b: Day) { a.number <= b.number }

  predicate ByDate(a: Event, b: Event) { Earlier(Date(a), Date(b)) }
  predicate ByTime(a: Event, b: Event) { a.ts <= b.ts }
  predicate BySeqNr(a: Event, b: Event) { a.seqNr <= b.seqNr }

  const EVENT_TYPES := ["delivery.completed", "delivery.failed", "error.retried", "scan.completed", "system.cutover"]

  /** ParseEvent; the schema version of new events is always supported. */
  predicate ValidEvent(e: Event) {
    e.id != "" && e.kind in EVENT_TYPES && e.ts != ZERO_TIME && e.data != ""
  }

  /** loadEvents' filter: the zero time means no bound. */
  predicate After(after: int, e: Event) {
    after == ZERO_TIME || e.ts > after
  }

  function OnDate(day: Day): Event -> bool { (e: Event) => Date(e) == day }
  function AtTime(t: int): Event -> bool { (e: Event) => e.ts == t }
  function LaterThan(after: int): Event -> bool { (e: Event) => After(after, e) }
  function Numbered(n: nat): Event -> bool { (e: Event) => e.seqNr > 0 && e.seqNr > n }

  // --------------------------------------------------------------------- the store

  type Files = map<Day, seq<Event>>

  function File(files: Files, day: Day): seq<Event> {
    if day in files then files[day] else []
  }

  /** Each file holds exactly the log's events of its date, in log order. */
  ghost predicate Shards(files: Files, log: seq<Event>) {
    && (forall day :: File(files, day) == Select(log, OnDate(day)))
    && (forall e :: e in log ==> Date(e) in files)
  }

  /** What loading returns: the shards in date order, then sorted by time. */
  function Loaded(log: seq<Event>, after: int): seq<Event> {
    StableSort(StableSort(Select(log, LaterThan(after)), ByDate), ByTime)
  }

  class FileEventStore {
    var files: Files
    /** Everything appended so far, batch after batch. */
    ghost var log: seq<Event>

    ghost predicate Valid()
      reads this
    {
      Shards(files, log)
    }

    constructor ()
      ensures Valid() && log == []
    {
      files, log := map[], [];
    }

    /** A batch with an invalid event changes nothing.  Otherwise every event goes to the
        end of its day's file, whatever order the days are written in; if an I/O operation
        fails, `fails` telling which, each day has received a beginning of its lines. */
    method Append(events: seq<Event>, fails: nat -> bool) returns (ok: bool)
      requires Valid()
      modifies this
      ensures Valid()
      ensures ok ==> log == old(log) + events && forall e :: e in events ==>
                e.id != "" && e.ts != ZERO_TIME && e.data != ""
                && e.kind in {"delivery.completed", "delivery.failed", "error.retried", "scan.completed",
                              "system.cutover"}
      ensures (exists e :: e in events && !ValidEvent(e)) ==> !ok && log == old(log)
      ensures (forall n :: !fails(n)) && (forall e :: e in events ==> ValidEvent(e)) ==> ok
      ensures exists written :: log == old(log) + written && BeginsEachDay(written, events)
    {
      hide Shards, BeginsEachDay;
      ghost var before := log;
      assert log + [] == log;
      WroteNothing(events);
      for n := 0 to |events|
        invariant forall i :: 0 <= i < n ==> ValidEvent(events[i])
      {
        if !ValidEvent(events[n]) {
          assert events[n] in events && log == before + [];
          return false;
        }
      }
      if fails(0) {
        assert log == before + [];
        return false;
      }
      var byDate := GroupByDate(events);
      ghost var written;
      ok, written := WriteShards(byDate, events, fails);
    }

    /** The loop over the per-date map, in an arbitrary order: open, write line by line,
        sync. */
    method WriteShards(byDate: Files, ghost events: seq<Event>, fails: nat -> bool) returns (ok: bool,
        ghost written: seq<Event>)
      requires Valid() && Shards(byDate, events)
      modifies this
      ensures Valid() && log == old(log) + written && BeginsEachDay(written, events)
      ensures ok ==> written == events
      ensures (forall n :: !fails(n)) ==> ok
    {
      hide Shards, WrittenDays, BeginsEachDay;
      var left, op := byDate.Keys, 1;
      written := [];
      WroteNothing(events);
      WrittenNone(byDate);
      assert log + [] == log;
      while left != {}
        invariant left <= byDate.Keys && WrittenDays(byDate, byDate.Keys - left, written)
        invariant Valid() && log == old(log) + written
        decreases left
      {
        var day :| day in left;
        ghost var before := written;
        WrittenBegins(byDate, events, byDate.Keys - left, written);
        if fails(op) { return false, written; }
        assert byDate[day][..0] == [] && before + [] == before;
        for i := 0 to |byDate[day]|
          invariant written == before + byDate[day][..i] && Valid() && log == old(log) + written
        {
          LineOfDay(byDate, events, day, i);
          PartOfDay(byDate, events, byDate.Keys - left, before, day, i);
          op := op + 1;
          if fails(op) { return false, written; }
          var e := byDate[day][i];
          ShardLine(files, log, e);
          files := files[day := File(files, day) + [e]];
          assert byDate[day][..i + 1] == byDate[day][..i] + [e];
          written := written + [e];
          assert log + [e] == old(log) + written;
          log := log + [e];
        }
        PartOfDay(byDate, events, byDate.Keys - left, before, day, |byDate[day]|);
        op := op + 1;
        if fails(op) { return false, written; }
        op := op + 1;
        WrittenDay(byDate, events, byDate.Keys - left, before, day);
        assert byDate[day][..|byDate[day]|] == byDate[day];
        assert byDate.Keys - (left - {day}) == (byDate.Keys - left) + {day};
        left := left - {day};
      }
      assert byDate.Keys - left == byDate.Keys;
      WrittenAll(byDate, events, files, old(log), written);
      BeginsSelf(events);
      written := events;
      log := old(log) + events;
      ok := true;
    }

    /** loadEvents: the files in date order, filtered line by line, then sorted by time. */
    method LoadEvents(after: int) returns (events: seq<Event>)
      requires Valid()
      ensures events == Loaded(log, after)
    {
      hide Select, StableSort, Shards;
      events := [];
      var left := files.Keys;
      ghost var kept := Select(log, LaterThan(after));
      ReadNothing(kept, files.Keys);
      while left != {}
        invariant left <= files.Keys && ReadSoFar(kept, files.Keys - left, left, events)
        decreases left
      {
        ghost var least := LeastExists(left);
        assert least in left && forall d :: d in left ==> Earlier(least, d);
        var day :| day in left && forall d :: d in left ==> Earlier(day, d);
        var lines := FilterLines(files[day], after);
        ShardLines(files, log, day, after);
        ReadOne(kept, files.Keys - left, left, events, day);
        assert files.Keys - (left - {day}) == (files.Keys - left) + {day};
        events := events + lines;
        left := left - {day};
      }
      assert files.Keys - left == files.Keys;
      ShardsCover(files, log);
      DatesInOrder(kept, events, files.Keys);
      events := StableSort(events, ByTime);
    }

    method LoadAll() returns (events: seq<Event>)
      requires Valid()
      ensures events == Loaded(log, ZERO_TIME) && multiset(events) == multiset(log)
      ensures forall i, j :: 0 <= i < j < |events| ==> events[i].ts <= events[j].ts
    {
      hide Loaded, Shards;
      LoadedExact(log, ZERO_TIME);
      events := LoadEvents(ZERO_TIME);
    }

    method LoadSince(after: int) returns (events: seq<Event>)
      requires Valid()
      ensures events == Loaded(log, after)
      ensures after != ZERO_TIME ==>
                forall e :: multiset(events)[e] == if e.ts > after then multiset(log)[e] else 0
      ensures after == ZERO_TIME ==> multiset(events) == multiset(log)
      ensures forall i, j :: 0 <= i < j < |events| ==> events[i].ts <= events[j].ts
    {
      hide Loaded, Shards;
      LoadedExact(log, after);
      events := LoadEvents(after);
    }

    method LoadAfterSeqNr(n: nat) returns (events: seq<Event>)
      requires Valid()
      ensures events == StableSort(Select(Loaded(log, ZERO_TIME), Numbered(n)), BySeqNr)
      ensures forall e :: multiset(events)[e] == if e.seqNr > n then multiset(log)[e] else 0
      ensures forall i, j :: 0 <= i < j < |events| ==> events[i].seqNr <= events[j].seqNr
    {
      hide Select, StableSort, Loaded, Shards;
      var all := LoadEvents(ZERO_TIME);
      events := [];
      SelectEmpty(Numbered(n));
      for i := 0 to |all|
        invariant events == Select(all[..i], Numbered(n))
      {
        SelectNext(all, i, Numbered(n));
        if all[i].seqNr > 0 && all[i].seqNr > n { events := events + [all[i]]; }
      }
      assert all[..|all|] == all;
      events := StableSort(events, BySeqNr);
      LoadAfterExact(log, n);
    }
  }

  /** The line loop of loadEvents. */
  method FilterLines(lines: seq<Event>, after: int) returns (r: seq<Event>)
    ensures r == Select(lines, LaterThan(after))
  {
    hide Select;
    r := [];
    SelectEmpty(LaterThan(after));
    for i := 0 to |lines|
      invariant r == Select(lines[..i], LaterThan(after))
    {
      SelectNext(lines, i, LaterThan(after));
      if After(after, lines[i]) { r := r + [lines[i]]; }
    }
    assert lines[..|lines|] == lines;
  }

  /** The grouping loop of Append. */
  method GroupByDate(events: seq<Event>) returns (byDate: Files)
    ensures Shards(byDate, events)
  {
    hide Select;
    byDate := map[];
    forall day ensures Select(events[..0], OnDate(day)) == [] { SelectEmpty(OnDate(day)); }
    for n := 0 to |events|
      invariant forall day :: File(byDate, day) == Select(events[..n], OnDate(day))
      invariant forall i :: 0 <= i < n ==> Date(events[i]) in byDate
    {
      var day := Date(events[n]);
      forall d
        ensures Select(events[..n + 1], OnDate(d))
             == Select(events[..n], OnDate(d)) + if day == d then [events[n]] else []
      {
        SelectNext(events, n, OnDate(d));
      }
      byDate := byDate[day := File(byDate, day) + [events[n]]];
    }
    assert events[..|events|] == events;
  }

  /** For every day, the lines written are a beginning of the batch's lines. */
  ghost predicate BeginsEachDay(written: seq<Event>, events: seq<Event>) {
    forall day :: Select(written, OnDate(day)) <= Select(events, OnDate(day))
  }

  /** The lines of exactly the days `done` have been written. */
  ghost predicate WrittenDays(byDate: Files, done: set<Day>, written: seq<Event>) {
    forall day :: Select(written, OnDate(day)) == if day in done then File(byDate, day) else []
  }

  lemma WroteNothing(events: seq<Event>)
    ensures BeginsEachDay([], events)
  {
  }

  lemma BeginsSelf(events: seq<Event>)
    ensures BeginsEachDay(events, events)
  {
  }

  lemma WrittenNone(byDate: Files)
    ensures WrittenDays(byDate, byDate.Keys - byDate.Keys, [])
  {
  }

  lemma WrittenBegins(byDate: Files, events: seq<Event>, done: set<Day>, written: seq<Event>)
    requires Shards(byDate, events) && WrittenDays(byDate, done, written)
    ensures BeginsEachDay(written, events)
  {
    hide Select;
    forall day ensures Select(written, OnDate(day)) <= Select(events, OnDate(day)) {
      assert File(byDate, day) == Select(events, OnDate(day));
    }
  }

  lemma LineOfDay(byDate: Files, events: seq<Event>, day: Day, i: nat)
    requires Shards(byDate, events) && day in byDate && i < |byDate[day]|
    ensures Date(byDate[day][i]) == day
  {
    assert File(byDate, day) == Select(events, OnDate(day));
    assert byDate[day][i] in Select(events, OnDate(day));
  }

  lemma DayLines(byDate: Files, events: seq<Event>, day: Day, i: nat, d: Day)
    requires Shards(byDate, events) && day in byDate && i <= |byDate[day]|
    ensures Select(byDate[day][..i], OnDate(d)) == if d == day then byDate[day][..i] else []
  {
    var lines := byDate[day][..i];
    forall e | e in lines ensures Date(e) == day {
      var j :| 0 <= j < i && byDate[day][j] == e;
      LineOfDay(byDate, events, day, j);
    }
    if d == day { SelectAll(lines, OnDate(d)); } else { SelectNone(lines, OnDate(d)); }
  }

  /** Whole days followed by a beginning of one more. */
  lemma PartOfDay(byDate: Files, events: seq<Event>, done: set<Day>, written: seq<Event>, day: Day, i: nat)
    requires Shards(byDate, events) && WrittenDays(byDate, done, written) && day in byDate && day !in done
    requires i <= |byDate[day]|
    ensures BeginsEachDay(written + byDate[day][..i], events)
  {
    hide Select;
    forall d ensures Select(written + byDate[day][..i], OnDate(d)) <= Select(events, OnDate(d)) {
      SelectConcat(written, byDate[day][..i], OnDate(d));
      DayLines(byDate, events, day, i, d);
      assert File(byDate, d) == Select(events, OnDate(d));
      assert Select(written, OnDate(d)) == if d in done then File(byDate, d) else [];
    }
  }

  lemma WrittenDay(byDate: Files, events: seq<Event>, done: set<Day>, written: seq<Event>, day: Day)
    requires Shards(byDate, events) && WrittenDays(byDate, done, written) && day in byDate && day !in done
    ensures WrittenDays(byDate, done + {day}, written + byDate[day])
  {
    hide Select;
    assert byDate[day][..|byDate[day]|] == byDate[day];
    forall d ensures Select(written + byDate[day], OnDate(d)) == if d in done + {day} then File(byDate, d) else [] {
      SelectConcat(written, byDate[day], OnDate(d));
      DayLines(byDate, events, day, |byDate[day]|, d);
      assert Select(written, OnDate(d)) == if d in done then File(byDate, d) else [];
    }
  }

  /** One line more at the end of its day's file and of the log. */
  lemma ShardLine(files: Files, log: seq<Event>, e: Event)
    requires Shards(files, log)
    ensures Shards(files[Date(e) := File(files, Date(e)) + [e]], log + [e])
  {
    hide Select, Date;
    var after := files[Date(e) := File(files, Date(e)) + [e]];
    forall d ensures File(after, d) == Select(log + [e], OnDate(d)) {
      SelectConcat(log, [e], OnDate(d));
      SelectSingle(e, OnDate(d));
      assert File(files, d) == Select(log, OnDate(d));
    }
  }

  lemma SelectSingle(e: Event, p: Event -> bool)
    ensures Select([e], p) == if p(e) then [e] else []
  {
    assert [e][1..] == [];
  }

  /** Once all days are written, the files are those of the batch in its own order. */
  lemma WrittenAll(byDate: Files, events: seq<Event>, files: Files, log: seq<Event>, written: seq<Event>)
    requires Shards(byDate, events) && WrittenDays(byDate, byDate.Keys, written) && Shards(files, log + written)
    ensures Shards(files, log + events)
  {
    hide Select, Date;
    forall d
      ensures File(files, d) == Select(log + events, OnDate(d))
      ensures Select(written, OnDate(d)) == Select(events, OnDate(d))
    {
      SelectConcat(log, written, OnDate(d));
      SelectConcat(log, events, OnDate(d));
      assert File(byDate, d) == Select(events, OnDate(d));
      assert File(files, d) == Select(log + written, OnDate(d));
    }
    forall e | e in log + events ensures Date(e) in files {
      if e in events {
        assert e in Select(events, OnDate(Date(e)));
        assert e in Select(written, OnDate(Date(e)));
        assert e in log + written;
      } else {
        assert e in log + written;
      }
    }
  }

  lemma SelectEmpty(p: Event -> bool)
    ensures Select([], p) == []
  {
  }

  lemma SelectNext(xs: seq<Event>, n: nat, p: Event -> bool)
    requires n < |xs|
    ensures Select(xs[..n + 1], p) == Select(xs[..n], p) + if p(xs[n]) then [xs[n]] else []
  {
    assert xs[..n + 1] == xs[..n] + [xs[n]];
    SelectConcat(xs[..n], [xs[n]], p);
  }

  /** The shards of the days read so far, in date order. */
  ghost predicate ReadSoFar(kept: seq<Event>, done: set<Day>, left: set<Day>, events: seq<Event>) {
    && Sorted(events, ByDate)
    && (forall e, day :: e in events && day in left ==> Earlier(Date(e), day))
    && (forall day :: Select(events, OnDate(day)) == if day in done then Select(kept, OnDate(day)) else [])
  }

  lemma ReadNothing(kept: seq<Event>, days: set<Day>)
    ensures ReadSoFar(kept, days - days, days, [])
  {
  }

  lemma ShardLines(files: Files, log: seq<Event>, day: Day, after: int)
    requires Shards(files, log) && day in files
    ensures Select(files[day], LaterThan(after)) == Select(Select(log, LaterThan(after)), OnDate(day))
  {
    hide Select;
    SelectSwap(log, OnDate(day), LaterThan(after));
    assert File(files, day) == Select(log, OnDate(day));
  }

  lemma ShardsCover(files: Files, log: seq<Event>)
    requires Shards(files, log)
    ensures forall e :: e in log ==> Date(e) in files
  {
  }

  lemma ReadOne(kept: seq<Event>, done: set<Day>, left: set<Day>, events: seq<Event>, day: Day)
    requires ReadSoFar(kept, done, left, events) && day in left && day !in done
    requires forall d :: d in left ==> Earlier(day, d)
    ensures ReadSoFar(kept, done + {day}, left - {day}, events + Select(kept, OnDate(day)))
  {
    hide Select, Sorted;
    var lines := Select(kept, OnDate(day));
    assert forall e :: e in lines ==> Date(e) == day;
    forall d ensures Select(events + lines, OnDate(d)) == Select(events, OnDate(d)) + if d == day then lines else [] {
      SelectConcat(events, lines, OnDate(d));
      if d == day { SelectAll(lines, OnDate(d)); } else { SelectNone(lines, OnDate(d)); }
    }
    AppendDay(events, lines, day);
  }

  lemma AppendDay(events: seq<Event>, lines: seq<Event>, day: Day)
    requires Sorted(events, ByDate)
    requires forall e :: e in events ==> Earlier(Date(e), day)
    requires forall e :: e in lines ==> Date(e) == day
    ensures Sorted(events + lines, ByDate)
  {
    hide Date;
    var all := events + lines;
    forall i, j | 0 <= i < j < |all| ensures ByDate(all[i], all[j]) {
      if j < |events| {
        assert all[i] == events[i] && all[j] == events[j];
      } else {
        assert all[j] in lines;
        if i < |events| { assert all[i] in events; } else { assert all[i] in lines; }
      }
    }
  }

  ghost predicate IsLeast(m: Day, s: set<Day>) {
    m in s && forall d :: d in s ==> Earlier(m, d)
  }

  lemma {:induction false} LeastExists(s: set<Day>) returns (least: Day)
    requires s != {}
    ensures IsLeast(least, s)
    decreases |s|
  {
    var x :| x in s;
    least := x;
    if s - {x} != {} {
      var m := LeastExists(s - {x});
      if Earlier(m, x) { least := m; }
    }
    forall d | d in s ensures Earlier(least, d) {
      if d != x { assert d in s - {x}; }
    }
  }

  lemma {:induction false} SelectNone(xs: seq<Event>, p: Event -> bool)
    requires forall x :: x in xs ==> !p(x)
    ensures Select(xs, p) == []
  {
    if xs != [] { SelectNone(xs[1..], p); }
  }

  lemma SelectSwap(xs: seq<Event>, p: Event -> bool, q: Event -> bool)
    ensures Select(Select(xs, p), q) == Select(Select(xs, q), p)
  {
    SelectTwice(xs, p, q, x => p(x) && q(x));
    SelectTwice(xs, q, p, x => p(x) && q(x));
  }

  lemma Orders()
    ensures TotalPreorder(ByDate) && TotalPreorder(ByTime) && TotalPreorder(BySeqNr)
  {
  }

  lemma ClassOnDate(xs: seq<Event>, x: Event)
    ensures Class(xs, x, ByDate) == Select(xs, OnDate(Date(x)))
  {
    SelectSame(xs, y => ByDate(x, y) && ByDate(y, x), OnDate(Date(x)));
  }

  lemma ClassAtTime(xs: seq<Event>, x: Event)
    ensures Class(xs, x, ByTime) == Select(xs, AtTime(x.ts))
  {
    SelectSame(xs, y => ByTime(x, y) && ByTime(y, x), AtTime(x.ts));
  }

  /** The shards read in date order are the log stably sorted by date. */
  lemma DatesInOrder(kept: seq<Event>, events: seq<Event>, days: set<Day>)
    requires ReadSoFar(kept, days, {}, events)
    requires forall e :: e in kept ==> Date(e) in days
    ensures events == StableSort(kept, ByDate)
  {
    hide Select, StableSort, Class;
    Orders();
    SortSorts(kept, ByDate);
    forall x: Event ensures Class(events, x, ByDate) == Class(StableSort(kept, ByDate), x, ByDate) {
      SortKeepsClass(kept, x, ByDate);
      ClassOnDate(events, x);
      ClassOnDate(kept, x);
      if Date(x) !in days { SelectNone(kept, OnDate(Date(x))); }
    }
    SortedUnique(events, StableSort(kept, ByDate), ByDate);
  }

  // ---------------------------------------------------------------------- theorems

  /** Events of one instant were appended in the order of their dates. */
  predicate DatesAgree(log: seq<Event>) {
    forall i, j :: 0 <= i < j < |log| && log[i].ts == log[j].ts ==> ByDate(log[i], log[j])
  }

  lemma InClass(log: seq<Event>, x: Event, e: Event)
    ensures e in Class(log, x, ByTime) <==> e in log && e.ts == x.ts
  {
    ClassAtTime(log, x);
  }

  lemma DatesAgreeTail(log: seq<Event>)
    requires log != []
    ensures DatesAgree(log) <==>
            DatesAgree(log[1..]) && forall e :: e in log[1..] && e.ts == log[0].ts ==> ByDate(log[0], e)
  {
    hide ByDate;
    if DatesAgree(log) {
      forall e | e in log[1..] && e.ts == log[0].ts ensures ByDate(log[0], e) {
        var k :| 0 <= k < |log[1..]| && log[1..][k] == e;
        assert log[k + 1] == e;
      }
      forall i, j | 0 <= i < j < |log[1..]| && log[1..][i].ts == log[1..][j].ts
        ensures ByDate(log[1..][i], log[1..][j])
      {
        assert log[i + 1] == log[1..][i] && log[j + 1] == log[1..][j];
      }
    }
    if DatesAgree(log[1..]) && forall e :: e in log[1..] && e.ts == log[0].ts ==> ByDate(log[0], e) {
      forall i, j | 0 <= i < j < |log| && log[i].ts == log[j].ts ensures ByDate(log[i], log[j]) {
        assert log[1..][j - 1] == log[j];
        if i > 0 { assert log[1..][i - 1] == log[i]; }
      }
    }
  }

  lemma SortedCons(x: Event, c: seq<Event>)
    ensures Sorted([x] + c, ByDate) <==> Sorted(c, ByDate) && forall e :: e in c ==> ByDate(x, e)
  {
    hide ByDate;
    var xs := [x] + c;
    if Sorted(xs, ByDate) {
      forall e | e in c ensures ByDate(x, e) {
        var k :| 0 <= k < |c| && c[k] == e;
        assert xs[0] == x && xs[k + 1] == e;
      }
      forall i, j | 0 <= i < j < |c| ensures ByDate(c[i], c[j]) {
        assert xs[i + 1] == c[i] && xs[j + 1] == c[j];
      }
    }
  }

  /** The condition, seen through the classes of equal instants. */
  lemma {:induction false} DatesAgreeByClass(log: seq<Event>)
    ensures DatesAgree(log) <==> forall x: Event :: Sorted(Class(log, x, ByTime), ByDate)
  {
    hide Class, DatesAgree, ByDate, Sorted;
    if log == [] {
      EmptyClasses();
    } else {
      var x0 := log[0];
      DatesAgreeTail(log);
      DatesAgreeByClass(log[1..]);
      forall x: Event
        ensures Sorted(Class(log, x, ByTime), ByDate) <==>
                Sorted(Class(log[1..], x, ByTime), ByDate)
                    && (x.ts == x0.ts ==> forall e :: e in log[1..] && e.ts == x0.ts ==> ByDate(x0, e))
      {
        ClassTail(log, x, ByTime);
        ClassHead(log, x);
        if x.ts == x0.ts {
          SortedCons(x0, Class(log[1..], x, ByTime));
          forall e
            ensures e in Class(log[1..], x, ByTime) <==> e in log[1..] && e.ts == x0.ts
          {
            InClass(log[1..], x, e);
          }
        }
      }
    }
  }

  lemma EmptyClasses()
    ensures DatesAgree([]) && forall x: Event :: Sorted(Class([], x, ByTime), ByDate)
  {
  }

  lemma ClassHead(log: seq<Event>, x: Event)
    requires log != []
    ensures x.ts == log[0].ts ==> Class(log, x, ByTime) == [log[0]] + Class(log[1..], x, ByTime)
    ensures x.ts != log[0].ts ==> Class(log, x, ByTime) == Class(log[1..], x, ByTime)
  {
    hide Class;
    ClassAtTime(log, x);
    ClassAtTime(log[1..], x);
  }

  /** Loading keeps each instant's events, but in date order. */
  lemma LoadedClass(log: seq<Event>, x: Event)
    ensures Class(Loaded(log, ZERO_TIME), x, ByTime) == StableSort(Class(log, x, ByTime), ByDate)
  {
    hide StableSort, Sorted, Class, Select;
    Orders();
    SelectAll(log, LaterThan(ZERO_TIME));
    SortKeepsClass(StableSort(log, ByDate), x, ByTime);
    ClassAtTime(StableSort(log, ByDate), x);
    ClassAtTime(log, x);
    SortSelect(log, ByDate, AtTime(x.ts));
  }

  /** Sharding is invisible exactly when events of one instant were appended in date
      order: loading everything then gives the stable time sort of the plain log. */
  lemma ShardingInvisibleIff(log: seq<Event>)
    ensures Loaded(log, ZERO_TIME) == StableSort(log, ByTime) <==> DatesAgree(log)
  {
    hide Select, StableSort, Class, Loaded, DatesAgree, Sorted;
    Orders();
    DatesAgreeByClass(log);
    var loaded, sorted := Loaded(log, ZERO_TIME), StableSort(log, ByTime);
    if DatesAgree(log) {
      forall x: Event ensures Class(loaded, x, ByTime) == Class(sorted, x, ByTime) {
        LoadedClass(log, x);
        SortKeepsClass(log, x, ByTime);
        SortOfSorted(Class(log, x, ByTime), ByDate);
      }
      LoadedSorted(log);
      SortSorts(log, ByTime);
      SortedUnique(loaded, sorted, ByTime);
    }
    if loaded == sorted {
      forall x: Event ensures Sorted(Class(log, x, ByTime), ByDate) {
        LoadedClass(log, x);
        SortKeepsClass(log, x, ByTime);
        SortSorts(Class(log, x, ByTime), ByDate);
      }
    }
  }

  lemma LoadedSorted(log: seq<Event>)
    ensures Sorted(Loaded(log, ZERO_TIME), ByTime)
  {
    hide Select, StableSort, Sorted;
    Orders();
    SortSorts(StableSort(Select(log, LaterThan(ZERO_TIME)), ByDate), ByTime);
  }

  /** Two zones are enough to see the shards: one instant, already tomorrow in the zone
      of the first event and still today in the zone of the second. */
  lemma ZonesMatter()
    ensures exists log: seq<Event> ::
              && (forall e :: e in log ==> ValidEvent(e))
              && Loaded(log, ZERO_TIME) != StableSort(log, ByTime)
  {
    hide Loaded, StableSort;
    var east := Event("1", "scan.completed", 61200, 32400, 1, "x");
    var utc := Event("2", "scan.completed", 61200, 0, 2, "x");
    var log := [east, utc];
    assert "scan.completed" == EVENT_TYPES[3];
    assert forall e :: e in log ==> ValidEvent(e);
    assert !ByDate(log[0], log[1]);
    ShardingInvisibleIff(log);
  }

  /** In particular for UTC timestamps, or any single zone. */
  lemma OneZoneInvisible(log: seq<Event>, offset: int)
    requires forall e :: e in log ==> e.offset == offset
    ensures Loaded(log, ZERO_TIME) == StableSort(log, ByTime)
  {
    hide Loaded, StableSort;
    forall i, j | 0 <= i < j < |log| && log[i].ts == log[j].ts ensures ByDate(log[i], log[j]) {
      assert log[i] in log && log[j] in log;
    }
    ShardingInvisibleIff(log);
  }

  /** A bounded load is the filter of the full load, whatever the zones. */
  lemma LoadSinceIsFilter(log: seq<Event>, after: int)
    ensures Loaded(log, after) == Select(Loaded(log, ZERO_TIME), LaterThan(after))
  {
    hide StableSort, Select;
    Orders();
    SelectAll(log, LaterThan(ZERO_TIME));
    SortSelect(StableSort(log, ByDate), ByTime, LaterThan(after));
    SortSelect(log, ByDate, LaterThan(after));
  }

  /** A load, without its parts: exactly the events strictly after the bound, all of them if
      the bound is the zero time, as often as they were appended, in the order of time. */
  lemma LoadedExact(log: seq<Event>, after: int)
    ensures var r := Loaded(log, after);
            && (after == ZERO_TIME ==> multiset(r) == multiset(log))
            && (after != ZERO_TIME ==> forall e :: multiset(r)[e] == if e.ts > after then multiset(log)[e] else 0)
            && forall i, j :: 0 <= i < j < |r| ==> r[i].ts <= r[j].ts
  {
    hide StableSort, Select;
    Orders();
    var kept := Select(log, LaterThan(after));
    SortSorts(StableSort(kept, ByDate), ByTime);
    if after == ZERO_TIME { SelectAll(log, LaterThan(after)); }
    forall e: Event ensures multiset(kept)[e] == if LaterThan(after)(e) then multiset(log)[e] else 0 {
      SelectCount(log, LaterThan(after), e);
    }
    var r := Loaded(log, after);
    forall i, j | 0 <= i < j < |r| ensures r[i].ts <= r[j].ts { assert ByTime(r[i], r[j]); }
  }

  /** Loading after a number gives exactly the events above it, as often as they were
      appended, in ascending order. */
  lemma LoadAfterExact(log: seq<Event>, n: nat)
    ensures var r := StableSort(Select(Loaded(log, ZERO_TIME), Numbered(n)), BySeqNr);
            && (forall e :: multiset(r)[e] == if e.seqNr > n then multiset(log)[e] else 0)
            && forall i, j :: 0 <= i < j < |r| ==> r[i].seqNr <= r[j].seqNr
  {
    hide StableSort, Select, Loaded;
    Orders();
    LoadedExact(log, ZERO_TIME);
    var all := Loaded(log, ZERO_TIME);
    var r := StableSort(Select(all, Numbered(n)), BySeqNr);
    SortSorts(Select(all, Numbered(n)), BySeqNr);
    forall e: Event ensures multiset(r)[e] == if e.seqNr > n then multiset(log)[e] else 0 {
      SelectCount(all, Numbered(n), e);
    }
    forall i, j | 0 <= i < j < |r| ensures r[i].seqNr <= r[j].seqNr { assert BySeqNr(r[i], r[j]); }
  }
}
