/** What a sync reports as changed (internal/session/setup.go): endpoint snapshots, their
    difference, and order-insensitive comparison of kind lists. */
module SyncDiff {
  import opened Text
  import opened Sorting
  import opened Routing

  type Snapshot = map<string, Endpoint>

  datatype Change = Change(repo: string, dir: string, change: string)

  // ------------------------------------------------------------------- comparing lists

  /** Sorting copies and comparing them decides equality as multisets. */
  method SlicesEqual(a: seq<string>, b: seq<string>) returns (equal: bool)
    ensures equal <==> multiset(a) == multiset(b)
  {
    hide StableSort, Leq, Sorted;
    SameMultisetSameLength(a, b);
    if |a| != |b| { return false; }
    var sa, sb := StableSort(a, Leq), StableSort(b, Leq);
    StringOrder();
    SortSorts(a, Leq);
    SortSorts(b, Leq);
    SameMultisetSameLength(sa, a);
    SameMultisetSameLength(sb, b);
    if multiset(a) == multiset(b) { SortedStringsUnique(sa, sb); }
    for i := 0 to |sa|
      invariant forall j :: 0 <= j < i ==> sa[j] == sb[j]
    {
      if sa[i] != sb[i] { return false; }
    }
    assert sa == sb;
    equal := true;
  }

  lemma SameMultisetSameLength(a: seq<string>, b: seq<string>)
    ensures multiset(a) == multiset(b) ==> |a| == |b|
  {
    assert |multiset(a)| == |a| && |multiset(b)| == |b|;
  }

  predicate SameEndpoint(a: Endpoint, b: Endpoint) {
    multiset(a.produces) == multiset(b.produces) && multiset(a.consumes) == multiset(b.consumes)
  }

  method EndpointEqual(a: Endpoint, b: Endpoint) returns (equal: bool)
    ensures equal <==> SameEndpoint(a, b)
  {
    equal := SlicesEqual(a.produces, b.produces);
    if equal { equal := SlicesEqual(a.consumes, b.consumes); }
  }

  // --------------------------------------------------------------------------- keys

  function Key(path: string, dir: string): string { path + "/" + dir }

  function AfterLastSlash(s: string): (r: string)
    ensures '/' !in r
  {
    if s == "" || s[|s| - 1] == '/' then "" else AfterLastSlash(s[..|s| - 1]) + [s[|s| - 1]]
  }

  function StripSlashes(s: string): string {
    if s != "" && s[|s| - 1] == '/' then StripSlashes(s[..|s| - 1]) else s
  }

  /** filepath.Base */
  function Base(path: string): string {
    if path == "" then "."
    else if StripSlashes(path) == "" then "/"
    else AfterLastSlash(StripSlashes(path))
  }

  /** The base name of a path below a directory is its last element, whatever slashes follow,
      and only the empty path and the root have none. */
  lemma BaseExact(above: string, name: string, slashes: string)
    requires name != "" && '/' !in name
    requires forall i :: 0 <= i < |slashes| ==> slashes[i] == '/'
    ensures Base(above + "/" + name + slashes) == name && Base(name + slashes) == name
    ensures Base(slashes) == if slashes == "" then "." else "/"
  {
    hide AfterLastSlash, StripSlashes;
    StripKeeps(above + "/" + name, slashes);
    StripKeeps(name, slashes);
    StripKeeps("", slashes);
    assert "" + slashes == slashes;
    AfterLast(above + "/", name);
    AfterLast("", name);
    assert above + "/" + name == (above + "/") + name && "" + name == name;
  }

  lemma {:induction false} StripKeeps(s: string, slashes: string)
    requires s == "" || s[|s| - 1] != '/'
    requires forall i :: 0 <= i < |slashes| ==> slashes[i] == '/'
    ensures StripSlashes(s + slashes) == s
  {
    if slashes == "" {
      assert s + slashes == s;
    } else {
      var n := |slashes| - 1;
      assert (s + slashes)[..|s| + n] == s + slashes[..n];
      StripKeeps(s, slashes[..n]);
    }
  }

  lemma {:induction false} AfterLast(above: string, name: string)
    requires '/' !in name && (above == "" || above[|above| - 1] == '/')
    ensures AfterLastSlash(above + name) == name
  {
    var s := above + name;
    if name != "" {
      var n := |name| - 1;
      assert s[..|s| - 1] == above + name[..n];
      AfterLast(above, name[..n]);
      assert name[..n] + [name[n]] == name;
      assert s[|s| - 1] == name[n];
    }
  }

  /** The last separator, or -1. */
  function LastSlash(s: string): (i: int)
    ensures -1 <= i < |s|
    ensures i >= 0 ==> s[i] == '/'
    ensures forall j :: i < j < |s| ==> s[j] != '/'
  {
    if s == "" then -1 else if s[|s| - 1] == '/' then |s| - 1 else LastSlash(s[..|s| - 1])
  }

  /** splitEndpointKey: the repository's base name and the directory. */
  function SplitKey(key: string): (string, string) {
    var last := LastSlash(key);
    if last < 0 then (key, "") else (Base(key[..last]), key[last + 1..])
  }

  /** For a directory without a separator the key can be taken apart again. */
  lemma SplitOfKey(path: string, dir: string)
    requires '/' !in dir
    ensures LastSlash(Key(path, dir)) == |path|
    ensures SplitKey(Key(path, dir)) == (Base(path), dir)
  {
    hide Base, LastSlash;
    var key := Key(path, dir);
    assert key[|path|] == '/';
    forall j | |path| < j < |key| ensures key[j] != '/' { assert key[j] == dir[j - |path| - 1]; }
    assert LastSlash(key) == |path|;
    assert key[..|path|] == path && key[|path| + 1..] == dir;
  }

  lemma KeyInjective(p: string, d: string, q: string, e: string)
    requires '/' !in d && '/' !in e && Key(p, d) == Key(q, e)
    ensures p == q && d == e
  {
    SplitOfKey(p, d);
    SplitOfKey(q, e);
    assert Key(p, d)[..|p|] == p && Key(q, e)[..|q|] == q;
  }

  // ----------------------------------------------------------------------- snapshots

  datatype Entry = Entry(key: string, ep: Endpoint)

  function EntryIn(path: string): Endpoint -> seq<Entry> {
    (ep: Endpoint) => [Entry(Key(path, ep.dir), ep)]
  }

  function EntriesOf(): Repo -> seq<Entry> {
    (repo: Repo) => Flat(repo.endpoints, EntryIn(repo.path))
  }

  function Entries(repos: seq<Repo>): seq<Entry> { Flat(repos, EntriesOf()) }

  /** Later entries overwrite earlier ones. */
  function Filled(snap: Snapshot, entries: seq<Entry>): Snapshot
    decreases |entries|
  {
    if entries == [] then snap else Filled(snap[entries[0].key := entries[0].ep], entries[1..])
  }

  lemma {:induction false} FilledConcat(snap: Snapshot, a: seq<Entry>, b: seq<Entry>)
    ensures Filled(snap, a + b) == Filled(Filled(snap, a), b)
    decreases |a|
  {
    if a == [] {
      assert a + b == b;
    } else {
      assert (a + b)[1..] == a[1..] + b;
      FilledConcat(snap[a[0].key := a[0].ep], a[1..], b);
    }
  }

  method SnapshotEndpoints(repos: seq<Repo>) returns (snap: Snapshot)
    ensures snap == Filled(map[], Entries(repos))
  {
    hide Flat;
    snap := map[];
    FlatNone(EntriesOf());
    for i := 0 to |repos|
      invariant snap == Filled(map[], Flat(repos[..i], EntriesOf()))
    {
      FlatNext(repos, i, EntriesOf());
      FilledConcat(map[], Flat(repos[..i], EntriesOf()), EntriesOf()(repos[i]));
      snap := SnapshotRepo(snap, repos[i]);
    }
    assert repos[..|repos|] == repos;
  }

  method SnapshotRepo(before: Snapshot, repo: Repo) returns (snap: Snapshot)
    ensures snap == Filled(before, EntriesOf()(repo))
  {
    hide Flat;
    snap := before;
    FlatNone(EntryIn(repo.path));
    for j := 0 to |repo.endpoints|
      invariant snap == Filled(before, Flat(repo.endpoints[..j], EntryIn(repo.path)))
    {
      var ep := repo.endpoints[j];
      FlatNext(repo.endpoints, j, EntryIn(repo.path));
      FilledConcat(before, Flat(repo.endpoints[..j], EntryIn(repo.path)), [Entry(Key(repo.path, ep.dir), ep)]);
      snap := snap[Key(repo.path, ep.dir) := ep];
    }
    assert repo.endpoints[..|repo.endpoints|] == repo.endpoints;
  }

  lemma {:induction false} FilledMeans(snap: Snapshot, entries: seq<Entry>, k: string)
    ensures var r := Filled(snap, entries);
            && (k in r <==> k in snap || exists e :: e in entries && e.key == k)
            && (k in r ==> (k in snap && r[k] == snap[k]) || exists e :: e in entries && e.key == k && r[k] == e.ep)
    decreases |entries|
  {
    if entries != [] {
      FilledMeans(snap[entries[0].key := entries[0].ep], entries[1..], k);
      assert entries == [entries[0]] + entries[1..];
      assert entries[0] in entries;
    }
  }

  /** The last entry of a key wins. */
  lemma {:induction false} LastWins(snap: Snapshot, entries: seq<Entry>, i: nat)
    requires i < |entries| && forall j :: i < j < |entries| ==> entries[j].key != entries[i].key
    ensures var r := Filled(snap, entries); entries[i].key in r && r[entries[i].key] == entries[i].ep
    decreases |entries|
  {
    var k, first := entries[i].key, entries[0];
    if i > 0 {
      forall j | i - 1 < j < |entries| - 1 ensures entries[1..][j].key != k {
        assert entries[1..][j] == entries[j + 1];
      }
      LastWins(snap[first.key := first.ep], entries[1..], i - 1);
    } else {
      forall e | e in entries[1..] ensures e.key != k {
        var j :| 0 <= j < |entries[1..]| && entries[1..][j] == e;
        assert entries[j + 1] == e;
      }
      FilledMeans(snap[first.key := first.ep], entries[1..], k);
    }
  }

  lemma EntryFrom(repos: seq<Repo>, e: Entry)
    ensures e in Entries(repos) <==>
            exists repo, ep :: repo in repos && ep in repo.endpoints && e == Entry(Key(repo.path, ep.dir), ep)
  {
    hide Flat;
    FlatFrom(repos, EntriesOf(), e);
    forall repo: Repo
      ensures e in EntriesOf()(repo) <==> exists ep :: ep in repo.endpoints && e == Entry(Key(repo.path, ep.dir), ep)
    {
      FlatFrom(repo.endpoints, EntryIn(repo.path), e);
    }
    hide EntriesOf;
  }

  /** The repositories configure this endpoint at this place. */
  ghost predicate Configured(repos: seq<Repo>, path: string, ep: Endpoint) {
    exists repo :: repo in repos && repo.path == path && ep in repo.endpoints
  }

  /** Directories without separators, and one endpoint for each place. */
  ghost predicate UniqueKeys(repos: seq<Repo>) {
    && (forall repo, ep :: repo in repos && ep in repo.endpoints ==> '/' !in ep.dir)
    && (forall path, a, b :: Configured(repos, path, a) && Configured(repos, path, b) && a.dir == b.dir ==> a == b)
  }

  /** A snapshot then holds exactly the configured endpoints. */
  lemma SnapshotExact(repos: seq<Repo>, path: string, dir: string)
    requires UniqueKeys(repos) && '/' !in dir
    ensures var snap := Filled(map[], Entries(repos));
            && (Key(path, dir) in snap <==> exists ep :: Configured(repos, path, ep) && ep.dir == dir)
            && (Key(path, dir) in snap ==>
                Configured(repos, path, snap[Key(path, dir)]) && snap[Key(path, dir)].dir == dir)
  {
    hide Filled, Entries, Key;
    var snap, k := Filled(map[], Entries(repos)), Key(path, dir);
    FilledMeans(map[], Entries(repos), k);
    if k in snap {
      var e :| e in Entries(repos) && e.key == k && snap[k] == e.ep;
      EntryFrom(repos, e);
      var repo, ep :| repo in repos && ep in repo.endpoints && e == Entry(Key(repo.path, ep.dir), ep);
      KeyInjective(path, dir, repo.path, ep.dir);
      assert Configured(repos, path, ep);
    }
    if ep :| Configured(repos, path, ep) && ep.dir == dir {
      var repo :| repo in repos && repo.path == path && ep in repo.endpoints;
      EntryFrom(repos, Entry(k, ep));
    }
  }

  // ---------------------------------------------------------------------- differences

  /** What happened to a key, if anything. */
  function Verdict(before: Snapshot, latest: Snapshot, k: string): Option<string> {
    if k in latest && k !in before then Some("added")
    else if k in before && k !in latest then Some("removed")
    else if k in before && k in latest && !SameEndpoint(before[k], latest[k]) then Some("changed")
    else None
  }

  function Reported(k: string, change: string): Change {
    Change(SplitKey(k).0, SplitKey(k).1, change)
  }

  /** `keys` lists without repetition the keys of `among` that differ, and `diffs` reports
      each of them. */
  ghost predicate Lists(before: Snapshot, latest: Snapshot, among: set<string>, keys: seq<string>, diffs: seq<Change>) {
    && |keys| == |diffs|
    && (forall i, j :: 0 <= i < j < |keys| ==> keys[i] != keys[j])
    && (forall k :: k in keys <==> k in among && Verdict(before, latest, k).Some?)
    && (forall i :: 0 <= i < |keys| ==>
        Verdict(before, latest, keys[i]).Some? && diffs[i] == Reported(keys[i], Verdict(before, latest, keys[i]).value))
  }

  /** Each key that was added, removed or changed is reported once, and no other, in
      whatever order the two maps are iterated. */
  method DiffEndpoints(before: Snapshot, latest: Snapshot) returns (diffs: seq<Change>)
    ensures exists keys :: Lists(before, latest, before.Keys + latest.Keys, keys, diffs)
  {
    hide Lists;
    ghost var keys: seq<string> := [];
    diffs := [];
    var left := latest.Keys;
    ListsNothing(before, latest);
    while left != {}
      invariant left <= latest.Keys && Lists(before, latest, latest.Keys - left, keys, diffs)
      decreases left
    {
      var k :| k in left;
      ListsOne(before, latest, latest.Keys - left, keys, diffs, k);
      assert latest.Keys - (left - {k}) == (latest.Keys - left) + {k};
      if k !in before {
        diffs, keys := diffs + [Reported(k, "added")], keys + [k];
      } else {
        var equal := EndpointEqual(before[k], latest[k]);
        if !equal { diffs, keys := diffs + [Reported(k, "changed")], keys + [k]; }
      }
      left := left - {k};
    }
    assert latest.Keys - left == latest.Keys;
    left := before.Keys;
    assert latest.Keys + (before.Keys - left) == latest.Keys;
    while left != {}
      invariant left <= before.Keys && Lists(before, latest, latest.Keys + (before.Keys - left), keys, diffs)
      decreases left
    {
      var k :| k in left;
      assert latest.Keys + (before.Keys - (left - {k})) == latest.Keys + (before.Keys - left) + {k};
      if k !in latest {
        ListsOne(before, latest, latest.Keys + (before.Keys - left), keys, diffs, k);
        diffs, keys := diffs + [Reported(k, "removed")], keys + [k];
      } else {
        assert latest.Keys + (before.Keys - left) + {k} == latest.Keys + (before.Keys - left);
      }
      left := left - {k};
    }
    assert latest.Keys + (before.Keys - left) == before.Keys + latest.Keys;
  }

  lemma ListsNothing(before: Snapshot, latest: Snapshot)
    ensures Lists(before, latest, latest.Keys - latest.Keys, [], [])
  {
  }

  lemma ListsOne(before: Snapshot, latest: Snapshot, among: set<string>, keys: seq<string>, diffs: seq<Change>,
      k: string)
    requires Lists(before, latest, among, keys, diffs) && k !in among
    ensures match Verdict(before, latest, k)
            case None => Lists(before, latest, among + {k}, keys, diffs)
            case Some(change) => Lists(before, latest, among + {k}, keys + [k], diffs + [Reported(k, change)])
  {
    hide SameEndpoint, SplitKey;
    assert k !in keys;
    forall i | 0 <= i < |keys| ensures keys[i] != k { assert keys[i] in keys; }
  }

  /** End to end, for two configurations: a place is reported as added, removed or changed
      exactly when the configurations differ there. */
  lemma DiffExact(prior: seq<Repo>, current: seq<Repo>, path: string, dir: string)
    requires UniqueKeys(prior) && UniqueKeys(current) && '/' !in dir
    ensures var v := Verdict(Filled(map[], Entries(prior)), Filled(map[], Entries(current)), Key(path, dir));
            var was := exists ep :: Configured(prior, path, ep) && ep.dir == dir;
            var now := exists ep :: Configured(current, path, ep) && ep.dir == dir;
            && (v == Some("added") <==> !was && now)
            && (v == Some("removed") <==> was && !now)
            && (v == Some("changed") <==>
                  exists a, b :: Configured(prior, path, a) && Configured(current, path, b)
                                 && a.dir == dir && b.dir == dir && !SameEndpoint(a, b))
  {
    hide Filled, Entries, Key, SameEndpoint, Configured;
    SnapshotExact(prior, path, dir);
    SnapshotExact(current, path, dir);
  }
}
