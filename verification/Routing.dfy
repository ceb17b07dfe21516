/** Route derivation and orphan detection (internal/domain/router.go), the configuration
    they work on (internal/domain/config.go), and the resolution of routes for delivery
    (internal/session/daemon_setup.go).  Paths are clean and no repository is the root
    directory, so that filepath.Join only puts a separator between its arguments. */
module Routing {
  import opened Text
  import opened Sorting
  import Delivery
  import Safety

  type Kind = string

  datatype Endpoint = Endpoint(dir: string, produces: seq<Kind>, consumes: seq<Kind>)
  datatype Repo = Repo(path: string, endpoints: seq<Endpoint>)
  datatype Route = Route(kind: Kind, from: string, to: seq<string>, scope: string)
  datatype RouteConfig = RouteConfig(kind: Kind, from: string, to: seq<string>, scope: string, repoPath: string)
  datatype OrphanReport = OrphanReport(unconsumed: seq<Kind>, unproduced: seq<Kind>)

  // ----------------------------------------------------------- collecting over lists

  function Flat<A, B>(xs: seq<A>, f: A -> seq<B>): seq<B> {
    if xs == [] then [] else f(xs[0]) + Flat(xs[1..], f)
  }

  lemma {:induction false} FlatConcat<A, B>(a: seq<A>, b: seq<A>, f: A -> seq<B>)
    ensures Flat(a + b, f) == Flat(a, f) + Flat(b, f)
  {
    if a == [] {
      assert a + b == b;
    } else {
      assert (a + b)[1..] == a[1..] + b;
      FlatConcat(a[1..], b, f);
    }
  }

  lemma FlatNext<A, B>(xs: seq<A>, n: nat, f: A -> seq<B>)
    requires n < |xs|
    ensures Flat(xs[..n + 1], f) == Flat(xs[..n], f) + f(xs[n])
  {
    assert xs[..n + 1] == xs[..n] + [xs[n]];
    FlatConcat(xs[..n], [xs[n]], f);
    assert Flat([xs[n]], f) == f(xs[n]) + Flat([], f);
  }

  lemma FlatNone<A, B>(f: A -> seq<B>)
    ensures Flat([], f) == []
  {
  }

  /** Where an element of the collection comes from. */
  lemma {:induction false} FlatFrom<A(!new), B>(xs: seq<A>, f: A -> seq<B>, y: B)
    ensures y in Flat(xs, f) <==> exists x :: x in xs && y in f(x)
  {
    if xs != [] {
      FlatFrom(xs[1..], f, y);
      assert xs == [xs[0]] + xs[1..];
    }
  }

  // ------------------------------------------------------------------ specification

  /** filepath.Join; an empty first element is skipped. */
  function Join(a: string, b: string): string { if a == "" then b else a + "/" + b }

  /** One entry per subscription of the endpoint to the kind. */
  function Subscription(ep: Endpoint, k: Kind): Kind -> seq<string> {
    (c: Kind) => if c == k then [ep.dir] else []
  }

  function SubscriptionsTo(k: Kind): Endpoint -> seq<string> {
    (ep: Endpoint) => Flat(ep.consumes, Subscription(ep, k))
  }

  function ConsumerDirs(endpoints: seq<Endpoint>, k: Kind): seq<string> {
    Flat(endpoints, SubscriptionsTo(k))
  }

  function InboxUnlessSelf(self: string): string -> seq<string> {
    (d: string) => if d == self then [] else [Join(d, "inbox")]
  }

  /** The inboxes a mail of the kind reaches from the endpoint directory. */
  function Reached(endpoints: seq<Endpoint>, self: string, k: Kind): seq<string> {
    Flat(ConsumerDirs(endpoints, k), InboxUnlessSelf(self))
  }

  function RouteFor(endpoints: seq<Endpoint>, ep: Endpoint): Kind -> seq<Route> {
    (k: Kind) =>
      var to := Reached(endpoints, ep.dir, k);
      if to == [] then [] else [Route(k, Join(ep.dir, "outbox"), to, "same_repository")]
  }

  function RoutesFrom(endpoints: seq<Endpoint>): Endpoint -> seq<Route> {
    (ep: Endpoint) => Flat(ep.produces, RouteFor(endpoints, ep))
  }

  function DerivedRoutes(endpoints: seq<Endpoint>): seq<Route> {
    Flat(endpoints, RoutesFrom(endpoints))
  }

  function InRepo(path: string): Route -> seq<RouteConfig> {
    (r: Route) => [RouteConfig(r.kind, r.from, r.to, r.scope, path)]
  }

  function RepoRoutes(): Repo -> seq<RouteConfig> {
    (repo: Repo) => Flat(DerivedRoutes(repo.endpoints), InRepo(repo.path))
  }

  function AllRoutes(repos: seq<Repo>): seq<RouteConfig> {
    Flat(repos, RepoRoutes())
  }

  predicate Produces(endpoints: seq<Endpoint>, d: string, k: Kind) {
    exists ep :: ep in endpoints && ep.dir == d && k in ep.produces
  }

  predicate Consumes(endpoints: seq<Endpoint>, d: string, k: Kind) {
    exists ep :: ep in endpoints && ep.dir == d && k in ep.consumes
  }

  /** Some endpoint produces the kind and another one consumes it. */
  ghost predicate Routed(endpoints: seq<Endpoint>, k: Kind) {
    exists p, c :: Produces(endpoints, p, k) && Consumes(endpoints, c, k) && p != c
  }

  ghost predicate Unconsumed(endpoints: seq<Endpoint>, k: Kind) {
    (exists p :: Produces(endpoints, p, k)) && !Routed(endpoints, k)
  }

  ghost predicate Unproduced(endpoints: seq<Endpoint>, k: Kind) {
    (exists c :: Consumes(endpoints, c, k)) && !exists p :: Produces(endpoints, p, k)
  }

  // ---------------------------------------------------------- what a route stands for

  lemma SubscriptionFrom(ep: Endpoint, k: Kind, d: string)
    ensures d in SubscriptionsTo(k)(ep) <==> d == ep.dir && k in ep.consumes
  {
    FlatFrom(ep.consumes, Subscription(ep, k), d);
  }

  lemma ConsumerFrom(endpoints: seq<Endpoint>, k: Kind, d: string)
    ensures d in ConsumerDirs(endpoints, k) <==> Consumes(endpoints, d, k)
  {
    hide Flat;
    FlatFrom(endpoints, SubscriptionsTo(k), d);
    forall ep: Endpoint ensures d in SubscriptionsTo(k)(ep) <==> d == ep.dir && k in ep.consumes {
      SubscriptionFrom(ep, k, d);
    }
    hide SubscriptionsTo;
  }

  /** The reached inboxes are exactly those of the other endpoints that consume the kind. */
  lemma ReachedExactly(endpoints: seq<Endpoint>, self: string, k: Kind)
    ensures forall inbox :: inbox in Reached(endpoints, self, k) <==>
              exists d :: d != self && inbox == Join(d, "inbox") && Consumes(endpoints, d, k)
    ensures Reached(endpoints, self, k) != [] <==> exists d :: d != self && Consumes(endpoints, d, k)
  {
    hide Consumes, Flat, ConsumerDirs;
    var to := Reached(endpoints, self, k);
    forall d ensures d in ConsumerDirs(endpoints, k) <==> Consumes(endpoints, d, k) { ConsumerFrom(endpoints, k, d); }
    forall inbox
      ensures inbox in to <==> exists d :: d != self && inbox == Join(d, "inbox") && Consumes(endpoints, d, k)
    {
      FlatFrom(ConsumerDirs(endpoints, k), InboxUnlessSelf(self), inbox);
    }
    if to != [] { assert to[0] in to; }
    if d :| d != self && Consumes(endpoints, d, k) { assert Join(d, "inbox") in to; }
  }

  lemma RouteFrom(endpoints: seq<Endpoint>, r: Route)
    ensures r in DerivedRoutes(endpoints) <==> exists ep :: ep in endpoints && IsRoute(endpoints, ep, r)
  {
    hide Flat, Reached;
    FlatFrom(endpoints, RoutesFrom(endpoints), r);
    forall ep: Endpoint ensures r in RoutesFrom(endpoints)(ep) <==> IsRoute(endpoints, ep, r) {
      FlatFrom(ep.produces, RouteFor(endpoints, ep), r);
    }
    hide RoutesFrom, IsRoute;
  }

  predicate IsRoute(endpoints: seq<Endpoint>, ep: Endpoint, r: Route) {
    && r.kind in ep.produces && r.from == Join(ep.dir, "outbox") && r.scope == "same_repository"
    && r.to == Reached(endpoints, ep.dir, r.kind) && r.to != []
  }

  /** A kind has a route exactly when one endpoint produces it and another consumes it. */
  lemma RoutedIffRoute(endpoints: seq<Endpoint>, k: Kind)
    ensures Routed(endpoints, k) <==> exists r :: r in DerivedRoutes(endpoints) && r.kind == k
  {
    hide DerivedRoutes, Reached, Consumes;
    if r :| r in DerivedRoutes(endpoints) && r.kind == k {
      RouteFrom(endpoints, r);
      var ep :| ep in endpoints && IsRoute(endpoints, ep, r);
      ReachedExactly(endpoints, ep.dir, k);
      var d :| d != ep.dir && Consumes(endpoints, d, k);
      assert Produces(endpoints, ep.dir, k);
    }
    if Routed(endpoints, k) {
      var p, c :| Produces(endpoints, p, k) && Consumes(endpoints, c, k) && p != c;
      var ep :| ep in endpoints && ep.dir == p && k in ep.produces;
      ReachedExactly(endpoints, p, k);
      var r := Route(k, Join(p, "outbox"), Reached(endpoints, p, k), "same_repository");
      assert IsRoute(endpoints, ep, r);
      RouteFrom(endpoints, r);
    }
  }

  // -------------------------------------------------------------------- the programs

  function At(consumers: map<Kind, seq<string>>, k: Kind): seq<string> {
    if k in consumers then consumers[k] else []
  }

  lemma AtUpdate(m: map<Kind, seq<string>>, kind: Kind, d: string)
    ensures forall k :: At(m[kind := At(m, kind) + [d]], k) == At(m, k) + if k == kind then [d] else []
  {
  }

  /** The consumer index of DeriveRoutes. */
  method IndexConsumers(endpoints: seq<Endpoint>) returns (consumers: map<Kind, seq<string>>)
    ensures forall k :: ConsumerDirs(endpoints, k) == At(consumers, k)
  {
    hide Flat;
    consumers := map[];
    forall k ensures ConsumerDirs(endpoints[..0], k) == [] { FlatNone(SubscriptionsTo(k)); }
    for i := 0 to |endpoints|
      invariant forall k :: ConsumerDirs(endpoints[..i], k) == At(consumers, k)
    {
      var ep := endpoints[i];
      forall k
        ensures ConsumerDirs(endpoints[..i + 1], k)
                  == ConsumerDirs(endpoints[..i], k) + Flat(ep.consumes, Subscription(ep, k))
      {
        FlatNext(endpoints, i, SubscriptionsTo(k));
      }
      consumers := IndexOne(ep, consumers);
    }
    assert endpoints[..|endpoints|] == endpoints;
  }

  method IndexOne(ep: Endpoint, before: map<Kind, seq<string>>) returns (consumers: map<Kind, seq<string>>)
    ensures forall k :: At(consumers, k) == At(before, k) + Flat(ep.consumes, Subscription(ep, k))
  {
    hide Flat, At;
    consumers := before;
    forall k ensures Flat(ep.consumes[..0], Subscription(ep, k)) == [] { FlatNone(Subscription(ep, k)); }
    for j := 0 to |ep.consumes|
      invariant forall k :: At(consumers, k) == At(before, k) + Flat(ep.consumes[..j], Subscription(ep, k))
    {
      var kind := ep.consumes[j];
      forall k
        ensures Flat(ep.consumes[..j + 1], Subscription(ep, k))
             == Flat(ep.consumes[..j], Subscription(ep, k)) + if k == kind then [ep.dir] else []
      {
        FlatNext(ep.consumes, j, Subscription(ep, k));
      }
      var was := consumers;
      consumers := consumers[kind := At(consumers, kind) + [ep.dir]];
      AtUpdate(was, kind, ep.dir);
    }
    assert ep.consumes[..|ep.consumes|] == ep.consumes;
  }

  method InboxesExcept(dirs: seq<string>, self: string) returns (to: seq<string>)
    ensures to == Flat(dirs, InboxUnlessSelf(self))
  {
    hide Flat;
    to := [];
    FlatNone(InboxUnlessSelf(self));
    for i := 0 to |dirs|
      invariant to == Flat(dirs[..i], InboxUnlessSelf(self))
    {
      FlatNext(dirs, i, InboxUnlessSelf(self));
      if dirs[i] != self { to := to + [Join(dirs[i], "inbox")]; }
    }
    assert dirs[..|dirs|] == dirs;
  }

  method DeriveRoutes(endpoints: seq<Endpoint>) returns (routes: seq<Route>)
    ensures routes == DerivedRoutes(endpoints)
  {
    hide Flat, ConsumerDirs;
    var consumers := IndexConsumers(endpoints);
    routes := [];
    FlatNone(RoutesFrom(endpoints));
    for i := 0 to |endpoints|
      invariant routes == Flat(endpoints[..i], RoutesFrom(endpoints))
    {
      var more := DeriveFrom(endpoints, endpoints[i], consumers);
      FlatNext(endpoints, i, RoutesFrom(endpoints));
      routes := routes + more;
    }
    assert endpoints[..|endpoints|] == endpoints;
  }

  method DeriveFrom(ghost endpoints: seq<Endpoint>, ep: Endpoint, consumers: map<Kind,
      seq<string>>) returns (routes: seq<Route>)
    requires forall k :: ConsumerDirs(endpoints, k) == At(consumers, k)
    ensures routes == Flat(ep.produces, RouteFor(endpoints, ep))
  {
    hide Flat, ConsumerDirs;
    routes := [];
    FlatNone(RouteFor(endpoints, ep));
    for j := 0 to |ep.produces|
      invariant routes == Flat(ep.produces[..j], RouteFor(endpoints, ep))
    {
      var kind := ep.produces[j];
      FlatNext(ep.produces, j, RouteFor(endpoints, ep));
      FlatNone(InboxUnlessSelf(ep.dir));
      if kind in consumers && |consumers[kind]| > 0 {
        var to := InboxesExcept(consumers[kind], ep.dir);
        if |to| > 0 {
          routes := routes + [Route(kind, Join(ep.dir, "outbox"), to, "same_repository")];
        }
      }
    }
    assert ep.produces[..|ep.produces|] == ep.produces;
  }

  /** The configuration object. */
  class Config {
    var repositories: seq<Repo>
    var routes: seq<RouteConfig>

    method AddRepository(path: string, endpoints: seq<Endpoint>)
      modifies this`repositories
      ensures repositories == old(repositories) + [Repo(path, endpoints)]
    {
      repositories := repositories + [Repo(path, endpoints)];
    }

    method RemoveRepository(path: string) returns (found: bool)
      modifies this`repositories
      ensures repositories == WithoutFirst(old(repositories), path)
      ensures found <==> exists r :: r in old(repositories) && r.path == path
    {
      for i := 0 to |repositories|
        invariant repositories == old(repositories)
        invariant forall j :: 0 <= j < i ==> repositories[j].path != path
      {
        if repositories[i].path == path {
          RemovesAt(repositories, path, i);
          assert repositories[i] in old(repositories);
          repositories := repositories[..i] + repositories[i + 1..];
          return true;
        }
      }
      RemovesNothing(repositories, path);
      found := false;
    }

    method UpdateRoutes()
      modifies this`routes
      ensures routes == AllRoutes(repositories)
    {
      hide Flat, DerivedRoutes;
      var all: seq<RouteConfig> := [];
      FlatNone(RepoRoutes());
      for i := 0 to |repositories|
        invariant all == Flat(repositories[..i], RepoRoutes())
      {
        var repo := repositories[i];
        var derived := DeriveRoutes(repo.endpoints);
        FlatNext(repositories, i, RepoRoutes());
        var tagged := TagRoutes(derived, repo.path);
        all := all + tagged;
      }
      assert repositories[..|repositories|] == repositories;
      routes := all;
    }
  }

  method TagRoutes(derived: seq<Route>, path: string) returns (r: seq<RouteConfig>)
    ensures r == Flat(derived, InRepo(path))
  {
    hide Flat;
    r := [];
    FlatNone(InRepo(path));
    for j := 0 to |derived|
      invariant r == Flat(derived[..j], InRepo(path))
    {
      FlatNext(derived, j, InRepo(path));
      r := r + [RouteConfig(derived[j].kind, derived[j].from, derived[j].to, derived[j].scope, path)];
    }
    assert derived[..|derived|] == derived;
  }

  function WithoutFirst(repos: seq<Repo>, path: string): seq<Repo> {
    if repos == [] then []
    else if repos[0].path == path then repos[1..]
    else [repos[0]] + WithoutFirst(repos[1..], path)
  }

  lemma {:induction false} RemovesAt(repos: seq<Repo>, path: string, i: nat)
    requires i < |repos| && repos[i].path == path && forall j :: 0 <= j < i ==> repos[j].path != path
    ensures WithoutFirst(repos, path) == repos[..i] + repos[i + 1..]
  {
    if i > 0 {
      RemovesAt(repos[1..], path, i - 1);
      assert repos[..i] == [repos[0]] + repos[1..][..i - 1];
    }
  }

  lemma {:induction false} RemovesNothing(repos: seq<Repo>, path: string)
    requires forall j :: 0 <= j < |repos| ==> repos[j].path != path
    ensures WithoutFirst(repos, path) == repos
  {
    if repos != [] { RemovesNothing(repos[1..], path); }
  }

  /** Adding and then removing restores the repositories exactly when the path was new or
      everything from its first use on already equals the addition. */
  lemma AddRemoveRestoresIff(repos: seq<Repo>, path: string, endpoints: seq<Endpoint>)
    ensures var added := Repo(path, endpoints);
            WithoutFirst(repos + [added], path) == repos
            <==> forall i, j :: 0 <= i <= j < |repos| && repos[i].path == path ==> repos[j] == added
  {
    hide WithoutFirst;
    var added := Repo(path, endpoints);
    var all := repos + [added];
    var n := FirstAt(all, path);
    RemovesAt(all, path, n);
    var rest := all[..n] + all[n + 1..];
    if n == |repos| {
      assert rest == repos;
    } else {
      assert repos[n].path == path;
      if rest == repos {
        TailAllEqual(repos, added, n);
      }
      if forall i, j :: 0 <= i <= j < |repos| && repos[i].path == path ==> repos[j] == added {
        forall k | 0 <= k < |repos| ensures rest[k] == repos[k] {
          if k >= n { assert repos[k] == added && rest[k] == all[k + 1]; }
        }
      }
    }
  }

  /** With one repository per path it restores the derived routes exactly when the path was
      new, or neither the old nor the added repository derives a route, or the old one
      derives the same routes as the added one and no route follows them. */
  lemma AddRemoveRoutesIff(repos: seq<Repo>, path: string, endpoints: seq<Endpoint>)
    requires forall i, j :: 0 <= i < j < |repos| ==> repos[i].path != repos[j].path
    ensures AllRoutes(WithoutFirst(repos + [Repo(path, endpoints)], path)) == AllRoutes(repos) <==>
            forall n :: 0 <= n < |repos| && repos[n].path == path ==>
              var was, added := RepoRoutes()(repos[n]), RepoRoutes()(Repo(path, endpoints));
              (was == [] && added == []) || (was == added && AllRoutes(repos[n + 1..]) == [])
  {
    hide WithoutFirst, RepoRoutes, AllRoutes;
    var repo := Repo(path, endpoints);
    var all := repos + [repo];
    var n := FirstAt(all, path);
    RemovesAt(all, path, n);
    if n == |repos| {
      assert all[..n] + all[n + 1..] == repos;
    } else {
      assert repos[n].path == path && forall m :: 0 <= m < |repos| && m != n ==> repos[m].path != path;
      assert all[..n] + all[n + 1..] == repos[..n] + (repos[n + 1..] + [repo]);
      RoutesMove(repos, n, repo);
      RoutesOfOne(repo);
      RoutesOfOne(repos[n]);
      forall r | r in AllRoutes(repos[n + 1..]) ensures r.repoPath != path { TagsOf(repos[n + 1..], r); }
      TagsApart(RepoRoutes()(repos[n]), AllRoutes(repos[n + 1..]), RepoRoutes()(repo), path);
    }
  }

  /** Replacing a repository by one at the end moves its routes behind the others. */
  lemma RoutesMove(repos: seq<Repo>, n: nat, repo: Repo)
    requires n < |repos|
    ensures AllRoutes(repos[..n] + (repos[n + 1..] + [repo])) == AllRoutes(repos) <==>
            RepoRoutes()(repos[n]) + AllRoutes(repos[n + 1..]) == AllRoutes(repos[n + 1..]) + RepoRoutes()(repo)
  {
    hide RepoRoutes, AllRoutes;
    assert repos == repos[..n] + ([repos[n]] + repos[n + 1..]);
    RoutesConcat(repos[..n], repos[n + 1..] + [repo]);
    RoutesConcat(repos[..n], [repos[n]] + repos[n + 1..]);
    RoutesConcat(repos[n + 1..], [repo]);
    RoutesConcat([repos[n]], repos[n + 1..]);
    RoutesOfOne(repo);
    RoutesOfOne(repos[n]);
    SamePrefix(AllRoutes(repos[..n]), RepoRoutes()(repos[n]) + AllRoutes(repos[n + 1..]),
               AllRoutes(repos[n + 1..]) + RepoRoutes()(repo));
  }

  lemma SamePrefix(a: seq<RouteConfig>, b: seq<RouteConfig>, c: seq<RouteConfig>)
    ensures a + b == a + c <==> b == c
  {
    if a + b == a + c {
      assert b == (a + b)[|a|..] && c == (a + c)[|a|..];
    }
  }

  lemma RoutesConcat(a: seq<Repo>, b: seq<Repo>)
    ensures AllRoutes(a + b) == AllRoutes(a) + AllRoutes(b)
  {
    FlatConcat(a, b, RepoRoutes());
  }

  lemma RoutesOfOne(repo: Repo)
    ensures AllRoutes([repo]) == RepoRoutes()(repo)
    ensures forall r :: r in RepoRoutes()(repo) ==> r.repoPath == repo.path
  {
    hide DerivedRoutes;
    assert [repo][1..] == [];
    assert AllRoutes([repo]) == RepoRoutes()(repo) + Flat([], RepoRoutes());
    forall r | r in RepoRoutes()(repo) ensures r.repoPath == repo.path {
      FlatFrom(DerivedRoutes(repo.endpoints), InRepo(repo.path), r);
    }
  }

  lemma TagsOf(repos: seq<Repo>, r: RouteConfig)
    requires r in AllRoutes(repos)
    ensures exists repo :: repo in repos && repo.path == r.repoPath
  {
    hide DerivedRoutes;
    TaggedFrom(repos, r);
  }

  /** Routes of one repository move past those of others only if one side is empty. */
  lemma TagsApart(was: seq<RouteConfig>, rest: seq<RouteConfig>, added: seq<RouteConfig>, path: string)
    requires (forall r :: r in was || r in added ==> r.repoPath == path) && forall r :: r in rest ==> r.repoPath != path
    ensures was + rest == rest + added <==> (was == [] && added == []) || (was == added && rest == [])
  {
    assert was != [] && rest != [] ==>
        (was + rest)[0] == was[0] && was[0] in was && (rest + added)[0] == rest[0] && rest[0] in rest;
    if was + rest == rest + added {
      assert |was| == |added|;
      assert was == [] || rest == [];
      if rest == [] {
        assert was == was + rest && added == rest + added;
      }
    }
  }

  lemma {:induction false} FirstAt(repos: seq<Repo>, path: string) returns (n: nat)
    requires repos != [] && repos[|repos| - 1].path == path
    ensures n < |repos| && repos[n].path == path && forall j :: 0 <= j < n ==> repos[j].path != path
  {
    n := 0;
    while repos[n].path != path
      invariant n < |repos| && forall j :: 0 <= j < n ==> repos[j].path != path
      decreases |repos| - n
    {
      n := n + 1;
    }
  }

  lemma TailAllEqual(repos: seq<Repo>, added: Repo, n: nat)
    requires n < |repos| && var all := repos + [added]; all[..n] + all[n + 1..] == repos
    requires forall j :: 0 <= j < n ==> repos[j].path != added.path
    ensures forall i, j :: 0 <= i <= j < |repos| && repos[i].path == added.path ==> repos[j] == added
  {
    var all := repos + [added];
    var rest := all[..n] + all[n + 1..];
    forall k | n <= k < |repos| ensures repos[k] == all[k + 1] { assert rest[k] == all[k + 1]; }
    TailStep(repos, added, n, |repos| - 1);
  }

  lemma {:induction false} TailStep(repos: seq<Repo>, added: Repo, n: nat, k: int)
    requires n < |repos| && n - 1 <= k < |repos|
    requires forall i :: n <= i < |repos| ==> repos[i] == (repos + [added])[i + 1]
    requires forall i :: k < i < |repos| ==> repos[i] == added
    ensures forall i :: n <= i < |repos| ==> repos[i] == added
    decreases k
  {
    if k >= n { TailStep(repos, added, n, k - 1); }
  }

  // ----------------------------------------------------------------- orphan detection

  type Index = map<Kind, set<string>>

  function DirsOf(index: Index, k: Kind): set<string> {
    if k in index then index[k] else {}
  }

  method AddDirs(index: Index, kinds: seq<Kind>, dir: string) returns (r: Index)
    ensures forall k, d :: d in DirsOf(r, k) <==> d in DirsOf(index, k) || (d == dir && k in kinds)
    ensures (forall k :: k in index ==> index[k] != {}) ==> forall k :: k in r ==> r[k] != {}
  {
    r := index;
    for i := 0 to |kinds|
      invariant forall k, d :: d in DirsOf(r, k) <==> d in DirsOf(index, k) || (d == dir && k in kinds[..i])
      invariant (forall k :: k in index ==> index[k] != {}) ==> forall k :: k in r ==> r[k] != {}
    {
      assert kinds[..i + 1] == kinds[..i] + [kinds[i]];
      r := r[kinds[i] := DirsOf(r, kinds[i]) + {dir}];
    }
    assert kinds[..|kinds|] == kinds;
  }

  ghost predicate Indexes(producers: Index, consumers: Index, endpoints: seq<Endpoint>) {
    && (forall k, d :: d in DirsOf(producers, k) <==> Produces(endpoints, d, k))
    && (forall k, d :: d in DirsOf(consumers, k) <==> Consumes(endpoints, d, k))
    && (forall k :: k in producers ==> producers[k] != {})
    && (forall k :: k in consumers ==> consumers[k] != {})
  }

  method IndexEndpoints(endpoints: seq<Endpoint>) returns (producers: Index, consumers: Index)
    ensures Indexes(producers, consumers, endpoints)
  {
    producers, consumers := map[], map[];
    for i := 0 to |endpoints|
      invariant Indexes(producers, consumers, endpoints[..i])
    {
      var ep := endpoints[i];
      ghost var producers0, consumers0 := producers, consumers;
      producers := AddDirs(producers, ep.produces, ep.dir);
      consumers := AddDirs(consumers, ep.consumes, ep.dir);
      IndexStep(endpoints, i, producers0, consumers0, producers, consumers);
    }
    assert endpoints[..|endpoints|] == endpoints;
  }

  lemma IndexStep(endpoints: seq<Endpoint>, i: nat, producers0: Index, consumers0: Index, producers: Index,
      consumers: Index)
    requires i < |endpoints| && Indexes(producers0, consumers0, endpoints[..i])
    requires forall k, d :: d in DirsOf(producers, k) <==>
               d in DirsOf(producers0, k) || (d == endpoints[i].dir && k in endpoints[i].produces)
    requires forall k, d :: d in DirsOf(consumers, k) <==>
               d in DirsOf(consumers0, k) || (d == endpoints[i].dir && k in endpoints[i].consumes)
    requires (forall k :: k in producers ==> producers[k] != {}) && (forall k :: k in consumers ==> consumers[k] != {})
    ensures Indexes(producers, consumers, endpoints[..i + 1])
  {
    hide DirsOf;
    assert endpoints[..i + 1] == endpoints[..i] + [endpoints[i]];
    forall k, d
      ensures Produces(endpoints[..i + 1], d, k) <==>
                Produces(endpoints[..i], d, k) || (d == endpoints[i].dir && k in endpoints[i].produces)
    {
    }
    forall k, d
      ensures Consumes(endpoints[..i + 1], d, k) <==>
                Consumes(endpoints[..i], d, k) || (d == endpoints[i].dir && k in endpoints[i].consumes)
    {
    }
  }

  /** The nested search for a producer and a consumer in different directories. */
  method HasExternalRoute(producers: set<string>, consumers: set<string>) returns (found: bool)
    ensures found <==> exists p, c :: p in producers && c in consumers && p != c
  {
    found := false;
    var ps := producers;
    while ps != {} && !found
      invariant ps <= producers
      invariant found ==> exists p, c :: p in producers && c in consumers && p != c
      invariant !found ==> forall p, c :: p in producers && p !in ps && c in consumers ==> p == c
      decreases ps
    {
      var p :| p in ps;
      var cs := consumers;
      while cs != {} && !found
        invariant cs <= consumers
        invariant found ==> exists c :: c in consumers && p != c
        invariant !found ==> forall c :: c in consumers && c !in cs ==> p == c
        decreases cs
      {
        var c :| c in cs;
        if p != c { found := true; }
        cs := cs - {c};
      }
      ps := ps - {p};
    }
  }

  /** A sorted list of kinds without repetition. */
  ghost predicate Lists(kinds: seq<Kind>, p: Kind -> bool) {
    Sorted(kinds, Leq) && (forall k :: k in kinds <==> p(k)) && forall k :: multiset(kinds)[k] <= 1
  }

  ghost function IsUnconsumed(endpoints: seq<Endpoint>): Kind -> bool { (k: Kind) => Unconsumed(endpoints, k) }
  ghost function IsUnproduced(endpoints: seq<Endpoint>): Kind -> bool { (k: Kind) => Unproduced(endpoints, k) }

  method DetectOrphans(endpoints: seq<Endpoint>) returns (report: OrphanReport)
    ensures Lists(report.unconsumed, IsUnconsumed(endpoints))
    ensures Lists(report.unproduced, IsUnproduced(endpoints))
  {
    hide Produces, Consumes, Routed, Lists;
    var producers, consumers := IndexEndpoints(endpoints);
    var unconsumed: seq<Kind>, unproduced: seq<Kind> := [], [];
    var left := producers.Keys;
    while left != {}
      invariant left <= producers.Keys
      invariant forall k :: multiset(unconsumed)[k]
                  == if k in producers && k !in left && Unconsumed(endpoints, k) then 1 else 0
      decreases left
    {
      var kind :| kind in left;
      ghost var before := unconsumed;
      var external := false;
      if kind in consumers {
        external := HasExternalRoute(producers[kind], consumers[kind]);
      }
      UnconsumedFromIndex(producers, consumers, endpoints, kind);
      if !external { unconsumed := unconsumed + [kind]; }
      left := left - {kind};
    }
    left := consumers.Keys;
    while left != {}
      invariant left <= consumers.Keys
      invariant forall k :: multiset(unproduced)[k]
                  == if k in consumers && k !in left && Unproduced(endpoints, k) then 1 else 0
      decreases left
    {
      var kind :| kind in left;
      UnproducedFromIndex(producers, consumers, endpoints, kind);
      if kind !in producers { unproduced := unproduced + [kind]; }
      left := left - {kind};
    }
    OrphansIndexed(producers, consumers, endpoints);
    ListsSorted(unconsumed, IsUnconsumed(endpoints));
    ListsSorted(unproduced, IsUnproduced(endpoints));
    report := OrphanReport(StableSort(unconsumed, Leq), StableSort(unproduced, Leq));
  }

  lemma UnconsumedFromIndex(producers: Index, consumers: Index, endpoints: seq<Endpoint>, k: Kind)
    requires Indexes(producers, consumers, endpoints) && k in producers
    ensures Unconsumed(endpoints, k) <==>
              !(k in consumers && exists p, c :: p in producers[k] && c in consumers[k] && p != c)
  {
    hide Produces, Consumes;
    var p :| p in producers[k];
    assert p in DirsOf(producers, k) && Produces(endpoints, p, k);
    if Routed(endpoints, k) {
      var a, c :| Produces(endpoints, a, k) && Consumes(endpoints, c, k) && a != c;
      assert a in DirsOf(producers, k) && c in DirsOf(consumers, k);
    }
    if k in consumers && exists p, c :: p in producers[k] && c in consumers[k] && p != c {
      var a, c :| a in producers[k] && c in consumers[k] && a != c;
      assert a in DirsOf(producers, k) && c in DirsOf(consumers, k);
      assert Produces(endpoints, a, k) && Consumes(endpoints, c, k);
    }
  }

  lemma UnproducedFromIndex(producers: Index, consumers: Index, endpoints: seq<Endpoint>, k: Kind)
    requires Indexes(producers, consumers, endpoints) && k in consumers
    ensures Unproduced(endpoints, k) <==> k !in producers
  {
    hide Produces, Consumes;
    var c :| c in consumers[k];
    assert c in DirsOf(consumers, k) && Consumes(endpoints, c, k);
    if k in producers {
      var p :| p in producers[k];
      assert p in DirsOf(producers, k) && Produces(endpoints, p, k);
    } else {
      forall p ensures !Produces(endpoints, p, k) { assert p !in DirsOf(producers, k); }
    }
  }

  lemma OrphansIndexed(producers: Index, consumers: Index, endpoints: seq<Endpoint>)
    requires Indexes(producers, consumers, endpoints)
    ensures forall k :: Unconsumed(endpoints, k) ==> k in producers
    ensures forall k :: Unproduced(endpoints, k) ==> k in consumers
  {
    hide Produces, Consumes, Routed;
    forall k | Unconsumed(endpoints, k) ensures k in producers {
      var p :| Produces(endpoints, p, k);
      assert p in DirsOf(producers, k);
    }
    forall k | Unproduced(endpoints, k) ensures k in consumers {
      var c :| Consumes(endpoints, c, k);
      assert c in DirsOf(consumers, k);
    }
  }

  lemma ListsSorted(kinds: seq<Kind>, p: Kind -> bool)
    requires forall k :: multiset(kinds)[k] == if p(k) then 1 else 0
    ensures Lists(StableSort(kinds, Leq), p)
  {
    hide Leq, StableSort;
    StringOrder();
    SortSorts(kinds, Leq);
    var r := StableSort(kinds, Leq);
    forall k ensures k in r <==> p(k) { assert k in r <==> k in multiset(r); }
  }

  method SortedList(kinds: set<Kind>) returns (r: seq<Kind>)
    ensures Lists(r, (k: Kind) => k in kinds)
  {
    hide Lists;
    r := [];
    var left := kinds;
    while left != {}
      invariant left <= kinds
      invariant forall k :: multiset(r)[k] == if k in kinds && k !in left then 1 else 0
      decreases left
    {
      var k :| k in left;
      r := r + [k];
      left := left - {k};
    }
    ListsSorted(r, (k: Kind) => k in kinds);
    r := StableSort(r, Leq);
  }

  method DetectOrphansPerRepo(repos: seq<Repo>) returns (report: OrphanReport)
    ensures Lists(report.unconsumed, UnconsumedSomewhere(repos))
    ensures Lists(report.unproduced, UnproducedSomewhere(repos))
  {
    hide Unconsumed, Unproduced, Sorted;
    var unconsumed: set<Kind>, unproduced: set<Kind> := {}, {};
    for i := 0 to |repos|
      invariant forall k :: k in unconsumed <==> exists j :: 0 <= j < i && Unconsumed(repos[j].endpoints, k)
      invariant forall k :: k in unproduced <==> exists j :: 0 <= j < i && Unproduced(repos[j].endpoints, k)
    {
      var one := DetectOrphans(repos[i].endpoints);
      unconsumed := unconsumed + set k | k in one.unconsumed;
      unproduced := unproduced + set k | k in one.unproduced;
    }
    var a := SortedList(unconsumed);
    var b := SortedList(unproduced);
    report := OrphanReport(a, b);
  }

  ghost function UnconsumedSomewhere(repos: seq<Repo>): Kind -> bool {
    (k: Kind) => exists j :: 0 <= j < |repos| && Unconsumed(repos[j].endpoints, k)
  }

  ghost function UnproducedSomewhere(repos: seq<Repo>): Kind -> bool {
    (k: Kind) => exists j :: 0 <= j < |repos| && Unproduced(repos[j].endpoints, k)
  }

  /** The unconsumed report names a kind exactly when some repository produces it and no
      route for it was derived there. */
  lemma UnconsumedIffUnrouted(repos: seq<Repo>, k: Kind)
    ensures UnconsumedSomewhere(repos)(k) <==>
            exists j :: 0 <= j < |repos| && (exists d :: Produces(repos[j].endpoints, d, k))
                        && !exists r :: r in DerivedRoutes(repos[j].endpoints) && r.kind == k
  {
    hide Routed, Produces, DerivedRoutes;
    forall j | 0 <= j < |repos|
      ensures Unconsumed(repos[j].endpoints, k) <==>
              && (exists d :: Produces(repos[j].endpoints, d, k))
              && !exists r :: r in DerivedRoutes(repos[j].endpoints) && r.kind == k
    {
      RoutedIffRoute(repos[j].endpoints, k);
    }
    hide Unconsumed;
  }

  // ----------------------------------------------------------------- resolving routes

  function UnderRepo(path: string): string -> seq<string> {
    (to: string) => [Join(path, to)]
  }

  function Resolve(r: RouteConfig, path: string): Delivery.ResolvedRoute {
    Delivery.ResolvedRoute(r.kind, Join(path, r.from), Flat(r.to, UnderRepo(path)))
  }

  /** The text before the first separator. */
  function Head(s: string): string {
    if s == "" || s[0] == '/' then "" else [s[0]] + Head(s[1..])
  }

  predicate HasDir(repo: Repo, d: string) {
    exists ep :: ep in repo.endpoints && ep.dir == d
  }

  /** The repository a route belongs to: its own, or the first with such an endpoint. */
  function RepoPathOf(repos: seq<Repo>, r: RouteConfig): Option<string> {
    if r.repoPath != "" then Some(r.repoPath) else FirstWithDir(repos, Head(r.from))
  }

  function FirstWithDir(repos: seq<Repo>, d: string): Option<string> {
    if repos == [] then None
    else if HasDir(repos[0], d) then Some(repos[0].path)
    else FirstWithDir(repos[1..], d)
  }

  function ResolvedTo(repos: seq<Repo>): RouteConfig -> seq<Delivery.ResolvedRoute> {
    (r: RouteConfig) => match RepoPathOf(repos, r) case None => [] case Some(path) => [Resolve(r, path)]
  }

  /** The routes the delivery pipeline works with. */
  function Resolved(repos: seq<Repo>, routes: seq<RouteConfig>): seq<Delivery.ResolvedRoute> {
    Flat(routes, ResolvedTo(repos))
  }

  method FindRepoForRoute(repos: seq<Repo>, from: string) returns (path: Option<string>)
    ensures path == FirstWithDir(repos, Head(from))
  {
    var d := Head(from);
    assert repos[0..] == repos;
    for i := 0 to |repos|
      invariant FirstWithDir(repos, d) == FirstWithDir(repos[i..], d)
    {
      var eps := repos[i].endpoints;
      for j := 0 to |eps|
        invariant forall n :: 0 <= n < j ==> eps[n].dir != d
      {
        if eps[j].dir == d {
          assert eps[j] in repos[i].endpoints && HasDir(repos[i], d);
          return Some(repos[i].path);
        }
      }
      assert repos[i..][1..] == repos[i + 1..];
    }
    path := None;
  }

  method ResolveRoutes(repos: seq<Repo>,
      routes: seq<RouteConfig>) returns (resolved: Option<seq<Delivery.ResolvedRoute>>)
    ensures resolved.Some? <==> forall r :: r in routes ==> RepoPathOf(repos, r).Some?
    ensures resolved.Some? ==> resolved.value == Resolved(repos, routes)
  {
    hide Flat, FirstWithDir, Head;
    var out: seq<Delivery.ResolvedRoute> := [];
    FlatNone(ResolvedTo(repos));
    for i := 0 to |routes|
      invariant forall j :: 0 <= j < i ==> RepoPathOf(repos, routes[j]).Some?
      invariant out == Flat(routes[..i], ResolvedTo(repos))
    {
      var route := routes[i];
      var repoPath := route.repoPath;
      if repoPath == "" {
        var found := FindRepoForRoute(repos, route.from);
        if found.None? {
          assert route in routes;
          return None;
        }
        repoPath := found.value;
      }
      var toAbs := PutUnder(route.to, repoPath);
      FlatNext(routes, i, ResolvedTo(repos));
      out := out + [Delivery.ResolvedRoute(route.kind, Join(repoPath, route.from), toAbs)];
    }
    assert routes[..|routes|] == routes;
    resolved := Some(out);
  }

  method PutUnder(to: seq<string>, path: string) returns (r: seq<string>)
    ensures r == Flat(to, UnderRepo(path))
  {
    hide Flat;
    r := [];
    FlatNone(UnderRepo(path));
    for j := 0 to |to|
      invariant r == Flat(to[..j], UnderRepo(path))
    {
      FlatNext(to, j, UnderRepo(path));
      r := r + [Join(path, to[j])];
    }
    assert to[..|to|] == to;
  }

  // ------------------------------------------------------------- matching is exact

  /** A directory name: one path element. */
  predicate PlainName(d: string) { d != "" && '/' !in d }

  ghost predicate PlainDirs(repos: seq<Repo>) {
    forall repo, ep :: repo in repos && ep in repo.endpoints ==> PlainName(ep.dir)
  }

  /** Distinct repositories with a path of their own. */
  ghost predicate DistinctPaths(repos: seq<Repo>) {
    && (forall repo :: repo in repos ==> repo.path != "")
    && (forall a, b :: a in repos && b in repos && a.path == b.path ==> a == b)
  }

  function Outbox(path: string, d: string): string { Join(path, Join(d, "outbox")) }

  lemma OutboxInjective(p: string, d: string, q: string, e: string)
    requires p != "" && q != "" && PlainName(d) && PlainName(e) && Outbox(p, d) == Outbox(q, e)
    ensures p == q && d == e
  {
    var a, b := p + "/" + d, q + "/" + e;
    assert Outbox(p, d) == a + "/outbox" && Outbox(q, e) == b + "/outbox";
    assert a == Outbox(p, d)[..|a|] && b == Outbox(q, e)[..|b|];
    assert a[|p|] == '/' && b[|q|] == '/';
    if |p| < |q| {
      assert false;
    } else if |q| < |p| {
      assert false;
    }
    assert p == a[..|p|] && q == b[..|q|];
    assert d == a[|p| + 1..] && e == b[|q| + 1..];
  }

  lemma TaggedFrom(repos: seq<Repo>, rc: RouteConfig)
    ensures rc in AllRoutes(repos) <==>
            exists repo :: repo in repos && rc.repoPath == repo.path
                && Route(rc.kind, rc.from, rc.to, rc.scope) in DerivedRoutes(repo.endpoints)
  {
    hide Flat, DerivedRoutes;
    FlatFrom(repos, RepoRoutes(), rc);
    forall repo: Repo
      ensures rc in RepoRoutes()(repo) <==>
                rc.repoPath == repo.path && Route(rc.kind, rc.from, rc.to, rc.scope) in DerivedRoutes(repo.endpoints)
    {
      FlatFrom(DerivedRoutes(repo.endpoints), InRepo(repo.path), rc);
    }
    hide RepoRoutes;
  }

  /** Where a resolved route comes from. */
  ghost predicate Explains(repo: Repo, ep: Endpoint, r: Delivery.ResolvedRoute) {
    && ep in repo.endpoints && r.kind in ep.produces && r.fromOutbox == Outbox(repo.path, ep.dir)
    && Reached(repo.endpoints, ep.dir, r.kind) != []
    && r.toInboxes == Flat(Reached(repo.endpoints, ep.dir, r.kind), UnderRepo(repo.path))
  }

  lemma ResolvedFrom(repos: seq<Repo>, r: Delivery.ResolvedRoute)
    requires DistinctPaths(repos)
    ensures r in Resolved(repos, AllRoutes(repos)) <==> exists repo, ep :: repo in repos && Explains(repo, ep, r)
  {
    hide Flat, AllRoutes, DerivedRoutes, Reached, FirstWithDir;
    FlatFrom(AllRoutes(repos), ResolvedTo(repos), r);
    if rc :| rc in AllRoutes(repos) && r in ResolvedTo(repos)(rc) {
      TaggedFrom(repos, rc);
      var repo :| repo in repos && rc.repoPath == repo.path
          && Route(rc.kind, rc.from, rc.to, rc.scope) in DerivedRoutes(repo.endpoints);
      RouteFrom(repo.endpoints, Route(rc.kind, rc.from, rc.to, rc.scope));
      var ep :| ep in repo.endpoints && IsRoute(repo.endpoints, ep, Route(rc.kind, rc.from, rc.to, rc.scope));
      assert Explains(repo, ep, r);
    }
    if repo, ep :| repo in repos && Explains(repo, ep, r) {
      var route := Route(r.kind, Join(ep.dir, "outbox"), Reached(repo.endpoints, ep.dir, r.kind), "same_repository");
      var rc := RouteConfig(route.kind, route.from, route.to, route.scope, repo.path);
      assert IsRoute(repo.endpoints, ep, route);
      RouteFrom(repo.endpoints, route);
      TaggedFrom(repos, rc);
      assert r in ResolvedTo(repos)(rc);
    }
  }

  lemma {:induction false} MatchFrom(routes: seq<Delivery.ResolvedRoute>, k: Kind, dir: string)
    ensures var m := Delivery.MatchRoute(routes, k, dir);
            && (m.Some? <==> exists r :: r in routes && r.kind == k && r.fromOutbox == dir)
            && (m.Some? ==> m.value in routes && m.value.kind == k && m.value.fromOutbox == dir)
  {
    if routes != [] {
      MatchFrom(routes[1..], k, dir);
      assert routes == [routes[0]] + routes[1..];
    }
  }

  /** Routing is exact end to end: a mail of kind `k` in the outbox of a directory `d`
      finds a route iff an endpoint there produces `k` and another one of the same
      repository consumes it, and then reaches exactly the inboxes of those consumers. */
  lemma RoutingExact(repos: seq<Repo>, repo: Repo, d: string, k: Kind)
    requires DistinctPaths(repos) && PlainDirs(repos) && repo in repos && PlainName(d)
    ensures var m := Delivery.MatchRoute(Resolved(repos, AllRoutes(repos)), k, Outbox(repo.path, d));
            && (m.Some? <==> Produces(repo.endpoints, d, k) && exists c :: c != d && Consumes(repo.endpoints, c, k))
            && (m.Some? ==> forall inbox :: inbox in m.value.toInboxes <==>
                  exists c :: c != d && Consumes(repo.endpoints, c, k) && inbox == Join(repo.path, Join(c, "inbox")))
  {
    hide Resolved, AllRoutes, Reached, Consumes, Flat;
    var routes := Resolved(repos, AllRoutes(repos));
    var m := Delivery.MatchRoute(routes, k, Outbox(repo.path, d));
    MatchFrom(routes, k, Outbox(repo.path, d));
    ReachedExactly(repo.endpoints, d, k);
    if m.Some? {
      ResolvedFrom(repos, m.value);
      var other, ep :| other in repos && Explains(other, ep, m.value);
      OutboxInjective(repo.path, d, other.path, ep.dir);
      assert other == repo && ep.dir == d;
      assert Produces(repo.endpoints, d, k);
      InboxesExactly(repo, d, k);
    }
    if Produces(repo.endpoints, d, k) && exists c :: c != d && Consumes(repo.endpoints, c, k) {
      var ep :| ep in repo.endpoints && ep.dir == d && k in ep.produces;
      var r := Delivery.ResolvedRoute(k, Outbox(repo.path, d),
          Flat(Reached(repo.endpoints, d, k), UnderRepo(repo.path)));
      assert Explains(repo, ep, r);
      ResolvedFrom(repos, r);
    }
  }

  lemma InboxesExactly(repo: Repo, d: string, k: Kind)
    ensures forall inbox :: inbox in Flat(Reached(repo.endpoints, d, k), UnderRepo(repo.path)) <==>
              exists c :: c != d && Consumes(repo.endpoints, c, k) && inbox == Join(repo.path, Join(c, "inbox"))
  {
    hide Flat, Reached, Consumes;
    ReachedExactly(repo.endpoints, d, k);
    var to := Reached(repo.endpoints, d, k);
    forall inbox
      ensures inbox in Flat(to, UnderRepo(repo.path)) <==>
                exists c :: c != d && Consumes(repo.endpoints, c, k) && inbox == Join(repo.path, Join(c, "inbox"))
    {
      FlatFrom(to, UnderRepo(repo.path), inbox);
      if t :| t in to && inbox in UnderRepo(repo.path)(t) {
        var c :| c != d && t == Join(c, "inbox") && Consumes(repo.endpoints, c, k);
      }
      if c :| c != d && Consumes(repo.endpoints, c, k) && inbox == Join(repo.path, Join(c, "inbox")) {
        assert Join(c, "inbox") in to && inbox in UnderRepo(repo.path)(Join(c, "inbox"));
      }
    }
  }

  // ------------------------------------------- what delivery relies on, for any config

  lemma {:induction false} HeadOfJoin(d: string, rest: string)
    requires PlainName(d)
    ensures Head(Join(d, rest)) == d
  {
    var s := d + "/" + rest;
    if |d| == 1 {
      assert s[1..] == "/" + rest;
    } else {
      assert s[1..] == d[1..] + "/" + rest;
      HeadOfJoin(d[1..], rest);
    }
  }

  lemma {:induction false} DirFound(repos: seq<Repo>, d: string)
    ensures FirstWithDir(repos, d).Some? <==> exists repo :: repo in repos && HasDir(repo, d)
  {
    if repos != [] {
      DirFound(repos[1..], d);
      assert repos == [repos[0]] + repos[1..];
    }
  }

  /** The fallback takes the first repository that has the directory, and no other. */
  lemma {:induction false} FirstFound(repos: seq<Repo>, d: string, i: nat)
    requires i < |repos| && HasDir(repos[i], d) && forall j :: 0 <= j < i ==> !HasDir(repos[j], d)
    ensures FirstWithDir(repos, d) == Some(repos[i].path)
  {
    if i > 0 {
      assert !HasDir(repos[0], d);
      forall j | 0 <= j < i - 1 ensures !HasDir(repos[1..][j], d) { assert repos[1..][j] == repos[j + 1]; }
      FirstFound(repos[1..], d, i - 1);
    }
  }

  /** Freshly derived routes always resolve, even those of a repository without a path. */
  lemma DerivedResolve(repos: seq<Repo>)
    requires PlainDirs(repos)
    ensures forall r :: r in AllRoutes(repos) ==> RepoPathOf(repos, r).Some?
  {
    hide AllRoutes, DerivedRoutes, FirstWithDir, Head, Join, Reached;
    forall r | r in AllRoutes(repos) ensures RepoPathOf(repos, r).Some? {
      TaggedFrom(repos, r);
      var repo :| repo in repos && r.repoPath == repo.path
          && Route(r.kind, r.from, r.to, r.scope) in DerivedRoutes(repo.endpoints);
      RouteFrom(repo.endpoints, Route(r.kind, r.from, r.to, r.scope));
      var ep :| ep in repo.endpoints && IsRoute(repo.endpoints, ep, Route(r.kind, r.from, r.to, r.scope));
      HeadOfJoin(ep.dir, "outbox");
      assert HasDir(repo, ep.dir);
      DirFound(repos, ep.dir);
    }
  }

  /** No resolved route is without an inbox. */
  lemma ResolvedReachSomeone(repos: seq<Repo>)
    ensures forall r :: r in Resolved(repos, AllRoutes(repos)) ==> r.toInboxes != []
  {
    hide AllRoutes, DerivedRoutes, Flat, Reached, RepoPathOf;
    forall r | r in Resolved(repos, AllRoutes(repos)) ensures r.toInboxes != [] {
      FlatFrom(AllRoutes(repos), ResolvedTo(repos), r);
      var rc :| rc in AllRoutes(repos) && r in ResolvedTo(repos)(rc);
      TaggedFrom(repos, rc);
      var repo :| repo in repos && rc.repoPath == repo.path
          && Route(rc.kind, rc.from, rc.to, rc.scope) in DerivedRoutes(repo.endpoints);
      RouteFrom(repo.endpoints, Route(rc.kind, rc.from, rc.to, rc.scope));
      var path := RepoPathOf(repos, rc).value;
      assert rc.to[0] in rc.to && Join(path, rc.to[0]) in UnderRepo(path)(rc.to[0]);
      FlatFrom(rc.to, UnderRepo(path), Join(path, rc.to[0]));
    }
  }

  /** So with derived routes a routable message always selects an inbox, and its removal
      from the outbox is never vacuous. */
  lemma DerivedPlanNonEmpty(env: Delivery.Env, repos: seq<Repo>, p: Delivery.OutboxPath)
    requires env.routes == Resolved(repos, AllRoutes(repos)) && Safety.Plan(env, p).Some?
    ensures Safety.Plan(env, p).value != []
  {
    hide Resolved, AllRoutes;
    ResolvedReachSomeone(repos);
    forall i | 0 <= i < |env.routes| ensures env.routes[i].toInboxes != [] { assert env.routes[i] in env.routes; }
    Safety.PlanNonEmpty(env, p);
  }

  function OutboxOf(path: string): Endpoint -> seq<string> {
    (ep: Endpoint) => if ep.produces == [] then [] else [Outbox(path, ep.dir)]
  }

  function OutboxesOf(): Repo -> seq<string> {
    (repo: Repo) => Flat(repo.endpoints, OutboxOf(repo.path))
  }

  /** The outboxes watched and scanned are exactly those of endpoints that produce something. */
  lemma WatchedExact(repos: seq<Repo>, dir: string)
    ensures dir in Flat(repos, OutboxesOf()) <==> exists repo, ep :: repo in repos && Watches(repo, ep, dir)
  {
    hide Flat, Join;
    FlatFrom(repos, OutboxesOf(), dir);
    forall repo: Repo
      ensures dir in OutboxesOf()(repo) <==> exists ep :: Watches(repo, ep, dir)
    {
      FlatFrom(repo.endpoints, OutboxOf(repo.path), dir);
      forall ep: Endpoint ensures dir in OutboxOf(repo.path)(ep) && ep in repo.endpoints <==> Watches(repo, ep, dir) {
      }
    }
    hide OutboxesOf, Watches;
  }

  /** An endpoint of the repository that produces a kind has its outbox there. */
  ghost predicate Watches(repo: Repo, ep: Endpoint, dir: string) {
    ep in repo.endpoints && |ep.produces| > 0 && dir == Join(repo.path, Join(ep.dir, "outbox"))
  }

  method CollectOutboxDirs(repos: seq<Repo>) returns (dirs: seq<string>)
    ensures dirs == Flat(repos, OutboxesOf())
    ensures forall dir :: dir in dirs <==> exists repo, ep :: repo in repos && Watches(repo, ep, dir)
  {
    hide Flat;
    forall dir
      ensures dir in Flat(repos, OutboxesOf()) <==> exists repo, ep :: repo in repos && Watches(repo, ep, dir)
    {
      WatchedExact(repos, dir);
    }
    dirs := [];
    FlatNone(OutboxesOf());
    for i := 0 to |repos|
      invariant dirs == Flat(repos[..i], OutboxesOf())
    {
      FlatNext(repos, i, OutboxesOf());
      var more := CollectRepoOutboxes(repos[i]);
      dirs := dirs + more;
    }
    assert repos[..|repos|] == repos;
  }

  method CollectRepoOutboxes(repo: Repo) returns (dirs: seq<string>)
    ensures dirs == OutboxesOf()(repo)
  {
    hide Flat;
    dirs := [];
    FlatNone(OutboxOf(repo.path));
    for j := 0 to |repo.endpoints|
      invariant dirs == Flat(repo.endpoints[..j], OutboxOf(repo.path))
    {
      FlatNext(repo.endpoints, j, OutboxOf(repo.path));
      if |repo.endpoints[j].produces| > 0 { dirs := dirs + [Outbox(repo.path, repo.endpoints[j].dir)]; }
    }
    assert repo.endpoints[..|repo.endpoints|] == repo.endpoints;
  }

  /** Every route starts at an outbox that is watched and scanned. */
  lemma RoutesStartWatched(repos: seq<Repo>, r: Delivery.ResolvedRoute)
    requires DistinctPaths(repos) && r in Resolved(repos, AllRoutes(repos))
    ensures r.fromOutbox in Flat(repos, OutboxesOf())
  {
    hide Resolved, AllRoutes, Reached, Flat, Outbox;
    ResolvedFrom(repos, r);
    var repo, ep :| repo in repos && Explains(repo, ep, r);
    FlatFrom(repo.endpoints, OutboxOf(repo.path), r.fromOutbox);
    assert r.fromOutbox in OutboxOf(repo.path)(ep);
    assert r.fromOutbox in OutboxesOf()(repo);
    FlatFrom(repos, OutboxesOf(), r.fromOutbox);
  }
}
