/**
 The service dependency graph and the batch correlation of a set of incidents: one directed
 link per pair of concurrent incidents in one environment whose services depend on each other.
 */
module Topology {
  import opened Prelude
  import opened Ordering
  import opened IncidentDomain

  type Graph = map<string, seq<string>>

  function DependenciesOf(service: string, graph: Graph): (r: seq<string>) {
    if service in graph then graph[service] else []
  }

  function DependentsOf(service: string, graph: Graph): (r: seq<string>)
    ensures forall svc :: svc in r <==> service in DependenciesOf(svc, graph)
  {
    SortedTexts(set svc | svc in graph && service in graph[svc])
  }

  /** Every service adjacent to `service`, in either direction. */
  function RelatedServices(service: string, graph: Graph): (r: set<string>)
    ensures forall svc :: svc in r <==> Depends(service, svc, graph) || Depends(svc, service, graph)
  {
    SetOf(DependenciesOf(service, graph)) + SetOf(DependentsOf(service, graph))
  }

  predicate Depends(service: string, dependency: string, graph: Graph) {
    dependency in DependenciesOf(service, graph)
  }

  /** No service depends on itself, and no two services depend on each other. */
  ghost predicate Asymmetric(graph: Graph) {
    forall a, b | Depends(a, b, graph) :: !Depends(b, a, graph)
  }

  /** Consecutive entries of `walk` are dependency edges. */
  ghost predicate ServiceWalk(walk: seq<string>, graph: Graph) {
    forall i | 0 <= i < |walk| - 1 :: Depends(walk[i], walk[i + 1], graph)
  }

  ghost predicate Acyclic(graph: Graph) {
    forall walk | |walk| >= 2 && ServiceWalk(walk, graph) :: walk[0] != walk[|walk| - 1]
  }

  lemma AcyclicIsAsymmetric(graph: Graph)
    requires Acyclic(graph)
    ensures Asymmetric(graph)
  {
    forall a, b | Depends(a, b, graph) ensures !Depends(b, a, graph) {
      var walk := [a, b, a];
      assert walk[0] == walk[|walk| - 1];
      assert !ServiceWalk(walk, graph);
      assert walk[0] == a && walk[1] == b && walk[2] == a;
    }
  }

  /** Both incidents were active within `window` seconds of each other. */
  predicate Overlap(a: IncidentRow, b: IncidentRow, window: real) {
    a.startedAt <= b.lastEvidenceAt + window && b.startedAt <= a.lastEvidenceAt + window
  }

  /** `a` depends on `b`, in one environment, at about the same time. */
  predicate Linked(a: IncidentRow, b: IncidentRow, window: real, graph: Graph) {
    Depends(a.service, b.service, graph) && a.environment == b.environment && Overlap(a, b, window)
  }

  // ---------------------------------------------------------------- what being linked means

  /** The instant falls into the incident's interval. */
  predicate Spans(row: IncidentRow, x: Instant) {
    row.startedAt <= x <= row.lastEvidenceAt
  }

  predicate IsInterval(row: IncidentRow) {
    row.startedAt <= row.lastEvidenceAt
  }

  /** Some instant of the one incident is within `window` seconds of some instant of the other. */
  ghost predicate Near(a: IncidentRow, b: IncidentRow, window: real) {
    exists x, y :: Spans(a, x) && Spans(b, y) && x - y <= window && y - x <= window
  }

  /** The graph lists `dependency` for `service`. */
  predicate Declares(graph: Graph, service: string, dependency: string) {
    service in graph && dependency in graph[service]
  }

  lemma OverlapIsNear(a: IncidentRow, b: IncidentRow, window: real)
    requires IsInterval(a) && IsInterval(b) && window >= 0.0
    ensures Overlap(a, b, window) <==> Near(a, b, window)
  {
    if Overlap(a, b, window) {
      var x := if a.startedAt >= b.startedAt then a.startedAt else Min(a.lastEvidenceAt, b.startedAt);
      var y := if b.startedAt >= a.startedAt then b.startedAt else Min(b.lastEvidenceAt, a.startedAt);
      assert Spans(a, x) && Spans(b, y);
    }
  }

  /** A pair of incidents with a declared dependency, in one environment, near each other. */
  ghost predicate IsConnectedPair(p: (string, string), incidents: set<IncidentRow>, window: real, graph: Graph) {
    exists a, b | a in incidents && b in incidents ::
      && Declares(graph, a.service, b.service) && a.environment == b.environment && Near(a, b, window)
      && p == (a.id, b.id)
  }

  lemma BatchPairMeaning(p: (string, string), incidents: set<IncidentRow>, window: real, graph: Graph)
    requires window >= 0.0 && forall row | row in incidents :: IsInterval(row)
    ensures IsBatchPair(p, incidents, window, graph) <==> IsConnectedPair(p, incidents, window, graph)
  {
    forall a, b | a in incidents && b in incidents ensures Overlap(a, b, window) <==> Near(a, b, window) {
      OverlapIsNear(a, b, window);
    }
    hide Overlap, Near, IsInterval;
  }

  /** The pairs a batch correlation of `incidents` must report. */
  ghost predicate IsBatchPair(p: (string, string), incidents: set<IncidentRow>, window: real, graph: Graph) {
    exists a, b | a in incidents && b in incidents :: Linked(a, b, window, graph) && p == (a.id, b.id)
  }

  datatype Correlation = Correlation(incidentId: string, relatedId: string, dependent: string, dependency: string) {
    function Pair(): (r: (string, string)) { (incidentId, relatedId) }
  }

  /** A link of the batch: its ids and services are those of a dependent and its dependency. */
  ghost predicate IsBatchLink(l: Correlation, incidents: set<IncidentRow>, window: real, graph: Graph) {
    exists a, b | a in incidents && b in incidents ::
      Linked(a, b, window, graph) && l == Correlation(a.id, b.id, a.service, b.service)
  }

  /** The two incidents ordered as (dependent, dependency). */
  function OrderEdge(incident: IncidentRow, other: IncidentRow, graph: Graph): (r: (IncidentRow, IncidentRow)) {
    if Depends(incident.service, other.service, graph) then (incident, other) else (other, incident)
  }

  function Pairs(links: seq<Correlation>): (r: set<(string, string)>) {
    set l | l in links :: l.Pair()
  }

  ghost predicate DistinctPairs(links: seq<Correlation>) {
    forall i, j | 0 <= i < j < |links| :: links[i].Pair() != links[j].Pair()
  }

  ghost predicate SortedByPair(links: seq<Correlation>) {
    forall i, j | 0 <= i < j < |links| :: PairLess(links[i].Pair(), links[j].Pair())
  }

  /** The link with pair `p`. */
  function LinkFor(xs: seq<Correlation>, p: (string, string)): (l: Correlation)
    requires p in Pairs(xs)
    ensures l in xs && l.Pair() == p
  {
    if xs[0].Pair() == p then xs[0] else LinkFor(xs[1..], p)
  }

  /** The links in the order of their pairs; pairs are distinct, so the order is unique. */
  function SortLinks(xs: seq<Correlation>): (r: seq<Correlation>) {
    var keys := SortedPairs(Pairs(xs));
    seq(|keys|, i requires 0 <= i < |keys| => LinkFor(xs, keys[i]))
  }

  lemma SortLinksAt(xs: seq<Correlation>)
    ensures var keys, r := SortedPairs(Pairs(xs)), SortLinks(xs);
      |r| == |keys| && forall i | 0 <= i < |r| :: keys[i] in keys && r[i] in xs && r[i].Pair() == keys[i]
  {
    hide PairLess, SortedPairs;
  }

  lemma SamePairSameLink(xs: seq<Correlation>, a: Correlation, b: Correlation)
    requires DistinctPairs(xs) && a in xs && b in xs && a.Pair() == b.Pair()
    ensures a == b
  {
  }

  lemma SortLinksSorts(xs: seq<Correlation>)
    requires DistinctPairs(xs)
    ensures SortedByPair(SortLinks(xs))
    ensures forall l :: l in SortLinks(xs) <==> l in xs
    ensures Pairs(SortLinks(xs)) == Pairs(xs)
  {
    hide PairLess;
    var keys, r := SortedPairs(Pairs(xs)), SortLinks(xs);
    hide SortLinks;
    SortLinksAt(xs);
    forall l | l in xs ensures l in r {
      assert l.Pair() in Pairs(xs);
      assert l.Pair() in keys;
      var i :| 0 <= i < |keys| && keys[i] == l.Pair();
      assert r[i] in r && r[i].Pair() == l.Pair();
      SamePairSameLink(xs, r[i], l);
    }
  }

  type ByService = map<string, seq<IncidentRow>>

  ghost predicate Groups(byService: ByService, incidents: set<IncidentRow>) {
    && (forall svc, i | svc in byService && 0 <= i < |byService[svc]| ::
          byService[svc][i] in incidents && byService[svc][i].service == svc)
    && (forall inc | inc in incidents :: inc.service in byService && inc in byService[inc.service])
  }

  lemma GroupAdds(byService: ByService, incidents: set<IncidentRow>, inc: IncidentRow)
    requires Groups(byService, incidents)
    ensures var group := if inc.service in byService then byService[inc.service] else [];
      Groups(byService[inc.service := group + [inc]], incidents + {inc})
  {
    var group := if inc.service in byService then byService[inc.service] else [];
    var after := byService[inc.service := group + [inc]];
    forall i | i in incidents + {inc} ensures i.service in after && i in after[i.service] {
      assert i in incidents ==> i in byService[i.service];
    }
  }

  lemma SetGrows(incidents: seq<IncidentRow>, n: nat)
    requires n < |incidents|
    ensures SetOf(incidents[..n + 1]) == SetOf(incidents[..n]) + {incidents[n]}
  {
    assert incidents[..n + 1] == incidents[..n] + [incidents[n]];
  }

  method GroupByService(incidents: seq<IncidentRow>) returns (byService: ByService)
    ensures Groups(byService, SetOf(incidents))
  {
    byService := map[];
    for n := 0 to |incidents|
      invariant Groups(byService, SetOf(incidents[..n]))
    {
      hide Groups, SetOf;
      var inc := incidents[n];
      GroupAdds(byService, SetOf(incidents[..n]), inc);
      SetGrows(incidents, n);
      var group := if inc.service in byService then byService[inc.service] else [];
      byService := byService[inc.service := group + [inc]];
    }
    assert incidents[..|incidents|] == incidents;
  }

  /** `p` joins `inc` to one of `others`. */
  ghost predicate JoinsOne(p: (string, string), inc: IncidentRow, others: seq<IncidentRow>, window: real,
                           graph: Graph) {
    exists b | b in others :: Linked(inc, b, window, graph) && p == (inc.id, b.id)
  }

  /** `p` joins `inc` to an incident of one of `services`. */
  ghost predicate JoinsService(p: (string, string), inc: IncidentRow, incidents: set<IncidentRow>,
                               services: seq<string>,
                               window: real, graph: Graph) {
    exists b | b in incidents :: Linked(inc, b, window, graph) && b.service in services && p == (inc.id, b.id)
  }

  lemma JoinsOneMore(p: (string, string), inc: IncidentRow, others: seq<IncidentRow>, k: nat, window: real,
                     graph: Graph)
    requires k < |others|
    ensures JoinsOne(p, inc, others[..k + 1], window, graph) <==>
      JoinsOne(p, inc, others[..k], window, graph) ||
        (Linked(inc, others[k], window, graph) && p == (inc.id, others[k].id))
  {
    assert others[..k + 1] == others[..k] + [others[k]];
  }

  lemma JoinsServiceMore(p: (string, string), inc: IncidentRow, incidents: set<IncidentRow>, byService: ByService,
                         services: seq<string>, d: nat, window: real, graph: Graph)
    requires Groups(byService, incidents) && d < |services|
    ensures JoinsService(p, inc, incidents, services[..d + 1], window, graph) <==>
      || JoinsService(p, inc, incidents, services[..d], window, graph)
      || JoinsOne(p, inc, if services[d] in byService then byService[services[d]] else [], window, graph)
  {
    assert services[..d + 1] == services[..d] + [services[d]];
    var others := if services[d] in byService then byService[services[d]] else [];
    assert forall b | b in incidents && b.service == services[d] :: b in others;
    assert forall b | b in others :: b in incidents && b.service == services[d];
  }

  /** Adds the links from one incident to the incidents of one of its dependencies. */
  method LinkOthers(inc: IncidentRow, others: seq<IncidentRow>, window: real, graph: Graph,
                    links0: seq<Correlation>, seen0: set<(string, string)>, ghost incidents: set<IncidentRow>)
    returns (links: seq<Correlation>, seen: set<(string, string)>)
    requires inc in incidents && forall b | b in others :: b in incidents && Depends(inc.service, b.service, graph)
    requires seen0 == Pairs(links0) && DistinctPairs(links0)
    ensures seen == Pairs(links) && DistinctPairs(links)
    ensures forall p :: p in seen <==> p in seen0 || JoinsOne(p, inc, others, window, graph)
    ensures forall l | l in links :: l in links0 || IsBatchLink(l, incidents, window, graph)
  {
    links, seen := links0, seen0;
    for k := 0 to |others|
      invariant seen == Pairs(links) && DistinctPairs(links)
      invariant forall l | l in links :: l in links0 || IsBatchLink(l, incidents, window, graph)
      invariant forall p :: p in seen <==> p in seen0 || JoinsOne(p, inc, others[..k], window, graph)
    {
      var other := others[k];
      forall p ensures JoinsOne(p, inc, others[..k + 1], window, graph) <==>
        JoinsOne(p, inc, others[..k], window, graph) || (Linked(inc, other, window, graph) && p == (inc.id, other.id))
      {
        JoinsOneMore(p, inc, others, k, window, graph);
      }
      hide JoinsOne, DistinctPairs, Pairs;
      if other.environment == inc.environment && Overlap(inc, other, window) {
        var (dependent, dependency) := OrderEdge(inc, other, graph);
        var l := Correlation(dependent.id, dependency.id, dependent.service, dependency.service);
        assert IsBatchLink(l, incidents, window, graph);
        if l.Pair() !in seen {
          AppendLink(links, l);
          links, seen := links + [l], seen + {l.Pair()};
        }
      }
    }
    assert others[..|others|] == others;
  }

  /** Adds the links from one incident to the incidents of its dependencies. */
  method LinkOne(inc: IncidentRow, byService: ByService, window: real, graph: Graph,
                 links0: seq<Correlation>, seen0: set<(string, string)>, ghost incidents: set<IncidentRow>)
    returns (links: seq<Correlation>, seen: set<(string, string)>)
    requires Groups(byService, incidents) && inc in incidents
    requires seen0 == Pairs(links0) && DistinctPairs(links0)
    ensures seen == Pairs(links) && DistinctPairs(links)
    ensures forall p :: p in seen <==>
      p in seen0 || exists b | b in incidents :: Linked(inc, b, window, graph) && p == (inc.id, b.id)
    ensures forall l | l in links :: l in links0 || IsBatchLink(l, incidents, window, graph)
  {
    links, seen := links0, seen0;
    var deps := DependenciesOf(inc.service, graph);
    for d := 0 to |deps|
      invariant seen == Pairs(links) && DistinctPairs(links)
      invariant forall l | l in links :: l in links0 || IsBatchLink(l, incidents, window, graph)
      invariant forall p :: p in seen <==> p in seen0 || JoinsService(p, inc, incidents, deps[..d], window, graph)
    {
      hide JoinsService, JoinsOne, DistinctPairs, Pairs, IsBatchLink;
      var others := if deps[d] in byService then byService[deps[d]] else [];
      forall p ensures JoinsService(p, inc, incidents, deps[..d + 1], window, graph) <==>
        JoinsService(p, inc, incidents, deps[..d], window, graph) || JoinsOne(p, inc, others, window, graph)
      {
        JoinsServiceMore(p, inc, incidents, byService, deps, d, window, graph);
      }
      links, seen := LinkOthers(inc, others, window, graph, links, seen, incidents);
    }
    assert deps[..|deps|] == deps;
  }

  lemma AppendLink(links: seq<Correlation>, l: Correlation)
    ensures Pairs(links + [l]) == Pairs(links) + {l.Pair()}
    ensures DistinctPairs(links) && l.Pair() !in Pairs(links) ==> DistinctPairs(links + [l])
  {
    assert forall x :: x in links + [l] <==> x in links || x == l;
    if DistinctPairs(links) && l.Pair() !in Pairs(links) {
      assert forall i | 0 <= i < |links| :: links[i] in links && links[i].Pair() != l.Pair();
    }
  }

  /** `seen` holds exactly the pairs of the incidents in `done`. */
  ghost predicate PairsOf(seen: set<(string, string)>, done: set<IncidentRow>, all: set<IncidentRow>, window: real,
                          graph: Graph) {
    forall p :: p in seen <==> exists a, b | a in done && b in all :: Linked(a, b, window, graph) && p == (a.id, b.id)
  }

  method LinkGroup(group: seq<IncidentRow>, byService: ByService, window: real, graph: Graph,
                   links0: seq<Correlation>, seen0: set<(string, string)>,
                   ghost done: set<IncidentRow>, ghost all: set<IncidentRow>)
    returns (links: seq<Correlation>, seen: set<(string, string)>)
    requires Groups(byService, all) && forall inc | inc in group :: inc in all
    requires seen0 == Pairs(links0) && DistinctPairs(links0) && PairsOf(seen0, done, all, window, graph)
    ensures seen == Pairs(links) && DistinctPairs(links)
    ensures PairsOf(seen, done + SetOf(group), all, window, graph)
    ensures forall l | l in links :: l in links0 || IsBatchLink(l, all, window, graph)
  {
    links, seen := links0, seen0;
    assert done + SetOf(group[..0]) == done;
    for n := 0 to |group|
      invariant seen == Pairs(links) && DistinctPairs(links)
      invariant PairsOf(seen, done + SetOf(group[..n]), all, window, graph)
      invariant forall l | l in links :: l in links0 || IsBatchLink(l, all, window, graph)
    {
      assert group[..n + 1] == group[..n] + [group[n]];
      assert done + SetOf(group[..n + 1]) == done + SetOf(group[..n]) + {group[n]};
      links, seen := LinkOne(group[n], byService, window, graph, links, seen, all);
    }
    assert group[..|group|] == group;
  }

  /** The batch correlation: one link per pair, sorted by the two incident ids. */
  method CorrelateIncidents(incidents: seq<IncidentRow>, window: real, graph: Graph) returns (links: seq<Correlation>)
    ensures SortedByPair(links)
    ensures forall p :: p in Pairs(links) <==> IsBatchPair(p, SetOf(incidents), window, graph)
    ensures forall l | l in links :: IsBatchLink(l, SetOf(incidents), window, graph)
    ensures window >= 0.0 && (forall row | row in incidents :: IsInterval(row)) ==>
      forall p :: p in Pairs(links) <==> IsConnectedPair(p, SetOf(incidents), window, graph)
  {
    if window >= 0.0 && forall row | row in incidents :: IsInterval(row) {
      forall p ensures IsBatchPair(p, SetOf(incidents), window, graph) <==>
        IsConnectedPair(p, SetOf(incidents), window, graph) {
        BatchPairMeaning(p, SetOf(incidents), window, graph);
      }
    }
    hide PairLess, Linked, IsConnectedPair, IsBatchPair, IsInterval;
    ghost var all := SetOf(incidents);
    var byService := GroupByService(incidents);
    var seen: set<(string, string)> := {};
    links := [];
    var todo := byService.Keys;
    ghost var done: set<IncidentRow> := {};
    while todo != {}
      invariant todo <= byService.Keys
      invariant seen == Pairs(links) && DistinctPairs(links)
      invariant done <= all && forall inc | inc in all && inc.service !in todo :: inc in done
      invariant PairsOf(seen, done, all, window, graph)
      invariant forall l | l in links :: IsBatchLink(l, all, window, graph)
    {
      var svc :| svc in todo;
      links, seen := LinkGroup(byService[svc], byService, window, graph, links, seen, done, all);
      done := done + SetOf(byService[svc]);
      todo := todo - {svc};
    }
    assert done == all;
    SortLinksSorts(links);
    links := SortLinks(links);
  }
}
