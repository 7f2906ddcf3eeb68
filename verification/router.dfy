/** internal/app/tomolink/tomolink.go: the route table `Router` registers,
    as a list of route records in registration order. Paths are written in
    full, with the "/users" prefix of the users sub-router. */
module Tomolink {
  import opened Wrappers
  import opened ConfigLookup

  /** This file's own bound on the relationships it reads. */
  const MaxRelationships: nat := 10

  /** Router reads "relationships.<i>.name" and ".type". */
  const RelationshipsPrefix := "relationships."

  const Source := "{UUIDSource}"
  const Target := "{UUIDTarget}"

  datatype Handler = CreateEndpoint | CreateEndpoint2

  /** One registered route: path pattern, HTTP method (`verb`), route name, handler,
      and the Content-Type header the route insists on, if any. */
  datatype Route = Route(path: string, verb: string, name: string, handler: Handler, contentType: Option<string>)

  /** Kinds whose single values can be retrieved one target at a time. */
  predicate SupportsSingleValue(kind: string) {
    kind == "timestamp" || kind == "score"
  }

  /** The source builds the name "retrieve_one_" + name and then names the
      route "retrieveone" + that + kind, so both prefixes appear. */
  const OneNamePrefix := "retrieveone" + "retrieve_one_"
  const AllNamePrefix := "retrieve_all_"

  function RetrieveOneRoute(d: Definition): Route {
    Route("/users/" + Source + "/" + d.name + "/" + Target, "GET", OneNamePrefix + d.name + d.kind, CreateEndpoint, None)
  }

  function RetrieveAllRoute(name: string): Route {
    Route("/users/" + Source + "/" + name, "GET", AllNamePrefix + name, CreateEndpoint, None)
  }

  const RetrieveRoute := Route("/users/{UUID}", "GET", "retrieve", CreateEndpoint, None)
  const Create2Route := Route("/create2", "GET", "Test2", CreateEndpoint2, Some("application/json"))

  /** The routes registered for the scanned definitions: the route for all
      values of each relationship, and a single-value route when its kind
      supports one. */
  function RelationshipRoutes(defs: seq<Definition>): (routes: seq<Route>)
    ensures forall d :: d in defs ==> RetrieveAllRoute(d.name) in routes
    ensures forall d :: d in defs && SupportsSingleValue(d.kind) ==> RetrieveOneRoute(d) in routes
  {
    if defs == [] then []
    else
      var d := defs[0];
      var own := (if SupportsSingleValue(d.kind) then [RetrieveOneRoute(d)] else []) + [RetrieveAllRoute(d.name)];
      var rest := RelationshipRoutes(defs[1..]);
      assert forall e :: e in defs <==> e == d || e in defs[1..] by {
        assert defs == [d] + defs[1..];
      }
      own + rest
  }

  /** Some scanned definition produced this route. */
  predicate FromDefinition(defs: seq<Definition>, rt: Route) {
    exists d :: d in defs && (rt == RetrieveAllRoute(d.name) || (SupportsSingleValue(d.kind) && rt == RetrieveOneRoute(d)))
  }

  /** No route is produced for anything but a scanned definition. */
  lemma {:induction false} RelationshipRoutesFromDefinitions(defs: seq<Definition>)
    ensures forall rt :: rt in RelationshipRoutes(defs) ==> FromDefinition(defs, rt)
  {
    if defs != [] {
      var d := defs[0];
      RelationshipRoutesFromDefinitions(defs[1..]);
      forall rt | rt in RelationshipRoutes(defs) ensures FromDefinition(defs, rt) {
        if rt in RelationshipRoutes(defs[1..]) {
          var e :| e in defs[1..] && (rt == RetrieveAllRoute(e.name) || (SupportsSingleValue(e.kind) && rt == RetrieveOneRoute(e)));
          assert e in defs;
        } else {
          assert d in defs;
        }
      }
    }
  }

  /** `log.Fatal` ends the process; otherwise the router is returned. */
  datatype Routing = Fatal(err: string) | Routes(routes: seq<Route>)

  /** The scan Router performs when strict mode is on. */
  function Scanned(lookup: Lookup): Scan {
    ScanDefinitions(lookup, RelationshipsPrefix, MaxRelationships)
  }

  /** The routes registered for a given strict flag and scan outcome: in
      strict mode the per-relationship routes of the scanned definitions, or
      a fatal error when the scan hit a lookup error; the two fixed routes
      come last in every case. */
  function RouteTable(strict: bool, s: Scan): (r: Routing)
    ensures r.Fatal? <==> strict && s.err.Some?
    ensures r.Fatal? ==> s.err == Some(r.err)
    ensures !strict ==> r == Routes([RetrieveRoute, Create2Route])
    ensures r.Routes? ==> |r.routes| >= 2 && r.routes[|r.routes| - 2..] == [RetrieveRoute, Create2Route]
    ensures r.Routes? && strict ==> forall d :: d in s.definitions ==> RetrieveAllRoute(d.name) in r.routes
    ensures r.Routes? && strict ==>
      forall d :: d in s.definitions && SupportsSingleValue(d.kind) ==> RetrieveOneRoute(d) in r.routes
  {
    var fixed := [RetrieveRoute, Create2Route];
    if !strict then Routes(fixed)
    else if s.err.Some? then Fatal(s.err.value)
    else
      var own := RelationshipRoutes(s.definitions);
      assert (own + fixed)[|own + fixed| - 2..] == fixed;
      Routes(own + fixed)
  }

  /** Apart from the two fixed routes, every registered route belongs to a
      scanned definition. */
  lemma RouteTableFromDefinitions(strict: bool, s: Scan)
    ensures RouteTable(strict, s).Routes? ==> forall rt :: rt in RouteTable(strict, s).routes ==>
      rt == RetrieveRoute || rt == Create2Route || FromDefinition(s.definitions, rt)
  {
    if strict && s.err.None? {
      RelationshipRoutesFromDefinitions(s.definitions);
      var own := RelationshipRoutes(s.definitions);
      assert forall rt :: rt in own + [RetrieveRoute, Create2Route] ==> rt in own || rt in [RetrieveRoute, Create2Route];
    }
  }

  /** `Router`: `strictSetting` is the "relationships.strict" setting, and an
      absent setting means strict mode. The scan reads "relationships.<i>"
      keys up to this file's bound. */
  function Router(strictSetting: Option<bool>, lookup: Lookup): (r: Routing)
    ensures strictSetting != Some(false) ==> r == RouteTable(true, Scanned(lookup))
    ensures strictSetting == Some(false) ==> r == Routes([RetrieveRoute, Create2Route])
    ensures r.Fatal? <==> strictSetting != Some(false) && Scanned(lookup).err.Some?
  {
    var strict := strictSetting.GetOr(true);
    assert strict <==> strictSetting != Some(false);
    RouteTable(strict, Scanned(lookup))
  }

  /** Routes of different relationships never coincide. */
  lemma RetrieveOneRouteInjective(d1: Definition, d2: Definition)
    requires RetrieveOneRoute(d1) == RetrieveOneRoute(d2)
    ensures d1 == d2
  {
    var p := "/users/" + Source + "/";
    var path1, path2 := RetrieveOneRoute(d1).path, RetrieveOneRoute(d2).path;
    assert path1 == p + d1.name + "/" + Target;
    assert |d1.name| == |d2.name|;
    assert d1.name == path1[|p|..|p| + |d1.name|];
    assert d2.name == path2[|p|..|p| + |d2.name|];
    var n1, n2 := RetrieveOneRoute(d1).name, RetrieveOneRoute(d2).name;
    assert d1.kind == n1[|OneNamePrefix| + |d1.name|..];
    assert d2.kind == n2[|OneNamePrefix| + |d2.name|..];
  }

  lemma RetrieveAllRouteInjective(name1: string, name2: string)
    requires RetrieveAllRoute(name1) == RetrieveAllRoute(name2)
    ensures name1 == name2
  {
    var n1, n2 := RetrieveAllRoute(name1).name, RetrieveAllRoute(name2).name;
    assert name1 == n1[|AllNamePrefix|..];
    assert name2 == n2[|AllNamePrefix|..];
  }

  /** The route families are told apart by their names. */
  lemma RouteFamiliesDistinct(d: Definition, name: string)
    ensures RetrieveOneRoute(d) != RetrieveAllRoute(name)
    ensures RetrieveOneRoute(d) != RetrieveRoute && RetrieveOneRoute(d) != Create2Route
    ensures RetrieveAllRoute(name) != RetrieveRoute && RetrieveAllRoute(name) != Create2Route
  {
    assert RetrieveOneRoute(d).name[8] == 'o';
    assert RetrieveAllRoute(name).name[8] == '_';
    assert |RetrieveOneRoute(d).name| > 8 && |RetrieveAllRoute(name).name| > 8;
  }

  /** In strict mode a single-value route for a definition is registered
      exactly when the scan found that definition and its kind is
      "timestamp" or "score". */
  lemma {:induction false} RetrieveOneRegisteredIff(s: Scan, d: Definition)
    ensures RouteTable(true, s).Routes? ==>
      (RetrieveOneRoute(d) in RouteTable(true, s).routes <==> d in s.definitions && SupportsSingleValue(d.kind))
  {
    var r := RouteTable(true, s);
    if r.Fatal? { return; }
    var routes := r.routes;
    var defs := s.definitions;
    if RetrieveOneRoute(d) in routes {
      RouteTableFromDefinitions(true, s);
      RouteFamiliesDistinct(d, "");
      var d' :| d' in defs &&
        (RetrieveOneRoute(d) == RetrieveAllRoute(d'.name) || (SupportsSingleValue(d'.kind) && RetrieveOneRoute(d) == RetrieveOneRoute(d')));
      RouteFamiliesDistinct(d, d'.name);
      RetrieveOneRouteInjective(d, d');
    }
  }

  /** In strict mode the all-values route for a name is registered exactly
      when the scan found a definition with that name. */
  lemma {:induction false} RetrieveAllRegisteredIff(s: Scan, name: string)
    ensures RouteTable(true, s).Routes? ==>
      (RetrieveAllRoute(name) in RouteTable(true, s).routes <==> exists d :: d in s.definitions && d.name == name)
  {
    var r := RouteTable(true, s);
    if r.Fatal? { return; }
    var routes := r.routes;
    var defs := s.definitions;
    if RetrieveAllRoute(name) in routes {
      RouteTableFromDefinitions(true, s);
      RouteFamiliesDistinct(Definition("", ""), name);
      var d' :| d' in defs &&
        (RetrieveAllRoute(name) == RetrieveAllRoute(d'.name) || (SupportsSingleValue(d'.kind) && RetrieveAllRoute(name) == RetrieveOneRoute(d')));
      RouteFamiliesDistinct(d', name);
      RetrieveAllRouteInjective(name, d'.name);
    }
  }
}
