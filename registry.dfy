/** The registry (`RestApi`) and the deferred registration group
    (`RestApiBlueprint`).

    Registering a resource class turns its capabilities into routes: each
    capability the class has adds its verb to the resource's verb set, one
    URL rule and one documented operation (PUT and PATCH add a second,
    identical rule). The operation records the documentation path, the typed
    path parameters, the query arguments, the request body for the verbs that
    take one, the documented status and response, and the security scheme.

    The registry's state is given by spec functions over `ApiState`
    (`Register`, `RegisterAll`); the class methods are proved to move the
    fields exactly as those functions say. */
module Registry {
  import opened Base
  import opened Dicts
  import opened Strings
  import opened Templates
  import opened Decorators
  import opened Capabilities
  import opened Views

  datatype Verb = POST | GET | PUT | PATCH | DELETE

  /** A serialization schema class (opaque). */
  type SchemaRef = string

  /** A schema instance: `schema()`, `schema(many=True)` or `schema(partial=True)`. */
  datatype SchemaUse = SchemaUse(schema: SchemaRef, many: bool, partial: bool)

  /** An operation parameter: `{'name', 'schema': {'type'}, 'in': 'path'}` or a
      query argument declared with `extra_args`. */
  datatype Parameter = PathParameter(name: string, typ: ParamType) | QueryParameter(name: string, field: Field)

  /** One documented operation (one `spec.path` call). */
  datatype Operation = Operation(
    path: string, verb: Verb, tag: string, parameters: seq<Parameter>,
    requestBody: Option<SchemaUse>, status: int, response: Option<SchemaUse>,
    security: seq<string>, description: string)

  /** One URL rule: template, endpoint (the resource name) and the verb it accepts. */
  datatype Rule = Rule(path: string, endpoint: string, verb: Verb)

  /** A resource waiting in a group: the class and the arguments of its registration. */
  datatype Declaration = Declaration(cls: ResourceClass, path: string, name: string, schema: SchemaRef)

  /** The registry's observable state. */
  datatype ApiState = ApiState(resourceMethods: map<string, set<Verb>>, operations: seq<Operation>, rules: seq<Rule>)

  /** One capability block of `add_resource`: the role that triggers it, the
      verb, whether it goes on the item path (all ids) or the collection path
      (parent ids), the input schema (`Some(partial)`), the output schema
      (`Some(many)`), the documented status, the method its markers are read
      from, and whether it adds a second URL rule. */
  datatype Route = Route(role: Role, verb: Verb, onItem: bool, input: Option<bool>, output: Option<bool>,
                         status: int, metaFrom: string, extraRule: bool)

  /** The six blocks, in the order they run. PUT documents itself with the
      markers of `update`, which a replace-only class does not have. */
  const Routes: seq<Route> := [
    Route(CreateResource, POST, false, Some(false), Some(false), 201, "create", false),
    Route(ListResource, GET, false, None, Some(true), 200, "list", false),
    Route(NonListableRetrieveResource, GET, true, None, Some(false), 200, "retrieve", false),
    Route(ReplaceResource, PUT, true, Some(false), Some(false), 200, "update", true),
    Route(UpdateResource, PATCH, true, Some(true), Some(false), 200, "update", true),
    Route(DeleteResource, DELETE, true, None, None, 204, "delete", false)
  ]

  /** What stays fixed while one resource registers. */
  datatype Ctx = Ctx(default: Option<string>, cls: ResourceClass, path: string, name: string, schema: SchemaRef)

  /* ------------------------------------------------------------ operations */

  function PathParameters(ids: seq<IdParam>): (ps: seq<Parameter>)
    ensures |ps| == |ids|
    ensures forall i :: 0 <= i < |ids| ==> ps[i] == PathParameter(ids[i].name, ids[i].typ)
  {
    seq(|ids|, i requires 0 <= i < |ids| => PathParameter(ids[i].name, ids[i].typ))
  }

  /** `fields2parameters(extra_args, default_in='query')`, one per declared
      argument in declaration order; none when the marker is absent or empty. */
  function QueryParameters(extra: Option<Dict<string, Field>>): (ps: seq<Parameter>)
    ensures extra.None? ==> ps == []
    ensures extra.Some? ==> (|ps| == |extra.value| &&
              forall i :: 0 <= i < |ps| ==> ps[i] == QueryParameter(extra.value[i].0, extra.value[i].1))
  {
    match extra
    case None => []
    case Some(args) => seq(|args|, i requires 0 <= i < |args| => QueryParameter(args[i].0, args[i].1))
  }

  /** The security requirement: the method's own scheme, or the registry's
      default when the method has none; nothing when that is absent or empty. */
  function Security(auth: Option<string>, default: Option<string>): (sec: seq<string>)
    ensures |sec| <= 1
    ensures sec != [] <==> (if auth.Some? then auth.value != "" else default.Some? && default.value != "")
    ensures sec != [] ==> sec[0] == (if auth.Some? then auth.value else default.value)
  {
    var scheme := if auth.None? then default else auth;
    if scheme.Some? && scheme.value != "" then [scheme.value] else []
  }

  /** The record `add_path` adds for one verb on one template. */
  function OperationFor(path: string, verb: Verb, tag: string, ids: seq<IdParam>, input: Option<SchemaUse>,
                        output: Option<SchemaUse>, meta: MethodMeta, status: int, default: Option<string>): Operation
  {
    Operation(DocPath(path), verb, tag, PathParameters(ids) + QueryParameters(meta.extraArgs),
              input, status, output, Security(meta.authRequired, default), meta.doc.GetOr(""))
  }

  /** The template a route lives on. */
  function RoutePath(ctx: Ctx, r: Route): string {
    if r.onItem then ctx.path else CollectionPath(ctx.path)
  }

  /** The identifiers a route's operation documents. */
  function RouteIds(ctx: Ctx, r: Route): seq<IdParam> {
    if r.onItem then IdParams(ctx.path) else DropLast(IdParams(ctx.path))
  }

  function RouteOperation(ctx: Ctx, r: Route, meta: MethodMeta): Operation {
    OperationFor(RoutePath(ctx, r), r.verb, ctx.name, RouteIds(ctx, r),
                 if r.input.Some? then Some(SchemaUse(ctx.schema, false, r.input.value)) else None,
                 if r.output.Some? then Some(SchemaUse(ctx.schema, r.output.value, false)) else None,
                 meta, r.status, ctx.default)
  }

  /* ------------------------------------------------------------ registration */

  /** `resource_methods[name].add(verb)` on a dict of sets that starts empty. */
  function AddVerb(rm: map<string, set<Verb>>, name: string, verb: Verb): map<string, set<Verb>> {
    rm[name := (if name in rm then rm[name] else {}) + {verb}]
  }

  /** One capability block: record the verb, read the markers (an attribute
      error if the method is missing, after the verb was recorded), then add
      the rule(s) and the operation. */
  function ApplyRoute(s: ApiState, ctx: Ctx, r: Route): (ApiState, Option<Error>) {
    var rm := AddVerb(s.resourceMethods, ctx.name, r.verb);
    match MetaOf(ctx.cls, r.metaFrom)
    case None => (s.(resourceMethods := rm), Some(AttributeError(r.metaFrom)))
    case Some(meta) =>
      var p := RoutePath(ctx, r);
      var extra := if r.extraRule then [Rule(ctx.path, ctx.name, r.verb)] else [];
      (ApiState(rm, s.operations + [RouteOperation(ctx, r, meta)], s.rules + [Rule(p, ctx.name, r.verb)] + extra), None)
  }

  /** One block of `add_resource` after the earlier ones: skipped once an
      error was raised or when the class lacks the block's role. */
  function Next(acc: (ApiState, Option<Error>), ctx: Ctx, r: Route): (ApiState, Option<Error>) {
    if acc.1.Some? || !IsA(ctx.cls, r.role) then acc else ApplyRoute(acc.0, ctx, r)
  }

  /** The blocks of `routes` in order. */
  function ApplyRoutes(s: ApiState, ctx: Ctx, routes: seq<Route>): (ApiState, Option<Error>)
    decreases |routes|
  {
    if routes == [] then (s, None)
    else Next(ApplyRoutes(s, ctx, routes[..|routes| - 1]), ctx, routes[|routes| - 1])
  }

  lemma ApplyRoutesSnoc(s: ApiState, ctx: Ctx, routes: seq<Route>, k: nat)
    requires k < |routes|
    ensures ApplyRoutes(s, ctx, routes[..k + 1]) == Next(ApplyRoutes(s, ctx, routes[..k]), ctx, routes[k])
  {
    assert routes[..k + 1][..k] == routes[..k];
  }

  /** Once a block raised, the later blocks do not run. */
  lemma {:induction false} ApplyRoutesStops(s: ApiState, ctx: Ctx, routes: seq<Route>, k: nat)
    requires k <= |routes|
    requires ApplyRoutes(s, ctx, routes[..k]).1.Some?
    ensures ApplyRoutes(s, ctx, routes) == ApplyRoutes(s, ctx, routes[..k])
    decreases |routes| - k
  {
    if k < |routes| {
      ApplyRoutesSnoc(s, ctx, routes, k);
      ApplyRoutesStops(s, ctx, routes, k + 1);
    } else {
      assert routes[..k] == routes;
    }
  }

  /** `add_resource`: instantiate the class (a type error, with nothing
      registered, if it is abstract), then run the six blocks. */
  function Register(s: ApiState, ctx: Ctx): (ApiState, Option<Error>) {
    if !Instantiable(ctx.cls) then (s, Some(TypeError("cannot instantiate abstract class")))
    else ApplyRoutes(s, ctx, Routes)
  }

  function CtxOf(default: Option<string>, d: Declaration): Ctx {
    Ctx(default, d.cls, d.path, d.name, d.schema)
  }

  /** `add_resource` for each declaration in order, stopping at the first error. */
  function RegisterAll(s: ApiState, default: Option<string>, ds: seq<Declaration>): (ApiState, Option<Error>)
    decreases |ds|
  {
    if ds == [] then (s, None)
    else
      var (s1, e1) := RegisterAll(s, default, ds[..|ds| - 1]);
      if e1.Some? then (s1, e1) else Register(s1, CtxOf(default, ds[|ds| - 1]))
  }

  /* ------------------------------------------------------------ what registration produces */

  /** The routes of `routes` the class has, in order. */
  function Applicable(cls: ResourceClass, routes: seq<Route>): (rs: seq<Route>)
    ensures forall r :: r in rs <==> r in routes && IsA(cls, r.role)
    decreases |routes|
  {
    if routes == [] then []
    else
      var init := routes[..|routes| - 1];
      var last := routes[|routes| - 1];
      assert routes == init + [last];
      Applicable(cls, init) + (if IsA(cls, last.role) then [last] else [])
  }

  /** Every route the class has can read its markers. */
  predicate Documentable(cls: ResourceClass, routes: seq<Route>) {
    forall r :: r in routes && IsA(cls, r.role) ==> MetaOf(cls, r.metaFrom).Some?
  }

  /** The operations the routes document, in order. */
  function OperationsFor(ctx: Ctx, rs: seq<Route>): (ops: seq<Operation>)
    ensures |ops| == |rs|
    decreases |rs|
  {
    if rs == [] then []
    else
      var r := rs[|rs| - 1];
      OperationsFor(ctx, rs[..|rs| - 1]) + [RouteOperation(ctx, r, MarkersOf(ctx, r))]
  }

  /** The `i`-th operation documents the `i`-th route. */
  lemma {:induction false} OperationsForAt(ctx: Ctx, rs: seq<Route>, i: nat)
    requires i < |rs|
    ensures OperationsFor(ctx, rs)[i] == RouteOperation(ctx, rs[i], MarkersOf(ctx, rs[i]))
    decreases |rs|
  {
    if i < |rs| - 1 {
      OperationsForAt(ctx, rs[..|rs| - 1], i);
    }
  }

  /** The markers a route documents itself with (those of a method the class
      has; the lookup succeeds for every route of a registration without
      error). */
  function MarkersOf(ctx: Ctx, r: Route): MethodMeta {
    MetaOf(ctx.cls, r.metaFrom).GetOr(NoMeta)
  }

  /** The rules the routes add, in order: one on the route's template and,
      for PUT and PATCH, one more on the item template. */
  function RulesFor(ctx: Ctx, rs: seq<Route>): seq<Rule>
    decreases |rs|
  {
    if rs == [] then []
    else
      var r := rs[|rs| - 1];
      RulesFor(ctx, rs[..|rs| - 1]) + [Rule(RoutePath(ctx, r), ctx.name, r.verb)]
        + (if r.extraRule then [Rule(ctx.path, ctx.name, r.verb)] else [])
  }

  function VerbsOf(rs: seq<Route>): set<Verb> {
    set r | r in rs :: r.verb
  }

  /** The verb table after recording `verbs` for `name` (no entry is made
      when there is nothing to record). */
  function WithVerbs(rm: map<string, set<Verb>>, name: string, verbs: set<Verb>): map<string, set<Verb>> {
    if verbs == {} then rm else rm[name := (if name in rm then rm[name] else {}) + verbs]
  }

  /** Running the blocks of `routes` fails exactly when some block the class
      has cannot read its markers, and the failure is that attribute error. */
  lemma {:induction false} ApplyRoutesFails(s: ApiState, ctx: Ctx, routes: seq<Route>)
    ensures var e := ApplyRoutes(s, ctx, routes).1;
            && (e.None? <==> Documentable(ctx.cls, routes))
            && (e.Some? ==> exists r :: r in routes && IsA(ctx.cls, r.role) && MetaOf(ctx.cls, r.metaFrom).None?
                                          && e == Some(AttributeError(r.metaFrom)))
    decreases |routes|
  {
    if routes != [] {
      var init := routes[..|routes| - 1];
      var r := routes[|routes| - 1];
      assert routes == init + [r];
      ApplyRoutesFails(s, ctx, init);
      var e0 := ApplyRoutes(s, ctx, init).1;
      if e0.Some? {
        var q :| q in init && IsA(ctx.cls, q.role) && MetaOf(ctx.cls, q.metaFrom).None? && e0 == Some(AttributeError(q.metaFrom));
        assert q in routes;
      }
    }
  }

  /** One step of running the blocks of `routes`: the last block runs on
      the state the earlier ones left, exactly when the class has its role. */
  lemma ApplyRoutesUnfold(s: ApiState, ctx: Ctx, routes: seq<Route>)
    requires routes != [] && Documentable(ctx.cls, routes)
    ensures var init := routes[..|routes| - 1];
            var r := routes[|routes| - 1];
            && Documentable(ctx.cls, init)
            && ApplyRoutes(s, ctx, init).1.None?
            && Applicable(ctx.cls, routes) == Applicable(ctx.cls, init) + (if IsA(ctx.cls, r.role) then [r] else [])
            && ApplyRoutes(s, ctx, routes) ==
                 (if IsA(ctx.cls, r.role) then ApplyRoute(ApplyRoutes(s, ctx, init).0, ctx, r) else ApplyRoutes(s, ctx, init))
            && (IsA(ctx.cls, r.role) ==> MetaOf(ctx.cls, r.metaFrom).Some?)
  {
    var init := routes[..|routes| - 1];
    var r := routes[|routes| - 1];
    assert routes == init + [r];
    assert Documentable(ctx.cls, init) by {
      forall q | q in init ensures q in routes { }
    }
    ApplyRoutesFails(s, ctx, init);
  }

  /** When every block the class has can read its markers, running the blocks
      of `routes` raises nothing, appends one operation and its rules per
      applicable block, in order, and records exactly the applicable verbs. */
  lemma ApplyRoutesOk(s: ApiState, ctx: Ctx, routes: seq<Route>)
    requires Documentable(ctx.cls, routes)
    ensures var s1 := ApplyRoutes(s, ctx, routes);
            var app := Applicable(ctx.cls, routes);
            && s1.1.None?
            && s1.0.operations == s.operations + OperationsFor(ctx, app)
            && s1.0.rules == s.rules + RulesFor(ctx, app)
            && s1.0.resourceMethods == WithVerbs(s.resourceMethods, ctx.name, VerbsOf(app))
  {
    ApplyRoutesFails(s, ctx, routes);
    ApplyRoutesOps(s, ctx, routes);
    ApplyRoutesRules(s, ctx, routes);
    ApplyRoutesVerbs(s, ctx, routes);
  }

  lemma {:induction false} ApplyRoutesOps(s: ApiState, ctx: Ctx, routes: seq<Route>)
    requires Documentable(ctx.cls, routes)
    ensures ApplyRoutes(s, ctx, routes).0.operations == s.operations + OperationsFor(ctx, Applicable(ctx.cls, routes))
    decreases |routes|
  {
    if routes == [] {
      assert s.operations + [] == s.operations;
    } else {
      var init := routes[..|routes| - 1];
      var r := routes[|routes| - 1];
      ApplyRoutesUnfold(s, ctx, routes);
      ApplyRoutesOps(s, ctx, init);
      var app0 := Applicable(ctx.cls, init);
      var app := Applicable(ctx.cls, routes);
      if IsA(ctx.cls, r.role) {
        var acc := ApplyRoutes(s, ctx, init).0;
        ApplyRouteOk(acc, ctx, r);
        var op := RouteOperation(ctx, r, MarkersOf(ctx, r));
        assert app[..|app| - 1] == app0 && app[|app| - 1] == r;
        assert OperationsFor(ctx, app) == OperationsFor(ctx, app0) + [op];
        assert ApplyRoutes(s, ctx, routes).0.operations == acc.operations + [op];
        AppendAssoc(s.operations, OperationsFor(ctx, app0), [op]);
      } else {
        assert app == app0;
      }
    }
  }

  lemma {:induction false} ApplyRoutesRules(s: ApiState, ctx: Ctx, routes: seq<Route>)
    requires Documentable(ctx.cls, routes)
    ensures ApplyRoutes(s, ctx, routes).0.rules == s.rules + RulesFor(ctx, Applicable(ctx.cls, routes))
    decreases |routes|
  {
    if routes == [] {
      assert s.rules + [] == s.rules;
    } else {
      var init := routes[..|routes| - 1];
      var r := routes[|routes| - 1];
      ApplyRoutesUnfold(s, ctx, routes);
      ApplyRoutesRules(s, ctx, init);
      var app0 := Applicable(ctx.cls, init);
      var app := Applicable(ctx.cls, routes);
      if IsA(ctx.cls, r.role) {
        var acc := ApplyRoutes(s, ctx, init).0;
        ApplyRouteOk(acc, ctx, r);
        assert app[..|app| - 1] == app0 && app[|app| - 1] == r;
        var first := [Rule(RoutePath(ctx, r), ctx.name, r.verb)];
        var extra := if r.extraRule then [Rule(ctx.path, ctx.name, r.verb)] else [];
        AppendAssoc(acc.rules, first, extra);
        AppendAssoc(RulesFor(ctx, app0), first, extra);
        assert RulesFor(ctx, app) == RulesFor(ctx, app0) + first + extra;
        assert ApplyRoutes(s, ctx, routes).0.rules == acc.rules + first + extra;
        AppendAssoc(s.rules, RulesFor(ctx, app0), first + extra);
      } else {
        assert app == app0;
      }
    }
  }

  lemma {:induction false} ApplyRoutesVerbs(s: ApiState, ctx: Ctx, routes: seq<Route>)
    requires Documentable(ctx.cls, routes)
    ensures ApplyRoutes(s, ctx, routes).0.resourceMethods == WithVerbs(s.resourceMethods, ctx.name, VerbsOf(Applicable(ctx.cls, routes)))
    decreases |routes|
  {
    if routes == [] {
      assert VerbsOf([]) == {};
    } else {
      var init := routes[..|routes| - 1];
      var r := routes[|routes| - 1];
      ApplyRoutesUnfold(s, ctx, routes);
      ApplyRoutesVerbs(s, ctx, init);
      var app0 := Applicable(ctx.cls, init);
      var app := Applicable(ctx.cls, routes);
      if IsA(ctx.cls, r.role) {
        var acc := ApplyRoutes(s, ctx, init).0;
        ApplyRouteOk(acc, ctx, r);
        assert VerbsOf(app) == VerbsOf(app0) + {r.verb};
        assert ApplyRoutes(s, ctx, routes).0.resourceMethods == AddVerb(acc.resourceMethods, ctx.name, r.verb);
        WithVerbsAdd(s.resourceMethods, ctx.name, VerbsOf(app0), r.verb);
      } else {
        assert app == app0;
      }
    }
  }

  lemma WithVerbsAdd(rm: map<string, set<Verb>>, name: string, verbs: set<Verb>, v: Verb)
    ensures AddVerb(WithVerbs(rm, name, verbs), name, v) == WithVerbs(rm, name, verbs + {v})
  {
    var had := if name in rm then rm[name] else {};
    if verbs == {} {
      assert verbs + {v} == {v};
    } else {
      assert (had + verbs) + {v} == had + (verbs + {v});
    }
  }

  /** A block that finds its markers records its verb, its operation and its
      rules, and raises nothing. */
  lemma ApplyRouteOk(s: ApiState, ctx: Ctx, r: Route)
    requires MetaOf(ctx.cls, r.metaFrom).Some?
    ensures ApplyRoute(s, ctx, r) ==
              (ApiState(AddVerb(s.resourceMethods, ctx.name, r.verb),
                        s.operations + [RouteOperation(ctx, r, MarkersOf(ctx, r))],
                        s.rules + [Rule(RoutePath(ctx, r), ctx.name, r.verb)]
                          + (if r.extraRule then [Rule(ctx.path, ctx.name, r.verb)] else [])),
               None)
  {
  }

  /* ------------------------------------------------------------ the capability table */

  /** The verbs a class's capabilities give it. */
  function CapabilityVerbs(cls: ResourceClass): set<Verb> {
    (if IsA(cls, CreateResource) then {POST} else {})
    + (if IsA(cls, ListResource) || IsA(cls, NonListableRetrieveResource) then {GET} else {})
    + (if IsA(cls, ReplaceResource) then {PUT} else {})
    + (if IsA(cls, UpdateResource) then {PATCH} else {})
    + (if IsA(cls, DeleteResource) then {DELETE} else {})
  }

  /** The six blocks give a class exactly its capability verbs. */
  lemma RouteVerbs(cls: ResourceClass)
    ensures VerbsOf(Applicable(cls, Routes)) == CapabilityVerbs(cls)
  {
    var app := Applicable(cls, Routes);
    forall v | v in VerbsOf(app) ensures v in CapabilityVerbs(cls) {
      var r :| r in app && r.verb == v;
      RouteCases(r);
    }
    forall v | v in CapabilityVerbs(cls) ensures v in VerbsOf(app) {
      VerbCovered(cls, v);
    }
  }

  /** A capability verb comes from a block the class has. */
  lemma VerbCovered(cls: ResourceClass, v: Verb)
    requires v in CapabilityVerbs(cls)
    ensures v in VerbsOf(Applicable(cls, Routes))
  {
    match v
    case POST => RouteApplies(cls, 0);
    case GET => if IsA(cls, ListResource) { RouteApplies(cls, 1); } else { RouteApplies(cls, 2); }
    case PUT => RouteApplies(cls, 3);
    case PATCH => RouteApplies(cls, 4);
    case DELETE => RouteApplies(cls, 5);
  }

  lemma RouteApplies(cls: ResourceClass, k: nat)
    requires k < |Routes| && IsA(cls, Routes[k].role)
    ensures Routes[k].verb in VerbsOf(Applicable(cls, Routes))
  {
    assert Routes[k] in Applicable(cls, Routes);
  }

  /** Each block's role and verb. */
  lemma RouteCases(r: Route)
    requires r in Routes
    ensures r.role == CreateResource ==> r.verb == POST
    ensures r.role == ListResource || r.role == NonListableRetrieveResource ==> r.verb == GET
    ensures r.role == ReplaceResource ==> r.verb == PUT
    ensures r.role == UpdateResource ==> r.verb == PATCH
    ensures r.role == DeleteResource ==> r.verb == DELETE
    ensures r.role in {CreateResource, ListResource, NonListableRetrieveResource, ReplaceResource, UpdateResource, DeleteResource}
  {
  }

  /** Every capability method a class has is found by attribute lookup. */
  lemma LibraryHas(cls: ResourceClass)
    ensures IsA(cls, CreateResource) ==> MetaOf(cls, "create").Some?
    ensures IsA(cls, ListResource) ==> MetaOf(cls, "list").Some?
    ensures IsA(cls, NonListableRetrieveResource) ==> MetaOf(cls, "retrieve").Some?
    ensures IsA(cls, UpdateResource) ==> MetaOf(cls, "update").Some?
    ensures IsA(cls, DeleteResource) ==> MetaOf(cls, "delete").Some?
  {
    assert Declares(CreateResource) == Some("create") && Declares(ListResource) == Some("list");
    assert Declares(NonListableRetrieveResource) == Some("retrieve") && Declares(UpdateResource) == Some("update");
    assert Declares(DeleteResource) == Some("delete");
  }

  /** Only PUT can fail to find its markers: it reads `update`. */
  lemma RoutesDocumentable(cls: ResourceClass)
    ensures Documentable(cls, Routes) <==> (IsA(cls, ReplaceResource) ==> MetaOf(cls, "update").Some?)
  {
    LibraryHas(cls);
    assert Routes[3] in Routes;
  }

  /** Registration fails exactly when the class is abstract (a type error,
      nothing registered) or is replaceable without an `update` (an attribute
      error). */
  lemma RegisterFails(s: ApiState, ctx: Ctx)
    ensures var (s1, e) := Register(s, ctx);
            && (!Instantiable(ctx.cls) ==> e.Some? && e.value.TypeError? && s1 == s)
            && (Instantiable(ctx.cls) && IsA(ctx.cls, ReplaceResource) && MetaOf(ctx.cls, "update").None? ==>
                  e == Some(AttributeError("update")))
            && (e.None? <==> Instantiable(ctx.cls) && (IsA(ctx.cls, ReplaceResource) ==> MetaOf(ctx.cls, "update").Some?))
  {
    if Instantiable(ctx.cls) {
      ApplyRoutesFails(s, ctx, Routes);
      RoutesDocumentable(ctx.cls);
      LibraryHas(ctx.cls);
    }
  }

  /** A registration without error appends one operation per capability, in
      the order create, list, retrieve, replace, update, delete, and grows the
      resource's verbs by exactly its capability verbs. */
  lemma RegisterOk(s: ApiState, ctx: Ctx)
    requires Instantiable(ctx.cls)
    requires IsA(ctx.cls, ReplaceResource) ==> MetaOf(ctx.cls, "update").Some?
    ensures var s1 := Register(s, ctx).0;
            && Register(s, ctx).1.None?
            && s1.operations == s.operations + OperationsFor(ctx, Applicable(ctx.cls, Routes))
            && s1.rules == s.rules + RulesFor(ctx, Applicable(ctx.cls, Routes))
            && s1.resourceMethods == WithVerbs(s.resourceMethods, ctx.name, CapabilityVerbs(ctx.cls))
  {
    RoutesDocumentable(ctx.cls);
    ApplyRoutesOk(s, ctx, Routes);
    RouteVerbs(ctx.cls);
  }

  /** On an empty registry, a class that registers without error is the
      registry's only resource, with exactly its capability verbs (none are
      recorded for a class with no capability), and the documented
      operations and rules are its own. */
  lemma RegisterFresh(ctx: Ctx)
    requires Instantiable(ctx.cls)
    requires IsA(ctx.cls, ReplaceResource) ==> MetaOf(ctx.cls, "update").Some?
    ensures var (s1, e) := Register(ApiState(map[], [], []), ctx);
            && e.None?
            && s1.resourceMethods == (if CapabilityVerbs(ctx.cls) == {} then map[] else map[ctx.name := CapabilityVerbs(ctx.cls)])
            && s1.operations == OperationsFor(ctx, Applicable(ctx.cls, Routes))
            && s1.rules == RulesFor(ctx, Applicable(ctx.cls, Routes))
  {
    var s := ApiState(map[], [], []);
    RegisterOk(s, ctx);
    var verbs := CapabilityVerbs(ctx.cls);
    assert {} + verbs == verbs;
    assert [] + OperationsFor(ctx, Applicable(ctx.cls, Routes)) == OperationsFor(ctx, Applicable(ctx.cls, Routes));
    assert [] + RulesFor(ctx, Applicable(ctx.cls, Routes)) == RulesFor(ctx, Applicable(ctx.cls, Routes));
  }

  /** The block table read column by column: POST and the list route work on
      the collection, the rest on the item; POST, PUT and PATCH take a body
      (partial only for PATCH); only DELETE returns none, and only the list
      route returns many; POST answers 201, DELETE 204, the rest 200. */
  lemma RouteTable(i: nat)
    requires i < |Routes|
    ensures var r := Routes[i];
            && (r.onItem <==> !(r.verb == POST || i == 1))
            && (r.input.Some? <==> r.verb in {POST, PUT, PATCH})
            && (r.input.Some? ==> r.input.value == (r.verb == PATCH))
            && (r.output.None? <==> r.verb == DELETE)
            && (r.output.Some? ==> r.output.value == (i == 1))
            && r.status == (if r.verb == POST then 201 else if r.verb == DELETE then 204 else 200)
  {
  }

  /** The shape of the operation each capability documents: collection or
      item template, the identifiers it documents (parents only on the
      collection), a request body exactly for POST, PUT and PATCH (partial for
      PATCH), no response body for DELETE, and the documented status. */
  lemma RouteOperationShape(ctx: Ctx, i: nat, meta: MethodMeta)
    requires i < |Routes|
    ensures var r := Routes[i];
            var op := RouteOperation(ctx, r, meta);
            && op.verb == r.verb && op.tag == ctx.name
            && op.path == DocPath(if r.verb == POST || i == 1 then CollectionPath(ctx.path) else ctx.path)
            && op.parameters[..|RouteIds(ctx, r)|] == PathParameters(RouteIds(ctx, r))
            && |RouteIds(ctx, r)| == (if r.verb == POST || i == 1 then |DropLast(IdParams(ctx.path))| else |IdParams(ctx.path)|)
            && (op.requestBody.Some? <==> r.verb in {POST, PUT, PATCH})
            && (op.requestBody.Some? ==> op.requestBody.value == SchemaUse(ctx.schema, false, r.verb == PATCH))
            && (op.response.None? <==> r.verb == DELETE)
            && (op.response.Some? ==> op.response.value == SchemaUse(ctx.schema, i == 1, false))
            && op.status == (if r.verb == POST then 201 else if r.verb == DELETE then 204 else 200)
            && op.security == Security(meta.authRequired, ctx.default)
            && op.description == meta.doc.GetOr("")
  {
    RouteTable(i);
    var r := Routes[i];
    var op := RouteOperation(ctx, r, meta);
    var ps := PathParameters(RouteIds(ctx, r));
    assert op.parameters[..|ps|] == ps;
  }

  /** On an item template `parent/<own>`, every operation documents the
      placeholders of its own template: the collection routes document the
      parent template and its identifiers, the item routes the full template
      and all identifiers, each placeholder shown as `{name}`. */
  lemma RouteOnTemplate(ctx: Ctx, parent: seq<Piece>, own: Piece, r: Route)
    requires WellFormed(parent) && own.Slot? && WellFormedPiece(own) && '/' !in RenderPiece(own)
    requires ctx.path == Render(parent + [Text("/"), own])
    ensures var ps := if r.onItem then parent + [Text("/"), own] else parent;
            && DocPath(RoutePath(ctx, r)) == RenderDoc(ps)
            && RouteIds(ctx, r) == Declared(ps)
  {
    var full := parent + [Text("/"), own];
    ItemWellFormed(parent, own);
    CollectionOfItem(parent, own);
    ParseRender(full);
    ParseRender(parent);
    DocRender(full);
    DocRender(parent);
  }

  /* ------------------------------------------------------------ url_for */

  /** The order `url_for` tries verbs in when none is given. */
  const Preference: seq<Verb> := [GET, PUT, DELETE, POST]

  /** The position of the first verb of `prefs` that is in `verbs`
      (`|prefs|` when there is none). */
  function FirstPresent(prefs: seq<Verb>, verbs: set<Verb>): (k: nat)
    ensures k <= |prefs|
    ensures forall j :: 0 <= j < k ==> prefs[j] !in verbs
    ensures k < |prefs| ==> prefs[k] in verbs
    decreases |prefs|
  {
    if prefs == [] then 0
    else if prefs[0] in verbs then 0
    else 1 + FirstPresent(prefs[1..], verbs)
  }

  /** The verb `url_for` picks when none is given: the first of the
      preference order the resource has. */
  function PreferredMethod(verbs: set<Verb>): Option<Verb> {
    var k := FirstPresent(Preference, verbs);
    if k < |Preference| then Some(Preference[k]) else None
  }

  /** What `url_for` hands to the URL builder: the endpoint, the verb that
      picks among its rules, and the values to fill in. */
  datatype UrlRequest = UrlRequest(endpoint: string, verb: Option<Verb>, values: Bindings)

  /** The verb `url_for` picks for a registered class: GET whenever it can be
      read, else PUT, else DELETE, else POST; PATCH never, since every
      updatable resource is also replaceable. */
  lemma PreferredForClass(cls: ResourceClass)
    ensures PreferredMethod(CapabilityVerbs(cls)) ==
      if IsA(cls, ListResource) || IsA(cls, NonListableRetrieveResource) then Some(GET)
      else if IsA(cls, ReplaceResource) then Some(PUT)
      else if IsA(cls, DeleteResource) then Some(DELETE)
      else if IsA(cls, CreateResource) then Some(POST)
      else None
  {
    RoleImplications(cls);
  }

  /* ------------------------------------------------------------ the registry object */

  /** A security scheme description (opaque key/value pairs). */
  type Scheme = map<string, string>

  /** The schemes every registry declares: HTTP basic and two JWT bearer schemes. */
  const BuiltinSchemes: seq<(string, Scheme)> := [
    (BasicHttp, map["type" := "http", "scheme" := "basic"]),
    (JwtAccessToken, map["type" := "http", "scheme" := "bearer", "bearerFormat" := "JWT"]),
    (JwtRefreshToken, map["type" := "http", "scheme" := "bearer", "bearerFormat" := "JWT"])
  ]

  class RestApi {
    var resourceMethods: map<string, set<Verb>>
    var operations: seq<Operation>
    var rules: seq<Rule>
    /** Component schemas declared through `resource`, in order. */
    var schemas: seq<(string, SchemaRef)>
    const securitySchemes: seq<(string, Scheme)>
    const defaultScheme: Option<string>

    /** A fresh registry: nothing registered; the built-in schemes, then the
        caller's, are declared. */
    constructor(userSchemes: Option<seq<(string, Scheme)>>, defaultScheme: Option<string>)
      ensures resourceMethods == map[] && operations == [] && rules == [] && schemas == []
      ensures securitySchemes == BuiltinSchemes + userSchemes.GetOr([])
      ensures this.defaultScheme == defaultScheme
    {
      resourceMethods := map[];
      operations := [];
      rules := [];
      schemas := [];
      securitySchemes := BuiltinSchemes + userSchemes.GetOr([]);
      this.defaultScheme := defaultScheme;
    }

    function State(): ApiState
      reads this
    {
      ApiState(resourceMethods, operations, rules)
    }

    /** The verbs registered for a resource (none for an unknown name). */
    function MethodsOf(name: string): set<Verb>
      reads this
    {
      if name in resourceMethods then resourceMethods[name] else {}
    }

    /** `add_path`: one URL rule and one documented operation. */
    method AddPath(path: string, endpoint: string, verb: Verb, tag: string, ids: seq<IdParam>,
                   input: Option<SchemaUse>, output: Option<SchemaUse>, meta: MethodMeta, status: int)
      modifies this
      ensures rules == old(rules) + [Rule(path, endpoint, verb)]
      ensures operations == old(operations) + [OperationFor(path, verb, tag, ids, input, output, meta, status, defaultScheme)]
      ensures resourceMethods == old(resourceMethods) && schemas == old(schemas)
    {
      rules := rules + [Rule(path, endpoint, verb)];
      var parameters := PathParameters(ids);
      if meta.extraArgs.Some? && meta.extraArgs.value != [] {
        parameters := parameters + QueryParameters(meta.extraArgs);
      } else {
        assert parameters + QueryParameters(meta.extraArgs) == parameters;
      }
      var security := [];
      var auth := meta.authRequired;
      if auth.None? {
        auth := defaultScheme;
      }
      if auth.Some? && auth.value != "" {
        security := [auth.value];
      }
      operations := operations + [Operation(DocPath(path), verb, tag, parameters, input, status, output, security, meta.doc.GetOr(""))];
    }

    /** One capability block of `add_resource`. */
    method AddRoute(ctx: Ctx, r: Route) returns (err: Option<Error>)
      requires ctx.default == defaultScheme
      modifies this
      ensures (State(), err) == ApplyRoute(old(State()), ctx, r)
      ensures schemas == old(schemas)
    {
      resourceMethods := AddVerb(resourceMethods, ctx.name, r.verb);
      var meta := MetaOf(ctx.cls, r.metaFrom);
      if meta.None? {
        return Some(AttributeError(r.metaFrom));
      }
      var ids := IdParams(ctx.path);
      var input := if r.input.Some? then Some(SchemaUse(ctx.schema, false, r.input.value)) else None;
      var output := if r.output.Some? then Some(SchemaUse(ctx.schema, r.output.value, false)) else None;
      if r.onItem {
        AddPath(ctx.path, ctx.name, r.verb, ctx.name, ids, input, output, meta.value, r.status);
      } else {
        AddPath(CollectionPath(ctx.path), ctx.name, r.verb, ctx.name, DropLast(ids), input, output, meta.value, r.status);
      }
      if r.extraRule {
        rules := rules + [Rule(ctx.path, ctx.name, r.verb)];
      }
      err := None;
      ghost var o := old(State());
      assert resourceMethods == ApplyRoute(o, ctx, r).0.resourceMethods;
      assert operations == ApplyRoute(o, ctx, r).0.operations;
      assert rules == ApplyRoute(o, ctx, r).0.rules;
    }

    /** The `k`-th capability block of `add_resource`: it runs when the class
        has the block's role, and an error it raises ends the registration. */
    method CapabilityBlock(ctx: Ctx, k: nat, ghost s0: ApiState) returns (err: Option<Error>)
      requires k < |Routes| && ctx.default == defaultScheme
      requires (State(), None) == ApplyRoutes(s0, ctx, Routes[..k])
      modifies this
      ensures err.None? ==> (State(), err) == ApplyRoutes(s0, ctx, Routes[..k + 1])
      ensures err.Some? || k + 1 == |Routes| ==> (State(), err) == ApplyRoutes(s0, ctx, Routes)
      ensures schemas == old(schemas)
    {
      ApplyRoutesSnoc(s0, ctx, Routes, k);
      var r := Routes[k];
      if IsA(ctx.cls, r.role) {
        err := AddRoute(ctx, r);
      } else {
        err := None;
      }
      if err.Some? {
        ApplyRoutesStops(s0, ctx, Routes, k + 1);
      } else if k + 1 == |Routes| {
        assert Routes[..k + 1] == Routes;
      }
    }

    /** `add_resource(cls, path, name, schema)`: instantiate the class, then
        run the create, list, retrieve, replace, update and delete blocks in
        that order, stopping at the first error. */
    method AddResource(cls: ResourceClass, path: string, name: string, schema: SchemaRef) returns (err: Option<Error>)
      modifies this
      ensures (State(), err) == Register(old(State()), Ctx(defaultScheme, cls, path, name, schema))
      ensures schemas == old(schemas)
    {
      if !Instantiable(cls) {
        return Some(TypeError("cannot instantiate abstract class"));
      }
      err := RunBlocks(Ctx(defaultScheme, cls, path, name, schema));
    }

    /** The create, list, retrieve, replace, update and delete blocks in that
        order; an error raised by one ends the registration there. */
    method RunBlocks(ctx: Ctx) returns (err: Option<Error>)
      requires ctx.default == defaultScheme
      modifies this
      ensures (State(), err) == ApplyRoutes(old(State()), ctx, Routes)
      ensures schemas == old(schemas)
    {
      ghost var s0 := State();
      assert Routes[..0] == [];
      err := CapabilityBlock(ctx, 0, s0);  // create
      if err.Some? { return; }
      err := CapabilityBlock(ctx, 1, s0);  // list
      if err.Some? { return; }
      err := CapabilityBlock(ctx, 2, s0);  // retrieve
      if err.Some? { return; }
      err := CapabilityBlock(ctx, 3, s0);  // replace
      if err.Some? { return; }
      err := CapabilityBlock(ctx, 4, s0);  // update
      if err.Some? { return; }
      err := CapabilityBlock(ctx, 5, s0);  // delete
    }

    /** `resource(path, name, schema)` applied to a class: declare the schema
        component, then register the class. */
    method Resource(cls: ResourceClass, path: string, name: string, schema: SchemaRef) returns (err: Option<Error>)
      modifies this
      ensures schemas == old(schemas) + [(name, schema)]
      ensures (State(), err) == Register(old(State()), Ctx(defaultScheme, cls, path, name, schema))
    {
      schemas := schemas + [(name, schema)];
      err := AddResource(cls, path, name, schema);
    }

    /** `add_blueprint`: bind the group (a runtime error, with nothing
        registered, if it is already bound), then register its resources in
        order. */
    method AddBlueprint(bp: RestApiBlueprint) returns (err: Option<Error>)
      modifies this, bp
      ensures bp.resources == old(bp.resources)
      ensures schemas == old(schemas)
      ensures old(bp.boundTo).Some? ==>
                err == Some(RuntimeError(BindTwice)) && bp.boundTo == old(bp.boundTo) && State() == old(State())
      ensures old(bp.boundTo).None? ==>
                && bp.boundTo == Some(ToApi(this))
                && (State(), err) == RegisterAll(old(State()), defaultScheme, old(bp.resources))
    {
      err := bp.Bind(ToApi(this));
      if err.Some? {
        return;
      }
      var ds := bp.resources;
      ghost var s0 := State();
      var i := 0;
      assert ds[..0] == [];
      while i < |ds|
        invariant 0 <= i <= |ds|
        invariant bp.resources == ds && bp.boundTo == Some(ToApi(this))
        invariant (State(), err) == RegisterAll(s0, defaultScheme, ds[..i])
        invariant err.None? && schemas == old(schemas)
      {
        var d := ds[i];
        RegisterAllSnoc(s0, defaultScheme, ds, i);
        err := AddResource(d.cls, d.path, d.name, d.schema);
        i := i + 1;
        if err.Some? {
          RegisterAllStops(s0, defaultScheme, ds, i);
          return;
        }
      }
      assert ds[..i] == ds;
    }

    /** `url_for(resource_name, _method, **values)`: the endpoint is the
        resource name; without an explicit verb the first of GET, PUT, DELETE,
        POST the resource has is chosen. */
    method UrlFor(resourceName: string, verb: Option<Verb>, values: Bindings) returns (req: UrlRequest)
      ensures req.endpoint == "." + resourceName && req.values == values
      ensures verb.Some? ==> req.verb == verb
      ensures verb.None? ==> req.verb == PreferredMethod(MethodsOf(resourceName))
    {
      var chosen := verb;
      if chosen.None? {
        var methods := MethodsOf(resourceName);
        var i := 0;
        while i < |Preference|
          invariant 0 <= i <= |Preference|
          invariant forall j :: 0 <= j < i ==> Preference[j] !in methods
        {
          if Preference[i] in methods {
            chosen := Some(Preference[i]);
            break;
          }
          i := i + 1;
        }
      }
      req := UrlRequest("." + resourceName, chosen, values);
    }
  }

  /** Registering one more declaration: it runs on the state the earlier ones
      left, unless one of them raised. */
  lemma RegisterAllSnoc(s: ApiState, default: Option<string>, ds: seq<Declaration>, i: nat)
    requires i < |ds|
    ensures RegisterAll(s, default, ds[..i + 1]) ==
              var (s1, e1) := RegisterAll(s, default, ds[..i]);
              if e1.Some? then (s1, e1) else Register(s1, CtxOf(default, ds[i]))
  {
    assert ds[..i + 1][..i] == ds[..i];
  }

  /** A stopped registration stays stopped: later declarations are not run. */
  lemma {:induction false} RegisterAllStops(s: ApiState, default: Option<string>, ds: seq<Declaration>, i: nat)
    requires 0 < i <= |ds|
    requires RegisterAll(s, default, ds[..i]).1.Some?
    ensures RegisterAll(s, default, ds) == RegisterAll(s, default, ds[..i])
    decreases |ds| - i
  {
    if i < |ds| {
      assert ds[..i + 1][..i] == ds[..i];
      RegisterAllStops(s, default, ds, i + 1);
    } else {
      assert ds[..i] == ds;
    }
  }

  /* ------------------------------------------------------------ blueprints */

  const BindTwice := "blueprints can be bound to one rest api only"

  /** What a group is bound to: a registry or an enclosing group. */
  datatype Target = ToApi(api: RestApi) | ToGroup(group: RestApiBlueprint)

  class RestApiBlueprint {
    var resources: seq<Declaration>
    var boundTo: Option<Target>

    constructor()
      ensures resources == [] && boundTo == None
    {
      resources := [];
      boundTo := None;
    }

    /** `bind`: succeeds once; a second binding is a runtime error and keeps
        the first. */
    method Bind(target: Target) returns (err: Option<Error>)
      modifies this
      ensures resources == old(resources)
      ensures old(boundTo).None? ==> err.None? && boundTo == Some(target)
      ensures old(boundTo).Some? ==> err == Some(RuntimeError(BindTwice)) && boundTo == old(boundTo)
    {
      if boundTo.Some? {
        return Some(RuntimeError(BindTwice));
      }
      boundTo := Some(target);
      err := None;
    }

    /** `add_resource` (and `resource(...)` applied to a class): queue the
        declaration. */
    method AddResource(cls: ResourceClass, path: string, name: string, schema: SchemaRef)
      modifies this
      ensures resources == old(resources) + [Declaration(cls, path, name, schema)]
      ensures boundTo == old(boundTo)
    {
      resources := resources + [Declaration(cls, path, name, schema)];
    }

    /** `add_blueprint`: bind the child to this group, then queue the child's
        declarations after this group's own. */
    method AddBlueprint(child: RestApiBlueprint) returns (err: Option<Error>)
      modifies this, child
      ensures old(child.boundTo).Some? ==>
                && err == Some(RuntimeError(BindTwice))
                && resources == old(resources) && child.resources == old(child.resources)
                && child.boundTo == old(child.boundTo)
      ensures old(child.boundTo).None? ==>
                && err.None?
                && child.boundTo == Some(ToGroup(this))
                && resources == old(resources) + old(child.resources)
      ensures child != this ==> child.resources == old(child.resources)
      ensures child != this ==> boundTo == old(boundTo)
    {
      err := child.Bind(ToGroup(this));
      if err.None? {
        resources := resources + child.resources;
      }
    }

    /** `url_for`: asks whatever this group is bound to. An unbound group has
        no registry to ask (an attribute error); a chain of groups that does
        not reach a registry within `fuel` steps is a recursion error. The
        ghost `groups` names the groups the chain passes through. */
    method UrlFor(resourceName: string, verb: Option<Verb>, values: Bindings, fuel: nat, ghost groups: set<RestApiBlueprint>)
      returns (r: Result<UrlRequest>)
      requires ChainWithin(this, fuel, groups)
      ensures r == match Owner(this, fuel, groups)
                   case Err(e) => Err(e)
                   case Ok(api) => Ok(UrlRequest("." + resourceName,
                                                 if verb.Some? then verb else PreferredMethod(api.MethodsOf(resourceName)),
                                                 values))
      decreases fuel
    {
      match boundTo
      case None =>
        r := Err(AttributeError("url_for"));
      case Some(ToApi(api)) =>
        var req := api.UrlFor(resourceName, verb, values);
        r := Ok(req);
      case Some(ToGroup(g)) =>
        if fuel == 0 {
          r := Err(RecursionError);
        } else {
          r := g.UrlFor(resourceName, verb, values, fuel - 1, groups);
        }
    }
  }

  /** The groups a group's `url_for` passes through within `fuel` steps all
      lie in `groups`. */
  ghost predicate ChainWithin(b: RestApiBlueprint, fuel: nat, groups: set<RestApiBlueprint>)
    reads groups
    decreases fuel
  {
    && b in groups
    && match b.boundTo
       case Some(ToGroup(g)) => fuel > 0 ==> ChainWithin(g, fuel - 1, groups)
       case _ => true
  }

  /** The registry a group's `url_for` reaches by following bindings. */
  ghost function Owner(b: RestApiBlueprint, fuel: nat, groups: set<RestApiBlueprint>): Result<RestApi>
    requires ChainWithin(b, fuel, groups)
    reads groups
    decreases fuel
  {
    match b.boundTo
    case None => Err(AttributeError("url_for"))
    case Some(ToApi(api)) => Ok(api)
    case Some(ToGroup(g)) => if fuel == 0 then Err(RecursionError) else Owner(g, fuel - 1, groups)
  }
}
