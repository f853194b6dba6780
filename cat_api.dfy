/** The cat API of the library's test fixture, as end-to-end scenarios: four
    resource classes declared on nested templates, one of them through a
    group of groups, and what registering them yields. */
module CatApi {
  import opened Base
  import opened Strings
  import opened Templates
  import opened Decorators
  import opened Capabilities
  import opened Registry

  /** A cat method: `@jwt_required`, no query arguments, no docstring. */
  const Guarded := MethodMeta(None, Some(JwtAccessToken), None)

  /** A cat list method: `@jwt_required` over `@extra_args({'page': Int})`. */
  const PagedGuarded := MethodMeta(Some([("page", "Int")]), Some(JwtAccessToken), None)

  /** The cat list method's decorators, applied bottom-up: `extra_args`
      first, then `jwt_required`; together they leave exactly the markers of
      `PagedGuarded`. */
  method CatListDecorators() returns (m: MethodMeta)
    ensures m == PagedGuarded
  {
    var h := new Handler(None);
    h.ExtraArgs([("page", "Int")]);
    h.JwtRequired();
    m := h.Meta();
  }

  const FullMethods := map["create" := Guarded, "list" := PagedGuarded, "retrieve" := Guarded,
                           "update" := Guarded, "delete" := Guarded]

  /** `CatResource(CreateResource, RetrieveResource, UpdateResource, DeleteResource)`. */
  const Cat := ResourceClass({CreateResource, RetrieveResource, UpdateResource, DeleteResource}, FullMethods)

  /** `CatWhiskerResource(CrudResource)`. */
  const CatWhisker := ResourceClass({CrudResource}, FullMethods)

  /** `CatActionResource(CreateResource, UpdateResource)`. */
  const CatAction := ResourceClass({CreateResource, UpdateResource}, map["create" := Guarded, "update" := Guarded])

  /** `CatSyncResource(CreateResource, NonListableRetrieveResource)`. */
  const CatSync := ResourceClass({CreateResource, NonListableRetrieveResource}, map["create" := Guarded, "retrieve" := Guarded])

  /** `/cats/<int:cat_id>` */
  const CatTemplate := [Text("/cats"), Text("/"), Slot(Some("int"), "cat_id")]

  /** `/cats/<int:cat_id>/syncs/<cat_sync_id>`: the last identifier has no converter. */
  const SyncParent := [Text("/cats"), Text("/"), Slot(Some("int"), "cat_id"), Text("/syncs")]
  const SyncTemplate := [Text("/cats"), Text("/"), Slot(Some("int"), "cat_id"), Text("/syncs"), Text("/"), Slot(None, "cat_sync_id")]

  /** A class whose capabilities all apply has every block run. */
  lemma {:induction false} AllApplicable(cls: ResourceClass, routes: seq<Route>)
    requires forall r :: r in routes ==> IsA(cls, r.role)
    ensures Applicable(cls, routes) == routes
    decreases |routes|
  {
    if routes != [] {
      var init := routes[..|routes| - 1];
      assert routes == init + [routes[|routes| - 1]];
      AllApplicable(cls, init);
    }
  }

  /** The sync template's pieces are well formed: no text piece opens a
      placeholder and every name and converter avoids the delimiters. */
  lemma SyncWellFormed()
    ensures WellFormed(SyncTemplate)
  {
    assert WellFormedPiece(Text("/cats")) by { assert Avoids("/cats", {'<'}); }
    assert WellFormedPiece(Text("/")) by { assert Avoids("/", {'<'}); }
    assert WellFormedPiece(Text("/syncs")) by { assert Avoids("/syncs", {'<'}); }
    assert WellFormedPiece(Slot(Some("int"), "cat_id")) by {
      assert Avoids("int", ConverterStop) && Avoids("cat_id", NameStop);
    }
    assert WellFormed(SyncParent);
    assert WellFormedPiece(Slot(None, "cat_sync_id")) by { assert Avoids("cat_sync_id", ConverterStop); }
    ItemWellFormed(SyncParent, Slot(None, "cat_sync_id"));
  }

  /** The sync template's identifiers are typed from their converters (an
      absent one gives a string). */
  lemma SyncIdentifiers()
    ensures IdParams(Render(SyncTemplate)) == [IdParam(IntegerType, "cat_id"), IdParam(StringType, "cat_sync_id")]
  {
    SyncWellFormed();
    ParseRender(SyncTemplate);
    var t := SyncTemplate;
    assert Declared(t[5..]) == [IdParam(StringType, "cat_sync_id")];
    assert Declared(t[3..]) == [IdParam(StringType, "cat_sync_id")] by {
      assert t[3..][1..] == t[4..] && t[4..][1..] == t[5..];
    }
    assert Declared(t[2..]) == [IdParam(IntegerType, "cat_id"), IdParam(StringType, "cat_sync_id")] by {
      assert t[2..][1..] == t[3..];
    }
    assert t[1..][1..] == t[2..];
  }

  /** The cat class has every role but full CRUD itself. */
  lemma CatRoles()
    ensures Lineage(Cat) == {Resource, CreateResource, ListResource, NonListableRetrieveResource,
                             RetrieveResource, ReplaceResource, UpdateResource, DeleteResource}
  {
    BaseRoles(Cat, RetrieveResource);
    BaseRoles(Cat, UpdateResource);
    BaseRoles(Cat, CreateResource);
    BaseRoles(Cat, DeleteResource);
    RolesWithin(Cat, {Resource, CreateResource, ListResource, NonListableRetrieveResource,
                      RetrieveResource, ReplaceResource, UpdateResource, DeleteResource});
  }

  /** It defines every method its roles leave abstract. */
  lemma CatInstantiable()
    ensures Instantiable(Cat)
  {
    CatRoles();
    assert AbstractMethods(Cat) == {} by {
      forall r | r in Lineage(Cat) && Declares(r).Some?
        ensures Declares(r).value in FullMethods.Keys || (r == ReplaceResource && IsA(Cat, UpdateResource))
      {
      }
    }
  }

  /** The cat class can be instantiated and has every capability. */
  lemma CatCapabilities()
    ensures Instantiable(Cat)
    ensures forall r :: r in Routes ==> IsA(Cat, r.role)
    ensures CapabilityVerbs(Cat) == {POST, GET, PUT, PATCH, DELETE}
  {
    CatInstantiable();
    CatRoles();
  }

  /** Every cat route reads markers the class defines: the list method's,
      or the plain guarded ones. */
  lemma CatMarkers(ctx: Ctx, i: nat)
    requires ctx.cls == Cat && i < |Routes|
    ensures MarkersOf(ctx, Routes[i]) == if i == 1 then PagedGuarded else Guarded
  {
    assert Routes[i].metaFrom in FullMethods;
  }

  /** Registering the cat class on an empty registry (no default scheme):
      no error, all five verbs recorded, and one operation per block, in
      block order. */
  lemma CatRegistration(path: string)
    ensures var ctx := Ctx(None, Cat, path, "Cat", "CatSchema");
            var (s1, e) := Register(ApiState(map[], [], []), ctx);
            && e.None?
            && s1.resourceMethods == map["Cat" := {POST, GET, PUT, PATCH, DELETE}]
            && s1.operations == OperationsFor(ctx, Routes)
  {
    CatCapabilities();
    AllApplicable(Cat, Routes);
    RegisterFresh(Ctx(None, Cat, path, "Cat", "CatSchema"));
  }

  /** The six cat operations: the verbs in block order, each guarded by the
      JWT access-token scheme. */
  lemma CatOperations(path: string)
    ensures var ops := OperationsFor(Ctx(None, Cat, path, "Cat", "CatSchema"), Routes);
            && |ops| == 6
            && forall i :: 0 <= i < 6 ==> ops[i].verb == Routes[i].verb && ops[i].security == [JwtAccessToken]
  {
    var ctx := Ctx(None, Cat, path, "Cat", "CatSchema");
    var ops := OperationsFor(ctx, Routes);
    forall i | 0 <= i < 6 ensures ops[i].verb == Routes[i].verb && ops[i].security == [JwtAccessToken] {
      OperationsForAt(ctx, Routes, i);
      CatMarkers(ctx, i);
    }
  }

  /** The cat list operation documents the collection's identifiers followed
      by the `page` query argument. */
  lemma CatListParameters(path: string)
    ensures var ops := OperationsFor(Ctx(None, Cat, path, "Cat", "CatSchema"), Routes);
            ops[1].parameters == PathParameters(DropLast(IdParams(path))) + [QueryParameter("page", "Int")]
  {
    var ctx := Ctx(None, Cat, path, "Cat", "CatSchema");
    var r := Routes[1];
    OperationsForAt(ctx, Routes, 1);
    CatMarkers(ctx, 1);
    assert !r.onItem && RouteIds(ctx, r) == DropLast(IdParams(path));
    assert QueryParameters(PagedGuarded.extraArgs) == [QueryParameter("page", "Int")];
  }

  /** The cat template declares one integer identifier. */
  lemma CatIdentifiers()
    ensures IdParams(Render(CatTemplate)) == [IdParam(IntegerType, "cat_id")]
  {
    var t := CatTemplate;
    assert WellFormed(t) by {
      assert Avoids("/cats", {'<'}) && Avoids("/", {'<'});
      assert Avoids("int", ConverterStop) && Avoids("cat_id", NameStop);
    }
    ParseRender(t);
    assert Declared(t[2..]) == [IdParam(IntegerType, "cat_id")];
    assert t[1..][1..] == t[2..];
  }

  /** The whisker class inherits every role through full CRUD. */
  lemma CatWhiskerRoles()
    ensures Lineage(CatWhisker) == {Resource, CreateResource, ListResource, NonListableRetrieveResource,
                                    RetrieveResource, ReplaceResource, UpdateResource, DeleteResource, CrudResource}
  {
    var all := {Resource, CreateResource, ListResource, NonListableRetrieveResource,
                RetrieveResource, ReplaceResource, UpdateResource, DeleteResource, CrudResource};
    assert Ancestors(CrudResource) == all;
    BaseRoles(CatWhisker, CrudResource);
    RolesWithin(CatWhisker, all);
  }

  /** It defines every method full CRUD leaves abstract. */
  lemma CatWhiskerInstantiable()
    ensures Instantiable(CatWhisker)
  {
    CatWhiskerRoles();
    assert AbstractMethods(CatWhisker) == {} by {
      forall r | r in Lineage(CatWhisker) && Declares(r).Some?
        ensures Declares(r).value in FullMethods.Keys || (r == ReplaceResource && IsA(CatWhisker, UpdateResource))
      {
      }
    }
  }

  /** The whisker class can be instantiated and has every capability. */
  lemma CatWhiskerCapabilities()
    ensures Instantiable(CatWhisker)
    ensures forall r :: r in Routes ==> IsA(CatWhisker, r.role)
    ensures CapabilityVerbs(CatWhisker) == {POST, GET, PUT, PATCH, DELETE}
  {
    CatWhiskerInstantiable();
    CatWhiskerRoles();
  }

  /** Registering the whisker class on an empty registry documents the same
      six operations as the cat class, under its own name. */
  lemma CatWhiskerRegistration(path: string)
    ensures var ctx := Ctx(None, CatWhisker, path, "CatWhisker", "CatWhiskerSchema");
            var (s1, e) := Register(ApiState(map[], [], []), ctx);
            && e.None?
            && s1.resourceMethods == map["CatWhisker" := {POST, GET, PUT, PATCH, DELETE}]
            && s1.operations == OperationsFor(ctx, Routes)
  {
    CatWhiskerCapabilities();
    AllApplicable(CatWhisker, Routes);
    RegisterFresh(Ctx(None, CatWhisker, path, "CatWhisker", "CatWhiskerSchema"));
  }

  /** The action class creates, updates and (through `update`) replaces. */
  lemma CatActionRoles()
    ensures Lineage(CatAction) == {CreateResource, UpdateResource, ReplaceResource, Resource}
  {
    BaseRoles(CatAction, CreateResource);
    BaseRoles(CatAction, UpdateResource);
    RolesWithin(CatAction, {CreateResource, UpdateResource, ReplaceResource, Resource});
  }

  /** Its verbs are POST, PUT and PATCH, and `url_for` without a verb picks PUT. */
  lemma CatActionVerbs()
    ensures CapabilityVerbs(CatAction) == {POST, PUT, PATCH}
    ensures PreferredMethod(CapabilityVerbs(CatAction)) == Some(PUT)
  {
    CatActionRoles();
    assert IsA(CatAction, CreateResource) && IsA(CatAction, ReplaceResource) && IsA(CatAction, UpdateResource);
    assert !IsA(CatAction, ListResource) && !IsA(CatAction, NonListableRetrieveResource);
    assert !IsA(CatAction, DeleteResource);
    assert CapabilityVerbs(CatAction) == {POST} + {} + {PUT} + {PATCH} + {};
    PreferredForClass(CatAction);
  }

  /** It can be instantiated: its inherited `replace` is concrete. */
  lemma CatActionCapabilities()
    ensures Instantiable(CatAction)
    ensures CapabilityVerbs(CatAction) == {POST, PUT, PATCH}
    ensures PreferredMethod(CapabilityVerbs(CatAction)) == Some(PUT)
  {
    CatActionRoles();
    assert AbstractMethods(CatAction) == {} by {
      forall r | r in Lineage(CatAction) && Declares(r).Some?
        ensures Declares(r).value in CatAction.methods.Keys || (r == ReplaceResource && IsA(CatAction, UpdateResource))
      {
      }
    }
    CatActionVerbs();
  }

  /** Registering the action class on an empty registry: no error, and the
      verbs `url_for` chooses among are POST, PUT and PATCH, so its links
      use PUT and point at the item template. */
  lemma CatActionUrl(path: string)
    ensures var (s1, e) := Register(ApiState(map[], [], []), Ctx(None, CatAction, path, "CatAction", "CatActionSchema"));
            && e.None?
            && s1.resourceMethods == map["CatAction" := {POST, PUT, PATCH}]
            && PreferredMethod(s1.resourceMethods["CatAction"]) == Some(PUT)
  {
    CatActionCapabilities();
    RegisterFresh(Ctx(None, CatAction, path, "CatAction", "CatActionSchema"));
  }

  /** A class that only replaces, with no `update` of its own and none
      inherited, can be instantiated once it defines `replace`. */
  const ReplaceOnly := ResourceClass({ReplaceResource}, map["replace" := NoMeta])

  /** It has the replace role and nothing else. */
  lemma ReplaceOnlyRoles()
    ensures Lineage(ReplaceOnly) == {ReplaceResource, Resource}
  {
    BaseRoles(ReplaceOnly, ReplaceResource);
    RolesWithin(ReplaceOnly, {ReplaceResource, Resource});
  }

  lemma ReplaceOnlyCapabilities()
    ensures Instantiable(ReplaceOnly)
    ensures MetaOf(ReplaceOnly, "update").None?
    ensures !IsA(ReplaceOnly, CreateResource) && !IsA(ReplaceOnly, ListResource)
    ensures !IsA(ReplaceOnly, NonListableRetrieveResource) && IsA(ReplaceOnly, ReplaceResource)
  {
    ReplaceOnlyRoles();
    assert CreateResource !in Lineage(ReplaceOnly) && ListResource !in Lineage(ReplaceOnly);
    assert NonListableRetrieveResource !in Lineage(ReplaceOnly) && ReplaceResource in Lineage(ReplaceOnly);
    assert LibraryMethods(ReplaceOnly) == {"replace"} by {
      forall m | m in LibraryMethods(ReplaceOnly) ensures m == "replace" { }
      assert Declares(ReplaceResource).value == "replace";
    }
  }

  /** Its PUT block reads `update` for the documentation: registration stops
      with an attribute error after PUT was recorded, and no operation is
      documented for it. */
  lemma ReplaceOnlyStops(path: string)
    ensures var (s1, e) := Register(ApiState(map[], [], []), Ctx(None, ReplaceOnly, path, "Doc", "DocSchema"));
            && e == Some(AttributeError("update"))
            && s1 == ApiState(map["Doc" := {PUT}], [], [])
  {
    var ctx := Ctx(None, ReplaceOnly, path, "Doc", "DocSchema");
    var s := ApiState(map[], [], []);
    ReplaceOnlyCapabilities();
    assert Routes[..0] == [];
    ApplyRoutesSnoc(s, ctx, Routes, 0);
    ApplyRoutesSnoc(s, ctx, Routes, 1);
    ApplyRoutesSnoc(s, ctx, Routes, 2);
    assert ApplyRoutes(s, ctx, Routes[..3]) == (s, None);
    ApplyRoutesSnoc(s, ctx, Routes, 3);
    ApplyRoutesStops(s, ctx, Routes, 4);
    var verbs: set<Verb> := {PUT};
    assert {} + verbs == verbs;
    assert ApplyRoutes(s, ctx, Routes[..4]).0 == s.(resourceMethods := map[]["Doc" := verbs]);
  }

  /** The sync declaration on its own group, that group added to an
      intermediate one that is not yet bound. */
  method SyncGroups() returns (sync: RestApiBlueprint, extra: RestApiBlueprint)
    ensures fresh(sync) && fresh(extra)
    ensures sync.boundTo == Some(ToGroup(extra)) && extra.boundTo == None
    ensures extra.resources == [Declaration(CatSync, Render(SyncTemplate), "CatSync", "CatSyncSchema")]
  {
    sync := new RestApiBlueprint();
    sync.AddResource(CatSync, Render(SyncTemplate), "CatSync", "CatSyncSchema");
    extra := new RestApiBlueprint();
    var e := extra.AddBlueprint(sync);
    assert [] + sync.resources == sync.resources;
  }

  /** The fixture's nesting: the sync group is added to an intermediate group,
      which is then added to the registry. The registry ends up with the sync
      resource's two verbs. */
  method NestedRegistry() returns (api: RestApi, sync: RestApiBlueprint, extra: RestApiBlueprint)
    ensures fresh(api) && fresh(sync) && fresh(extra)
    ensures sync.boundTo == Some(ToGroup(extra)) && extra.boundTo == Some(ToApi(api))
    ensures api.MethodsOf("CatSync") == {POST, GET}
    ensures PreferredMethod(api.MethodsOf("CatSync")) == Some(GET)
  {
    sync, extra := SyncGroups();
    api := new RestApi(None, None);
    var e := api.AddBlueprint(extra);
    SyncRegisters(Render(SyncTemplate));
  }

  /** A `url_for` through the innermost group reaches the registry and picks
      GET; adding the intermediate group to the registry again is a runtime
      error. */
  method NestedGroups() returns (api: RestApi, urlViaSync: Result<UrlRequest>, again: Option<Error>)
    ensures api.MethodsOf("CatSync") == {POST, GET}
    ensures urlViaSync == Ok(UrlRequest(".CatSync", Some(GET), map[]))
    ensures again == Some(RuntimeError(BindTwice))
  {
    var sync, extra;
    api, sync, extra := NestedRegistry();
    ghost var groups := {sync, extra};
    assert ChainWithin(extra, 0, groups) && Owner(extra, 0, groups) == Ok(api);
    assert ChainWithin(sync, 1, groups) && Owner(sync, 1, groups) == Ok(api);
    urlViaSync := sync.UrlFor("CatSync", None, map[], 1, groups);
    assert "." + "CatSync" == ".CatSync";
    again := api.AddBlueprint(extra);
  }

  /** The sync class creates and retrieves single items, nothing more. */
  lemma CatSyncRoles()
    ensures Lineage(CatSync) == {CreateResource, NonListableRetrieveResource, Resource}
  {
    BaseRoles(CatSync, CreateResource);
    BaseRoles(CatSync, NonListableRetrieveResource);
    RolesWithin(CatSync, {CreateResource, NonListableRetrieveResource, Resource});
  }

  /** Its verbs are POST and GET, and `url_for` without a verb picks GET. */
  lemma CatSyncVerbs()
    ensures CapabilityVerbs(CatSync) == {POST, GET}
    ensures PreferredMethod(CapabilityVerbs(CatSync)) == Some(GET)
  {
    CatSyncRoles();
    assert IsA(CatSync, CreateResource) && IsA(CatSync, NonListableRetrieveResource);
    assert !IsA(CatSync, ListResource) && !IsA(CatSync, ReplaceResource);
    assert !IsA(CatSync, UpdateResource) && !IsA(CatSync, DeleteResource);
    assert CapabilityVerbs(CatSync) == {POST} + {GET} + {} + {} + {};
    PreferredForClass(CatSync);
  }

  /** It can be instantiated. */
  lemma CatSyncCapabilities()
    ensures Instantiable(CatSync)
    ensures CapabilityVerbs(CatSync) == {POST, GET}
    ensures PreferredMethod(CapabilityVerbs(CatSync)) == Some(GET)
  {
    CatSyncRoles();
    assert AbstractMethods(CatSync) == {} by {
      forall r | r in Lineage(CatSync) && Declares(r).Some?
        ensures Declares(r).value in CatSync.methods.Keys
      {
      }
    }
    CatSyncVerbs();
  }

  /** Registering the sync declaration alone on an empty registry. */
  lemma SyncRegisters(path: string)
    ensures var d := Declaration(CatSync, path, "CatSync", "CatSyncSchema");
            var (s1, e) := RegisterAll(ApiState(map[], [], []), None, [d]);
            && e.None?
            && s1.resourceMethods == map["CatSync" := {POST, GET}]
            && PreferredMethod(s1.resourceMethods["CatSync"]) == Some(GET)
  {
    var d := Declaration(CatSync, path, "CatSync", "CatSyncSchema");
    assert [d][..0] == [];
    CatSyncCapabilities();
    RegisterFresh(CtxOf(None, d));
    assert RegisterAll(ApiState(map[], [], []), None, [d]) == Register(ApiState(map[], [], []), CtxOf(None, d));
  }
}
