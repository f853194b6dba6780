/** The dispatcher behind every registered rule (`RestView`): one view per
    resource, shared by all of its routes, that turns an HTTP verb and the
    identifiers bound from the URL into one call of the resource, then into an
    envelope, base links and a status.

    The request body parser, the resource's own methods and URL building are
    outside the library; a view receives them as the functions of an `Env`. */
module Views {
  import opened Base
  import opened Dicts
  import opened Strings
  import opened Templates
  import opened Responses
  import opened Capabilities

  /** Identifier name to the value bound from the URL (or parsed from the body). */
  type Bindings = map<string, Json>

  /** One call of a resource method, with its keyword arguments. */
  datatype Call = Call(action: string, kwargs: Bindings)

  /** What a resource method did: returned bare data, returned an envelope,
      or raised. */
  datatype Returned = Data(value: Json) | Envelope(response: Response) | Raised(exception: string)

  /** The collaborators of a request: the body parser (`partial` for PATCH),
      the resource's methods, and `url_for` on this resource's endpoint. */
  datatype Env = Env(parse: bool -> Result<Bindings>, perform: Call -> Returned, urlFor: Bindings -> string)

  /** A view: the resource instance, its endpoint name, its identifiers and
      how many there are (`num_ids`). */
  datatype View = View(cls: ResourceClass, name: string, idParams: seq<IdParam>, numIds: nat)

  /** The view `add_resource` registers for a class on a template,
      `RestView.as_view(name, schema, cls(), len(cls.id_params))`: it counts
      every identifier of the template. */
  function ViewOf(cls: ResourceClass, path: string, name: string): (v: View)
    ensures v.cls == cls && v.name == name
    ensures v.idParams == IdParams(path) && v.numIds == |FindAll(path)|
  {
    View(cls, name, IdParams(path), |IdParams(path)|)
  }

  /** What a handler returns: an envelope to render with these base links and
      this status, or an empty body with 204. */
  datatype Reply = Payload(response: Response, many: bool, baseLinks: Links, status: int) | NoContent

  /** The call the handler made (if it got that far) and what it returns. */
  datatype Outcome = Outcome(invoked: Option<Call>, reply: Result<Reply>)

  const CreateStatus := 201
  const OkStatus := 200
  const NoContentStatus := 204

  /** The bindings of the given identifiers, in order; the first one missing
      from `kwargs` is a key error. */
  function Bind(ps: seq<IdParam>, kwargs: Bindings): (r: Result<Bindings>)
    ensures r.Ok? <==> forall i :: 0 <= i < |ps| ==> ps[i].name in kwargs
    ensures r.Ok? ==> r.value.Keys == (set i | 0 <= i < |ps| :: ps[i].name)
    ensures r.Ok? ==> forall k :: k in r.value ==> k in kwargs && r.value[k] == kwargs[k]
    ensures r.Err? ==> exists i :: 0 <= i < |ps| && ps[i].name !in kwargs && r.error == KeyError(ps[i].name)
  {
    if ps == [] then Ok(map[])
    else if ps[0].name !in kwargs then Err(KeyError(ps[0].name))
    else
      match Bind(ps[1..], kwargs)
      case Err(e) =>
        assert forall i :: 1 <= i < |ps| ==> ps[1..][i - 1] == ps[i];
        Err(e)
      case Ok(m) =>
        assert forall i :: 1 <= i < |ps| ==> ps[1..][i - 1] == ps[i];
        assert (set i | 0 <= i < |ps| :: ps[i].name) == {ps[0].name} + (set i | 0 <= i < |ps| - 1 :: ps[1..][i].name);
        Ok(m[ps[0].name := kwargs[ps[0].name]])
  }

  /** `_extract_parent_ids`: the bindings of every identifier but the last. */
  function ParentIds(idParams: seq<IdParam>, kwargs: Bindings): Result<Bindings> {
    Bind(DropLast(idParams), kwargs)
  }

  /** A bare return value travels in a plain envelope (`Response(data=...)`). */
  function AsResponse(ret: Returned): (r: Response)
    requires !ret.Raised?
    ensures ret.Envelope? ==> r == ret.response
    ensures ret.Data? ==> r.data == ret.value && r.statusCode.None? && r.links == [] && r.variant.Plain?
  {
    match ret
    case Data(d) => Make(d, None, None, Plain)
    case Envelope(r) => r
  }

  /** What a handler makes of the resource's answer: a raised exception passes
      through; anything else is rendered with its own status or the verb's
      default. */
  function Respond(ret: Returned, many: bool, base: Links, default: int): (r: Result<Reply>)
    ensures r.Err? <==> ret.Raised?
    ensures r.Err? ==> r.error == DomainError(ret.exception)
    ensures r.Ok? ==> r.value.Payload? && r.value.response == AsResponse(ret) && r.value.many == many && r.value.baseLinks == base
    ensures r.Ok? ==> r.value.status == StatusCode(AsResponse(ret), default)
    ensures ret.Data? ==> r.Ok? && r.value.status == default
  {
    if ret.Raised? then Err(DomainError(ret.exception))
    else Ok(Payload(AsResponse(ret), many, base, StatusCode(AsResponse(ret), default)))
  }

  /** The single-link base set `{rel: url}`. */
  function OneLink(rel: string, url: string): (l: Links)
    ensures Keys(l) == [rel] && Get(l, rel) == Some(url)
  {
    [(rel, url)]
  }

  /** The two-link base set `{rel1: url1, rel2: url2}`. */
  function TwoLinks(rel1: string, url1: string, rel2: string, url2: string): (l: Links)
    requires rel1 != rel2
    ensures Keys(l) == [rel1, rel2] && Get(l, rel1) == Some(url1) && Get(l, rel2) == Some(url2)
  {
    assert Keys([(rel2, url2)]) == [rel2];
    [(rel1, url1), (rel2, url2)]
  }

  /** The body-carrying verbs (POST, PUT, PATCH): parent ids, then the body
      parsed on top of the URL bindings, then one call of `action`, rendered
      with a `collection` link to the parent's collection. */
  function WithBody(v: View, kwargs: Bindings, env: Env, partial: bool, action: string, default: int): (o: Outcome)
    ensures ParentIds(v.idParams, kwargs).Err? ==> o == Outcome(None, Err(ParentIds(v.idParams, kwargs).error))
    ensures ParentIds(v.idParams, kwargs).Ok? && env.parse(partial).Err? ==> o == Outcome(None, Err(env.parse(partial).error))
    ensures o.invoked.Some? <==>
              ParentIds(v.idParams, kwargs).Ok? && env.parse(partial).Ok? && Implementation(v.cls, action).Some?
    ensures o.invoked.None? ==> o.reply.Err?
    ensures o.invoked.Some? ==>
              && o.invoked.value == Call(Implementation(v.cls, action).value, kwargs + env.parse(partial).value)
              && o.reply == Respond(env.perform(o.invoked.value), false,
                                    OneLink("collection", env.urlFor(ParentIds(v.idParams, kwargs).value)), default)
  {
    match ParentIds(v.idParams, kwargs)
    case Err(e) => Outcome(None, Err(e))
    case Ok(parent) =>
      match env.parse(partial)
      case Err(e) => Outcome(None, Err(e))
      case Ok(body) =>
        match Implementation(v.cls, action)
        case None => Outcome(None, Err(AttributeError(action)))
        case Some(m) =>
          var call := Call(m, kwargs + body);
          Outcome(Some(call), Respond(env.perform(call), false, OneLink("collection", env.urlFor(parent)), default))
  }

  /** `post`: create, with the full schema, default status 201. */
  function HandlePost(v: View, kwargs: Bindings, env: Env): (o: Outcome)
    ensures o.invoked.Some? <==>
              ParentIds(v.idParams, kwargs).Ok? && env.parse(false).Ok? && Implementation(v.cls, "create").Some?
    ensures o.invoked.Some? ==> o.invoked.value == Call(Implementation(v.cls, "create").value, kwargs + env.parse(false).value)
    ensures o.reply.Ok? ==> o.invoked.Some? && o.reply.value.Payload? && !o.reply.value.many
    ensures o.reply.Ok? ==> o.reply.value.status == StatusCode(o.reply.value.response, 201)
  {
    WithBody(v, kwargs, env, false, "create", CreateStatus)
  }

  /** `put`: the instance's `replace` (the inherited one forwards to
      `update`), with the full schema, default status 200. */
  function HandlePut(v: View, kwargs: Bindings, env: Env): (o: Outcome)
    ensures o.invoked.Some? <==>
              ParentIds(v.idParams, kwargs).Ok? && env.parse(false).Ok? && Implementation(v.cls, "replace").Some?
    ensures o.invoked.Some? ==> o.invoked.value == Call(Implementation(v.cls, "replace").value, kwargs + env.parse(false).value)
    ensures o.reply.Ok? ==> o.invoked.Some? && o.reply.value.Payload? && !o.reply.value.many
    ensures o.reply.Ok? ==> o.reply.value.status == StatusCode(o.reply.value.response, 200)
  {
    WithBody(v, kwargs, env, false, "replace", OkStatus)
  }

  /** `patch`: `update`, with the partial schema, default status 200. */
  function HandlePatch(v: View, kwargs: Bindings, env: Env): (o: Outcome)
    ensures o.invoked.Some? <==>
              ParentIds(v.idParams, kwargs).Ok? && env.parse(true).Ok? && Implementation(v.cls, "update").Some?
    ensures o.invoked.Some? ==> o.invoked.value == Call(Implementation(v.cls, "update").value, kwargs + env.parse(true).value)
    ensures o.reply.Ok? ==> o.invoked.Some? && o.reply.value.Payload? && !o.reply.value.many
    ensures o.reply.Ok? ==> o.reply.value.status == StatusCode(o.reply.value.response, 200)
  {
    WithBody(v, kwargs, env, true, "update", OkStatus)
  }

  /** `get`: fewer bound identifiers than the resource declares means the
      collection (`list`, many, `self` = the collection); otherwise one item
      (`retrieve`, `self` = the item, `collection` = its collection). */
  function HandleGet(v: View, kwargs: Bindings, env: Env): (o: Outcome)
    ensures ParentIds(v.idParams, kwargs).Err? ==> o == Outcome(None, Err(ParentIds(v.idParams, kwargs).error))
    ensures o.invoked.Some? <==>
              ParentIds(v.idParams, kwargs).Ok? && Implementation(v.cls, if |kwargs| < v.numIds then "list" else "retrieve").Some?
    ensures o.invoked.Some? ==>
              var parent := ParentIds(v.idParams, kwargs).value;
              o.reply == Respond(env.perform(o.invoked.value), |kwargs| < v.numIds,
                                 if |kwargs| < v.numIds then OneLink("self", env.urlFor(parent))
                                 else TwoLinks("self", env.urlFor(parent + kwargs), "collection", env.urlFor(parent)),
                                 OkStatus)
    ensures o.invoked.Some? ==>
              && ParentIds(v.idParams, kwargs).Ok?
              && Implementation(v.cls, if |kwargs| < v.numIds then "list" else "retrieve").Some?
              && o.invoked.value == Call(Implementation(v.cls, if |kwargs| < v.numIds then "list" else "retrieve").value, kwargs)
    ensures o.invoked.None? ==> o.reply.Err?
    ensures o.reply.Ok? ==> o.invoked.Some? && o.reply.value.Payload? && ParentIds(v.idParams, kwargs).Ok?
    ensures o.reply.Ok? && o.reply.value.Payload? && ParentIds(v.idParams, kwargs).Ok? ==>
              var parent := ParentIds(v.idParams, kwargs).value;
              var links := o.reply.value.baseLinks;
              && o.reply.value.many == (|kwargs| < v.numIds)
              && o.reply.value.status == StatusCode(o.reply.value.response, OkStatus)
              && Keys(links) == (if |kwargs| < v.numIds then ["self"] else ["self", "collection"])
              && Get(links, "self") == Some(env.urlFor(if |kwargs| < v.numIds then parent else parent + kwargs))
              && (|kwargs| >= v.numIds ==> Get(links, "collection") == Some(env.urlFor(parent)))
  {
    match ParentIds(v.idParams, kwargs)
    case Err(e) => Outcome(None, Err(e))
    case Ok(parent) =>
      if |kwargs| < v.numIds then
        match Implementation(v.cls, "list")
        case None => Outcome(None, Err(AttributeError("list")))
        case Some(m) =>
          var call := Call(m, kwargs);
          Outcome(Some(call), Respond(env.perform(call), true, OneLink("self", env.urlFor(parent)), OkStatus))
      else
        match Implementation(v.cls, "retrieve")
        case None => Outcome(None, Err(AttributeError("retrieve")))
        case Some(m) =>
          var call := Call(m, kwargs);
          var links := TwoLinks("self", env.urlFor(parent + kwargs), "collection", env.urlFor(parent));
          Outcome(Some(call), Respond(env.perform(call), false, links, OkStatus))
  }

  /** `delete`: calls `delete` with the URL bindings and answers an empty 204
      whatever the method returned. */
  function HandleDelete(v: View, kwargs: Bindings, env: Env): (o: Outcome)
    ensures o.invoked.Some? <==> Implementation(v.cls, "delete").Some?
    ensures o.invoked.Some? ==> o.invoked.value == Call(Implementation(v.cls, "delete").value, kwargs)
    ensures o.reply.Ok? <==> o.invoked.Some? && !env.perform(o.invoked.value).Raised?
    ensures o.reply.Ok? ==> o.reply.value == NoContent
  {
    match Implementation(v.cls, "delete")
    case None => Outcome(None, Err(AttributeError("delete")))
    case Some(m) =>
      var call := Call(m, kwargs);
      match env.perform(call)
      case Raised(e) => Outcome(Some(call), Err(DomainError(e)))
      case _ => Outcome(Some(call), Ok(NoContent))
  }

  /** A rejected body stops the request before the resource is touched: the
      outcome does not depend on the resource's methods at all. */
  lemma ValidationBeforeCall(v: View, kwargs: Bindings, env1: Env, env2: Env, partial: bool, action: string, default: int)
    requires env1.parse == env2.parse && env1.urlFor == env2.urlFor
    requires env1.parse(partial).Err?
    ensures WithBody(v, kwargs, env1, partial, action, default) == WithBody(v, kwargs, env2, partial, action, default)
    ensures WithBody(v, kwargs, env1, partial, action, default).invoked.None?
  {
  }

  /** The numbers behind the GET branch: a request routed to the collection
      path binds exactly the parent identifiers, so it lists. */
  lemma GetBranchByRoute(parent: seq<Piece>, own: Piece, kwargs: Bindings)
    requires WellFormed(parent) && own.Slot? && WellFormedPiece(own) && '/' !in RenderPiece(own)
    requires kwargs.Keys == set p | p in IdParams(Render(parent)) :: p.name
    ensures |kwargs| < |IdParams(Render(parent + [Text("/"), own]))|
    ensures ParentIds(IdParams(Render(parent + [Text("/"), own])), kwargs).Ok?
  {
    CollectionOfItem(parent, own);
    ItemIds(parent, own);
    ParentsBound(IdParams(Render(parent)), kwargs);
  }

  /** On a registered view, a GET routed to the collection path of
      `parent/<own>` (bindings keyed by the parent identifiers) calls `list`
      with those bindings and renders many items with a `self` link. */
  lemma GetListsOnCollection(cls: ResourceClass, parent: seq<Piece>, own: Piece, name: string, kwargs: Bindings, env: Env)
    requires WellFormed(parent) && own.Slot? && WellFormedPiece(own) && '/' !in RenderPiece(own)
    requires kwargs.Keys == set p | p in IdParams(Render(parent)) :: p.name
    ensures var o := HandleGet(ViewOf(cls, Render(parent + [Text("/"), own]), name), kwargs, env);
            && (o.invoked.Some? <==> Implementation(cls, "list").Some?)
            && (o.invoked.Some? ==> o.invoked.value == Call(Implementation(cls, "list").value, kwargs))
            && (o.reply.Ok? ==> o.reply.value.Payload? && o.reply.value.many && Keys(o.reply.value.baseLinks) == ["self"])
  {
    GetBranchByRoute(parent, own, kwargs);
  }

  /** Flask refuses a rule that uses one variable name twice, so the
      identifiers of a registered template have distinct names. */
  ghost predicate DistinctNames(ids: seq<IdParam>) {
    forall i, j :: 0 <= i < j < |ids| ==> ids[i].name != ids[j].name
  }

  /** On a registered view, a GET routed to the item path (bindings keyed by
      every identifier of the template) calls `retrieve` with those bindings
      and renders one item with `self` and `collection` links. */
  lemma GetRetrievesOnItem(cls: ResourceClass, path: string, name: string, kwargs: Bindings, env: Env)
    requires DistinctNames(IdParams(path))
    requires kwargs.Keys == set p | p in IdParams(path) :: p.name
    ensures var o := HandleGet(ViewOf(cls, path, name), kwargs, env);
            && (o.invoked.Some? <==> Implementation(cls, "retrieve").Some?)
            && (o.invoked.Some? ==> o.invoked.value == Call(Implementation(cls, "retrieve").value, kwargs))
            && (o.reply.Ok? ==> o.reply.value.Payload? && !o.reply.value.many && Keys(o.reply.value.baseLinks) == ["self", "collection"])
  {
    var ids := IdParams(path);
    NamesCount(ids);
    ParentsBound(ids, kwargs);
    var ps := DropLast(ids);
    assert forall i :: 0 <= i < |ps| ==> ps[i].name in kwargs by {
      forall i | 0 <= i < |ps| ensures ps[i].name in kwargs {
        assert ps[i] == ids[i];
      }
    }
  }

  /** Distinct names are as many as the identifiers. */
  lemma {:induction false} NamesCount(ids: seq<IdParam>)
    requires DistinctNames(ids)
    ensures |set p | p in ids :: p.name| == |ids|
  {
    if ids != [] {
      var t := ids[1..];
      DistinctTail(ids);
      NamesCount(t);
      NamesCons(ids);
    }
  }

  lemma DistinctTail(ids: seq<IdParam>)
    requires ids != [] && DistinctNames(ids)
    ensures DistinctNames(ids[1..])
    ensures ids[0].name !in set p | p in ids[1..] :: p.name
  {
    var t := ids[1..];
    forall i, j | 0 <= i < j < |t| ensures t[i].name != t[j].name {
      assert t[i] == ids[i + 1] && t[j] == ids[j + 1];
    }
    forall p | p in t ensures p.name != ids[0].name {
      var j :| 0 <= j < |t| && t[j] == p;
      assert ids[j + 1] == p;
    }
  }

  lemma NamesCons(ids: seq<IdParam>)
    requires ids != []
    ensures (set p | p in ids :: p.name) == {ids[0].name} + set p | p in ids[1..] :: p.name
  {
    assert forall p :: p in ids <==> p == ids[0] || p in ids[1..];
  }

  /** Bindings keyed by exactly the identifiers' names bind every identifier
      and are no more numerous than they are. */
  lemma ParentsBound(ids: seq<IdParam>, kwargs: Bindings)
    requires kwargs.Keys == set p | p in ids :: p.name
    ensures |kwargs| <= |ids|
    ensures forall i :: 0 <= i < |ids| ==> ids[i].name in kwargs
  {
    NamesBound(ids);
    forall i | 0 <= i < |ids| ensures ids[i].name in kwargs {
      assert ids[i] in ids;
    }
  }

  /** A sequence's set of names is no larger than the sequence. */
  lemma {:induction false} NamesBound(ids: seq<IdParam>)
    ensures |set p | p in ids :: p.name| <= |ids|
  {
    if ids != [] {
      NamesBound(ids[1..]);
      var rest := set p | p in ids[1..] :: p.name;
      assert (set p | p in ids :: p.name) == {ids[0].name} + rest by {
        assert forall p :: p in ids <==> p == ids[0] || p in ids[1..];
      }
    }
  }
}
