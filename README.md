# crudest, modelled in Dafny

`crudest` is a small declarative layer over Flask for CRUD-style REST APIs.
A resource author writes a class that derives from capability classes
(`CreateResource`, `ListResource`, `NonListableRetrieveResource`,
`RetrieveResource`, `ReplaceResource`, `UpdateResource`, `DeleteResource`,
`CrudResource`) and registers it on a path template such as
`/cats/<int:cat_id>/whiskers/<int:cat_whisker_id>`. From the template and the
capabilities the registry (`RestApi`) derives:
- the URL rules;
- a per-resource set of HTTP verbs;
- one OpenAPI operation record per capability, with typed path parameters,
  query arguments, request and response schemas, status code and security
  scheme.

One dispatcher view (`RestView`) serves all routes of a resource. It decides
between `list` and `retrieve` by counting the bound identifiers, and it wraps
whatever the resource returns in a response envelope with base links. Three
envelopes exist:
- **plain:** data only;
- **headed:** an RFC 8288 `Link` header plus CORS expose headers;
- **wrapped:** a `links` member next to the data.

Registration groups (`RestApiBlueprint`) queue declarations and hand them to a
registry, possibly through other groups; each group can be bound only once.

The model is organised like the library:

| module | what it holds |
|---|---|
| `Base` | `Option`, `Result`, the error kinds, JSON values |
| `Dicts` | Python dicts as insertion-ordered key/value sequences: `d[k] = v`, `{**d, **e}` |
| `Strings` | the greedy run of a negated character class, `str.split`, `str.join` |
| `Templates` | the placeholder pattern `<(?:([^:<>]+):)?([^<>]+)>`: its `findall` (identifier chain), its `sub` (documentation path), the collection path, and templates built from pieces with the parse/render laws |
| `Responses` | the three envelopes, link merging, the `Link` header and its reading back, headed and wrapped rendering |
| `Capabilities` | the capability class hierarchy, `issubclass`, abstract methods, attribute lookup |
| `Decorators` | `extra_args` and the authentication markers as a class whose fields the decorators update |
| `Views` | the `RestView` handlers as functions over an environment of collaborators |
| `Registry` | `RestApi` and `RestApiBlueprint` as classes. Registration is specified by functions over `ApiState`, and the methods are proved to change the fields exactly as those functions say. |
| `CatApi` | the cat API of the test fixture as end-to-end scenarios |

## Model

| member | source | states |
|---|---|---|
| Dicts.GetUpdate | crudest.py:122-126 | after `{**d, **e}` a key reads `e`'s value when `e` has it, otherwise `d`'s |
| Dicts.KeysUpdate | crudest.py:122-126 | after `{**d, **e}` the keys are `d`'s in their places, followed by `e`'s new keys in `e`'s order |
| Strings.JoinSplit | crudest.py:372 | `'/'.join(s.split('/'))` gives `s` back |
| Templates.ConverterType | crudest.py:287-292 | `int` is documented as integer, `float` as number, and every other converter (including `string`, `path`, an absent one and an unknown one) as string |
| Templates.MatchSlot | crudest.py:294 | a well-formed placeholder `<name>` or `<conv:name>` is matched whole, with the converter (empty when absent) and the name as its groups |
| Templates.SkipText | crudest.py:294 | text without `<` contains no match: `findall` skips it and `sub` copies it unchanged |
| Templates.CollectionPath | crudest.py:372 | the result is everything before the last `/`, and is empty when there is no `/` |
| Templates.ParseRender | crudest.py:366-370 | a template built from pieces yields exactly one identifier per placeholder, in left-to-right order, typed by its converter |
| Templates.NoPlaceholders | crudest.py:366-370 | a string without `<` has no identifiers and is its own documentation path |
| Templates.DocRender | crudest.py:429 | the documentation path replaces each placeholder by `{name}` and leaves every other character as it is |
| Templates.CollectionPathOfItem | crudest.py:372 | the collection path of `parent/<own>` is `parent` |
| Templates.CollectionOfItem | crudest.py:372-377 | for `parent/<own>`, the collection path is `parent`, and its identifiers are all but the last identifier of the item template |
| Templates.ItemIds | crudest.py:366-370 | the identifiers of `parent/<own>` are the parent's followed by `own`, typed by its converter |
| Responses.Make | crudest.py:114-116 | the data, the status and the kind of envelope are kept; given links are kept, and absent links become an empty link set |
| Responses.ExtendLinks | crudest.py:122-126 | without base links the result is the envelope's own links. Otherwise each key reads the envelope's value when it has one and the base's value otherwise, and the keys are the base's followed by the envelope's new ones. |
| Responses.StatusCode | crudest.py:134-135 | a status that is present and non-zero wins; an absent status or 0 gives the default |
| Responses.LinkHeader | crudest.py:160-163 | the header is empty exactly when there are no links |
| Responses.LinkHeaderRoundTrip | crudest.py:160-163 | a client that reads the `Link` header back gets exactly the links, in order, provided no URL contains `>` and no relation contains `"` |
| Responses.Enumerate | crudest.py:171-173 | iterating a set lists each member exactly once |
| Responses.WriteHeaders | crudest.py:167-170 | writing the resource's headers one by one gives `headers` updated by them, and the names added are exactly their keys |
| Responses.HeaderWrites | crudest.py:158-175 | after the three writes (Link, then own headers, then expose list), each header reads the expose list first, then the resource's own header, then `Link`, then the initial value |
| Responses.GenerateHeaded | crudest.py:158-175 | `Access-Control-Expose-Headers` lists, each once, exactly the added headers minus the CORS-safelisted ones, and is set only when that list is non-empty. Every header then holds the value `HeaderValue` gives. |
| Responses.WrappedBody | crudest.py:190-197 | the body is `links` (the merged links), the data under the data key, and the extra members, with the extras winning. It is a type error exactly when the data key is `links`. |
| Responses.Generate | crudest.py:128-197 | a plain envelope renders the dumped data with the initial headers; a headed one renders the dumped data with the headed headers; a wrapped one renders the wrapped body or its error |
| Capabilities.Ancestors | crudest.py:47-101 | every role derives from itself and from `Resource` |
| Capabilities.AbstractMethods | crudest.py:47-101 | the abstract methods left are the inherited capability methods the class does not define, except `replace` when the class can update |
| Capabilities.MetaOf | crudest.py:379-380 | attribute lookup finds the class's own method, else an inherited library method, else fails |
| Capabilities.Implementation | crudest.py:83-91 | an instance method can be called exactly when attribute lookup finds it, and a method the class defines is the one that runs |
| Capabilities.LineageClosed | crudest.py:72-101 | a class that has a role has every role that role derives from |
| Capabilities.RoleImplications | crudest.py:72-101 | retrievable implies listable and individually retrievable; updatable implies replaceable; full CRUD implies every capability |
| Capabilities.InstantiableDefines | crudest.py:47-101 | an instantiable class defines every capability method it has, and its `replace` runs its own `replace` or its `update` |
| Decorators.MergeExtraArgs | crudest.py:518-526 | the query arguments after `extra_args(args)` are the earlier ones (none if absent) updated by `args`: values and key order |
| Decorators.Handler.ExtraArgs | crudest.py:518-526 | `__extra_args__` becomes the merge and the auth marker is untouched |
| Decorators.Handler.BasicAuthRequired | crudest.py:529-531 | the auth marker becomes `basic_http` |
| Decorators.Handler.JwtRequired | crudest.py:534-536 | the auth marker becomes `jwt_access_token` |
| Decorators.Handler.JwtOptional | crudest.py:539-541 | the auth marker becomes `jwt_access_token` |
| Decorators.Handler.FreshJwtRequired | crudest.py:544-546 | the auth marker becomes `jwt_access_token` |
| Decorators.Handler.JwtRefreshTokenRequired | crudest.py:549-551 | the auth marker becomes `jwt_refresh_token` |
| Views.Bind | crudest.py:203-204 | binding identifiers succeeds exactly when each is bound, yields exactly their names with the bound values, and otherwise fails with a key error naming a missing one |
| Views.AsResponse | crudest.py:219-220 | a bare return value becomes a plain envelope with no status and no links; an envelope stays as it is |
| Views.Respond | crudest.py:219-224 | an exception passes through; otherwise the envelope is rendered with the given base links and its own status or the verb's default |
| Views.WithBody | crudest.py:212-224 | POST/PUT/PATCH bind the parent ids first, then parse the body (stopping at the first failure). They call the action exactly once with the URL bindings updated by the body, and link `collection` to the parent collection. |
| Views.HandleGet | crudest.py:226-250 | once the parent ids bind, the resource is called exactly once, with the URL bindings: `list` when fewer ids are bound than the resource declares, else `retrieve`. The reply is the resource's answer rendered with many items and a `self` link to the collection (list), or with `self` to the item and `collection` to its collection (retrieve). It fails exactly when the resource raised, and its status is the envelope's or 200. |
| Views.HandlePost | crudest.py:212-224 | calls `create` with the URL bindings updated by the body parsed with the full schema, renders one item, and answers the envelope's status or 201 |
| Views.HandlePut | crudest.py:252-264 | calls the instance's `replace` (for an inherited one, `update`) with the URL bindings updated by the body parsed with the full schema, renders one item, and answers the envelope's status or 200 |
| Views.HandlePatch | crudest.py:266-278 | calls `update` with the URL bindings updated by the body parsed with the partial schema, renders one item, and answers the envelope's status or 200 |
| Views.HandleDelete | crudest.py:280-282 | calls `delete` with the URL bindings and answers an empty 204 whatever it returned, unless it raised |
| Views.ValidationBeforeCall | crudest.py:212-219 | a rejected body stops the request before the resource is called, whatever the resource would do |
| Views.GetBranchByRoute | crudest.py:226-228 | a request on the collection template binds all parent ids and fewer ids than the item template declares, so it lists |
| Views.ViewOf | crudest.py:373 | the registered view holds the class, the endpoint name and the template's identifiers, and `num_ids` counts all of them |
| Views.GetListsOnCollection | crudest.py:226-236 | on the view registered for `parent/<own>`, a GET routed to the collection (bindings keyed by the parent identifiers) calls `list` with those bindings exactly when the class has one, and renders many items with a `self` link |
| Views.GetRetrievesOnItem | crudest.py:226-250 | on a registered view whose identifiers have distinct names, a GET keyed by every identifier calls `retrieve` with those bindings exactly when the class has one, and renders one item with `self` and `collection` links |
| Views.NamesCount | crudest.py:373 | identifiers with distinct names give as many names as `len(cls.id_params)` |
| Registry.PathParameters | crudest.py:432-435 | one path parameter per identifier, in identifier order, with its name and type |
| Registry.QueryParameters | crudest.py:436-437 | one query parameter per declared extra argument, in declaration order; none without the marker |
| Registry.Security | crudest.py:450-468 | the method's own scheme, or the default when it has none; no requirement when that is absent or empty |
| Registry.Applicable | crudest.py:374-422 | the blocks that run are exactly those whose capability the class has |
| Registry.OperationsForAt | crudest.py:374-422 | the i-th documented operation is the i-th applicable block's |
| Registry.ApplyRoutesStops | crudest.py:374-422 | once a block raised, the later blocks do not run |
| Registry.ApplyRoutesFails | crudest.py:374-422 | the blocks raise exactly when a block the class has cannot read its markers, and the error is that attribute error |
| Registry.ApplyRoutesOk | crudest.py:374-422 | without such a block, the blocks append one operation and its rules per applicable block, in order, and record exactly the applicable verbs |
| Registry.RouteVerbs | crudest.py:374-422 | the verbs the blocks record are exactly the class's capability verbs |
| Registry.LibraryHas | crudest.py:51-97 | every capability method of a class is found by attribute lookup |
| Registry.RoutesDocumentable | crudest.py:398-405 | only the PUT block can fail to find its markers, because it reads them from `update` |
| Registry.RegisterFails | crudest.py:365-424 | registration fails exactly when the class is abstract (type error, nothing registered) or replaceable without an `update` (attribute error) |
| Registry.RegisterOk | crudest.py:365-424 | a registration without error appends one operation per capability in block order and adds exactly the capability verbs |
| Registry.RegisterFresh | crudest.py:365-424 | on an empty registry the resource is the only entry, with exactly its capability verbs, its operations and its rules |
| Registry.RouteTable | crudest.py:374-422 | POST and list-GET work on the collection, the rest on the item. POST, PUT and PATCH take a body (partial only for PATCH). Only DELETE has no response body and only list returns many. The statuses are 201, 204 and otherwise 200. |
| Registry.RouteOperationShape | crudest.py:374-422 | each operation's verb, tag, documentation path, leading path parameters, body, response, status, security and description, as the block table says |
| Registry.RouteOnTemplate | crudest.py:366-377 | on `parent/<own>` the collection routes document the parent template and identifiers, and the item routes the full ones, placeholders shown as `{name}` |
| Registry.FirstPresent | crudest.py:480-484 | the position found is the first preferred verb the resource has |
| Registry.PreferredForClass | crudest.py:478-485 | a registered class's preferred verb is GET when it can be read, else PUT, else DELETE, else POST, and never PATCH |
| Registry.RegisterAllStops | crudest.py:473-476 | once a declaration raised, the later ones are not registered |
| Registry.RestApi.constructor | crudest.py:298-338 | nothing registered; the built-in schemes and then the caller's are declared; the default scheme is kept |
| Registry.RestApi.AddPath | crudest.py:426-471 | one rule and one operation are appended, and nothing else changes |
| Registry.RestApi.AddRoute | crudest.py:374-381 | one block changes the state as `ApplyRoute` says |
| Registry.RestApi.CapabilityBlock | crudest.py:374-422 | the k-th block runs exactly when the class has its capability |
| Registry.RestApi.RunBlocks | crudest.py:374-422 | the six blocks run in order, stopping at the first error, as `ApplyRoutes` says |
| Registry.RestApi.AddResource | crudest.py:365-424 | the registry changes exactly as `Register` says, and the schemas are untouched |
| Registry.RestApi.Resource | crudest.py:357-363 | the schema is declared, then the class is registered as `Register` says |
| Registry.RestApi.AddBlueprint | crudest.py:473-476 | a bound group is a runtime error with nothing registered. Otherwise the group is bound to this registry and its declarations are registered in order, as `RegisterAll` says. The component schemas are untouched on both paths. |
| Registry.RestApi.UrlFor | crudest.py:478-485 | the endpoint is `.name` and the values pass through; an explicit verb is kept, otherwise the first of GET, PUT, DELETE, POST the resource has is chosen |
| Registry.RestApiBlueprint.constructor | crudest.py:490-492 | no declarations, unbound |
| Registry.RestApiBlueprint.Bind | crudest.py:494-497 | binding succeeds once; a second one is a runtime error and keeps the first |
| Registry.RestApiBlueprint.AddResource | crudest.py:506-508 | the declaration is appended |
| Registry.RestApiBlueprint.AddBlueprint | crudest.py:510-512 | the child is bound to this group and its declarations follow this group's, in order; binding a bound child is an error with nothing changed |
| Registry.RestApiBlueprint.UrlFor | crudest.py:514-515 | the request is the one the registry at the end of the binding chain makes. An unbound group has no registry to ask. |
| CatApi.CatListDecorators | tests/cat_api.py:75-77 | `@jwt_required` over `@extra_args({'page': ...})` leaves the `page` argument and the access-token scheme |
| CatApi.CatIdentifiers | tests/cat_api.py:65 | `/cats/<int:cat_id>` declares one integer identifier |
| CatApi.SyncWellFormed | tests/cat_api.py:200 | the sync template is well formed |
| CatApi.SyncIdentifiers | tests/cat_api.py:200 | the sync template declares an integer `cat_id` and a string `cat_sync_id` (no converter) |
| CatApi.CatRoles | tests/cat_api.py:65-66 | the cat class has every role but full CRUD itself |
| CatApi.CatInstantiable | tests/cat_api.py:65-114 | the cat class defines every method its roles leave abstract |
| CatApi.CatCapabilities | tests/cat_api.py:65-114 | the cat class is instantiable and has all five verbs |
| CatApi.CatMarkers | tests/cat_api.py:68-107 | each cat block reads the guarded markers, and the list block also reads `page` |
| CatApi.CatRegistration | tests/cat_api.py:65-66 | registering the cat class raises nothing, records its five verbs, and documents all six blocks |
| CatApi.CatOperations | tests/cat_api.py:65-107 | six operations, in block order, each requiring the access-token scheme |
| CatApi.CatListParameters | tests/cat_api.py:75-77 | the list operation documents the parent identifiers followed by the `page` query argument |
| CatApi.CatWhiskerRoles | tests/cat_api.py:117-118 | the whisker class has every role through full CRUD |
| CatApi.CatWhiskerInstantiable | tests/cat_api.py:117-171 | the whisker class defines every abstract method it inherits |
| CatApi.CatWhiskerCapabilities | tests/cat_api.py:117-171 | the whisker class is instantiable and has all five verbs |
| CatApi.CatWhiskerRegistration | tests/cat_api.py:117-118 | registering the whisker class raises nothing, records five verbs and documents six operations |
| CatApi.CatActionRoles | tests/cat_api.py:174-175 | the action class creates, updates and replaces |
| CatApi.CatActionVerbs | tests/cat_api.py:174-175 | its verbs are POST, PUT and PATCH, and the preferred one is PUT |
| CatApi.CatActionCapabilities | tests/cat_api.py:174-194 | it is instantiable, because its inherited `replace` is concrete |
| CatApi.CatActionUrl | tests/cat_api.py:192 | registered alone it raises nothing, and `url_for` picks PUT |
| CatApi.ReplaceOnlyRoles | crudest.py:76-80 | a replace-only class has the replace role and nothing else |
| CatApi.ReplaceOnlyCapabilities | crudest.py:76-80 | it is instantiable once it defines `replace`, yet has no `update` |
| CatApi.ReplaceOnlyStops | crudest.py:398-405 | registering it records PUT, then stops with an attribute error on `update`, with no operation documented |
| CatApi.SyncGroups | tests/cat_api.py:197-228 | the sync group is bound to the intermediate group, which holds its declaration and is unbound |
| CatApi.NestedRegistry | tests/cat_api.py:227-229 | adding the intermediate group to the registry binds it and registers the sync resource with POST and GET |
| CatApi.NestedGroups | tests/cat_api.py:219-229 | `url_for` through the innermost group reaches the registry and picks GET; adding the intermediate group again is a runtime error |
| CatApi.CatSyncRoles | tests/cat_api.py:200-201 | the sync class creates and retrieves single items, and has no other role |
| CatApi.CatSyncVerbs | tests/cat_api.py:200-201 | its verbs are POST and GET, and the preferred one is GET |
| CatApi.CatSyncCapabilities | tests/cat_api.py:200-218 | it is instantiable |
| CatApi.SyncRegisters | tests/cat_api.py:200-201 | registering its declaration raises nothing and records POST and GET |

## Left out

- Flask plumbing is not modelled:
  - `request`, `jsonify`, `make_response`, `MethodView.as_view`, `init_app` with its spec and docs routes, and the Swagger UI blueprint are HTTP I/O.
  - A URL rule is recorded as a value; `app.add_url_rule` itself is not modelled.
  - The URL builder behind `url_for` is a function of the handler's environment. `Registry.RestApi.UrlFor` returns the request it would hand over, endpoint, verb and values; the `_external` flag is not modelled.
- marshmallow, webargs and apispec are foreign libraries. Schemas are opaque names, and the dumped data and parsed body are parameters. A query argument is a (name, field) pair rather than what `fields2parameters` produces, and a request body is the schema use rather than its JSON schema. The 422 validation response is a parse error value.
- JWT token handling is not modelled, because it belongs to flask_jwt_extended. So is the function wrapping the decorators do (`use_kwargs`, the JWT wrappers). Only the markers the decorators leave are modelled.
- HTTP header names are compared exactly. Case-insensitive header matching is not modelled.
- Registry.RestApi.UrlFor: `resource_methods` is a `defaultdict(set)`, so looking up an unknown name inserts an empty set. The model reads an unknown name as no verbs and does not record the insertion; no later read of the table can tell the difference.
- Registry.RestApi.AddResource: the assignments of `cls.name` and `cls.id_params` to the user's class (crudest.py:366-370) are not modelled; the identifiers are frozen into the operations and into the view `Views.ViewOf` builds at registration. A view reads them from the class at request time (crudest.py:204, 223, 233-247). So in the library, registering one class a second time changes the parent identifiers and the link endpoint of the view registered first. The model does not capture that aliasing: each registration's view keeps its own name and identifiers.
- Registry.RestApi.AddPath: apispec's `spec.path` (crudest.py:453) keys the document by documentation path. A later registration of the same path and verb therefore replaces the earlier operation record. `RestApi.operations` is an append-only list and keeps both.
- Registry.RestApiBlueprint.UrlFor: following bindings takes a `fuel` bound. Exhausting it is a recursion error, which stands for Python's recursion limit on a cycle of groups. A ghost set names the groups the chain passes through.
- Responses.Enumerate: Python iterates a set in hash order. The model leaves the order of the expose list open: any duplicate-free listing of the right names.
- Views.GetRetrievesOnItem: requires the template's identifiers to have distinct names. Flask refuses a rule that repeats a variable name, and Flask is not part of this model.
- Registry.RestApi.Resource: `spec.components.schema` is recorded only as a (name, schema) pair.
- Three behaviours of the code, which the model keeps as written:
  - An unknown or missing converter is documented as `string` (crudest.py:368).
  - A full CRUD class documents six operations: list GET and item GET are separate blocks.
  - The PUT block reads its markers from `update` (crudest.py:403-405). A replace-only class therefore fails to register after PUT was recorded, as `CatApi.ReplaceOnlyStops` shows.
- The fixture's request handling (the in-memory database and its pagination arithmetic) is not modelled. Its resource declarations are used as scenarios.
