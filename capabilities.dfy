/** The capability classes a resource inherits from, and what the registry
    and the dispatcher ask of a resource class: which capabilities it has
    (`issubclass`), whether it can be instantiated (no abstract method left),
    which function object an attribute lookup finds, and which method body a
    call actually runs. */
module Capabilities {
  import opened Base
  import opened Decorators

  /** The library's abstract base classes. */
  datatype Role =
    | Resource
    | CreateResource
    | ListResource
    | NonListableRetrieveResource
    | RetrieveResource
    | ReplaceResource
    | UpdateResource
    | DeleteResource
    | CrudResource

  /** A role and every class it derives from. */
  function Ancestors(r: Role): (a: set<Role>)
    ensures r in a && Resource in a
  {
    match r
    case Resource => {Resource}
    case CreateResource => {CreateResource, Resource}
    case ListResource => {ListResource, Resource}
    case NonListableRetrieveResource => {NonListableRetrieveResource, Resource}
    case RetrieveResource => {RetrieveResource, NonListableRetrieveResource, ListResource, Resource}
    case ReplaceResource => {ReplaceResource, Resource}
    case UpdateResource => {UpdateResource, ReplaceResource, Resource}
    case DeleteResource => {DeleteResource, Resource}
    case CrudResource =>
      {CrudResource, CreateResource, RetrieveResource, NonListableRetrieveResource, ListResource,
       UpdateResource, ReplaceResource, DeleteResource, Resource}
  }

  /** The abstract method a role declares, if any. */
  function Declares(r: Role): Option<string> {
    match r
    case CreateResource => Some("create")
    case ListResource => Some("list")
    case NonListableRetrieveResource => Some("retrieve")
    case ReplaceResource => Some("replace")
    case UpdateResource => Some("update")
    case DeleteResource => Some("delete")
    case _ => None
  }

  /** A resource class written by the user: the library roles it lists as
      bases and the methods it defines itself, with their markers. */
  datatype ResourceClass = ResourceClass(bases: set<Role>, methods: map<string, MethodMeta>)

  /** Every library role the class derives from. */
  function Lineage(cls: ResourceClass): set<Role> {
    set b, a | b in cls.bases && a in Ancestors(b) :: a
  }

  /** `issubclass(cls, role)`. */
  predicate IsA(cls: ResourceClass, role: Role) {
    role in Lineage(cls)
  }

  /** Methods the class inherits from its library roles. */
  function LibraryMethods(cls: ResourceClass): set<string> {
    set r | r in Lineage(cls) && Declares(r).Some? :: Declares(r).value
  }

  /** Abstract methods the class leaves unimplemented. `replace` is concrete
      in the update role (it forwards to `update`), so it is abstract only for
      a replace-only class. */
  function AbstractMethods(cls: ResourceClass): (missing: set<string>)
    ensures missing <= LibraryMethods(cls) && missing !! cls.methods.Keys
    ensures forall r :: r in Lineage(cls) && Declares(r).Some? && Declares(r).value !in cls.methods ==>
              (Declares(r).value in missing <==> r != ReplaceResource || !IsA(cls, UpdateResource))
  {
    (set r | r in Lineage(cls) && Declares(r).Some? && (r != ReplaceResource || !IsA(cls, UpdateResource))
       :: Declares(r).value) - cls.methods.Keys
  }

  /** `cls()` succeeds exactly when no abstract method is left. */
  predicate Instantiable(cls: ResourceClass) {
    AbstractMethods(cls) == {}
  }

  /** `cls.<name>`: the user's own method, else the one inherited from a
      library role, else an attribute error. */
  function MetaOf(cls: ResourceClass, name: string): (m: Option<MethodMeta>)
    ensures m.None? <==> name !in cls.methods && name !in LibraryMethods(cls)
    ensures name in cls.methods ==> m == Some(cls.methods[name])
  {
    if name in cls.methods then Some(cls.methods[name])
    else if name in LibraryMethods(cls) then Some(NoMeta)
    else None
  }

  /** The user method that runs when the instance's `<name>` is called: an
      inherited `replace` forwards to `update`. */
  function Implementation(cls: ResourceClass, name: string): (impl: Option<string>)
    ensures impl.Some? <==> MetaOf(cls, name).Some?
    ensures name in cls.methods ==> impl == Some(name)
  {
    if name in cls.methods then Some(name)
    else if name == "replace" && IsA(cls, UpdateResource) then
      LineageClosed(cls, UpdateResource);
      assert Declares(ReplaceResource) == Some("replace");
      Some("update")
    else if name in LibraryMethods(cls) then Some(name)
    else None
  }

  /** The roles are closed under derivation: a class that has a role has every
      role that role derives from. */
  lemma LineageClosed(cls: ResourceClass, r: Role)
    requires IsA(cls, r)
    ensures Ancestors(r) <= Lineage(cls)
  {
    var b :| b in cls.bases && r in Ancestors(b);
    forall a | a in Ancestors(r) ensures a in Lineage(cls) {
      assert a in Ancestors(b);
    }
  }

  /** A class has every role one of its bases derives from, ... */
  lemma BaseRoles(cls: ResourceClass, b: Role)
    requires b in cls.bases
    ensures Ancestors(b) <= Lineage(cls)
  {
  }

  /** ... and no other: a bound on what the bases derive from bounds the
      class's roles. */
  lemma RolesWithin(cls: ResourceClass, bound: set<Role>)
    requires forall b :: b in cls.bases ==> Ancestors(b) <= bound
    ensures Lineage(cls) <= bound
  {
  }

  /** Retrievable resources are listable and individually retrievable;
      updatable ones are replaceable; full CRUD has every capability. */
  lemma RoleImplications(cls: ResourceClass)
    ensures IsA(cls, RetrieveResource) ==> IsA(cls, ListResource) && IsA(cls, NonListableRetrieveResource)
    ensures IsA(cls, UpdateResource) ==> IsA(cls, ReplaceResource)
    ensures IsA(cls, CrudResource) ==>
              && IsA(cls, CreateResource) && IsA(cls, ListResource) && IsA(cls, NonListableRetrieveResource)
              && IsA(cls, ReplaceResource) && IsA(cls, UpdateResource) && IsA(cls, DeleteResource)
  {
    if IsA(cls, RetrieveResource) { LineageClosed(cls, RetrieveResource); }
    if IsA(cls, UpdateResource) { LineageClosed(cls, UpdateResource); }
    if IsA(cls, CrudResource) { LineageClosed(cls, CrudResource); }
  }

  /** An instantiable class defines every capability method it inherits
      abstractly, so its PUT runs its own `replace` or, failing that, its
      `update`. */
  lemma InstantiableDefines(cls: ResourceClass)
    requires Instantiable(cls)
    ensures IsA(cls, CreateResource) ==> "create" in cls.methods
    ensures IsA(cls, ListResource) ==> "list" in cls.methods
    ensures IsA(cls, NonListableRetrieveResource) ==> "retrieve" in cls.methods
    ensures IsA(cls, UpdateResource) ==> "update" in cls.methods
    ensures IsA(cls, DeleteResource) ==> "delete" in cls.methods
    ensures IsA(cls, ReplaceResource) ==>
              Implementation(cls, "replace") == Some(if "replace" in cls.methods then "replace" else "update")
  {
    if IsA(cls, UpdateResource) {
      assert Declares(UpdateResource).value == "update";
    }
  }
}
