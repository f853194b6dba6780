/** The decorators a resource author puts on the capability methods. They do
    not change what the method computes as far as the registry is concerned;
    they leave markers on the function object that registration later reads:
    the query arguments it accepts and the name of the security scheme that
    guards it. */
module Decorators {
  import opened Base
  import opened Dicts

  /** A query-argument field as the argument parser declares it (opaque here). */
  type Field = string

  /** The three schemes every registry declares up front. */
  const BasicHttp := "basic_http"
  const JwtAccessToken := "jwt_access_token"
  const JwtRefreshToken := "jwt_refresh_token"

  /** What registration reads off a method: its `__extra_args__` and
      `__auth_required__` markers (absent unless a decorator set them) and its
      docstring. */
  datatype MethodMeta = MethodMeta(extraArgs: Option<Dict<string, Field>>, authRequired: Option<string>, doc: Option<string>)

  /** A method inherited from the library: no markers, no docstring. */
  const NoMeta := MethodMeta(None, None, None)

  /** The query arguments after one more `extra_args(args)`: the earlier ones
      (none if the marker was absent) updated by `args`. */
  function MergeExtraArgs(prev: Option<Dict<string, Field>>, args: Dict<string, Field>): (m: Dict<string, Field>)
    ensures forall k :: Get(m, k) == if k in Keys(args) then Get(args, k) else if prev.Some? then Get(prev.value, k) else None
    ensures Keys(m) == Keys(prev.GetOr([])) + Unseen(Keys(args), Keys(prev.GetOr([])))
  {
    var start := prev.GetOr([]);
    DistinctUpdate(start, args);
    GetUpdateAll(start, args);
    KeysUpdate(start, args);
    Update(start, args)
  }

  /** A resource method as a function object carrying marker attributes. */
  class Handler {
    var extraArgs: Option<Dict<string, Field>>
    var authRequired: Option<string>
    const doc: Option<string>

    constructor(doc: Option<string>)
      ensures extraArgs == None && authRequired == None && this.doc == doc
    {
      extraArgs := None;
      authRequired := None;
      this.doc := doc;
    }

    function Meta(): MethodMeta
      reads this
    {
      MethodMeta(extraArgs, authRequired, doc)
    }

    /** `@extra_args(args)`. */
    method ExtraArgs(args: Dict<string, Field>)
      modifies this
      ensures extraArgs == Some(MergeExtraArgs(old(extraArgs), args))
      ensures authRequired == old(authRequired)
    {
      extraArgs := Some(MergeExtraArgs(extraArgs, args));
    }

    /** `@basic_auth_required`. */
    method BasicAuthRequired()
      modifies this
      ensures authRequired == Some(BasicHttp) && extraArgs == old(extraArgs)
    {
      authRequired := Some(BasicHttp);
    }

    /** `@jwt_required`; the token check itself belongs to the JWT library. */
    method JwtRequired()
      modifies this
      ensures authRequired == Some(JwtAccessToken) && extraArgs == old(extraArgs)
    {
      authRequired := Some(JwtAccessToken);
    }

    /** `@jwt_optional`: documented like `@jwt_required`. */
    method JwtOptional()
      modifies this
      ensures authRequired == Some(JwtAccessToken) && extraArgs == old(extraArgs)
    {
      authRequired := Some(JwtAccessToken);
    }

    /** `@fresh_jwt_required`: documented like `@jwt_required`. */
    method FreshJwtRequired()
      modifies this
      ensures authRequired == Some(JwtAccessToken) && extraArgs == old(extraArgs)
    {
      authRequired := Some(JwtAccessToken);
    }

    /** `@jwt_refresh_token_required`. */
    method JwtRefreshTokenRequired()
      modifies this
      ensures authRequired == Some(JwtRefreshToken) && extraArgs == old(extraArgs)
    {
      authRequired := Some(JwtRefreshToken);
    }
  }
}
