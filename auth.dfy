/** The client authentication context (client/src/lib/auth.tsx): the per-user
    permission lookup, and the provider's state transitions over the current
    user, the stored token and the query cache.

    The query cache is seen only through the operations the provider issues on
    it, kept in order; the token store is a single slot. */
module Auth {
  import opened Js
  import QueryClient

  /** The query key of the current-user query. */
  const AUTH_ME_KEY: seq<string> := [QueryClient.AUTH_ME_PATH]
  const NO_PROVIDER: string := "useAuth must be used within an AuthProvider"

  /** A user as the client sees it; `permissions` maps a resource to the actions allowed on it. */
  datatype User = User(id: string, email: string, name: string, role: string,
                       permissions: Option<map<string, seq<string>>>)

  // ---------------------------------------------------------------------------
  // hasPermission

  /** Every (resource, action) pair a user's permission map grants. */
  ghost function Grants(user: Option<User>): set<(string, string)>
  {
    if user.None? || user.value.permissions.None? then {}
    else
      var perms := user.value.permissions.value;
      set resource, action | resource in perms && action in perms[resource] :: (resource, action)
  }

  /** `hasPermission(user, resource, action)`. */
  function HasPermission(user: Option<User>, resource: string, action: string): (allowed: bool)
    ensures allowed <==> (resource, action) in Grants(user)
  {
    if user.None? || user.value.permissions.None? then false
    else
      var perms := user.value.permissions.value;
      if resource !in perms then false
      else action in perms[resource]
  }

  /** No user, no permission map, or no entry for the resource: the answer is no. */
  lemma NoGrantWithoutEntry(user: Option<User>, resource: string, action: string)
    requires user.None? || user.value.permissions.None? || resource !in user.value.permissions.value
    ensures !HasPermission(user, resource, action)
  {
  }

  /** Adding an action to a resource's list grants it, and changes no other answer. */
  lemma GrantingAnAction(u: User, perms: map<string, seq<string>>, resource: string, action: string)
    requires u.permissions == Some(perms)
    ensures var actions := if resource in perms then perms[resource] else [];
      var u' := u.(permissions := Some(perms[resource := actions + [action]]));
      && HasPermission(Some(u'), resource, action)
      && forall r, a :: (r, a) in Grants(Some(u)) ==> HasPermission(Some(u'), r, a)
  {
  }

  // ---------------------------------------------------------------------------
  // useAuth

  /** `useAuth()`: the context value when a provider is above the caller, otherwise the error it throws. */
  function UseAuth<C>(context: Option<C>): (r: Result<C, JsError>)
    ensures r.Ok? <==> context.Some?
    ensures context.Some? ==> r.value == context.value
    ensures context.None? ==> r.error == JsError(PlainError, NO_PROVIDER)
  {
    match context
    case Some(c) => Ok(c)
    case None => Err(JsError(PlainError, NO_PROVIDER))
  }

  // ---------------------------------------------------------------------------
  // The provider

  /** An operation the provider issues on the query cache. */
  datatype CacheOp = Invalidate(key: seq<string>) | Refetch(key: seq<string>) | Clear

  /** What the login endpoint returns: the user, and a token when the server issues one. */
  datatype LoginReply = LoginReply(user: User, token: Option<string>)

  /** Every refetch the provider issues comes right after an invalidation of the same key. */
  ghost predicate RefetchFollowsInvalidate(ops: seq<CacheOp>)
  {
    forall i :: 0 <= i < |ops| && ops[i].Refetch? ==> 0 < i && ops[i - 1] == Invalidate(ops[i].key)
  }

  /** Appending an invalidation, an invalidate-then-refetch pair, or a clear keeps the ordering rule. */
  lemma AppendKeepsOrder(ops: seq<CacheOp>, tail: seq<CacheOp>)
    requires RefetchFollowsInvalidate(ops)
    requires tail == [Clear] || (exists k :: tail == [Invalidate(k)] || tail == [Invalidate(k), Refetch(k)])
    ensures RefetchFollowsInvalidate(ops + tail)
  {
  }

  /** `AuthProvider`: the `user` state, the token slot and the cache operations issued so far. */
  class AuthProvider {
    var token: Option<string>
    var user: Option<User>
    var cacheOps: seq<CacheOp>

    ghost predicate Valid()
      reads this
    {
      RefetchFollowsInvalidate(cacheOps)
    }

    /** A freshly mounted provider: `user` starts as `null`, the token slot holds whatever was stored. */
    constructor (storedToken: Option<string>)
      ensures Valid()
      ensures token == storedToken && user == None && cacheOps == []
    {
      token := storedToken;
      user := None;
      cacheOps := [];
    }

    /** The effect that follows the current-user query: data wins, no data once loading is done clears the user. */
    method SyncUser(userData: Option<User>, isLoading: bool)
      requires Valid()
      modifies this`user
      ensures Valid()
      ensures user == (if userData.Some? then userData else if !isLoading then None else old(user))
    {
      if userData.Some? {
        user := userData;
      } else if !isLoading {
        user := None;
      }
    }

    /** Login `onSuccess`: store a truthy token, adopt the reply as the user, then invalidate and refetch the current-user query. */
    method OnLoginSuccess(data: LoginReply)
      requires Valid()
      modifies this
      ensures Valid()
      ensures token == (if Truthy(data.token) then data.token else old(token))
      ensures user == Some(data.user)
      ensures cacheOps == old(cacheOps) + [Invalidate(AUTH_ME_KEY), Refetch(AUTH_ME_KEY)]
    {
      if Truthy(data.token) {
        token := data.token;
      }
      user := Some(data.user);
      AppendKeepsOrder(cacheOps, [Invalidate(AUTH_ME_KEY), Refetch(AUTH_ME_KEY)]);
      cacheOps := cacheOps + [Invalidate(AUTH_ME_KEY)];
      cacheOps := cacheOps + [Refetch(AUTH_ME_KEY)];
    }

    /** Register `onSuccess`: adopt the reply as the user and invalidate the current-user query; the token is left alone and no `refetchQueries` call is issued. */
    method OnRegisterSuccess(data: User)
      requires Valid()
      modifies this
      ensures Valid()
      ensures token == old(token)
      ensures user == Some(data)
      ensures cacheOps == old(cacheOps) + [Invalidate(AUTH_ME_KEY)]
    {
      user := Some(data);
      AppendKeepsOrder(cacheOps, [Invalidate(AUTH_ME_KEY)]);
      cacheOps := cacheOps + [Invalidate(AUTH_ME_KEY)];
    }

    /** Logout `onSuccess`: clear the token and the user, and clear the whole cache. */
    method OnLogoutSuccess()
      requires Valid()
      modifies this
      ensures Valid()
      ensures token == None && user == None
      ensures cacheOps == old(cacheOps) + [Clear]
    {
      token := None;
      user := None;
      AppendKeepsOrder(cacheOps, [Clear]);
      cacheOps := cacheOps + [Clear];
    }
  }
}
