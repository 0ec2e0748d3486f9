/**
 * The authentication gate. `requireAuth` asks the session store about the request and either
 * rejects it with 401 or records the user and session in the per-request context and calls
 * the next handler; `optionalAuth` records them when present and continues in every case.
 * The session store is taken as the outcome of its lookup.
 */
module Auth {
  import opened Prelude
  import opened JsValues
  import opened Http

  /** What `auth.api.getSession(...)` resolved to: null, or the user and session records. */
  datatype Session = Session(user: JsValue, record: JsValue)

  /** The outcome of the session lookup: it threw, or it returned a session or null. */
  datatype SessionLookup = Threw | Returned(session: Option<Session>)

  /** `session?.user` is truthy: the lookup returned a session carrying a user. */
  predicate HasUser(lookup: SessionLookup) {
    lookup.Returned? && lookup.session.Some? && Truthy(lookup.session.value.user)
  }

  /**
   * The verdict of `requireAuth`: no rejection when a user is present; otherwise a 401 whose
   * message tells a failed lookup from a missing user.
   */
  function RequireAuthVerdict(lookup: SessionLookup): (rejection: Option<Response>)
    ensures rejection.None? <==> HasUser(lookup)
    ensures lookup.Threw? ==> rejection == Some(JsonError(401, "Authentication failed"))
    ensures lookup.Returned? && !HasUser(lookup) ==> rejection == Some(JsonError(401, "Unauthorized"))
  {
    match lookup
    case Threw => Some(JsonError(401, "Authentication failed"))
    case Returned(s) => if s.Some? && Truthy(s.value.user) then None else Some(JsonError(401, "Unauthorized"))
  }

  /** Hono's per-request context: the variables set with `c.set`, and how often `next` was called. */
  class RequestContext {
    var vars: map<string, JsValue>
    var nextCalls: nat

    constructor ()
      ensures vars == map[] && nextCalls == 0
    {
      vars := map[];
      nextCalls := 0;
    }

    /** `c.set(key, value)`. */
    method Set(key: string, value: JsValue)
      modifies this
      ensures vars == old(vars)[key := value]
      ensures nextCalls == old(nextCalls)
    {
      vars := vars[key := value];
    }

    /** `next()`: hands the request on to the following handler. */
    method Next()
      modifies this
      ensures nextCalls == old(nextCalls) + 1
      ensures vars == old(vars)
    {
      nextCalls := nextCalls + 1;
    }
  }

  /**
   * `requireAuth(c, next)`: on a user, `user` and `session` are set and `next` is called once;
   * on either rejection the context is left exactly as it was and `next` is not called.
   */
  method RequireAuth(c: RequestContext, lookup: SessionLookup) returns (rejection: Option<Response>)
    modifies c
    ensures rejection == RequireAuthVerdict(lookup)
    ensures rejection.Some? ==> c.vars == old(c.vars) && c.nextCalls == old(c.nextCalls)
    ensures rejection.None? ==>
      && c.vars == old(c.vars)["user" := lookup.session.value.user]["session" := lookup.session.value.record]
      && c.nextCalls == old(c.nextCalls) + 1
  {
    match lookup {
      case Threw =>
        rejection := Some(JsonError(401, "Authentication failed"));
      case Returned(s) =>
        if s.None? || !Truthy(s.value.user) {
          rejection := Some(JsonError(401, "Unauthorized"));
        } else {
          c.Set("user", s.value.user);
          c.Set("session", s.value.record);
          c.Next();
          rejection := None;
        }
    }
  }

  /**
   * `optionalAuth(c, next)`: `next` is called exactly once on every path; `user` and `session`
   * are set only when the lookup returned a user, and the context is untouched otherwise.
   */
  method OptionalAuth(c: RequestContext, lookup: SessionLookup)
    modifies c
    ensures c.nextCalls == old(c.nextCalls) + 1
    ensures HasUser(lookup) ==>
      c.vars == old(c.vars)["user" := lookup.session.value.user]["session" := lookup.session.value.record]
    ensures !HasUser(lookup) ==> c.vars == old(c.vars)
  {
    if HasUser(lookup) {
      var s := lookup.session.value;
      c.Set("user", s.user);
      c.Set("session", s.record);
    }
    c.Next();
  }

  /** A fresh context after `requireAuth` holds `user` exactly when the request was let through. */
  method GuardFreshContext(lookup: SessionLookup) returns (admitted: bool, user: Option<JsValue>)
    ensures admitted <==> HasUser(lookup)
    ensures admitted ==> user == Some(lookup.session.value.user)
    ensures !admitted ==> user.None?
  {
    var c := new RequestContext();
    var rejection := RequireAuth(c, lookup);
    admitted := rejection.None?;
    user := if "user" in c.vars then Some(c.vars["user"]) else None;
  }
}
