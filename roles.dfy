/**
  The roles guard: a route may declare the roles allowed to call it (on the
  handler, or on its controller class); a caller is let through when the route
  declares none, and otherwise only when its token carries one of them.
*/
module Roles {
  import opened Schema

  datatype AppRole = ADMIN | GESTOR | OPERADOR | RESPONSAVEL

  const MissingRole := "Missing role"
  const InsufficientRole := "Insufficient role"

  /** The roles metadata in force: the handler's, when it declares any, overrides the class's. */
  function RequiredRoles(handler: Option<seq<AppRole>>, cls: Option<seq<AppRole>>): (r: Option<seq<AppRole>>)
    ensures handler.Some? ==> r == handler
    ensures handler.None? ==> r == cls
  {
    if handler.Some? then handler else cls
  }

  /** The route declares at least one role. */
  predicate Restricted(required: Option<seq<AppRole>>) {
    required.Some? && |required.value| > 0
  }

  /**
    `canActivate`: `role` is the role in the caller's token, if any. The guard
    either lets the request through or throws Forbidden; it never returns false.
  */
  function CanActivate(handler: Option<seq<AppRole>>, cls: Option<seq<AppRole>>, role: Option<AppRole>): (r: Result<bool>)
    ensures r.Ok? ==> r.value
    ensures r.Ok? <==>
      var required := RequiredRoles(handler, cls);
      !Restricted(required) || (role.Some? && role.value in required.value)
    ensures r == Err(Forbidden(MissingRole)) <==> Restricted(RequiredRoles(handler, cls)) && role.None?
    ensures r == Err(Forbidden(InsufficientRole)) <==>
      var required := RequiredRoles(handler, cls);
      Restricted(required) && role.Some? && role.value !in required.value
  {
    var required := RequiredRoles(handler, cls);
    if required.None? || |required.value| == 0 then Ok(true)
    else if role.None? then Err(Forbidden(MissingRole))
    else if role.value !in required.value then Err(Forbidden(InsufficientRole))
    else Ok(true)
  }

  /**
    A handler's own declaration decides alone, even an empty one: an empty
    list on the handler opens the route whatever its class requires.
  */
  lemma HandlerDecides(h: seq<AppRole>, c1: Option<seq<AppRole>>, c2: Option<seq<AppRole>>, role: Option<AppRole>)
    ensures CanActivate(Some(h), c1, role) == CanActivate(Some(h), c2, role)
    ensures |h| == 0 ==> CanActivate(Some(h), c1, role) == Ok(true)
  {
  }

  /**
    Declaring more roles never locks out a caller: whoever passes a restricted
    route still passes when the route also admits further roles.
  */
  lemma MoreRolesAdmitMore(required: seq<AppRole>, extra: seq<AppRole>, role: Option<AppRole>)
    requires |required| > 0
    requires CanActivate(Some(required), None, role).Ok?
    ensures CanActivate(Some(required + extra), None, role).Ok?
    ensures CanActivate(Some(extra + required), None, role).Ok?
  {
    var i :| 0 <= i < |required| && required[i] == role.value;
    assert (required + extra)[i] == role.value;
    assert (extra + required)[|extra| + i] == role.value;
  }
}
