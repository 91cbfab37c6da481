/**
 * `SecurityPolicy`: an action is permitted when it is on the allow-list. The
 * allow-list is the class attribute `ALLOWED_ACTIONS`, a single mutable list
 * shared by every policy object, to which policy plug-ins append.
 */
module Policies {

  /** The initial contents of `ALLOWED_ACTIONS`. */
  const DefaultActions: seq<string> := ["read", "write", "execute", "analyze"]

  /** The list object `ALLOWED_ACTIONS`. */
  class ActionList {
    var actions: seq<string>

    /** The list as the class body creates it. */
    constructor ()
      ensures actions == DefaultActions
    {
      actions := DefaultActions;
    }

    /** `ALLOWED_ACTIONS.append(action)`. */
    method Append(action: string)
      modifies this
      ensures actions == old(actions) + [action]
    {
      actions := actions + [action];
    }
  }

  class SecurityPolicy {
    /** The class attribute every instance reads. */
    const allowed: ActionList

    /** `__init__` does nothing: the new policy reads the shared list. */
    constructor (allowed: ActionList)
      ensures this.allowed == allowed
    {
      this.allowed := allowed;
    }

    /** `check_permission`: membership in the allow-list; the resource is not consulted. */
    predicate CheckPermission(action: string, resource: string)
      reads allowed
    {
      action in allowed.actions
    }
  }

  /** With the initial list, the four listed actions are permitted on any resource and
      every other action is denied. */
  lemma DefaultPermissions(p: SecurityPolicy, action: string, resource: string)
    requires p.allowed.actions == DefaultActions
    ensures p.CheckPermission(action, resource)
            <==> action == "read" || action == "write" || action == "execute" || action == "analyze"
  {
  }

  /** The unit tests' unknown action is denied. */
  lemma UnknownActionDenied(p: SecurityPolicy)
    requires p.allowed.actions == DefaultActions
    ensures !p.CheckPermission("unknown_action", "some_resource")
  {
    DefaultPermissions(p, "unknown_action", "some_resource");
    assert "unknown_action" != "read" && "unknown_action" != "write";
    assert "unknown_action" != "execute" && "unknown_action" != "analyze";
  }

  /** The verdict never depends on the resource. */
  lemma ResourceIgnored(p: SecurityPolicy, action: string, r1: string, r2: string)
    ensures p.CheckPermission(action, r1) == p.CheckPermission(action, r2)
  {
  }

  /** Two policies see the same list, so they always agree. */
  lemma SharedVerdict(p: SecurityPolicy, q: SecurityPolicy, action: string, resource: string)
    requires p.allowed == q.allowed
    ensures p.CheckPermission(action, resource) == q.CheckPermission(action, resource)
  {
  }

  /** A plug-in's `register_policies(policy)` appending to `policy.ALLOWED_ACTIONS`: the
      new action is permitted, everything permitted before still is, and nothing else
      becomes permitted, for this policy and every policy sharing its list. */
  method RegisterAction(p: SecurityPolicy, action: string)
    modifies p.allowed
    ensures forall r :: p.CheckPermission(action, r)
    ensures forall a, r :: p.CheckPermission(a, r) <==> (old(p.CheckPermission(a, r)) || a == action)
  {
    p.allowed.Append(action);
  }
}
