/**
 * The permission classes of store/permissions.py, over the request's HTTP
 * method and user, and the method-to-permission table of the framework's
 * model permissions that FullDjangoModelPermissions rewrites.
 */
module Permissions {
  import opened Models

  datatype HttpMethod = GET | HEAD | OPTIONS | POST | PUT | PATCH | DELETE | TRACE

  /** The read-only methods (SAFE_METHODS). */
  predicate IsSafeMethod(m: HttpMethod)
  {
    m == GET || m == HEAD || m == OPTIONS
  }

  /**
   * The user of a request: the anonymous user, or a logged-in account with
   * its staff and superuser flags and the permission names it holds
   * directly or through its groups.
   */
  datatype User =
    | Anonymous
    | Account(id: UserId, isStaff: bool, isSuperuser: bool, perms: set<string>)
  {
    predicate IsAuthenticated() { Account? }

    predicate IsStaff() { Account? && isStaff }

    /** `has_perm`: a superuser holds every permission, the anonymous user none. */
    predicate HasPerm(perm: string) { Account? && (isSuperuser || perm in perms) }
  }

  /** IsAdminOrReadOnly.has_permission. */
  function IsAdminOrReadOnly(m: HttpMethod, user: User): (r: bool)
    ensures IsSafeMethod(m) ==> r
    ensures !IsSafeMethod(m) ==> (r <==> user.Account? && user.isStaff)
  {
    IsSafeMethod(m) || user.IsStaff()
  }

  const ViewHistoryPerm: string := "store.view_history"

  /** ViewCustomerHistoryPermission.has_permission. */
  function ViewCustomerHistory(user: User): (r: bool)
    ensures r <==> user.Account? && (user.isSuperuser || ViewHistoryPerm in user.perms)
  {
    user.HasPerm(ViewHistoryPerm)
  }

  /** A model permission's action, as in '%(app_label)s.<action>_%(model_name)s'. */
  datatype Action = View | Add | Change | Delete
  {
    function Name(): string
    {
      match this
      case View => "view"
      case Add => "add"
      case Change => "change"
      case Delete => "delete"
    }
  }

  /** The permission name of an action on a model, e.g. "store.view_customer". */
  function Codename(a: Action, app: string, model: string): string
  {
    app + "." + a.Name() + "_" + model
  }

  function Codenames(actions: seq<Action>, app: string, model: string): (r: seq<string>)
    ensures |r| == |actions|
    ensures forall i :: 0 <= i < |actions| ==> r[i] == Codename(actions[i], app, model)
  {
    if actions == [] then [] else [Codename(actions[0], app, model)] + Codenames(actions[1..], app, model)
  }

  /** The framework's table: reads need nothing, each write its action; TRACE has no entry. */
  function DefaultPermsMap(): (t: map<HttpMethod, seq<Action>>)
    ensures forall m :: m in t <==> m != TRACE
    ensures forall m :: m in t ==> (t[m] == [] <==> IsSafeMethod(m))
  {
    var t := map[GET := [], OPTIONS := [], HEAD := [], POST := [Add], PUT := [Change], PATCH := [Change],
                 DELETE := [Delete]];
    assert forall m :: m in t <==> m != TRACE by {
      forall m ensures m in t <==> m != TRACE {
        if m != TRACE { assert m in {GET, OPTIONS, HEAD, POST, PUT, PATCH, DELETE}; }
      }
    }
    t
  }

  /** The permissions a method needs on a model; a method the table lacks is refused. */
  function RequiredPermissions(table: map<HttpMethod, seq<Action>>, m: HttpMethod, app: string, model: string)
    : (r: Result<seq<string>>)
    ensures r.Err? <==> m !in table
    ensures r.Err? ==> r.error == MethodNotAllowed
    ensures r.Ok? ==> r.value == Codenames(table[m], app, model)
  {
    if m !in table then Err(MethodNotAllowed) else Ok(Codenames(table[m], app, model))
  }

  /**
   * DjangoModelPermissions.has_permission: the anonymous user is refused,
   * otherwise the user must hold every permission the method needs.
   */
  function HasModelPermission(table: map<HttpMethod, seq<Action>>, m: HttpMethod, user: User,
                              app: string, model: string): (r: Result<bool>)
    ensures !user.IsAuthenticated() ==> r == Ok(false)
    ensures user.IsAuthenticated() && m !in table ==> r == Err(MethodNotAllowed)
    ensures r == Ok(true) <==>
              user.IsAuthenticated() && m in table && forall a :: a in table[m] ==> user.HasPerm(Codename(a, app, model))
  {
    if !user.IsAuthenticated() then Ok(false)
    else
      match RequiredPermissions(table, m, app, model)
      case Err(e) => Err(e)
      case Ok(needed) =>
        assert forall a :: a in table[m] ==> Codename(a, app, model) in needed by {
          forall a | a in table[m] ensures Codename(a, app, model) in needed {
            var i :| 0 <= i < |table[m]| && table[m][i] == a;
            assert needed[i] == Codename(a, app, model);
          }
        }
        Ok(forall p :: p in needed ==> user.HasPerm(p))
  }

  /**
   * The table of the model permissions. The framework keeps one table on the
   * class, shared by every instance of it and of its subclasses.
   */
  class PermsMap {
    var table: map<HttpMethod, seq<Action>>

    constructor ()
      ensures table == DefaultPermsMap()
    {
      table := DefaultPermsMap();
    }

    /** `perms_map["GET"] = ['%(app_label)s.view_%(model_name)s']`, in place. */
    method RequireViewForGet()
      modifies this
      ensures table == old(table)[GET := [View]]
    {
      table := table[GET := [View]];
    }
  }

  /**
   * FullDjangoModelPermissions: constructing one rewrites the GET entry of
   * the shared table, so that reading a model needs its view permission.
   */
  class FullModelPermissions {
    const perms: PermsMap

    constructor (shared: PermsMap)
      modifies shared
      ensures perms == shared
      ensures shared.table == old(shared.table)[GET := [View]]
    {
      perms := shared;
      new;
      shared.RequireViewForGet();
    }

    /**
     * has_permission, through the shared table; once that table is the
     * rewritten one, a logged-in user may GET exactly with the view permission.
     */
    function HasPermission(m: HttpMethod, user: User, app: string, model: string): (r: Result<bool>)
      reads perms
      ensures perms.table == DefaultPermsMap()[GET := [View]] && m == GET && user.IsAuthenticated() ==>
                r == Ok(user.HasPerm(app + ".view_" + model))
      ensures !user.IsAuthenticated() ==> r == Ok(false)
    {
      FullTableRequiresView(user, app, model);
      HasModelPermission(perms.table, m, user, app, model)
    }
  }

  /**
   * With the rewritten table, a GET needs exactly the view permission, where
   * the framework's own table lets any logged-in user read; every other
   * method needs what it needed before.
   */
  lemma FullTableRequiresView(user: User, app: string, model: string)
    ensures RequiredPermissions(DefaultPermsMap()[GET := [View]], GET, app, model) == Ok([app + ".view_" + model])
    ensures user.IsAuthenticated() ==>
              && HasModelPermission(DefaultPermsMap()[GET := [View]], GET, user, app, model)
                 == Ok(user.HasPerm(app + ".view_" + model))
              && HasModelPermission(DefaultPermsMap(), GET, user, app, model) == Ok(true)
    ensures forall m :: m != GET ==>
              RequiredPermissions(DefaultPermsMap()[GET := [View]], m, app, model)
              == RequiredPermissions(DefaultPermsMap(), m, app, model)
    ensures HasModelPermission(DefaultPermsMap()[GET := [View]], TRACE, user, app, model).Err? == user.IsAuthenticated()
  {
    assert Codename(View, app, model) == app + ".view_" + model;
    assert Codenames([View], app, model) == [app + ".view_" + model];
    if user.IsAuthenticated() {
      assert [View][0] == View;
    }
  }
}
