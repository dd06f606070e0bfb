/** The login page (`project/src/pages/Login.tsx`): the role picker and the route each role
    is sent to. Credentials are collected but never checked, so they are not modelled. */
module Login {
  import opened Wrappers

  datatype Role = Role(id: string, caption: string, color: string)

  /** The roles the picker offers, in order. */
  function Roles(): (rs: seq<Role>)
    ensures |rs| == 4
    ensures forall i, j :: 0 <= i < j < |rs| ==> rs[i].id != rs[j].id
  {
    [ Role("analyst", "Crisis Analyst", "text-blue-400"),
      Role("responder", "Emergency Responder", "text-red-400"),
      Role("economic-analyst", "Economic Analyst", "text-green-400"),
      Role("trainer", "Simulation Trainer", "text-purple-400") ]
  }

  /** The route table `handleLogin` looks the chosen role up in. */
  function Routes(): map<string, string> {
    map["analyst" := "/analyst", "responder" := "/responder",
        "economic-analyst" := "/economic-analyst", "trainer" := "/trainer"]
  }

  /** The route for a role id; `None` for an id the table lacks (JavaScript's `undefined`). */
  function RouteFor(role: string): (r: Option<string>)
    ensures r.Some? <==> role in Routes()
    ensures r.Some? ==> r.value == Routes()[role]
  {
    if role in Routes() then Some(Routes()[role]) else None
  }

  /** The picker and the table agree: every offered role, and no other id, has a route,
      and it is "/" followed by the role's id. */
  lemma EveryRoleRouted()
    ensures forall i :: 0 <= i < |Roles()| ==> RouteFor(Roles()[i].id) == Some("/" + Roles()[i].id)
    ensures forall id :: id in Routes() ==> exists i :: 0 <= i < |Roles()| && Roles()[i].id == id
  {
    var rs := Roles();
    assert Routes().Keys == {rs[0].id, rs[1].id, rs[2].id, rs[3].id};
    forall i | 0 <= i < |rs|
      ensures RouteFor(rs[i].id) == Some("/" + rs[i].id)
    {
      assert i == 0 || i == 1 || i == 2 || i == 3;
      assert "/" + "analyst" == "/analyst" && "/" + "responder" == "/responder";
      assert "/" + "economic-analyst" == "/economic-analyst" && "/" + "trainer" == "/trainer";
    }
  }

  /** A role's button is highlighted exactly when it is the chosen one. */
  predicate Highlighted(chosen: string, role: Role) {
    role.id == chosen
  }

  /** With an offered role chosen, the picker highlights exactly one button: the
      chosen role's. */
  lemma OneHighlighted(chosen: string, k: nat)
    requires k < |Roles()| && Roles()[k].id == chosen
    ensures Highlighted(chosen, Roles()[k])
    ensures forall i :: 0 <= i < |Roles()| && Highlighted(chosen, Roles()[i]) ==> i == k
  {
  }

  class LoginPage {
    var userRole: string

    /** The chosen role is always one the picker offers. */
    ghost predicate Valid()
      reads this
    {
      exists i :: 0 <= i < |Roles()| && Roles()[i].id == userRole
    }

    /** The analyst role is chosen at first. */
    constructor ()
      ensures Valid() && userRole == "analyst"
    {
      userRole := "analyst";
      new;
      assert Roles()[0].id == userRole;
    }

    /** Clicking the i-th role button. */
    method SelectRole(i: nat)
      requires i < |Roles()|
      modifies this
      ensures Valid() && userRole == Roles()[i].id
    {
      userRole := Roles()[i].id;
    }

    /** `handleLogin`: the route to navigate to, which always exists for a chosen role. */
    method HandleLogin() returns (route: string)
      requires Valid()
      ensures RouteFor(userRole) == Some(route)
      ensures route == "/" + userRole
    {
      EveryRoleRouted();
      route := Routes()[userRole];
    }
  }
}
