/**
 * Role-based permissions with the Composite pattern (structural/composite.ts).
 *
 * A permission component is a single named permission or a named group of
 * components; a group grants a permission when some child grants it, and its
 * own name plays no part. The groups the source mutates with `add` are
 * objects of class `PermissionGroup`; the children they hold are the values
 * of the components at the moment they were added.
 */
module Composite {

  datatype Component =
    | Single(name: string)
    | Group(name: string, children: seq<Component>)

  /**
   * `hasPermission`: a single permission matches its own name; a group asks
   * its children, like `Array.some`. A component grants `p` exactly when `p`
   * names one of its single permissions.
   */
  function Grants(c: Component, p: string): (r: bool)
    ensures r <==> p in Leaves(c)
    decreases c, 1
  {
    match c
    case Single(n) => n == p
    case Group(_, children) => AnyGrants(children, p)
  }

  /** `children.some(child => child.hasPermission(p))`, scanning from the first child. */
  function AnyGrants(cs: seq<Component>, p: string): (r: bool)
    ensures r <==> p in AllLeaves(cs)
    decreases cs, 0
  {
    if cs == [] then false
    else Grants(cs[0], p) || AnyGrants(cs[1..], p)
  }

  /** The names of all single permissions in a component: an independent account of what it grants. */
  function Leaves(c: Component): set<string>
    decreases c, 1
  {
    match c
    case Single(n) => {n}
    case Group(_, children) => AllLeaves(children)
  }

  function AllLeaves(cs: seq<Component>): set<string>
    decreases cs, 0
  {
    if cs == [] then {} else Leaves(cs[0]) + AllLeaves(cs[1..])
  }

  /** A group grants `p` exactly when one of its children does. */
  lemma {:induction false} AnyGrantsIff(cs: seq<Component>, p: string)
    ensures AnyGrants(cs, p) <==> exists i :: 0 <= i < |cs| && Grants(cs[i], p)
    decreases |cs|
  {
    if cs != [] {
      AnyGrantsIff(cs[1..], p);
      if AnyGrants(cs[1..], p) {
        var i :| 0 <= i < |cs[1..]| && Grants(cs[1..][i], p);
        assert Grants(cs[i + 1], p);
      }
      if exists i :: 0 <= i < |cs| && Grants(cs[i], p) {
        var i :| 0 <= i < |cs| && Grants(cs[i], p);
        if i > 0 {
          assert Grants(cs[1..][i - 1], p);
        }
      }
    }
  }

  /** A single permission grants exactly its own name. */
  lemma SingleGrantsOwnName(n: string, p: string)
    ensures Grants(Single(n), p) <==> n == p
  {
  }

  /** An empty group grants nothing, and a group's own name plays no part in what it grants. */
  lemma GroupNameIrrelevant(n: string, m: string, cs: seq<Component>, p: string)
    ensures !Grants(Group(n, []), p)
    ensures Grants(Group(n, cs), p) == Grants(Group(m, cs), p)
    ensures !Grants(Group(n, [Single(m)]), n) <==> m != n
  {
    var cs1 := [Single(m)];
    assert cs1[1..] == [];
    assert AnyGrants(cs1, n) == (Grants(Single(m), n) || AnyGrants([], n));
  }

  /** Appending a child grants what the group granted before plus what the child grants. */
  lemma {:induction false} AnyGrantsAppend(cs: seq<Component>, c: Component, p: string)
    ensures AnyGrants(cs + [c], p) <==> AnyGrants(cs, p) || Grants(c, p)
    decreases |cs|
  {
    if cs == [] {
      assert [] + [c] == [c];
    } else {
      assert (cs + [c])[1..] == cs[1..] + [c];
      AnyGrantsAppend(cs[1..], c, p);
    }
  }

  class PermissionGroup {
    const name: string
    var children: seq<Component>

    /** A new group has no children. */
    constructor (name: string)
      ensures this.name == name && children == []
    {
      this.name := name;
      children := [];
    }

    /** `getName`. */
    function GetName(): (r: string)
      ensures r == name
    {
      name
    }

    /** `hasPermission`: some child grants `p`. */
    function HasPermission(p: string): (r: bool)
      reads this
      ensures r <==> exists i :: 0 <= i < |children| && Grants(children[i], p)
    {
      AnyGrantsIff(children, p);
      AnyGrants(children, p)
    }

    /** `add`: appends one child; by AnyGrantsAppend the group keeps every permission it granted. */
    method Add(c: Component)
      modifies this
      ensures children == old(children) + [c]
      ensures forall p :: HasPermission(p) <==> old(HasPermission(p)) || Grants(c, p)
    {
      children := children + [c];
      forall p
        ensures AnyGrants(children, p) <==> AnyGrants(old(children), p) || Grants(c, p)
      {
        AnyGrantsAppend(old(children), c, p);
      }
    }
  }

  /** The script at the end of the source file: Admin grants 'delete', User does not. */
  method Demo() returns (adminDeletes: bool, userDeletes: bool)
    ensures adminDeletes && !userDeletes
  {
    var read, write, delete := Single("read"), Single("write"), Single("delete");
    var admin := new PermissionGroup("Admin");
    admin.Add(read);
    admin.Add(write);
    admin.Add(delete);
    var user := new PermissionGroup("User");
    user.Add(read);
    user.Add(write);
    assert user.children == [read, write];
    assert "read" != "delete" && "write" != "delete";
    adminDeletes := admin.HasPermission("delete");
    userDeletes := user.HasPermission("delete");
  }
}
