/**
 * The owner, admin and member pickers of the group drawers. Both group list
 * pages keep a chosen owner, a list of admins and a list of members in
 * component state: choosing an owner clears both lists, and choosing admins
 * (members) drops them, and the owner, from the members (admins). The same
 * three handlers appear for group creation on both pages and for group
 * settings on the older page.
 */
module GroupRoles {
  import opened IdLists

  /** The picker state: `selectedOwner`, `selectedAdmins`, `selectedMembers`. */
  datatype Roles = Roles(owner: string, admins: seq<string>, members: seq<string>)

  /** No user is both admin and member, and the owner is neither. */
  predicate WellFormed(r: Roles)
  {
    (forall x :: x in r.admins ==> x !in r.members) && r.owner !in r.admins && r.owner !in r.members
  }

  const NoRoles := Roles("", [], [])

  /** `(id) => !value.includes(id) && id !== selectedOwner`. */
  function Unchosen(value: seq<string>, owner: string): string -> bool
  {
    (id: string) => id !in value && id != owner
  }

  /** `handleOwnerChange`: the new owner, and both lists emptied. */
  function ChangeOwner(r: Roles, value: string): (r': Roles)
    ensures r'.owner == value && r'.admins == [] && r'.members == []
    ensures WellFormed(r')
  {
    Roles(value, [], [])
  }

  /**
   * `handleAdminChange`: the admins become the chosen list, and the members
   * keep, in their order, those that are neither chosen nor the owner.
   */
  function ChangeAdmins(r: Roles, value: seq<string>): (r': Roles)
    ensures r'.owner == r.owner && r'.admins == value
    ensures IsSubsequence(r'.members, r.members)
    ensures forall x :: x in r'.members <==> x in r.members && x !in value && x != r.owner
    ensures r.owner !in value ==> WellFormed(r')
  {
    var keep := Unchosen(value, r.owner);
    FilterIsSubsequence(r.members, keep);
    Roles(r.owner, value, Filter(r.members, keep))
  }

  /**
   * `handleMemberChange`: the members become the chosen list, and the admins
   * keep, in their order, those that are neither chosen nor the owner.
   */
  function ChangeMembers(r: Roles, value: seq<string>): (r': Roles)
    ensures r'.owner == r.owner && r'.members == value
    ensures IsSubsequence(r'.admins, r.admins)
    ensures forall x :: x in r'.admins <==> x in r.admins && x !in value && x != r.owner
    ensures r.owner !in value ==> WellFormed(r')
  {
    var keep := Unchosen(value, r.owner);
    FilterIsSubsequence(r.admins, keep);
    Roles(r.owner, Filter(r.admins, keep), value)
  }

  /** Re-choosing the admins already chosen leaves a well-formed state as it is. */
  lemma {:induction false} SameAdminsChangeNothing(r: Roles)
    requires WellFormed(r)
    ensures ChangeAdmins(r, r.admins) == r
  {
    var keep := Unchosen(r.admins, r.owner);
    FilterKeepsAll(r.members, keep);
  }

  /** Re-choosing the members already chosen leaves a well-formed state as it is. */
  lemma {:induction false} SameMembersChangeNothing(r: Roles)
    requires WellFormed(r)
    ensures ChangeMembers(r, r.members) == r
  {
    var keep := Unchosen(r.members, r.owner);
    FilterKeepsAll(r.admins, keep);
  }

  /** The pickers as the page holds them. */
  class RolePicker {
    var owner: string
    var admins: seq<string>
    var members: seq<string>

    function State(): Roles
      reads this
    {
      Roles(owner, admins, members)
    }

    constructor()
      ensures State() == NoRoles
    {
      owner := "";
      admins := [];
      members := [];
    }

    /** The reset the drawers' open and close handlers perform. */
    method Reset()
      modifies this
      ensures State() == NoRoles && WellFormed(State())
    {
      owner := "";
      admins := [];
      members := [];
    }

    method OwnerChange(value: string)
      modifies this
      ensures State() == ChangeOwner(old(State()), value)
    {
      owner := value;
      admins := [];
      members := [];
    }

    method AdminChange(value: seq<string>)
      modifies this
      ensures State() == ChangeAdmins(old(State()), value)
    {
      admins := value;
      members := Filter(members, Unchosen(value, owner));
    }

    method MemberChange(value: seq<string>)
      modifies this
      ensures State() == ChangeMembers(old(State()), value)
    {
      members := value;
      admins := Filter(admins, Unchosen(value, owner));
    }
  }
}
