/** The role switcher of `useUser`: a shared current role, a setter, and a
    fixed table from role names to three capability flags. */
module User {

  /** The three flags of the `permissions` object. */
  datatype Permissions = Permissions(canManageMoney: bool, canEditRules: bool, canSelectTeam: bool)

  const Treasurer: string := "treasurer"
  const Secretary: string := "secretary"
  const Coach: string := "coach"
  const Parent: string := "parent"

  /** The `switch` on the role name; anything it does not list falls
      through to `default`. */
  function PermissionsFor(role: string): (p: Permissions)
    ensures p.canManageMoney <==> role == Treasurer
    ensures p.canEditRules <==> role == Treasurer || role == Secretary
    ensures p.canSelectTeam <==> role == Treasurer || role == Coach
  {
    if role == Treasurer then Permissions(true, true, true)
    else if role == Secretary then Permissions(false, true, false)
    else if role == Coach then Permissions(false, false, true)
    else if role == Parent then Permissions(false, false, false)
    else Permissions(false, false, false)
  }

  /** A parent, like every role the table does not name, gets no flag. */
  lemma UnlistedRoleHasNoPermissions(role: string)
    requires role != Treasurer && role != Secretary && role != Coach
    ensures PermissionsFor(role) == Permissions(false, false, false)
  {
  }

  /** The module-level `currentRole` and what depends on it. */
  class RoleState {
    var currentRole: string

    /** The role the app starts with. */
    constructor ()
      ensures currentRole == Treasurer
      ensures CurrentPermissions() == Permissions(true, true, true)
    {
      currentRole := Treasurer;
    }

    /** The `permissions` computed value. */
    function CurrentPermissions(): (p: Permissions)
      reads this
      ensures p.canManageMoney <==> currentRole == Treasurer
      ensures p.canEditRules <==> currentRole == Treasurer || currentRole == Secretary
      ensures p.canSelectTeam <==> currentRole == Treasurer || currentRole == Coach
    {
      PermissionsFor(currentRole)
    }

    /** `setRole`: the new role replaces the old one, so the permissions
        afterwards depend on `role` alone. */
    method SetRole(role: string)
      modifies this
      ensures currentRole == role
      ensures CurrentPermissions() == PermissionsFor(role)
    {
      currentRole := role;
    }
  }
}
