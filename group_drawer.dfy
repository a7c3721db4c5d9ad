/**
 * The create-group drawer (pages/im/group/group_list/CreateGroupDrawer.tsx):
 * its initial form values, the rules `validateFields` checks, and which
 * options of the admin and member pickers are disabled.
 */
module GroupDrawer {
  import opened Optional
  import opened GroupRoles

  /** The drawer's form values; a field the form holds no value for is `None`. */
  datatype CreateGroupForm = CreateGroupForm(
    groupName: Option<string>,
    ownerUserID: Option<string>,
    adminUserIDs: Option<seq<string>>,
    memberUserIDs: Option<seq<string>>,
    needVerification: Option<int>,
    lookMemberInfo: Option<int>,
    applyMemberFriend: Option<int>,
    introduction: Option<string>,
    notification: Option<string>,
    faceURL: Option<string>)

  /** The form's `initialValues`; the avatar field has none. */
  const InitialForm := CreateGroupForm(Some(""), Some(""), Some([]), Some([]), Some(0), Some(0), Some(0), Some(""), Some(""), None)

  /** The values the three setting selects offer. */
  const VerificationChoices: set<int> := {0, 1, 2}
  const PermissionChoices: set<int> := {0, 1}

  /** A `required` rule on a text: it fails on a missing or empty value. */
  predicate FilledText(v: Option<string>)
  {
    v.Some? && v.value != ""
  }

  /** A `required` rule on a multiple select: it fails on a missing or empty list. */
  predicate FilledList(v: Option<seq<string>>)
  {
    v.Some? && |v.value| > 0
  }

  /** A `max` rule on a text: only a present value is measured. */
  predicate WithinLength(v: Option<string>, max: nat)
  {
    v.None? || |v.value| <= max
  }

  /**
   * The messages of the rules that fail, in the drawer's field order: name
   * (required, at most 20), owner, members, the three settings, notice and
   * introduction (at most 200 each). `validateFields` succeeds exactly when
   * there are none.
   */
  function RuleViolations(f: CreateGroupForm): (errors: seq<string>)
    ensures errors == [] <==> Validated(f)
    ensures |errors| <= 9
  {
    (if !FilledText(f.groupName) then ["请输入群组名称"] else [])
    + (if f.groupName.Some? && |f.groupName.value| > 20 then ["群组名称长度不能超过20个字符"] else [])
    + (if !FilledText(f.ownerUserID) then ["请选择群主"] else [])
    + (if !FilledList(f.memberUserIDs) then ["请选择群成员"] else [])
    + (if f.needVerification.None? then ["请选择群验证方式"] else [])
    + (if f.lookMemberInfo.None? then ["请选择查看资料权限"] else [])
    + (if f.applyMemberFriend.None? then ["请选择添加好友权限"] else [])
    + (if !WithinLength(f.notification, 200) then ["群公告长度不能超过200个字符"] else [])
    + (if !WithinLength(f.introduction, 200) then ["群简介长度不能超过200个字符"] else [])
  }

  /** What a form that passes `validateFields` guarantees. */
  predicate Validated(f: CreateGroupForm)
  {
    && FilledText(f.groupName) && |f.groupName.value| <= 20
    && FilledText(f.ownerUserID)
    && FilledList(f.memberUserIDs)
    && f.needVerification.Some? && f.lookMemberInfo.Some? && f.applyMemberFriend.Some?
    && WithinLength(f.notification, 200) && WithinLength(f.introduction, 200)
  }

  /** The untouched drawer fails on the name, the owner and the members, and on nothing else. */
  lemma InitialFormViolations()
    ensures RuleViolations(InitialForm) == ["请输入群组名称", "请选择群主", "请选择群成员"]
  {
  }

  /** The setting selects can only hold one of their options. */
  predicate SettingsFromOptions(f: CreateGroupForm)
  {
    (f.needVerification.Some? ==> f.needVerification.value in VerificationChoices)
    && (f.lookMemberInfo.Some? ==> f.lookMemberInfo.value in PermissionChoices)
    && (f.applyMemberFriend.Some? ==> f.applyMemberFriend.value in PermissionChoices)
  }

  lemma InitialFormFromOptions()
    ensures SettingsFromOptions(InitialForm)
  {
  }

  /** Both list pickers are disabled until an owner is chosen. */
  predicate PickersDisabled(owner: string)
  {
    owner == ""
  }

  /** An admin option is disabled for the owner and for a chosen member. */
  predicate AdminOptionDisabled(id: string, r: Roles)
  {
    id == r.owner || id in r.members
  }

  /** A member option is disabled for the owner and for a chosen admin. */
  predicate MemberOptionDisabled(id: string, r: Roles)
  {
    id == r.owner || id in r.admins
  }

  /** The note a disabled option carries. */
  function DisabledNote(id: string, owner: string, otherRole: string): (note: string)
    ensures id == owner ==> note == "(群主)"
    ensures id != owner ==> note == otherRole
  {
    if id == owner then "(群主)" else otherRole
  }

  /**
   * A new admin list the picker can produce: none while the picker is
   * disabled, otherwise kept admins or options not disabled.
   */
  predicate AdminChoice(value: seq<string>, r: Roles)
  {
    (PickersDisabled(r.owner) ==> value == r.admins)
    && forall x :: x in value ==> x in r.admins || !AdminOptionDisabled(x, r)
  }

  /**
   * A new member list the picker can produce: none while the picker is
   * disabled, otherwise kept members or options not disabled.
   */
  predicate MemberChoice(value: seq<string>, r: Roles)
  {
    (PickersDisabled(r.owner) ==> value == r.members)
    && forall x :: x in value ==> x in r.members || !MemberOptionDisabled(x, r)
  }

  /**
   * The disabled options and the change handlers together keep the roles
   * apart: starting from a well-formed state, any choice the pickers allow
   * leads to a well-formed state, and the state the owner picker leaves is
   * well-formed too. Until an owner is chosen the two list pickers change
   * nothing.
   */
  lemma PickersKeepRolesApart(r: Roles, admins: seq<string>, members: seq<string>, owner: string)
    requires WellFormed(r)
    ensures AdminChoice(admins, r) ==> WellFormed(ChangeAdmins(r, admins))
    ensures MemberChoice(members, r) ==> WellFormed(ChangeMembers(r, members))
    ensures WellFormed(ChangeOwner(r, owner))
    ensures PickersDisabled(r.owner) && AdminChoice(admins, r) ==> ChangeAdmins(r, admins) == r
    ensures PickersDisabled(r.owner) && MemberChoice(members, r) ==> ChangeMembers(r, members) == r
  {
    if PickersDisabled(r.owner) {
      SameAdminsChangeNothing(r);
      SameMembersChangeNothing(r);
    }
  }
}
