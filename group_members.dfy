/**
 * The members dialog (pages/im/group/group_list/GroupMembersModal.tsx): role
 * and join-source texts, and which row actions the owner's row disables.
 */
module GroupMembers {
  import opened JsText
  import opened Initials

  /** The role level of a group owner, and of an admin. */
  const OWNER_LEVEL: int := 100
  const ADMIN_LEVEL: int := 20

  datatype RoleTag = RoleTag(text: string, color: string)

  /** `getRoleText`. */
  function RoleText(roleLevel: int): (t: RoleTag)
    ensures roleLevel == OWNER_LEVEL ==> t == RoleTag("群主", "red")
    ensures roleLevel == ADMIN_LEVEL ==> t == RoleTag("管理员", "blue")
    ensures roleLevel != OWNER_LEVEL && roleLevel != ADMIN_LEVEL ==> t == RoleTag("群成员", "default")
  {
    if roleLevel == OWNER_LEVEL then RoleTag("群主", "red")
    else if roleLevel == ADMIN_LEVEL then RoleTag("管理员", "blue")
    else RoleTag("群成员", "default")
  }

  /** Each role text names one role level, and every other level reads as a member. */
  lemma RoleTextNamesLevel(roleLevel: int)
    ensures RoleText(roleLevel).text == "群主" <==> roleLevel == OWNER_LEVEL
    ensures RoleText(roleLevel).text == "管理员" <==> roleLevel == ADMIN_LEVEL
    ensures RoleText(roleLevel).text == "群成员" <==> roleLevel != OWNER_LEVEL && roleLevel != ADMIN_LEVEL
  {
  }

  /** `getJoinSourceText`. */
  function JoinSourceText(joinSource: int): (text: string)
    ensures joinSource == 1 ==> text == "邀请"
    ensures joinSource == 2 ==> text == "二维码"
    ensures joinSource == 3 ==> text == "搜索"
    ensures joinSource == 4 ==> text == "分享"
    ensures text == "未知" <==> joinSource < 1 || joinSource > 4
  {
    match joinSource
    case 1 => "邀请"
    case 2 => "二维码"
    case 3 => "搜索"
    case 4 => "分享"
    case _ => "未知"
  }

  /** The row actions. */
  datatype MemberAction = SetRole | MuteMember | RemoveMember

  /** `isOwner` disables setting the role and removing; muting is never disabled. */
  predicate ActionDisabled(action: MemberAction, roleLevel: int)
  {
    action != MuteMember && roleLevel == OWNER_LEVEL
  }

  /** The owner cannot be given another role or removed, and every other member can. */
  lemma OwnerProtected(roleLevel: int)
    ensures ActionDisabled(SetRole, roleLevel) <==> roleLevel == OWNER_LEVEL
    ensures ActionDisabled(RemoveMember, roleLevel) <==> roleLevel == OWNER_LEVEL
    ensures !ActionDisabled(MuteMember, roleLevel)
    ensures ActionDisabled(SetRole, roleLevel) <==> RoleText(roleLevel).text == "群主"
  {
  }

  /** A member avatar's letter, `'U'` for a member without a nickname. */
  function MemberInitial(nickname: string): (r: string)
    ensures nickname == "" ==> r == "U"
    ensures nickname != "" ==> |r| == 1 && !IsAsciiLower(r[0])
    ensures nickname != "" ==> r == [AsciiUpper(nickname[0])]
  {
    PlainInitial(nickname, "U")
  }
}
