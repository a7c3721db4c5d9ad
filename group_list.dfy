/**
 * The group list page (pages/im/group/group_list/index.tsx): the mute state
 * of a group and the action offered for it, the members dialog, the create
 * drawer with its pickers, and the create and settings requests.
 */
module GroupListPage {
  import opened Optional
  import opened JsText
  import opened Api
  import opened Initials
  import opened GroupRoles
  import opened GroupDrawer

  /** The fields of `groupInfo` the page reads. */
  datatype GroupInfo = GroupInfo(
    groupID: string,
    groupName: string,
    notification: string,
    introduction: string,
    faceURL: string,
    ownerUserID: string,
    status: int,
    needVerification: int,
    lookMemberInfo: int,
    applyMemberFriend: int)

  datatype Group = Group(groupInfo: GroupInfo)

  /** A row of the members dialog. */
  datatype Member = Member(userID: string, nickname: string, roleLevel: int, joinSource: int)

  /** Group status 3 is a group-wide mute. */
  const MUTED_STATUS: int := 3

  /** `isGroupMuted`. */
  predicate IsGroupMuted(g: Group)
  {
    g.groupInfo.status == MUTED_STATUS
  }

  datatype MuteAction = Mute | CancelMute

  /** The status column's tag and the action the row offers. */
  function StatusText(g: Group): (text: string)
    ensures text == "禁言" <==> IsGroupMuted(g)
    ensures text == "正常" <==> !IsGroupMuted(g)
  {
    if IsGroupMuted(g) then "禁言" else "正常"
  }

  function OfferedAction(g: Group): (a: MuteAction)
    ensures a == CancelMute <==> IsGroupMuted(g)
    ensures a == Mute <==> !IsGroupMuted(g)
  {
    if IsGroupMuted(g) then CancelMute else Mute
  }

  /** The row offers the action that changes what the tag shows. */
  lemma ActionMatchesTag(g: Group)
    ensures OfferedAction(g) == Mute <==> StatusText(g) == "正常"
    ensures OfferedAction(g) == CancelMute <==> StatusText(g) == "禁言"
  {
  }

  /** The group avatar's letter, `'G'` for an unnamed group. */
  function GroupInitial(name: string): (r: string)
    ensures name == "" ==> r == "G"
    ensures name != "" ==> |r| == 1 && !IsAsciiLower(r[0])
    ensures name != "" && !IsAsciiLower(name[0]) ==> r == [name[0]]
    ensures name != "" ==> r == [AsciiUpper(name[0])]
  {
    PlainInitial(name, "G")
  }

  datatype GroupInfoForCreate = GroupInfoForCreate(
    groupName: string,
    groupType: int,
    needVerification: int,
    lookMemberInfo: int,
    applyMemberFriend: int,
    introduction: string,
    notification: string,
    faceURL: string)

  datatype CreateGroupRequest = CreateGroupRequest(
    memberUserIDs: seq<string>,
    adminUserIDs: seq<string>,
    ownerUserID: string,
    groupInfo: GroupInfoForCreate)

  /** Every group the console creates is an ordinary group. */
  const ORDINARY_GROUP: int := 2

  /**
   * `createGroupParams` for validated form values: missing lists become
   * `[]`, missing or empty texts `''`, and the group type is fixed.
   */
  function CreateRequestFor(f: CreateGroupForm): (q: CreateGroupRequest)
    requires Validated(f)
    ensures q.groupInfo.groupType == ORDINARY_GROUP
    ensures q.ownerUserID == f.ownerUserID.value && q.groupInfo.groupName == f.groupName.value
    ensures q.memberUserIDs == f.memberUserIDs.value && |q.memberUserIDs| > 0
    ensures q.adminUserIDs == f.adminUserIDs.GetOr([])
    ensures q.groupInfo.introduction == OrOpt(f.introduction, "") && q.groupInfo.notification == OrOpt(f.notification, "")
    ensures q.groupInfo.faceURL == OrOpt(f.faceURL, "")
    ensures q.groupInfo.needVerification == f.needVerification.value
    ensures q.groupInfo.lookMemberInfo == f.lookMemberInfo.value && q.groupInfo.applyMemberFriend == f.applyMemberFriend.value
    ensures |q.groupInfo.groupName| <= 20 && |q.groupInfo.introduction| <= 200 && |q.groupInfo.notification| <= 200
  {
    CreateGroupRequest(
      f.memberUserIDs.value,
      f.adminUserIDs.GetOr([]),
      f.ownerUserID.value,
      GroupInfoForCreate(f.groupName.value, ORDINARY_GROUP, f.needVerification.value, f.lookMemberInfo.value,
        f.applyMemberFriend.value, OrOpt(f.introduction, ""), OrOpt(f.notification, ""), OrOpt(f.faceURL, "")))
  }

  /** The settings drawer's validated values. */
  datatype SettingsForm = SettingsForm(
    groupName: string,
    notification: Option<string>,
    introduction: Option<string>,
    needVerification: int,
    lookMemberInfo: int,
    applyMemberFriend: int)

  datatype GroupInfoForSet = GroupInfoForSet(
    groupID: string,
    groupName: string,
    notification: string,
    introduction: string,
    needVerification: int,
    lookMemberInfo: int,
    applyMemberFriend: int)

  /** `setGroupInfoParams`: the id always comes from the group the drawer was opened for. */
  function SettingsRequestFor(current: Group, f: SettingsForm): (q: GroupInfoForSet)
    ensures q.groupID == current.groupInfo.groupID
    ensures q.groupName == f.groupName
    ensures q.notification == OrOpt(f.notification, "") && q.introduction == OrOpt(f.introduction, "")
    ensures q.needVerification == f.needVerification && q.lookMemberInfo == f.lookMemberInfo
    ensures q.applyMemberFriend == f.applyMemberFriend
  {
    GroupInfoForSet(current.groupInfo.groupID, f.groupName, OrOpt(f.notification, ""), OrOpt(f.introduction, ""),
      f.needVerification, f.lookMemberInfo, f.applyMemberFriend)
  }

  /** The settings form the drawer opens with: the group's own values. */
  function SettingsFormOf(g: Group): (f: SettingsForm)
    ensures f.groupName == g.groupInfo.groupName
  {
    SettingsForm(g.groupInfo.groupName, Some(g.groupInfo.notification), Some(g.groupInfo.introduction),
      g.groupInfo.needVerification, g.groupInfo.lookMemberInfo, g.groupInfo.applyMemberFriend)
  }

  /** Saving the settings unchanged asks for the values the group already has. */
  lemma UnchangedSettingsRoundTrip(g: Group)
    ensures var q := SettingsRequestFor(g, SettingsFormOf(g));
      && q.groupID == g.groupInfo.groupID && q.groupName == g.groupInfo.groupName
      && q.notification == g.groupInfo.notification && q.introduction == g.groupInfo.introduction
      && q.needVerification == g.groupInfo.needVerification && q.lookMemberInfo == g.groupInfo.lookMemberInfo
      && q.applyMemberFriend == g.groupInfo.applyMemberFriend
  {
  }

  datatype MembersPagination = MembersPagination(current: int, pageSize: int)

  const FIRST_MEMBERS_PAGE := MembersPagination(1, 10)

  /** The request `fetchGroupMembers` sends. */
  datatype MembersQuery = MembersQuery(groupID: string, pagination: MembersPagination)

  /** The page's state. The pickers of the create drawer are an object of their own. */
  class GroupPage {
    var membersVisible: bool
    var currentGroup: Option<Group>
    var members: seq<Member>
    var membersTotal: int
    var membersPagination: MembersPagination
    var createVisible: bool
    var settingsVisible: bool
    const picker: RolePicker

    constructor()
      ensures !membersVisible && currentGroup.None? && members == [] && membersTotal == 0
      ensures membersPagination == FIRST_MEMBERS_PAGE && !createVisible && !settingsVisible
      ensures fresh(picker) && picker.State() == NoRoles
    {
      membersVisible := false;
      currentGroup := None;
      members := [];
      membersTotal := 0;
      membersPagination := FIRST_MEMBERS_PAGE;
      createVisible := false;
      settingsVisible := false;
      picker := new RolePicker();
    }

    /**
     * `handleGroupMembers` with `fetchGroupMembers`: the dialog opens on the
     * group and asks for the page the dialog is on. `reply` is the service's
     * answer; any failure leaves the dialog empty.
     */
    method OpenMembers(g: Group, reply: Reply<Option<Page<Member>>>) returns (query: MembersQuery)
      modifies this
      ensures query == MembersQuery(g.groupInfo.groupID, old(membersPagination))
      ensures membersVisible && currentGroup == Some(g) && membersPagination == old(membersPagination)
      ensures members == ToListResult(reply).data && membersTotal == ToListResult(reply).total
      ensures !reply.Succeeded() ==> members == [] && membersTotal == 0
      ensures createVisible == old(createVisible) && settingsVisible == old(settingsVisible)
    {
      currentGroup := Some(g);
      membersVisible := true;
      query := MembersQuery(g.groupInfo.groupID, membersPagination);
      var result := ToListResult(reply);
      members := result.data;
      membersTotal := result.total;
    }

    /** `handleCloseMembersModal`: everything the dialog showed is dropped and it goes back to the first page. */
    method CloseMembersModal()
      modifies this
      ensures !membersVisible && currentGroup.None? && members == [] && membersTotal == 0
      ensures membersPagination == FIRST_MEMBERS_PAGE
      ensures createVisible == old(createVisible) && settingsVisible == old(settingsVisible)
    {
      membersVisible := false;
      currentGroup := None;
      members := [];
      membersTotal := 0;
      membersPagination := FIRST_MEMBERS_PAGE;
    }

    /** `handleOpenCreateGroup`. */
    method OpenCreateGroup()
      modifies this, picker
      ensures createVisible && picker.State() == NoRoles
      ensures currentGroup == old(currentGroup) && settingsVisible == old(settingsVisible)
      ensures membersVisible == old(membersVisible) && members == old(members)
        && membersTotal == old(membersTotal) && membersPagination == old(membersPagination)
    {
      createVisible := true;
      picker.Reset();
    }

    /** `handleCloseCreateGroup`. */
    method CloseCreateGroup()
      modifies this, picker
      ensures !createVisible && picker.State() == NoRoles
      ensures currentGroup == old(currentGroup) && settingsVisible == old(settingsVisible)
      ensures membersVisible == old(membersVisible) && members == old(members)
        && membersTotal == old(membersTotal) && membersPagination == old(membersPagination)
    {
      createVisible := false;
      picker.Reset();
    }

    /**
     * `handleConfirmCreateGroup`: a form that fails its rules is reported as
     * a failed creation and sends nothing; otherwise the request goes out and
     * only a success closes the drawer.
     */
    method ConfirmCreateGroup(f: CreateGroupForm, reply: Reply<()>)
      returns (notice: string, sent: Option<CreateGroupRequest>)
      modifies this
      ensures !Validated(f) ==> sent.None? && notice == "创建群组失败，请重试" && createVisible == old(createVisible)
      ensures Validated(f) ==> sent == Some(CreateRequestFor(f)) && notice == RequestNotice(reply, "群组创建成功", "创建群组失败")
      ensures createVisible == (old(createVisible) && !(Validated(f) && reply.Succeeded()))
      ensures currentGroup == old(currentGroup) && settingsVisible == old(settingsVisible)
      ensures membersVisible == old(membersVisible) && members == old(members)
        && membersTotal == old(membersTotal) && membersPagination == old(membersPagination)
    {
      if RuleViolations(f) != [] {
        return "创建群组失败，请重试", None;
      }
      sent := Some(CreateRequestFor(f));
      notice := RequestNotice(reply, "群组创建成功", "创建群组失败");
      if reply.Succeeded() {
        createVisible := false;
      }
    }

    /** `handleGroupSettings`: the drawer opens on the group, filled with its values. */
    method OpenSettings(g: Group) returns (form: SettingsForm)
      modifies this
      ensures settingsVisible && currentGroup == Some(g) && form == SettingsFormOf(g)
      ensures createVisible == old(createVisible)
      ensures membersVisible == old(membersVisible) && members == old(members)
        && membersTotal == old(membersTotal) && membersPagination == old(membersPagination)
    {
      currentGroup := Some(g);
      settingsVisible := true;
      form := SettingsFormOf(g);
    }

    method CloseSettings()
      modifies this
      ensures !settingsVisible && currentGroup == old(currentGroup) && createVisible == old(createVisible)
      ensures membersVisible == old(membersVisible) && members == old(members)
        && membersTotal == old(membersTotal) && membersPagination == old(membersPagination)
    {
      settingsVisible := false;
    }

    /**
     * `handleConfirmGroupSettings` for validated values: without a current
     * group nothing is sent; otherwise the request for that group goes out
     * and only a success closes the drawer.
     */
    method ConfirmSettings(f: SettingsForm, reply: Reply<()>) returns (notice: string, sent: Option<GroupInfoForSet>)
      modifies this
      ensures currentGroup.None? ==> sent.None? && notice == "群组信息不存在" && settingsVisible == old(settingsVisible)
      ensures currentGroup.Some? ==>
        (sent == Some(SettingsRequestFor(currentGroup.value, f)) && notice == RequestNotice(reply, "群组设置更新成功", "更新群组设置失败"))
      ensures settingsVisible == (old(settingsVisible) && !(currentGroup.Some? && reply.Succeeded()))
      ensures currentGroup == old(currentGroup) && createVisible == old(createVisible)
      ensures membersVisible == old(membersVisible) && members == old(members)
        && membersTotal == old(membersTotal) && membersPagination == old(membersPagination)
    {
      if currentGroup.None? {
        return "群组信息不存在", None;
      }
      sent := Some(SettingsRequestFor(currentGroup.value, f));
      notice := RequestNotice(reply, "群组设置更新成功", "更新群组设置失败");
      if reply.Succeeded() {
        settingsVisible := false;
      }
    }
  }
}
