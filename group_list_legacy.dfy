/**
 * The older group list (pages/im/group/group_list/GroupList.tsx). It keeps
 * two independent sets of pickers, one for the create drawer and one for the
 * settings drawer, with the same handlers; its mute and dissolve actions
 * only show a notice.
 */
module LegacyGroupList {
  import opened Optional
  import opened Api
  import opened GroupRoles
  import opened GroupDrawer
  import GroupListPage

  class LegacyGroupPage {
    var createVisible: bool
    var settingsVisible: bool
    const createPicker: RolePicker
    const settingsPicker: RolePicker

    /** The two picker sets are distinct objects. */
    ghost predicate Valid()
      reads this
    {
      createPicker != settingsPicker
    }

    constructor()
      ensures Valid() && !createVisible && !settingsVisible
      ensures fresh(createPicker) && fresh(settingsPicker)
      ensures createPicker.State() == NoRoles && settingsPicker.State() == NoRoles
    {
      createVisible := false;
      settingsVisible := false;
      createPicker := new RolePicker();
      settingsPicker := new RolePicker();
    }

    /** `handleGroupSettings`: the settings pickers start empty; the create pickers are untouched. */
    method OpenSettings()
      requires Valid()
      modifies this, settingsPicker
      ensures Valid() && settingsVisible && createVisible == old(createVisible)
      ensures settingsPicker.State() == NoRoles
      ensures createPicker.State() == old(createPicker.State())
    {
      settingsVisible := true;
      settingsPicker.Reset();
    }

    /** `handleCloseGroupSettings`. */
    method CloseSettings()
      requires Valid()
      modifies this, settingsPicker
      ensures Valid() && !settingsVisible && createVisible == old(createVisible)
      ensures settingsPicker.State() == NoRoles
      ensures createPicker.State() == old(createPicker.State())
    {
      settingsVisible := false;
      settingsPicker.Reset();
    }

    /** `handleOpenCreateGroup`. */
    method OpenCreateGroup()
      requires Valid()
      modifies this, createPicker
      ensures Valid() && createVisible && settingsVisible == old(settingsVisible)
      ensures createPicker.State() == NoRoles
      ensures settingsPicker.State() == old(settingsPicker.State())
    {
      createVisible := true;
      createPicker.Reset();
    }

    /** `handleCloseCreateGroup`. */
    method CloseCreateGroup()
      requires Valid()
      modifies this, createPicker
      ensures Valid() && !createVisible && settingsVisible == old(settingsVisible)
      ensures createPicker.State() == NoRoles
      ensures settingsPicker.State() == old(settingsPicker.State())
    {
      createVisible := false;
      createPicker.Reset();
    }

    /** `handleSettingsAdminChange`: the settings pickers follow the create pickers' rule, on their own state. */
    method SettingsAdminChange(value: seq<string>)
      requires Valid()
      modifies settingsPicker
      ensures settingsPicker.State() == ChangeAdmins(old(settingsPicker.State()), value)
      ensures createPicker.State() == old(createPicker.State())
    {
      settingsPicker.AdminChange(value);
    }

    /** `handleSettingsMemberChange`. */
    method SettingsMemberChange(value: seq<string>)
      requires Valid()
      modifies settingsPicker
      ensures settingsPicker.State() == ChangeMembers(old(settingsPicker.State()), value)
      ensures createPicker.State() == old(createPicker.State())
    {
      settingsPicker.MemberChange(value);
    }

    /** `handleSettingsOwnerChange`. */
    method SettingsOwnerChange(value: string)
      requires Valid()
      modifies settingsPicker
      ensures settingsPicker.State() == ChangeOwner(old(settingsPicker.State()), value)
      ensures createPicker.State() == old(createPicker.State())
    {
      settingsPicker.OwnerChange(value);
    }

    /**
     * `handleConfirmCreateGroup`, the same as the newer page's: a form that
     * fails its rules sends nothing; only a success closes the drawer.
     */
    method ConfirmCreateGroup(f: CreateGroupForm, reply: Reply<()>)
      returns (notice: string, sent: Option<GroupListPage.CreateGroupRequest>)
      modifies this
      ensures !Validated(f) ==> sent.None? && notice == "创建群组失败，请重试" && createVisible == old(createVisible)
      ensures Validated(f) ==> sent == Some(GroupListPage.CreateRequestFor(f))
                                && notice == RequestNotice(reply, "群组创建成功", "创建群组失败")
      ensures createVisible == (old(createVisible) && !(Validated(f) && reply.Succeeded()))
      ensures settingsVisible == old(settingsVisible)
    {
      if RuleViolations(f) != [] {
        return "创建群组失败，请重试", None;
      }
      sent := Some(GroupListPage.CreateRequestFor(f));
      notice := RequestNotice(reply, "群组创建成功", "创建群组失败");
      if reply.Succeeded() {
        createVisible := false;
      }
    }

    /**
     * `handleConfirmGroupSettings`: no request is made at all; settings that
     * pass the drawer's rules are reported as saved and close the drawer.
     * `formValid` is the outcome of those rules.
     */
    method ConfirmSettings(formValid: bool) returns (notice: string)
      modifies this
      ensures formValid ==> notice == "群组设置更新成功" && !settingsVisible
      ensures !formValid ==> notice == "更新群组设置失败，请重试" && settingsVisible == old(settingsVisible)
      ensures createVisible == old(createVisible)
    {
      if !formValid {
        return "更新群组设置失败，请重试";
      }
      notice := "群组设置更新成功";
      settingsVisible := false;
    }
  }

  /** `handleGroupMute` and `handleDissolveGroup` send nothing; they only tell the user the feature is missing. */
  datatype StubAction = MuteAll | Dissolve

  function StubNotice(a: StubAction): (notice: string)
    ensures a == MuteAll ==> notice == "全体禁言功能待开发"
    ensures a == Dissolve ==> notice == "解散群组功能待开发"
  {
    match a
    case MuteAll => "全体禁言功能待开发"
    case Dissolve => "解散群组功能待开发"
  }
}
