/**
 * The notification account list (pages/im/notification/account_list/index.tsx):
 * one row at a time is edited in place; its nickname and avatar are saved
 * with one update request.
 */
module AccountList {
  import opened Optional
  import opened JsText
  import opened Md5
  import opened Api
  import FileUpload

  datatype NotificationAccount = NotificationAccount(userID: string, nickName: string, faceURL: string, appMangerLevel: int)

  /** The type column: level 3 is a system account, 4 a robot, anything else unknown. */
  function TypeText(level: int): (text: string)
    ensures level == 3 <==> text == "系统账号"
    ensures level == 4 <==> text == "机器人"
    ensures level != 3 && level != 4 <==> text == "未知"
  {
    if level == 3 then "系统账号" else if level == 4 then "机器人" else "未知"
  }

  /** The colour of the type column, grey for an unknown level. */
  function TypeColor(level: int): (color: string)
    ensures TypeText(level) == "未知" <==> color == "#666"
    ensures TypeText(level) == "系统账号" <==> color == "blue"
    ensures TypeText(level) == "机器人" <==> color == "green"
  {
    if level == 3 then "blue" else if level == 4 then "green" else "#666"
  }

  /**
   * `fetchNotificationAccounts`: any envelope, whatever its code, is shown
   * as a success with `data.notificationAccounts || []`; only an exception
   * gives the empty failed result.
   */
  function AccountsResult(reply: Reply<Option<Page<NotificationAccount>>>): (r: ListResult<NotificationAccount>)
    ensures r.success <==> reply.Answered?
    ensures reply.Answered? && reply.data.Some? ==>
      r.data == reply.data.value.items.GetOr([]) && r.total == reply.data.value.total.GetOr(0)
    ensures !r.success || reply.data.None? ==> r.data == [] && r.total == 0
  {
    match reply
    case Threw(_) => ListResult([], false, 0)
    case Answered(_, _, data) =>
      if data.Some? then ListResult(data.value.items.GetOr([]), true, data.value.total.GetOr(0))
      else ListResult([], true, 0)
  }

  /** Unlike the other lists, an error code does not fail this one: it agrees with the common handler only on success codes and exceptions. */
  lemma AccountsResultIgnoresErrorCode(reply: Reply<Option<Page<NotificationAccount>>>)
    ensures reply.Succeeded() && reply.data.Some? ==> AccountsResult(reply) == ToListResult(reply)
    ensures reply.Threw? ==> AccountsResult(reply) == ToListResult(reply)
    ensures reply.Answered? && reply.errCode != 0 ==> AccountsResult(reply).success && !ToListResult(reply).success
  {
  }

  /** `updateNotificationAccount`'s body: the face URL only when an avatar is set. */
  datatype AccountUpdate = AccountUpdate(userID: string, nickName: string, faceURL: Option<string>)

  function AccountUpdateFor(userID: string, nickName: string, avatar: string): (q: AccountUpdate)
    ensures q.userID == userID && q.nickName == Trim(nickName)
    ensures q.faceURL.Some? <==> avatar != ""
    ensures q.faceURL.Some? ==> q.faceURL.value == avatar
  {
    AccountUpdate(userID, Trim(nickName), if avatar != "" then Some(avatar) else None)
  }

  /** 5 MiB; a file of exactly that size is accepted. */
  const MAX_AVATAR_SIZE: nat := 5 * 1024 * 1024

  /** The checks `handleAvatarUpload` makes before uploading: an image, and no larger than 5 MiB. */
  function AvatarRejection(mimeType: string, size: nat): (notice: Option<string>)
    ensures notice.None? <==> StartsWith(mimeType, "image/") && size <= MAX_AVATAR_SIZE
    ensures !StartsWith(mimeType, "image/") ==> notice == Some("只能上传图片文件")
    ensures StartsWith(mimeType, "image/") && size > MAX_AVATAR_SIZE ==> notice == Some("图片大小不能超过5MB")
  {
    if !StartsWith(mimeType, "image/") then Some("只能上传图片文件")
    else if size > MAX_AVATAR_SIZE then Some("图片大小不能超过5MB")
    else None
  }

  /** The object name an account's avatar is stored under. */
  function AvatarObjectName(userID: string, fileName: string): (name: string)
    ensures StartsWith(name, "notification/")
    ensures name[|"notification/"|..] == userID + "_" + fileName
  {
    "notification/" + userID + "_" + fileName
  }

  /**
   * The editing state: the row being edited (`""` for none), the nickname
   * typed into it, and the avatar uploaded for it.
   */
  class AccountEditor {
    var editingKey: string
    var editingNickName: string
    var editingAvatar: string

    predicate Idle()
      reads this
    {
      editingKey == "" && editingNickName == "" && editingAvatar == ""
    }

    constructor()
      ensures Idle()
    {
      editingKey := "";
      editingNickName := "";
      editingAvatar := "";
    }

    /** Whether a row shows its inputs. */
    predicate Editing(record: NotificationAccount)
      reads this
    {
      editingKey == record.userID
    }

    /** The avatar an edited row shows: the new one, else its own. */
    function ShownAvatar(record: NotificationAccount): (url: string)
      reads this
      ensures editingAvatar != "" ==> url == editingAvatar
      ensures editingAvatar == "" ==> url == record.faceURL
    {
      Or(editingAvatar, record.faceURL)
    }

    /** `handleEdit`: the row's own nickname and avatar fill the inputs. */
    method Edit(record: NotificationAccount)
      modifies this
      ensures editingKey == record.userID && editingNickName == record.nickName && editingAvatar == record.faceURL
      ensures Editing(record)
    {
      editingKey := record.userID;
      editingNickName := record.nickName;
      editingAvatar := record.faceURL;
    }

    /** Typing into the nickname input. */
    method TypeNickName(v: string)
      modifies this
      ensures editingNickName == v && editingKey == old(editingKey) && editingAvatar == old(editingAvatar)
    {
      editingNickName := v;
    }

    /**
     * `handleSave`: a blank nickname is refused before any request; any
     * answer the server gives counts as saved and ends the edit, only an
     * exception keeps it open.
     */
    method Save(userID: string, reply: Reply<()>) returns (notice: string, sent: Option<AccountUpdate>)
      modifies this
      ensures IsBlank(old(editingNickName)) <==> sent.None?
      ensures sent.None? ==> notice == "昵称不能为空"
      ensures sent.Some? ==> sent.value == AccountUpdateFor(userID, old(editingNickName), old(editingAvatar))
      ensures sent.Some? && reply.Answered? ==> notice == "保存成功" && Idle()
      ensures sent.Some? && reply.Threw? ==> notice == "保存失败"
      ensures !(sent.Some? && reply.Answered?) ==>
        editingKey == old(editingKey) && editingNickName == old(editingNickName) && editingAvatar == old(editingAvatar)
    {
      if IsBlank(editingNickName) {
        return "昵称不能为空", None;
      }
      sent := Some(AccountUpdateFor(userID, editingNickName, editingAvatar));
      if reply.Answered? {
        notice := "保存成功";
        editingKey := "";
        editingNickName := "";
        editingAvatar := "";
      } else {
        notice := "保存失败";
      }
    }

    /** `handleCancel`. */
    method Cancel()
      modifies this
      ensures Idle()
    {
      editingKey := "";
      editingNickName := "";
      editingAvatar := "";
    }

    /**
     * `handleAvatarUpload`: a file that fails the checks is not uploaded;
     * otherwise it is stored under the account's name, and a successful
     * upload becomes the edited avatar.
     */
    method UploadAvatar(md5: Hasher, backend: FileUpload.Backend, file: FileUpload.File, userID: string)
      returns (notice: string, calls: seq<FileUpload.Call>)
      modifies this
      ensures AvatarRejection(file.mimeType, |file.bytes|).Some? ==>
        calls == [] && notice == AvatarRejection(file.mimeType, |file.bytes|).value && editingAvatar == old(editingAvatar)
      ensures AvatarRejection(file.mimeType, |file.bytes|).None? && backend.partSize.Succeeded() ==>
        |calls| >= 2 && calls[1].InitiateCall? && calls[1].init.name == AvatarObjectName(userID, file.name)
      ensures forall i :: 0 <= i < |calls| ==> !calls[i].UpdateCall?
      ensures AvatarRejection(file.mimeType, |file.bytes|).None? ==>
        FileUpload.UploadTrace(md5, backend, file, FileUpload.GenericConfig(file, AvatarObjectName(userID, file.name)), FileUpload.ExpectedResult(backend, FileUpload.GenericConfig(file, AvatarObjectName(userID, file.name))), calls)
      ensures editingAvatar != old(editingAvatar) ==> notice == "头像上传成功"
      ensures editingKey == old(editingKey) && editingNickName == old(editingNickName)
      ensures AvatarRejection(file.mimeType, |file.bytes|).None? ==>
        var r := FileUpload.ExpectedResult(backend, FileUpload.GenericConfig(file, AvatarObjectName(userID, file.name)));
        editingAvatar == (if r.success then r.url else old(editingAvatar))
        && notice == (if r.success then "头像上传成功" else "头像上传失败: " + FileUpload.FailureText(r))
    {
      var rejection := AvatarRejection(file.mimeType, |file.bytes|);
      if rejection.Some? {
        return rejection.value, [];
      }
      var result;
      result, calls := FileUpload.UploadGenericFile(md5, backend, file, AvatarObjectName(userID, file.name));
      if result.success {
        editingAvatar := result.url;
        notice := "头像上传成功";
      } else {
        notice := "头像上传失败: " + FileUpload.FailureText(result);
      }
    }
  }

  /** The notice after the delete confirmation: any answer counts as deleted. */
  function DeleteNotice(reply: Reply<()>): (notice: string)
    ensures reply.Answered? <==> notice == "删除成功"
  {
    if reply.Answered? then "删除成功" else "删除失败"
  }
}
