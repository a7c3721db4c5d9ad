/**
 * The chat user list (pages/chat/user/user_list/index.tsx): the form rules
 * for passwords, phone numbers, nicknames and avatars, the edit, reset and
 * create requests, the avatar letter and the phone column.
 */
module ChatUserList {
  import opened Optional
  import opened JsText
  import opened Md5
  import opened Api
  import opened Initials
  import FileUpload

  predicate IsAsciiAlnum(c: char)
  {
    'a' <= c <= 'z' || 'A' <= c <= 'Z' || '0' <= c <= '9'
  }

  /** `/^[a-zA-Z0-9]+$/`. */
  predicate AlnumOnly(s: string)
  {
    |s| > 0 && forall i :: 0 <= i < |s| ==> IsAsciiAlnum(s[i])
  }

  /**
   * The messages of a password field's rules: required, at least 6, at most
   * 20, letters and digits only. The length and pattern rules measure only a
   * present value; `missing` is the field's own required message.
   */
  function PasswordErrors(p: Option<string>, missing: string): (errors: seq<string>)
    ensures errors == [] <==> p.Some? && PasswordAcceptable(p.value)
    ensures p.None? || p.value == "" ==> errors == [missing]
  {
    if p.None? || p.value == "" then [missing]
    else
      (if |p.value| < 6 then ["密码长度不能少于6位"] else [])
      + (if |p.value| > 20 then ["密码长度不能超过20位"] else [])
      + (if !AlnumOnly(p.value) then ["密码只能包含字母和数字"] else [])
  }

  /** A password the rules let through. */
  predicate PasswordAcceptable(p: string)
  {
    6 <= |p| <= 20 && AlnumOnly(p)
  }

  /** The confirmation's own validator: an empty value, or the new password. */
  predicate ConfirmationMatches(value: Option<string>, newPassword: Option<string>)
  {
    value.None? || value.value == "" || newPassword == value
  }

  /** The confirmation field: required, then its validator. */
  function ConfirmationErrors(value: Option<string>, newPassword: Option<string>): (errors: seq<string>)
    ensures errors == [] <==> value.Some? && value.value != "" && newPassword == value
  {
    if value.None? || value.value == "" then ["请确认新密码"]
    else if ConfirmationMatches(value, newPassword) then []
    else ["两次输入的密码不一致"]
  }

  /** Both fields pass exactly when the password is acceptable and typed twice the same. */
  lemma ResetFieldsAccept(newPassword: Option<string>, confirm: Option<string>)
    ensures PasswordErrors(newPassword, "请输入新密码") == [] && ConfirmationErrors(confirm, newPassword) == []
      <==> newPassword.Some? && PasswordAcceptable(newPassword.value) && confirm == newPassword
  {
  }

  /** `/^1[3-9]\d{9}$/`: eleven ASCII digits, a leading 1 and a second digit from 3 to 9. */
  predicate PhoneAcceptable(s: string)
  {
    |s| == 11 && s[0] == '1' && '3' <= s[1] <= '9' && AllDigits(s)
  }

  /** The phone field: required, then the pattern, which an empty value skips. */
  function PhoneErrors(phone: Option<string>): (errors: seq<string>)
    ensures errors == [] <==> phone.Some? && PhoneAcceptable(phone.value)
    ensures |errors| <= 1
  {
    if phone.None? || phone.value == "" then ["请输入手机号"]
    else if PhoneAcceptable(phone.value) then []
    else ["请输入正确的手机号格式"]
  }

  lemma PhoneExamples()
    ensures PhoneErrors(Some("13800138000")) == []
    ensures PhoneErrors(Some("12800138000")) == ["请输入正确的手机号格式"]
    ensures PhoneErrors(Some("1380013800")) == ["请输入正确的手机号格式"]
    ensures PhoneErrors(Some("")) == ["请输入手机号"]
  {
  }

  /** The nickname field: required, at most 20 characters. */
  function NicknameErrors(nickname: Option<string>): (errors: seq<string>)
    ensures errors == [] <==> nickname.Some? && nickname.value != "" && |nickname.value| <= 20
  {
    if nickname.None? || nickname.value == "" then ["请输入用户昵称"]
    else if |nickname.value| > 20 then ["昵称长度不能超过20个字符"]
    else []
  }

  /** 2 MiB; `file.size / 1024 / 1024 < 2` is exactly `size < 2 MiB`. */
  const AVATAR_LIMIT: nat := 2 * 1024 * 1024

  /** `beforeUpload`: the notice that rejects a file, or none. */
  function AvatarRejection(mimeType: string, size: nat): (notice: Option<string>)
    ensures notice.None? <==> StartsWith(mimeType, "image/") && size < AVATAR_LIMIT
    ensures !StartsWith(mimeType, "image/") ==> notice == Some("只能上传图片文件")
  {
    if !StartsWith(mimeType, "image/") then Some("只能上传图片文件")
    else if size >= AVATAR_LIMIT then Some("图片大小不能超过 2MB")
    else None
  }

  /** A user row. */
  datatype UserItem = UserItem(userID: string, nickname: string, faceURL: string, gender: int,
                               phoneNumber: Option<string>, areaCode: Option<string>)

  /** The gender column of this page: 0 is 女, 1 is 男, anything else 未知. */
  function GenderText(gender: int): (text: string)
    ensures gender == 0 <==> text == "女"
    ensures gender == 1 <==> text == "男"
    ensures gender != 0 && gender != 1 <==> text == "未知"
  {
    if gender == 0 then "女" else if gender == 1 then "男" else "未知"
  }

  /** The edit drawer's values; `birth` is the picked day as a timestamp. */
  datatype EditForm = EditForm(nickname: Option<string>, gender: Option<int>, birth: Option<int>)

  /** The edit drawer's rules: the nickname rules, and a gender chosen. */
  predicate EditValidated(f: EditForm)
  {
    NicknameErrors(f.nickname) == [] && f.gender.Some?
  }

  datatype UpdateUserRequest = UpdateUserRequest(userID: string, nickname: string, faceURL: string, birth: int, gender: int)

  /** `updateData`: a newly uploaded avatar wins over the old one; no birthday is sent as 0. */
  function UpdateRequestFor(user: UserItem, avatarUrl: string, f: EditForm): (q: UpdateUserRequest)
    requires EditValidated(f)
    ensures q.userID == user.userID && q.nickname == f.nickname.value && q.gender == f.gender.value
    ensures avatarUrl != "" ==> q.faceURL == avatarUrl
    ensures avatarUrl == "" ==> q.faceURL == user.faceURL
    ensures q.birth == f.birth.GetOr(0)
    ensures q.nickname != "" && |q.nickname| <= 20
  {
    UpdateUserRequest(user.userID, f.nickname.value, Or(avatarUrl, user.faceURL), f.birth.GetOr(0), f.gender.value)
  }

  /** Opening the drawer on a row and saving it untouched sends the row's own values back. */
  lemma {:induction false} UntouchedEditRoundTrip(user: UserItem, birth: Option<int>)
    requires NicknameErrors(Some(user.nickname)) == []
    ensures var q := UpdateRequestFor(user, Or(user.faceURL, ""), EditForm(Some(user.nickname), Some(user.gender), birth));
      q.userID == user.userID && q.nickname == user.nickname && q.faceURL == user.faceURL && q.gender == user.gender
  {
    if user.faceURL == "" {
      assert Or(user.faceURL, "") == "";
    }
  }

  /**
   * The create drawer's values, as `validateFields` returns them: the named
   * items only. The area code is set only in `initialValues`, with no item
   * of its own, so it is never among them.
   */
  datatype CreateForm = CreateForm(nickname: Option<string>, gender: Option<int>,
                                   phoneNumber: Option<string>, password: Option<string>)

  /** The create drawer's rules: nickname, gender, phone number and password. */
  predicate CreateValidated(f: CreateForm)
  {
    NicknameErrors(f.nickname) == [] && f.gender.Some? && PhoneErrors(f.phoneNumber) == []
    && PasswordErrors(f.password, "请输入密码") == []
  }

  datatype NewUser = NewUser(userID: string, nickname: string, faceURL: string, gender: int, areaCode: string,
                             phoneNumber: string, password: string, email: string)

  /**
   * The single user `createUser` gets: the id and e-mail left to the
   * server, the area code `values.areaCode || '+86'` always +86 since the
   * form never returns one, and the password sent as the MD5 digest of its
   * text.
   */
  function NewUserFor(md5: Hasher, f: CreateForm, avatarUrl: string): (u: NewUser)
    requires CreateValidated(f)
    ensures u.userID == "" && u.email == ""
    ensures u.nickname == f.nickname.value && u.gender == f.gender.value && u.phoneNumber == f.phoneNumber.value
    ensures u.faceURL == avatarUrl
    ensures u.areaCode == "+86"
    ensures u.password == HashText(md5, f.password.value) && IsDigest(u.password)
    ensures PhoneAcceptable(u.phoneNumber)
  {
    NewUser("", f.nickname.value, Or(avatarUrl, ""), f.gender.value, "+86", f.phoneNumber.value,
            HashText(md5, f.password.value), "")
  }

  /** The password is never sent as typed: an acceptable password is too short to be a digest. */
  lemma PasswordNeverSentPlain(md5: Hasher, f: CreateForm, avatarUrl: string)
    requires CreateValidated(f)
    ensures NewUserFor(md5, f, avatarUrl).password != f.password.value
  {
    assert |f.password.value| <= 20 < 32;
  }

  datatype ResetPasswordRequest = ResetPasswordRequest(userID: string, newPassword: string)

  /** The reset modal's rules: the new password, and its confirmation. */
  predicate ResetValidated(newPassword: Option<string>, confirm: Option<string>)
  {
    PasswordErrors(newPassword, "请输入新密码") == [] && ConfirmationErrors(confirm, newPassword) == []
  }

  function ResetRequestFor(md5: Hasher, user: UserItem, newPassword: string): (q: ResetPasswordRequest)
    ensures q.userID == user.userID && q.newPassword == HashText(md5, newPassword) && IsDigest(q.newPassword)
  {
    ResetPasswordRequest(user.userID, HashText(md5, newPassword))
  }

  /** `{userID, reason: values.reason || ''}`. */
  datatype BlockRequest = BlockRequest(userID: string, reason: string)

  /** The reason is optional, and at most 200 characters. */
  predicate BlockValidated(reason: Option<string>)
  {
    reason.None? || |reason.value| <= 200
  }

  function BlockRequestFor(user: UserItem, reason: Option<string>): (q: BlockRequest)
    requires BlockValidated(reason)
    ensures q.userID == user.userID && q.reason == OrOpt(reason, "") && |q.reason| <= 200
  {
    BlockRequest(user.userID, OrOpt(reason, ""))
  }

  /** The avatar letter: `'U'` without a nickname, the CJK-aware initial otherwise. */
  function UserInitial(nickname: string): (r: string)
    ensures nickname == "" ==> r == "U"
    ensures nickname != "" && HasCjk(nickname) ==> r == [nickname[0]]
    ensures nickname != "" && !HasCjk(nickname) ==> r == [AsciiUpper(nickname[0])]
  {
    CjkAwareInitial(nickname, "U")
  }

  /** The phone column: `'-'` without a number, else the area code (default +86), a space and the number. */
  function PhoneDisplay(phoneNumber: Option<string>, areaCode: Option<string>): (text: string)
    ensures phoneNumber.None? || phoneNumber.value == "" ==> text == "-"
    ensures phoneNumber.Some? && phoneNumber.value != "" ==> text == OrOpt(areaCode, "+86") + " " + phoneNumber.value
  {
    if phoneNumber.Some? && phoneNumber.value != "" then OrOpt(areaCode, "+86") + " " + phoneNumber.value else "-"
  }

  /** The number can be read back from the column: it is everything after the first space. */
  lemma PhoneDisplayReadsBack(phoneNumber: string, areaCode: Option<string>)
    requires phoneNumber != "" && (areaCode.None? || Excludes(areaCode.value, ' '))
    ensures var t := PhoneDisplay(Some(phoneNumber), areaCode);
      var k := |OrOpt(areaCode, "+86")|;
      k < |t| && t[k] == ' ' && Excludes(t[..k], ' ') && t[k + 1..] == phoneNumber
  {
    var a := OrOpt(areaCode, "+86");
    var t := PhoneDisplay(Some(phoneNumber), areaCode);
    assert t == a + " " + phoneNumber;
    assert t[..|a|] == a;
    assert t[|a| + 1..] == phoneNumber;
  }

  /** The edit drawer's state. */
  class UserEditor {
    var visible: bool
    var editingUser: Option<UserItem>
    var avatarUrl: string

    constructor()
      ensures !visible && editingUser.None? && avatarUrl == ""
    {
      visible := false;
      editingUser := None;
      avatarUrl := "";
    }

    /** `handleEdit`: the drawer opens on the row with its current avatar. */
    method Edit(record: UserItem)
      modifies this
      ensures visible && editingUser == Some(record) && avatarUrl == Or(record.faceURL, "")
    {
      editingUser := Some(record);
      avatarUrl := Or(record.faceURL, "");
      visible := true;
    }

    /**
     * `handleEditAvatarUpload`: without a user being edited nothing is
     * uploaded; otherwise the file goes up as that user's avatar, and only a
     * successful upload replaces the drawer's avatar.
     */
    method UploadAvatar(md5: Hasher, backend: FileUpload.Backend, file: FileUpload.File)
      returns (result: Option<FileUpload.UploadResult>, calls: seq<FileUpload.Call>)
      modifies this
      ensures editingUser.None? <==> result.None?
      ensures editingUser.None? ==> calls == []
      ensures avatarUrl == (if result.Some? && result.value.success then result.value.url else old(avatarUrl))
      ensures visible == old(visible) && editingUser == old(editingUser)
      ensures result.Some? ==>
        result.value == FileUpload.ExpectedResult(backend, FileUpload.AvatarConfig(file, editingUser.value.userID))
        && FileUpload.UploadTrace(md5, backend, file, FileUpload.AvatarConfig(file, editingUser.value.userID), result.value, calls)
    {
      if editingUser.None? {
        return None, [];
      }
      var r;
      r, calls := FileUpload.UploadAvatar(md5, backend, file, editingUser.value.userID);
      result := Some(r);
      if r.success {
        avatarUrl := r.url;
      }
    }

    /**
     * `handleSave`: a form that fails its rules is a failed save; without
     * a user being edited nothing is sent; otherwise the update goes out and
     * a success closes the drawer and drops the uploaded avatar.
     */
    method Save(f: EditForm, reply: Reply<()>) returns (notice: string, sent: Option<UpdateUserRequest>)
      modifies this
      ensures !EditValidated(f) ==> sent.None? && notice == "保存失败，请重试"
      ensures EditValidated(f) && editingUser.None? ==> sent.None? && notice == "用户信息不存在"
      ensures EditValidated(f) && editingUser.Some? ==>
        sent == Some(UpdateRequestFor(editingUser.value, old(avatarUrl), f))
        && notice == (if reply.Threw? then "保存失败，请重试" else RequestNotice(reply, "用户信息更新成功", "更新失败"))
      ensures sent.Some? && reply.Succeeded() ==> !visible && avatarUrl == ""
      ensures !(sent.Some? && reply.Succeeded()) ==> visible == old(visible) && avatarUrl == old(avatarUrl)
      ensures editingUser == old(editingUser)
    {
      if !EditValidated(f) {
        return "保存失败，请重试", None;
      }
      if editingUser.None? {
        return "用户信息不存在", None;
      }
      sent := Some(UpdateRequestFor(editingUser.value, avatarUrl, f));
      match reply
      case Threw(_) =>
        notice := "保存失败，请重试";
      case Answered(code, msg, _) =>
        if code == 0 {
          notice := "用户信息更新成功";
          visible := false;
          avatarUrl := "";
        } else {
          notice := Or(msg, "更新失败");
        }
    }

    /** `handleCloseDrawer`. */
    method Close()
      modifies this
      ensures !visible && editingUser.None? && avatarUrl == ""
    {
      visible := false;
      editingUser := None;
      avatarUrl := "";
    }
  }

  /** The reset-password modal's state. */
  class ResetPasswordModal {
    var visible: bool
    var resettingUser: Option<UserItem>

    constructor()
      ensures !visible && resettingUser.None?
    {
      visible := false;
      resettingUser := None;
    }

    /** `handleResetPassword`. */
    method Open(record: UserItem)
      modifies this
      ensures visible && resettingUser == Some(record)
    {
      resettingUser := Some(record);
      visible := true;
    }

    /**
     * `handleConfirmResetPassword`: fields that fail their rules end in the
     * failure notice; without a user nothing happens; otherwise the MD5 of
     * the new password is sent, and a success closes the modal.
     */
    method Confirm(md5: Hasher, newPassword: Option<string>, confirm: Option<string>, reply: Reply<()>)
      returns (notice: Option<string>, sent: Option<ResetPasswordRequest>)
      modifies this
      ensures !ResetValidated(newPassword, confirm) ==> sent.None? && notice == Some("密码重置失败，请重试")
      ensures ResetValidated(newPassword, confirm) && old(resettingUser).None? ==> sent.None? && notice.None?
      ensures ResetValidated(newPassword, confirm) && old(resettingUser).Some? ==>
        sent == Some(ResetRequestFor(md5, old(resettingUser).value, newPassword.value))
        && notice == Some(RequestNotice(reply, "密码重置成功", "密码重置失败"))
      ensures sent.Some? && reply.Succeeded() ==> !visible && resettingUser.None?
      ensures !(sent.Some? && reply.Succeeded()) ==> visible == old(visible) && resettingUser == old(resettingUser)
    {
      if !ResetValidated(newPassword, confirm) {
        return Some("密码重置失败，请重试"), None;
      }
      if resettingUser.None? {
        return None, None;
      }
      sent := Some(ResetRequestFor(md5, resettingUser.value, newPassword.value));
      notice := Some(RequestNotice(reply, "密码重置成功", "密码重置失败"));
      if reply.Succeeded() {
        visible := false;
        resettingUser := None;
      }
    }

    /** `handleCancelResetPassword`. */
    method Cancel()
      modifies this
      ensures !visible && resettingUser.None?
    {
      visible := false;
      resettingUser := None;
    }
  }

  /** A sent reset carries the digest of a password typed the same way twice. */
  lemma SentResetIsConfirmed(md5: Hasher, user: UserItem, newPassword: Option<string>, confirm: Option<string>)
    requires ResetValidated(newPassword, confirm)
    ensures confirm == newPassword && PasswordAcceptable(newPassword.value)
    ensures ResetRequestFor(md5, user, newPassword.value).newPassword == HashText(md5, confirm.value)
  {
    ResetFieldsAccept(newPassword, confirm);
  }

  /** The create drawer's state. */
  class CreateUserDrawer {
    var visible: bool
    var avatarUrl: string

    constructor()
      ensures !visible && avatarUrl == ""
    {
      visible := false;
      avatarUrl := "";
    }

    /** `handleCreateUser`. */
    method Open()
      modifies this
      ensures visible && avatarUrl == ""
    {
      visible := true;
      avatarUrl := "";
    }

    /**
     * `handleCreateAvatarUpload`: the user does not exist yet, so the file
     * goes up as the avatar of `temp_<now>`, `now` being the clock in
     * milliseconds.
     */
    method UploadAvatar(md5: Hasher, backend: FileUpload.Backend, file: FileUpload.File, now: int)
      returns (result: FileUpload.UploadResult, calls: seq<FileUpload.Call>)
      modifies this
      ensures backend.partSize.Succeeded() ==>
        |calls| >= 2 && calls[1].InitiateCall? && calls[1].init.name == "temp_" + IntToString(now) + "/" + file.name
      ensures avatarUrl == (if result.success then result.url else old(avatarUrl))
      ensures visible == old(visible)
      ensures result == FileUpload.ExpectedResult(backend, FileUpload.AvatarConfig(file, "temp_" + IntToString(now)))
      ensures FileUpload.UploadTrace(md5, backend, file, FileUpload.AvatarConfig(file, "temp_" + IntToString(now)), result, calls)
    {
      result, calls := FileUpload.UploadAvatar(md5, backend, file, "temp_" + IntToString(now));
      if result.success {
        avatarUrl := result.url;
      }
    }

    /**
     * `handleConfirmCreateUser`: a form that fails its rules ends in the
     * failure notice; otherwise one new user is sent, and a success closes
     * the drawer and drops the avatar.
     */
    method Confirm(md5: Hasher, f: CreateForm, reply: Reply<()>) returns (notice: string, sent: Option<seq<NewUser>>)
      modifies this
      ensures !CreateValidated(f) ==> sent.None? && notice == "用户创建失败，请重试"
      ensures CreateValidated(f) ==>
        sent == Some([NewUserFor(md5, f, old(avatarUrl))]) && notice == RequestNotice(reply, "用户创建成功", "用户创建失败")
      ensures sent.Some? && reply.Succeeded() ==> !visible && avatarUrl == ""
      ensures !(sent.Some? && reply.Succeeded()) ==> visible == old(visible) && avatarUrl == old(avatarUrl)
    {
      if !CreateValidated(f) {
        return "用户创建失败，请重试", None;
      }
      sent := Some([NewUserFor(md5, f, avatarUrl)]);
      notice := RequestNotice(reply, "用户创建成功", "用户创建失败");
      if reply.Succeeded() {
        visible := false;
        avatarUrl := "";
      }
    }

    /** `handleCloseCreateUserDrawer`. */
    method Close()
      modifies this
      ensures !visible && avatarUrl == ""
    {
      visible := false;
      avatarUrl := "";
    }
  }

  /** The block modal's state. */
  class BlockModal {
    var visible: bool
    var blockingUser: Option<UserItem>

    constructor()
      ensures !visible && blockingUser.None?
    {
      visible := false;
      blockingUser := None;
    }

    /** `handleDisable`. */
    method Open(record: UserItem)
      modifies this
      ensures visible && blockingUser == Some(record)
    {
      blockingUser := Some(record);
      visible := true;
    }

    /** `handleConfirmBlock`: the same shape as the reset modal, with an optional reason. */
    method Confirm(reason: Option<string>, reply: Reply<()>) returns (notice: Option<string>, sent: Option<BlockRequest>)
      modifies this
      ensures !BlockValidated(reason) ==> sent.None? && notice == Some("禁用失败，请重试")
      ensures BlockValidated(reason) && old(blockingUser).None? ==> sent.None? && notice.None?
      ensures BlockValidated(reason) && old(blockingUser).Some? ==>
        sent == Some(BlockRequestFor(old(blockingUser).value, reason)) && notice == Some(RequestNotice(reply, "禁用成功", "禁用失败"))
      ensures sent.Some? && reply.Succeeded() ==> !visible && blockingUser.None?
      ensures !(sent.Some? && reply.Succeeded()) ==> visible == old(visible) && blockingUser == old(blockingUser)
    {
      if !BlockValidated(reason) {
        return Some("禁用失败，请重试"), None;
      }
      if blockingUser.None? {
        return None, None;
      }
      sent := Some(BlockRequestFor(blockingUser.value, reason));
      notice := Some(RequestNotice(reply, "禁用成功", "禁用失败"));
      if reply.Succeeded() {
        visible := false;
        blockingUser := None;
      }
    }

    /** `handleCancelBlock`. */
    method Cancel()
      modifies this
      ensures !visible && blockingUser.None?
    {
      visible := false;
      blockingUser := None;
    }
  }
}
