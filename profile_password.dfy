/**
 * The change-password page (pages/profile/password/index.tsx): the form's
 * rules, the handler's own checks, the hashed request, and the session
 * that a successful change ends.
 */
module ProfilePassword {
  import opened Optional
  import opened JsText
  import opened Md5
  import opened Api
  import ProfileInfo

  datatype PasswordForm = PasswordForm(currentPassword: Option<string>, newPassword: Option<string>,
                                       confirmPassword: Option<string>)

  /** A `required` rule followed by a `min` (and optionally a `max`) length rule. */
  function LengthErrors(v: Option<string>, missing: string, min: nat, max: Option<nat>): (errors: seq<string>)
    ensures errors == [] <==> v.Some? && v.value != "" && min <= |v.value| && (max.None? || |v.value| <= max.value)
  {
    if v.None? || v.value == "" then [missing]
    else
      (if |v.value| < min then ["密码长度不能少于6位"] else [])
      + (if max.Some? && |v.value| > max.value then ["密码长度不能超过20位"] else [])
  }

  /** The form's rules, field by field; `onFinish` runs only when none fails. */
  function FormErrors(f: PasswordForm): (errors: seq<string>)
    ensures errors == [] <==> FormAccepted(f)
  {
    LengthErrors(f.currentPassword, "请输入当前密码", 6, None)
    + LengthErrors(f.newPassword, "请输入新密码", 6, Some(20))
    + (if f.confirmPassword.None? || f.confirmPassword.value == "" then ["请确认新密码"]
       else if f.newPassword != f.confirmPassword then ["两次输入的密码不一致"]
       else [])
  }

  /** The current password has at least 6 characters, the new one 6 to 20, and it is confirmed. */
  predicate FormAccepted(f: PasswordForm)
  {
    && f.currentPassword.Some? && |f.currentPassword.value| >= 6
    && f.newPassword.Some? && 6 <= |f.newPassword.value| <= 20
    && f.confirmPassword == f.newPassword
  }

  /** `{userID, currentPassword, newPassword}`, both passwords as MD5 digests. */
  datatype ChangePasswordRequest = ChangePasswordRequest(userID: string, currentPassword: string, newPassword: string)

  function ChangeRequestFor(md5: Hasher, user: ProfileInfo.CurrentUser, f: PasswordForm): (q: ChangePasswordRequest)
    requires FormAccepted(f)
    ensures q.userID == OrOpt(user.adminUserID, "imAdmin") && q.userID != ""
    ensures q.currentPassword == HashText(md5, f.currentPassword.value) && IsDigest(q.currentPassword)
    ensures q.newPassword == HashText(md5, f.newPassword.value) && IsDigest(q.newPassword)
  {
    ChangePasswordRequest(OrOpt(user.adminUserID, "imAdmin"), HashText(md5, f.currentPassword.value), HashText(md5, f.newPassword.value))
  }

  /** The local-storage entries of a signed-in session. */
  const SESSION_KEYS: set<string> := {"adminToken", "imToken", "adminAccount", "nickname", "faceURL", "level", "adminUserID", "imUserID"}

  /** The handler's own checks in their order: no admin, then a mismatch, then an unchanged password. */
  function Refusal(user: Option<ProfileInfo.CurrentUser>, f: PasswordForm): (notice: Option<string>)
    ensures user.None? ==> notice == Some("用户信息不存在，请重新登录")
    ensures user.Some? && f.newPassword != f.confirmPassword ==> notice == Some("新密码和确认密码不一致")
    ensures user.Some? && f.newPassword == f.confirmPassword && f.currentPassword == f.newPassword ==>
      notice == Some("新密码不能与当前密码相同")
    ensures notice.None? <==> user.Some? && f.newPassword == f.confirmPassword && f.currentPassword != f.newPassword
  {
    if user.None? then Some("用户信息不存在，请重新登录")
    else if f.newPassword != f.confirmPassword then Some("新密码和确认密码不一致")
    else if f.currentPassword == f.newPassword then Some("新密码不能与当前密码相同")
    else None
  }

  /** The form's confirmation rule already rules out a mismatch, so the handler's own check never fires. */
  lemma MismatchCheckUnreachable(user: ProfileInfo.CurrentUser, f: PasswordForm)
    requires FormErrors(f) == []
    ensures Refusal(Some(user), f) != Some("新密码和确认密码不一致")
  {
  }

  /** The notice the request ends with. */
  function ChangeNotice(reply: Reply<()>): (notice: string)
    ensures reply.Succeeded() ==> notice == "密码修改成功，请重新登录"
    ensures reply.Answered? && reply.errCode != 0 ==> notice == "密码修改失败: " + reply.errMsg
    ensures reply.Threw? ==> notice == "密码修改失败: " + Or(reply.message, "未知错误")
  {
    match reply
    case Threw(m) => "密码修改失败: " + Or(m, "未知错误")
    case Answered(code, msg, _) => if code == 0 then "密码修改成功，请重新登录" else "密码修改失败: " + msg
  }

  /** The page: the signed-in admin, and the browser's local storage. */
  class PasswordPage {
    const currentUser: Option<ProfileInfo.CurrentUser>
    var storage: map<string, string>

    constructor(user: Option<ProfileInfo.CurrentUser>, storage0: map<string, string>)
      ensures currentUser == user && storage == storage0
    {
      currentUser := user;
      storage := storage0;
    }

    /**
     * The form's submit: fields that fail their rules stop it with no
     * notice from the handler; a refusal sends nothing; a success removes
     * exactly the session entries from storage.
     */
    method Submit(md5: Hasher, f: PasswordForm, reply: Reply<()>) returns (notice: Option<string>, sent: Option<ChangePasswordRequest>)
      modifies this
      ensures !FormAccepted(f) ==> notice.None? && sent.None?
      ensures FormAccepted(f) && Refusal(currentUser, f).Some? ==> notice == Refusal(currentUser, f) && sent.None?
      ensures FormAccepted(f) && Refusal(currentUser, f).None? ==>
        sent == Some(ChangeRequestFor(md5, currentUser.value, f)) && notice == Some(ChangeNotice(reply))
      ensures sent.Some? && reply.Succeeded() ==> storage == old(storage) - SESSION_KEYS
      ensures !(sent.Some? && reply.Succeeded()) ==> storage == old(storage)
    {
      if !FormAccepted(f) {
        return None, None;
      }
      var refusal := Refusal(currentUser, f);
      if refusal.Some? {
        return refusal, None;
      }
      sent := Some(ChangeRequestFor(md5, currentUser.value, f));
      notice := Some(ChangeNotice(reply));
      if reply.Succeeded() {
        ClearSession();
      }
    }

    /** The eight `localStorage.removeItem` calls, in their order. */
    method ClearSession()
      modifies this
      ensures storage == old(storage) - SESSION_KEYS
    {
      storage := storage - {"adminToken"} - {"imToken"} - {"adminAccount"} - {"nickname"}
                         - {"faceURL"} - {"level"} - {"adminUserID"} - {"imUserID"};
    }
  }

  /**
   * A password change that gets through hashes two different byte strings,
   * so its two digests can only be equal through an MD5 collision.
   */
  lemma ChangedPasswordDiffers(md5: Hasher, user: ProfileInfo.CurrentUser, f: PasswordForm)
    requires FormAccepted(f) && Refusal(Some(user), f).None?
    ensures f.currentPassword.value != f.newPassword.value
    ensures Utf8Encode(f.currentPassword.value) != Utf8Encode(f.newPassword.value)
  {
    if Utf8Encode(f.currentPassword.value) == Utf8Encode(f.newPassword.value) {
      Utf8EncodeInjective(f.currentPassword.value, f.newPassword.value);
    }
  }
}
