/**
 * The profile page (pages/profile/info/index.tsx): the form filled from the
 * signed-in admin, the update that carries only the fields that changed,
 * and the signed-in admin as it stands after a successful update.
 */
module ProfileInfo {
  import opened Optional
  import opened JsText
  import opened Md5
  import opened Api
  import FileUpload

  /** The avatar shown when the admin has none. */
  const DEFAULT_AVATAR := "http://47.83.254.218:10002/object/imAdmin/default_avatar.png"

  /**
   * `initialState.currentUser`: the console's signed-in admin. Older and
   * newer login paths fill different spellings of the same fields, so each
   * may be missing.
   */
  datatype CurrentUser = CurrentUser(
    userid: Option<string>, userID: Option<string>,
    nickname: Option<string>, name: Option<string>,
    faceURL: Option<string>, avatar: Option<string>,
    adminUserID: Option<string>)

  /** `a || b` where both may be undefined: the result is undefined when neither is a non-empty text. */
  function Either(a: Option<string>, b: Option<string>): (r: Option<string>)
    ensures a.Some? && a.value != "" ==> r == a
    ensures (a.None? || a.value == "") ==> r == b
  {
    if a.Some? && a.value != "" then a else b
  }

  /** The values of the profile form. */
  datatype ProfileForm = ProfileForm(userID: Option<string>, nickname: Option<string>, faceURL: Option<string>)

  /** `finalFaceURL`: the face URL, else the avatar, else the default avatar. */
  function ShownAvatar(u: CurrentUser): (url: string)
    ensures url != ""
    ensures u.faceURL.Some? && u.faceURL.value != "" ==> url == u.faceURL.value
    ensures (u.faceURL.None? || u.faceURL.value == "") && u.avatar.Some? && u.avatar.value != "" ==> url == u.avatar.value
    ensures OrOpt(Either(u.faceURL, u.avatar), "") == "" ==> url == DEFAULT_AVATAR
  {
    OrOpt(u.faceURL, OrOpt(u.avatar, DEFAULT_AVATAR))
  }

  /** `loadUserInfoToForm`: the id, the nickname and the avatar, each with its fallbacks. */
  function LoadedForm(u: CurrentUser): (f: ProfileForm)
    ensures f.userID == Some(OrOpt(u.userid, OrOpt(u.userID, "")))
    ensures f.nickname == Some(OrOpt(u.nickname, OrOpt(u.name, "")))
    ensures f.faceURL == Some(ShownAvatar(u))
  {
    ProfileForm(Some(OrOpt(u.userid, OrOpt(u.userID, ""))), Some(OrOpt(u.nickname, OrOpt(u.name, ""))), Some(ShownAvatar(u)))
  }

  /** The nickname rules: required, 2 to 20 characters. */
  function NicknameErrors(nickname: Option<string>): (errors: seq<string>)
    ensures errors == [] <==> nickname.Some? && 2 <= |nickname.value| <= 20
  {
    if nickname.None? || nickname.value == "" then ["请输入昵称"]
    else if |nickname.value| < 2 || |nickname.value| > 20 then ["昵称长度应在2-20个字符之间"]
    else []
  }

  /** `updateData`: always the id, and a text field only when it is filled and differs from the stored one. */
  datatype UpdateData = UpdateData(userID: Option<string>, nickname: Option<string>, faceURL: Option<string>)

  /** The stored value a form field is compared with: `nickname || name`, `faceURL || avatar`. */
  predicate Changed(value: Option<string>, stored: Option<string>)
  {
    value.Some? && value.value != "" && value != stored
  }

  function UpdateFor(u: CurrentUser, values: ProfileForm): (q: UpdateData)
    ensures q.userID == values.userID
    ensures q.nickname.Some? <==> Changed(values.nickname, Either(u.nickname, u.name))
    ensures q.faceURL.Some? <==> Changed(values.faceURL, Either(u.faceURL, u.avatar))
    ensures q.nickname.Some? ==> q.nickname == values.nickname
    ensures q.faceURL.Some? ==> q.faceURL == values.faceURL
  {
    UpdateData(values.userID,
               if Changed(values.nickname, Either(u.nickname, u.name)) then values.nickname else None,
               if Changed(values.faceURL, Either(u.faceURL, u.avatar)) then values.faceURL else None)
  }

  /** `Object.keys(updateData).length === 1`: only the id is there. */
  predicate NothingToUpdate(q: UpdateData)
  {
    q.nickname.None? && q.faceURL.None?
  }

  /**
   * The admin after a successful update: the new nickname also becomes the
   * name, the new face URL also becomes the avatar, and nothing else moves.
   */
  function Merged(u: CurrentUser, q: UpdateData): (u': CurrentUser)
    ensures u'.userid == u.userid && u'.userID == u.userID && u'.adminUserID == u.adminUserID
    ensures q.nickname.Some? && q.nickname.value != "" ==> u'.nickname == q.nickname && u'.name == q.nickname
    ensures !(q.nickname.Some? && q.nickname.value != "") ==> u'.nickname == u.nickname && u'.name == u.name
    ensures q.faceURL.Some? && q.faceURL.value != "" ==> u'.faceURL == q.faceURL && u'.avatar == q.faceURL
    ensures !(q.faceURL.Some? && q.faceURL.value != "") ==> u'.faceURL == u.faceURL && u'.avatar == u.avatar
  {
    var u1 := if q.nickname.Some? && q.nickname.value != "" then u.(nickname := q.nickname, name := q.nickname) else u;
    if q.faceURL.Some? && q.faceURL.value != "" then u1.(faceURL := q.faceURL, avatar := q.faceURL) else u1
  }

  /**
   * The values `onFinish` hands to the submit handler: those of the named
   * form items only, `userID` and `nickname`. The avatar item has no name,
   * so the `faceURL` the form store holds never reaches the handler.
   */
  function SubmittedValues(f: ProfileForm): (values: ProfileForm)
    ensures values.userID == f.userID && values.nickname == f.nickname
    ensures values.faceURL.None?
  {
    ProfileForm(f.userID, f.nickname, None)
  }

  /**
   * Submitting the form as it was loaded sends nothing, for every admin,
   * and so does submitting it after only the avatar changed.
   */
  lemma UntouchedFormSendsNothing(u: CurrentUser, url: string)
    ensures NothingToUpdate(UpdateFor(u, SubmittedValues(LoadedForm(u))))
    ensures NothingToUpdate(UpdateFor(u, SubmittedValues(LoadedForm(u).(faceURL := Some(url)))))
  {
  }

  /** After a successful update, submitting the same values again sends nothing. */
  lemma {:induction false} UpdateThenResubmitSendsNothing(u: CurrentUser, values: ProfileForm)
    ensures NothingToUpdate(UpdateFor(Merged(u, UpdateFor(u, values)), values))
  {
    var q := UpdateFor(u, values);
    var u' := Merged(u, q);
    if q.nickname.None? {
      assert Either(u'.nickname, u'.name) == Either(u.nickname, u.name);
    }
    if q.faceURL.None? {
      assert Either(u'.faceURL, u'.avatar) == Either(u.faceURL, u.avatar);
    }
  }

  /** What antd's upload list holds for one file. */
  datatype FileStatus = Uploading | Done | Error | Removed
  datatype UploadItem = UploadItem(uid: string, status: FileStatus, responseUrl: Option<string>,
                                   url: Option<string>, thumbUrl: Option<string>)

  /** `slice(-1)` and the response URL copied onto the file: at most the last file is kept. */
  function KeptFiles(list: seq<UploadItem>): (r: seq<UploadItem>)
    ensures |list| == 0 <==> r == []
    ensures |list| > 0 ==> |r| == 1 && r[0].uid == list[|list| - 1].uid && r[0].status == list[|list| - 1].status
    ensures |list| > 0 && list[|list| - 1].responseUrl.Some? ==> r[0].url == list[|list| - 1].responseUrl
  {
    if |list| == 0 then []
    else
      var f := list[|list| - 1];
      [if f.responseUrl.Some? then f.(url := f.responseUrl) else f]
  }

  /** The profile page's state; `storage` is the browser's local storage. */
  class ProfilePage {
    var currentUser: Option<CurrentUser>
    var form: ProfileForm
    var avatarUrl: string
    var fileList: seq<UploadItem>
    var storage: map<string, string>

    constructor(user: Option<CurrentUser>, storage0: map<string, string>)
      ensures currentUser == user && storage == storage0
      ensures form == ProfileForm(None, None, None) && avatarUrl == "" && fileList == []
    {
      currentUser := user;
      storage := storage0;
      form := ProfileForm(None, None, None);
      avatarUrl := "";
      fileList := [];
    }

    /** `loadUserInfoToForm`: without an admin the page only warns. */
    method Load() returns (notice: Option<string>)
      modifies this
      ensures currentUser.None? ==> notice == Some("用户信息未加载，请重新登录") && form == old(form) && avatarUrl == old(avatarUrl)
      ensures currentUser.Some? ==> notice.None? && form == LoadedForm(currentUser.value) && avatarUrl == ShownAvatar(currentUser.value)
      ensures currentUser == old(currentUser) && fileList == old(fileList) && storage == old(storage)
    {
      if currentUser.None? {
        return Some("用户信息未加载，请重新登录");
      }
      form := LoadedForm(currentUser.value);
      avatarUrl := ShownAvatar(currentUser.value);
      notice := None;
    }

    /** Typing into the nickname field. */
    method TypeNickname(v: string)
      modifies this
      ensures form == old(form).(nickname := Some(v))
      ensures currentUser == old(currentUser) && avatarUrl == old(avatarUrl) && fileList == old(fileList) && storage == old(storage)
    {
      form := form.(nickname := Some(v));
    }

    /** `customUpload`: the file goes up as the avatar of `adminUserID || 'imAdmin'`. */
    method CustomUpload(md5: Hasher, backend: FileUpload.Backend, file: FileUpload.File)
      returns (result: FileUpload.UploadResult, calls: seq<FileUpload.Call>, uploader: string)
      ensures uploader == (if currentUser.Some? then OrOpt(currentUser.value.adminUserID, "imAdmin") else "imAdmin")
      ensures uploader != ""
      ensures backend.partSize.Succeeded() ==>
        |calls| >= 2 && calls[1].InitiateCall? && calls[1].init.name == uploader + "/" + file.name
      ensures result == FileUpload.ExpectedResult(backend, FileUpload.AvatarConfig(file, uploader))
      ensures FileUpload.UploadTrace(md5, backend, file, FileUpload.AvatarConfig(file, uploader), result, calls)
    {
      uploader := if currentUser.Some? then OrOpt(currentUser.value.adminUserID, "imAdmin") else "imAdmin";
      result, calls := FileUpload.UploadAvatar(md5, backend, file, uploader);
    }

    /**
     * `handleAvatarChange`: the list keeps its last file; a finished upload
     * puts its URL (or the thumbnail) into the avatar and the form.
     */
    method AvatarChange(list: seq<UploadItem>, file: UploadItem) returns (notice: Option<string>)
      modifies this
      ensures fileList == KeptFiles(list)
      ensures file.status == Done ==>
        notice == Some("头像上传成功") && avatarUrl == OrOpt(file.responseUrl, OrOpt(file.thumbUrl, ""))
        && form == old(form).(faceURL := Some(avatarUrl))
      ensures file.status == Error ==> notice == Some("头像上传失败")
      ensures file.status != Done ==> avatarUrl == old(avatarUrl) && form == old(form)
      ensures file.status != Done && file.status != Error ==> notice.None?
      ensures currentUser == old(currentUser) && storage == old(storage)
    {
      fileList := KeptFiles(list);
      notice := None;
      if file.status == Done {
        avatarUrl := OrOpt(file.responseUrl, OrOpt(file.thumbUrl, ""));
        form := form.(faceURL := Some(avatarUrl));
        notice := Some("头像上传成功");
      } else if file.status == Error {
        notice := Some("头像上传失败");
      }
    }

    /**
     * `handleSubmit`, reached once the nickname rules pass: without an
     * admin, or with nothing changed, no request is sent; a success merges
     * the change into the admin and records it in local storage. The
     * handler sees only the submitted values, so no face URL is ever sent.
     */
    method Submit(reply: Reply<()>) returns (notice: Option<string>, sent: Option<UpdateData>)
      modifies this
      ensures NicknameErrors(form.nickname) != [] ==> sent.None? && notice.None?
      ensures NicknameErrors(form.nickname) == [] && old(currentUser).None? ==>
        sent.None? && notice == Some("用户信息不存在，请重新登录")
      ensures NicknameErrors(form.nickname) == [] && old(currentUser).Some? ==>
        var q := UpdateFor(old(currentUser).value, SubmittedValues(form));
        if NothingToUpdate(q) then sent.None? && notice == Some("没有检测到需要更新的信息")
        else sent == Some(q) && notice == Some(RequestNotice(reply, "个人信息更新成功", "更新失败"))
      ensures sent.Some? && reply.Succeeded() ==>
        currentUser == Some(Merged(old(currentUser).value, sent.value))
        && storage == StoredAfter(old(storage), sent.value)
      ensures sent.Some? ==> sent.value.faceURL.None?
      ensures !(sent.Some? && reply.Succeeded()) ==> currentUser == old(currentUser) && storage == old(storage)
      ensures form == old(form) && avatarUrl == old(avatarUrl) && fileList == old(fileList)
    {
      if NicknameErrors(form.nickname) != [] {
        return None, None;
      }
      if currentUser.None? {
        return Some("用户信息不存在，请重新登录"), None;
      }
      var q := UpdateFor(currentUser.value, SubmittedValues(form));
      if NothingToUpdate(q) {
        return Some("没有检测到需要更新的信息"), None;
      }
      sent := Some(q);
      notice := Some(RequestNotice(reply, "个人信息更新成功", "更新失败"));
      if reply.Succeeded() {
        currentUser := Some(Merged(currentUser.value, q));
        storage := StoredAfter(storage, q);
      }
    }
  }

  /** The `nickname` and `faceURL` entries written after a successful update. */
  function StoredAfter(storage: map<string, string>, q: UpdateData): (s: map<string, string>)
    ensures forall k :: k in storage && k != "nickname" && k != "faceURL" ==> k in s && s[k] == storage[k]
    ensures q.nickname.Some? && q.nickname.value != "" ==> "nickname" in s && s["nickname"] == q.nickname.value
    ensures q.faceURL.Some? && q.faceURL.value != "" ==> "faceURL" in s && s["faceURL"] == q.faceURL.value
    ensures s.Keys <= storage.Keys + {"nickname", "faceURL"}
  {
    var s1 := if q.nickname.Some? && q.nickname.value != "" then storage["nickname" := q.nickname.value] else storage;
    if q.faceURL.Some? && q.faceURL.value != "" then s1["faceURL" := q.faceURL.value] else s1
  }
}
