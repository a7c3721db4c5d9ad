/**
 * The notification publishing page (pages/im/notification/publish/index.tsx):
 * the recipient selection the table's checkboxes and avatars edit, the
 * select-all box with its checked and indeterminate states, the attachment
 * upload and the send handler's checks and request.
 */
module NotificationPublish {
  import opened Optional
  import opened JsText
  import opened Md5
  import opened Api
  import opened IdLists
  import FileUpload

  /** A notification account as the account list returns it. */
  datatype Account = Account(userID: string, nickName: string, faceURL: string, appMangerLevel: int)

  /** The uploaded attachment the page keeps: `{url, type, size, width, height}`. */
  datatype Attachment = Attachment(url: string, mimeType: string, size: nat, width: int, height: int)

  /** The select-all box shows checked: the page is non-empty and every user on it is selected. */
  predicate PageAllSelected(page: seq<string>, selected: seq<string>)
  {
    |page| > 0 && forall i :: 0 <= i < |page| ==> page[i] in selected
  }

  /** The select-all box shows indeterminate: some but not all users on the page are selected. */
  predicate PagePartiallySelected(page: seq<string>, selected: seq<string>)
  {
    |page| > 0 && 0 < CountIn(page, selected) < |page|
  }

  /**
   * The two states exclude each other, the indeterminate one holds exactly
   * when one page user is selected and another is not, and an empty page
   * shows neither.
   */
  lemma SelectAllBoxStates(page: seq<string>, selected: seq<string>)
    ensures !(PageAllSelected(page, selected) && PagePartiallySelected(page, selected))
    ensures PagePartiallySelected(page, selected) <==>
      (exists i :: 0 <= i < |page| && page[i] in selected) && (exists j :: 0 <= j < |page| && page[j] !in selected)
    ensures |page| == 0 ==> !PageAllSelected(page, selected) && !PagePartiallySelected(page, selected)
  {
    CountInSpec(page, selected);
  }

  /** `[...new Set([...selected, ...page])]`. */
  function SelectPage(selected: seq<string>, page: seq<string>): (r: seq<string>)
    ensures NoDuplicates(r)
    ensures forall x :: x in r <==> x in selected || x in page
  {
    Distinct(selected + page)
  }

  /**
   * Selecting a page keeps an existing duplicate-free selection in front,
   * in its order, and leaves the box checked.
   */
  lemma SelectPageSpec(selected: seq<string>, page: seq<string>)
    requires NoDuplicates(selected)
    ensures var r := SelectPage(selected, page); |selected| <= |r| && r[..|selected|] == selected
    ensures |page| > 0 ==> PageAllSelected(page, SelectPage(selected, page))
  {
    DistinctKeepsPrefix(selected, page);
  }

  /** The MIME type prefixes an attachment may have. */
  const ALLOWED_TYPES: seq<string> := ["image/", "video/", "audio/", "application/pdf", "text/", "application/zip"]

  /** 50 MiB. */
  const MAX_ATTACHMENT_SIZE: nat := 50 * 1024 * 1024

  /** `allowedTypes.some(type => file.type.startsWith(type))`. */
  predicate AllowedType(mimeType: string)
  {
    exists i :: 0 <= i < |ALLOWED_TYPES| && StartsWith(mimeType, ALLOWED_TYPES[i])
  }

  /** An attachment passes both checks: an allowed type and at most 50 MiB. */
  predicate AttachmentAllowed(mimeType: string, size: nat)
  {
    AllowedType(mimeType) && size <= MAX_ATTACHMENT_SIZE
  }

  lemma AttachmentExamples()
    ensures AttachmentAllowed("image/png", MAX_ATTACHMENT_SIZE)
    ensures !AttachmentAllowed("image/png", MAX_ATTACHMENT_SIZE + 1)
    ensures !AttachmentAllowed("application/msword", 1)
  {
    assert StartsWith("image/png", ALLOWED_TYPES[0]);
    var t := "application/msword";
    assert t[0] == 'a' && t[1] == 'p' && t[12] == 'm';
    assert ALLOWED_TYPES[0][0] == 'i' && ALLOWED_TYPES[1][0] == 'v' && ALLOWED_TYPES[2][1] == 'u';
    assert ALLOWED_TYPES[3][12] == 'p' && ALLOWED_TYPES[4][0] == 't' && ALLOWED_TYPES[5][12] == 'z';
  }

  /**
   * What the page keeps after a successful upload. `probed` is the size the
   * browser reports for an image (`None` when probing fails); other files,
   * and images that cannot be probed, get width and height 0.
   */
  function AttachmentFor(url: string, file: FileUpload.File, probed: Option<(int, int)>): (a: Attachment)
    ensures a.url == url && a.mimeType == file.mimeType && a.size == |file.bytes|
    ensures !StartsWith(file.mimeType, "image/") || probed.None? ==> a.width == 0 && a.height == 0
  {
    var (w, h) := if StartsWith(file.mimeType, "image/") && probed.Some? then probed.value else (0, 0);
    Attachment(url, file.mimeType, |file.bytes|, w, h)
  }

  /**
   * The send form's values. A message field the form never set is `None`;
   * `values.messageContent.trim()` then throws.
   */
  datatype SendForm = SendForm(senderAccount: Option<string>, messageContent: Option<string>, linkUrl: Option<string>, sendToAll: bool)

  datatype Picture = Picture(uuid: string, mimeType: string, size: nat, width: int, height: int, url: string)

  datatype PictureElem = PictureElem(sourcePath: string, sourcePicture: Picture, bigPicture: Picture, snapshotPicture: Picture)

  datatype NotificationContent = NotificationContent(
    notificationName: string,
    notificationType: int,
    text: string,
    externalUrl: string,
    mixType: int,
    pictureElem: Option<PictureElem>)

  datatype PushInfo = PushInfo(title: string, desc: string, ex: string, iOSPushSound: string, iOSBadgeCount: bool)

  datatype NotificationRequest = NotificationRequest(
    isSendAll: bool,
    sendID: string,
    recvIDs: seq<string>,
    groupID: string,
    senderNickname: string,
    senderFaceURL: string,
    senderPlatformID: int,
    content: NotificationContent,
    contentType: int,
    sessionType: int,
    isOnlineOnly: bool,
    notOfflinePush: bool,
    offlinePushInfo: PushInfo)

  /** The send handler before the request goes out: a notice that stops it, an exception, or the request. */
  datatype SendDecision = Rejected(notice: string) | Crashed | Send(request: NotificationRequest)

  /** `accounts.find(account => account.userID === id)`. */
  function FindAccount(accounts: seq<Account>, id: string): (r: Option<Account>)
    ensures r.Some? ==> r.value in accounts && r.value.userID == id
    ensures r.None? <==> forall i :: 0 <= i < |accounts| ==> accounts[i].userID != id
  {
    if |accounts| == 0 then None
    else if accounts[0].userID == id then Some(accounts[0])
    else FindAccount(accounts[1..], id)
  }

  /** The picture element an image attachment gets; its three pictures are the same picture. */
  function PictureFor(a: Attachment, uuid: string): PictureElem
  {
    var p := Picture(uuid, a.mimeType, a.size, a.width, a.height, a.url);
    PictureElem("", p, p, p)
  }

  const NO_SENDER := "请选择发送账号"
  const NO_TEXT := "请输入消息内容"
  const NO_RECIPIENT := "请选择接收用户或勾选\"发送所有已注册用户\""
  const UNKNOWN_SENDER := "发送账号信息不存在"
  const SEND_FAILED := "发送通知失败"

  /** The sender is chosen, the text is present and not blank, there are recipients and the sender is a known account. */
  predicate Sendable(form: SendForm, selected: seq<string>, accounts: seq<Account>)
  {
    && form.senderAccount.Some? && form.senderAccount.value != ""
    && form.messageContent.Some? && !IsBlank(form.messageContent.value)
    && (form.sendToAll || |selected| > 0)
    && FindAccount(accounts, form.senderAccount.value).Some?
  }

  /**
   * `handleSendNotification` up to the request: four checks in order, each
   * stopping the send with its notice, then the request. `uuid` stands for
   * the random UUID the page generates for an image.
   */
  function BuildNotification(form: SendForm, selected: seq<string>, accounts: seq<Account>,
                             attachment: Option<Attachment>, uuid: string): (d: SendDecision)
    ensures form.senderAccount.None? || form.senderAccount.value == "" ==> d == Rejected(NO_SENDER)
    ensures form.senderAccount.Some? && form.senderAccount.value != "" && form.messageContent.None? ==> d == Crashed
    ensures (form.senderAccount.Some? && form.senderAccount.value != "" && form.messageContent.Some?
      && IsBlank(form.messageContent.value)) ==> d == Rejected(NO_TEXT)
    ensures d == Rejected(NO_RECIPIENT) <==>
      (form.senderAccount.Some? && form.senderAccount.value != "" && form.messageContent.Some?
      && !IsBlank(form.messageContent.value) && !form.sendToAll && |selected| == 0)
    ensures (form.senderAccount.Some? && form.senderAccount.value != "" && form.messageContent.Some?
      && !IsBlank(form.messageContent.value) && (form.sendToAll || |selected| > 0)
      && FindAccount(accounts, form.senderAccount.value).None?) ==> d == Rejected(UNKNOWN_SENDER)
    ensures d.Send? <==> Sendable(form, selected, accounts)
    ensures d.Send? ==> SendsTo(d.request, form.senderAccount.value, form.sendToAll, selected)
    ensures d.Send? ==> DescribesSender(d.request, FindAccount(accounts, form.senderAccount.value).value)
    ensures d.Send? ==> CarriesMessage(d.request, form.messageContent.value, form.linkUrl, attachment, uuid)
  {
    if form.senderAccount.None? || form.senderAccount.value == "" then Rejected(NO_SENDER)
    else if form.messageContent.None? then Crashed
    else if IsBlank(form.messageContent.value) then Rejected(NO_TEXT)
    else if !form.sendToAll && |selected| == 0 then Rejected(NO_RECIPIENT)
    else
      var sender := FindAccount(accounts, form.senderAccount.value);
      if sender.None? then Rejected(UNKNOWN_SENDER)
      else
        var text := form.messageContent.value;
        var picture := if attachment.Some? && StartsWith(attachment.value.mimeType, "image/")
          then Some(PictureFor(attachment.value, uuid)) else None;
        Send(NotificationRequest(
          form.sendToAll,
          form.senderAccount.value,
          if form.sendToAll then [] else selected,
          "",
          sender.value.nickName,
          sender.value.faceURL,
          5,
          NotificationContent(sender.value.nickName, 1, text,
            OrOpt(form.linkUrl, text), if attachment.Some? then 1 else 0, picture),
          1400,
          4,
          false,
          false,
          PushInfo("System Notification", text, "", "default", true)))
  }

  /** Sent to everyone with no list, or to exactly the selection, from the chosen account, as a system notification. */
  predicate SendsTo(r: NotificationRequest, sender: string, sendToAll: bool, selected: seq<string>)
  {
    && r.isSendAll == sendToAll
    && r.recvIDs == (if sendToAll then [] else selected)
    && r.sendID == sender
    && r.groupID == "" && r.senderPlatformID == 5
    && r.contentType == 1400 && r.sessionType == 4
    && !r.isOnlineOnly && !r.notOfflinePush
  }

  predicate DescribesSender(r: NotificationRequest, sender: Account)
  {
    r.senderNickname == sender.nickName && r.senderFaceURL == sender.faceURL
    && r.content.notificationName == sender.nickName
  }

  /**
   * The text goes out as the body and the push description; the link falls
   * back to the text; `mixType` flags an attachment; only an image attachment
   * gets a picture element, whose three pictures share the uuid and the
   * attachment's fields.
   */
  predicate CarriesMessage(r: NotificationRequest, text: string, linkUrl: Option<string>, attachment: Option<Attachment>, uuid: string)
  {
    && r.content.text == text
    && r.content.notificationType == 1
    && r.content.externalUrl == OrOpt(linkUrl, text)
    && r.content.mixType == (if attachment.Some? then 1 else 0)
    && (r.content.pictureElem.Some? <==> attachment.Some? && StartsWith(attachment.value.mimeType, "image/"))
    && (r.content.pictureElem.Some? ==>
          var p := r.content.pictureElem.value;
          p.sourcePath == "" && p.sourcePicture == p.bigPicture == p.snapshotPicture
          && p.sourcePicture == Picture(uuid, attachment.value.mimeType, attachment.value.size,
                                        attachment.value.width, attachment.value.height, attachment.value.url))
    && r.offlinePushInfo == PushInfo("System Notification", text, "", "default", true)
  }

  /** What `sendNotification` answers: the envelope, with the length of `data.results` when there is one. */
  type SendReply = Reply<Option<nat>>

  /** The notice the send shows for the service's answer. */
  function SendNotice(reply: SendReply): (notice: string)
    ensures reply.Threw? ==> notice == SEND_FAILED
    ensures reply.Answered? && reply.errCode != 0 ==> notice == "发送失败: " + reply.errMsg
    ensures reply.Succeeded() ==> notice == "通知发送成功，共发送给 " + IntToString(reply.data.GetOr(0)) + " 个用户"
  {
    match reply
    case Threw(_) => SEND_FAILED
    case Answered(code, msg, data) =>
      if code == 0 then "通知发送成功，共发送给 " + IntToString(data.GetOr(0)) + " 个用户"
      else "发送失败: " + msg
  }

  /**
   * The page's state: the selected recipients, and the uploaded attachment
   * with its url. No recipient is ever selected twice.
   */
  class PublishPage {
    var selected: seq<string>
    var attachment: Option<Attachment>
    var attachmentUrl: string

    ghost predicate Valid()
      reads this
    {
      NoDuplicates(selected) && (attachment.Some? ==> attachmentUrl == attachment.value.url)
    }

    constructor()
      ensures Valid() && selected == [] && attachment == None && attachmentUrl == ""
    {
      selected := [];
      attachment := None;
      attachmentUrl := "";
    }

    /**
     * A row checkbox changed. It shows `selected.includes(userID)`, so it
     * reports checked exactly when the id was not selected.
     */
    method CheckboxChange(userID: string, checked: bool)
      requires Valid() && (checked <==> userID !in selected)
      modifies this
      ensures Valid()
      ensures selected == Toggle(old(selected), userID)
      ensures attachment == old(attachment) && attachmentUrl == old(attachmentUrl)
    {
      if checked {
        selected := selected + [userID];
      } else {
        selected := Without(selected, userID);
      }
    }

    /** A row avatar was clicked. */
    method AvatarClick(userID: string)
      requires Valid()
      modifies this
      ensures Valid()
      ensures selected == Toggle(old(selected), userID)
      ensures attachment == old(attachment) && attachmentUrl == old(attachmentUrl)
    {
      ToggleKeepsNoDuplicates(selected, userID);
      if userID in selected {
        selected := Without(selected, userID);
      } else {
        selected := selected + [userID];
      }
    }

    /** An avatar in the selected-users preview was clicked. */
    method RemoveRecipient(userID: string)
      requires Valid()
      modifies this
      ensures Valid()
      ensures selected == Without(old(selected), userID)
      ensures attachment == old(attachment) && attachmentUrl == old(attachmentUrl)
    {
      selected := Without(selected, userID);
    }

    /** `handleSelectAll(checked)` for the user ids of the current page. */
    method SelectAll(checked: bool, page: seq<string>)
      requires Valid()
      modifies this
      ensures Valid()
      ensures checked ==> selected == SelectPage(old(selected), page)
      ensures !checked ==> selected == []
      ensures attachment == old(attachment) && attachmentUrl == old(attachmentUrl)
    {
      if checked {
        selected := SelectPage(selected, page);
      } else {
        selected := [];
      }
    }

    /** The clear-selection button. */
    method Clear()
      requires Valid()
      modifies this
      ensures Valid() && selected == []
      ensures attachment == old(attachment) && attachmentUrl == old(attachmentUrl)
    {
      selected := [];
    }

    /**
     * `handleAttachmentUpload`: the type, then the size, is checked; an
     * accepted file is uploaded as `notification/attachment/<name>`, and only
     * a successful upload replaces the attachment. `probed` is the image size
     * the browser reports, `None` when it cannot. Returns the notice shown.
     */
    method UploadAttachment(md5: Hasher, backend: FileUpload.Backend, file: FileUpload.File, probed: Option<(int, int)>)
      returns (notice: string, calls: seq<FileUpload.Call>)
      requires Valid()
      modifies this
      ensures Valid() && selected == old(selected)
      ensures !AttachmentAllowed(file.mimeType, |file.bytes|) ==>
        calls == [] && attachment == old(attachment) && attachmentUrl == old(attachmentUrl)
      ensures !AllowedType(file.mimeType) ==> notice == "不支持的文件类型"
      ensures AllowedType(file.mimeType) && |file.bytes| > MAX_ATTACHMENT_SIZE ==> notice == "文件大小不能超过50MB"
      ensures AttachmentAllowed(file.mimeType, |file.bytes|) && backend.partSize.Succeeded() ==>
        |calls| >= 2 && calls[1].InitiateCall? && calls[1].init.name == "notification/attachment/" + file.name
      ensures attachment != old(attachment) ==>
        attachment.Some? && attachment.value.mimeType == file.mimeType && attachment.value.size == |file.bytes|
        && notice == "附件上传成功"
      ensures AttachmentAllowed(file.mimeType, |file.bytes|) ==>
        var config := FileUpload.GenericConfig(file, "notification/attachment/" + file.name);
        FileUpload.UploadTrace(md5, backend, file, config, FileUpload.ExpectedResult(backend, config), calls)
      ensures AttachmentAllowed(file.mimeType, |file.bytes|) ==>
        var r := FileUpload.ExpectedResult(backend, FileUpload.GenericConfig(file, "notification/attachment/" + file.name));
        attachment == (if r.success then Some(AttachmentFor(r.url, file, probed)) else old(attachment))
        && attachmentUrl == (if r.success then r.url else old(attachmentUrl))
        && notice == (if r.success then "附件上传成功" else "附件上传失败: " + FileUpload.FailureText(r))
    {
      if !AllowedType(file.mimeType) {
        return "不支持的文件类型", [];
      }
      if |file.bytes| > MAX_ATTACHMENT_SIZE {
        return "文件大小不能超过50MB", [];
      }
      var result;
      result, calls := FileUpload.UploadGenericFile(md5, backend, file, "notification/attachment/" + file.name);
      if result.success {
        var a := AttachmentFor(result.url, file, probed);
        attachmentUrl := result.url;
        attachment := Some(a);
        notice := "附件上传成功";
      } else {
        notice := "附件上传失败: " + FileUpload.FailureText(result);
      }
    }

    /**
     * `handleSendNotification`. Nothing is sent when a check stops it or the
     * message field is missing; a request that goes out is the one
     * `BuildNotification` describes, and only a success code clears the
     * selection and the attachment. `reply` is what the service answers.
     */
    method SendNotification(form: SendForm, accounts: seq<Account>, uuid: string, reply: SendReply)
      returns (notice: string, sent: Option<NotificationRequest>)
      requires Valid()
      modifies this
      ensures Valid()
      ensures var d := BuildNotification(form, old(selected), accounts, old(attachment), uuid);
        && (d.Rejected? ==> sent.None? && notice == d.notice)
        && (d.Crashed? ==> sent.None? && notice == SEND_FAILED)
        && (d.Send? ==> sent == Some(d.request) && notice == SendNotice(reply))
      ensures sent.Some? && reply.Succeeded() ==> selected == [] && attachment.None? && attachmentUrl == ""
      ensures sent.None? || !reply.Succeeded() ==>
        selected == old(selected) && attachment == old(attachment) && attachmentUrl == old(attachmentUrl)
    {
      var d := BuildNotification(form, selected, accounts, attachment, uuid);
      if d.Rejected? {
        return d.notice, None;
      }
      if d.Crashed? {
        return SEND_FAILED, None;
      }
      sent := Some(d.request);
      notice := SendNotice(reply);
      if reply.Succeeded() {
        selected := [];
        attachmentUrl := "";
        attachment := None;
      }
    }
  }
}
