/**
 * The older message list (pages/im/message/user_message/UserMessageList.tsx):
 * status, session and type labels, a shorter preview switch, a search that
 * always sends every filter, and revoking by server message id.
 */
module UserMessageList {
  import opened Optional
  import opened JsText
  import opened JsValues
  import opened ChatLogs
  import opened Api
  import UserMessage

  /** A coloured tag. */
  datatype Tag = Tag(text: string, color: string)

  /** `getMessageStatus`: a revoked message is shown as revoked whatever its status. */
  function MessageStatus(status: int, isRevoked: bool): (t: Tag)
    ensures isRevoked ==> t == Tag("已撤回", "red")
    ensures !isRevoked && status == 0 ==> t == Tag("发送中", "orange")
    ensures !isRevoked && status == 2 ==> t == Tag("已送达", "green")
    ensures !isRevoked && status != 0 && status != 2 ==> t == Tag("未知", "default")
  {
    if isRevoked then Tag("已撤回", "red")
    else if status == 0 then Tag("发送中", "orange")
    else if status == 2 then Tag("已送达", "green")
    else Tag("未知", "default")
  }

  /** The revoked tag appears exactly for revoked messages, and every other tag names one status. */
  lemma RevokedTagOnlyForRevoked(status: int, isRevoked: bool)
    ensures MessageStatus(status, isRevoked).text == "已撤回" <==> isRevoked
    ensures MessageStatus(status, isRevoked).text == "发送中" <==> !isRevoked && status == 0
    ensures MessageStatus(status, isRevoked).text == "已送达" <==> !isRevoked && status == 2
  {
  }

  /** `getSessionTypeText`. */
  function SessionTypeText(sessionType: int): (r: string)
  {
    if sessionType == 1 then "单聊" else if sessionType == 2 then "群聊" else "未知"
  }

  /** `getMessageTypeText`. */
  function MessageTypeText(contentType: int): (r: string)
  {
    match contentType
    case 101 => "文本"
    case 103 => "语音"
    case 1201 => "好友申请"
    case 1701 => "会话设置"
    case _ => "其他"
  }

  /** Only single and group chats get a session name, and the two names differ. */
  lemma SessionTextNamesOneType(sessionType: int)
    ensures SessionTypeText(sessionType) == "单聊" <==> sessionType == 1
    ensures SessionTypeText(sessionType) == "群聊" <==> sessionType == 2
    ensures SessionTypeText(sessionType) == "未知" <==> sessionType != 1 && sessionType != 2
  {
  }

  /** `getMessageContent`, with `parsed` as for `UserMessage.ParseMessageContent`. */
  function MessageContent(content: string, contentType: int, parsed: Option<JsValue>): (r: string)
    ensures parsed.None? ==> r == content
    ensures parsed == Some(JsNull) && (contentType == 101 || contentType == 103) ==> r == content
  {
    if parsed.None? then content
    else
      match contentType
      case 101 => if parsed.value.JsNull? then content else TextOr(Field(parsed.value, "content"), "文本消息")
      case 103 => if parsed.value.JsNull? then content else "[语音消息] 时长: " + TextOr(Field(parsed.value, "duration"), "0") + "秒"
      case 1201 => "[好友申请]"
      case 1701 => "[会话设置]"
      case _ => content
  }

  /**
   * The list previews exactly the four types its type column names; every
   * type it calls "其他" is shown raw. A text message without text shows a
   * placeholder where the newer page shows the raw content, voice messages
   * read the same on both pages, and 1701 is a session-settings notice here
   * but a call on the newer page.
   */
  lemma ListPreviewAgainstPage(content: string, contentType: int, parsed: Option<JsValue>)
    ensures MessageTypeText(contentType) == "其他" ==> MessageContent(content, contentType, parsed) == content
    ensures MessageContent(content, 103, parsed) == UserMessage.ParseMessageContent(content, 103, parsed)
    ensures parsed.Some? && !parsed.value.JsNull? && !IsTruthy(Field(parsed.value, "content"))
      ==> MessageContent(content, 101, parsed) == "文本消息" && UserMessage.ParseMessageContent(content, 101, parsed) == content
    ensures parsed.Some? ==> MessageContent(content, 1701, parsed) == "[会话设置]"
    ensures parsed.Some? && !parsed.value.JsNull? ==> StartsWith(UserMessage.ParseMessageContent(content, 1701, parsed), "[音视频通话]")
  {
  }

  /** The list's search form. */
  datatype ListSearchForm = ListSearchForm(
    current: Option<int>,
    pageSize: Option<int>,
    sessionType: FieldValue,
    contentType: FieldValue,
    recvID: Option<string>,
    sendID: Option<string>,
    content: Option<string>)

  /** `x || 0` for a numeric form value. */
  function NumberOrZero(v: FieldValue): (r: int)
    ensures v.Number? ==> r == v.n
    ensures !v.Number? ==> r == 0
  {
    if v.Number? then v.n else 0
  }

  /** The list's request: every filter is sent, missing numbers as 0 and missing text as ''. */
  function ListSearchQuery(form: ListSearchForm): (q: MessageQuery)
    ensures q.sessionType.Some? && q.contentType.Some? && q.recvID.Some? && q.sendID.Some? && q.content.Some?
    ensures q.sendTime.None?
    ensures q.sessionType.value == NumberOrZero(form.sessionType) && q.contentType.value == NumberOrZero(form.contentType)
    ensures q.recvID.value == OrOpt(form.recvID, "") && q.sendID.value == OrOpt(form.sendID, "") && q.content.value == OrOpt(form.content, "")
    ensures q.pagination == Pagination(PageField(form.current, 1), PageField(form.pageSize, 10))
  {
    MessageQuery(
      Pagination(PageField(form.current, 1), PageField(form.pageSize, 10)),
      Some(OrOpt(form.recvID, "")),
      Some(OrOpt(form.sendID, "")),
      Some(NumberOrZero(form.contentType)),
      Some(NumberOrZero(form.sessionType)),
      Some(OrOpt(form.content, "")),
      None)
  }

  /** An empty filter text is sent as '' whether the field was missing or cleared. */
  lemma MissingAndEmptyTextAgree(form: ListSearchForm)
    ensures ListSearchQuery(form.(recvID := None)) == ListSearchQuery(form.(recvID := Some("")))
    ensures ListSearchQuery(form.(content := None)) == ListSearchQuery(form.(content := Some("")))
  {
  }

  /** The revoke action appears only on rows that are not revoked. */
  predicate RevokeOffered(record: MessageItem)
  {
    !record.isRevoked
  }

  /** `{serverMsgID}`: the list revokes by server message id alone. */
  datatype RevokeByIdRequest = RevokeByIdRequest(serverMsgID: string)

  function RevokeRequestFor(record: MessageItem): (r: RevokeByIdRequest)
    requires RevokeOffered(record)
    ensures r.serverMsgID == Id(record)
  {
    RevokeByIdRequest(record.chatLog.serverMsgID)
  }
}
