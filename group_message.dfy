/**
 * The group message page (pages/im/message/group_message/index.tsx): the
 * search request, the preview text of a message body and the group
 * conversation view. Revoking uses the same request as the single-chat
 * page (`UserMessage.RevokeRequestFor`).
 */
module GroupMessage {
  import opened Optional
  import opened JsText
  import opened JsValues
  import opened Api
  import opened ChatLogs
  import opened DayFormat
  import UserMessage

  /** The group search form's values. */
  datatype GroupSearchForm = GroupSearchForm(
    current: Option<int>,
    pageSize: Option<int>,
    groupID: Option<string>,
    sendID: Option<string>,
    contentType: FieldValue,
    content: Option<string>,
    sendTime: Option<Day>)

  /** Group messages are searched with session type 3. */
  const GROUP_SESSION: int := 3

  /**
   * `fetchGroupMessages`' request. `today` is the day `dayjs()` reads from
   * the clock, used when no day is selected.
   */
  method BuildGroupSearchQuery(form: GroupSearchForm, today: Day) returns (q: MessageQuery)
    ensures q.sessionType == Some(GROUP_SESSION)
    ensures q.pagination == Pagination(PageField(form.current, 1), PageField(form.pageSize, 10))
    ensures q.recvID.Some? <==> HasText(form.groupID)
    ensures q.recvID.Some? ==> q.recvID == form.groupID
    ensures q.sendID.Some? <==> HasText(form.sendID)
    ensures q.sendID.Some? ==> q.sendID == form.sendID
    ensures q.contentType.Some? <==> form.contentType.Number? && form.contentType.n != 0
    ensures q.contentType.Some? ==> q.contentType.value == form.contentType.n
    ensures q.content.Some? <==> HasText(form.content)
    ensures q.content.Some? ==> q.content == form.content
    ensures q.sendTime == Some(Format(form.sendTime.GetOr(today)))
  {
    var sendTime: string;
    if form.sendTime.Some? {
      sendTime := Format(form.sendTime.value);
    } else {
      sendTime := Format(today);
    }
    q := MessageQuery(Pagination(PageField(form.current, 1), PageField(form.pageSize, 10)), None, None, None, Some(GROUP_SESSION), None, None);
    if HasText(form.groupID) {
      q := q.(recvID := form.groupID);
    }
    if HasText(form.sendID) {
      q := q.(sendID := form.sendID);
    }
    if form.contentType.Number? && form.contentType.n != 0 {
      q := q.(contentType := Some(form.contentType.n));
    }
    if HasText(form.content) {
      q := q.(content := form.content);
    }
    q := q.(sendTime := Some(sendTime));
  }

  /** The group page's labels; it shortens most of the single-chat ones and adds 1511. */
  function Label(contentType: int): Option<string>
  {
    match contentType
    case 102 => Some("[图片]")
    case 103 => Some("[语音]")
    case 104 => Some("[视频]")
    case 105 => Some("[文件]")
    case 106 => Some("[位置]")
    case 107 => Some("[自定义]")
    case 108 => Some("[引用]")
    case 109 => Some("[表情]")
    case 110 => Some("[名片]")
    case 111 => Some("[合并转发]")
    case 1511 => Some("[群组信息变更]")
    case _ => UserMessage.Label(contentType)
  }

  predicate Listed(contentType: int)
  {
    contentType == 101 || Label(contentType).Some?
  }

  /** `v.outer?.inner`: undefined when the outer property is missing or null. */
  function NestedField(v: JsValue, outer: string, inner: string): Option<JsValue>
    requires !v.JsNull?
  {
    var o := Field(v, outer);
    if o.None? || o.value.JsNull? then None else Field(o.value, inner)
  }

  /** `${x ? `时长: ${x}秒` : fallback}`. */
  function DurationText(duration: Option<JsValue>, fallback: string): string
  {
    if IsTruthy(duration) then "时长: " + ToText(duration.value) + "秒" else fallback
  }

  function Detail(contentType: int, v: JsValue, content: string): string
    requires !v.JsNull?
  {
    match contentType
    case 102 => " " + (if IsTruthy(NestedField(v, "sourcePicture", "url")) then "已发送图片" else "图片消息")
    case 103 => " " + DurationText(Field(v, "duration"), "语音消息")
    case 104 => " " + (if IsTruthy(Field(v, "videoUrl")) then "已发送视频" else "视频消息")
    case 105 => " " + TextOr(Field(v, "fileName"), "文件消息")
    case 106 => " " + TextOr(Field(v, "description"), "位置消息")
    case 107 => " " + TextOr(Field(v, "data"), content)
    case 108 => " " + TextOr(Field(v, "text"), content)
    case 109 => " " + TextOr(Field(v, "data"), "表情消息")
    case 110 => " " + TextOr(Field(v, "nickname"), "名片消息")
    case 111 => " " + TextOr(Field(v, "title"), "合并转发消息")
    case 1511 => " " + (if IsTruthy(Field(v, "detail")) then "群组信息已更新" else "群组信息变更")
    case _ => UserMessage.Detail(contentType, v, content)
  }

  /** The group page's `parseMessageContent`; `parsed` is as for the single-chat page. */
  function ParseMessageContent(content: string, contentType: int, parsed: Option<JsValue>): (r: string)
    ensures parsed.None? || !Listed(contentType) ==> r == content
    ensures parsed == Some(JsNull) && !UserMessage.LabelOnly(contentType) ==> r == content
    ensures parsed.Some? && (!parsed.value.JsNull? || UserMessage.LabelOnly(contentType)) && Label(contentType).Some?
      ==> Label(contentType).value <= r
    ensures parsed.Some? && !parsed.value.JsNull? && contentType == 1511
      ==> r == (if IsTruthy(Field(parsed.value, "detail")) then "[群组信息变更] 群组信息已更新" else "[群组信息变更] 群组信息变更")
  {
    if parsed.None? || !Listed(contentType) then content
    else if parsed.value.JsNull? && !UserMessage.LabelOnly(contentType) then content
    else if contentType == 101 then TextOr(Field(parsed.value, "content"), content)
    else if UserMessage.LabelOnly(contentType) then Label(contentType).value
    else Label(contentType).value + Detail(contentType, parsed.value, content)
  }

  /**
   * The two pages preview text, link, system, group-event, friend-request
   * and call messages alike; the single-chat page shows 1511 raw.
   */
  lemma SharedTemplates(content: string, contentType: int, parsed: Option<JsValue>)
    ensures contentType == 101 || 112 <= contentType <= 120 || 1201 <= contentType <= 1206 || contentType == 1701
      ==> ParseMessageContent(content, contentType, parsed) == UserMessage.ParseMessageContent(content, contentType, parsed)
    ensures UserMessage.ParseMessageContent(content, 1511, parsed) == content
  {
  }

  /** The search `fetchGroupConversationMessages` sends for a group. */
  function GroupConversationQuery(groupID: string): (q: MessageQuery)
    ensures q.sessionType == Some(GROUP_SESSION) && q.recvID == Some(groupID) && q.pagination == Pagination(1, 100)
    ensures q.sendID.None? && q.contentType.None? && q.content.None? && q.sendTime.None?
  {
    MessageQuery(Pagination(1, 100), Some(groupID), None, None, Some(GROUP_SESSION), None, None)
  }

  /**
   * The records the conversation view holds after the fetch: `data.chatLogs
   * || []` on success; an error code, an exception, or a successful envelope
   * without `data` (whose read throws) leaves it empty.
   */
  function GroupConversation(reply: Reply<Option<Page<MessageItem>>>): (r: seq<MessageItem>)
    ensures !reply.Succeeded() || reply.data.None? ==> r == []
    ensures reply.Succeeded() && reply.data.Some? ==> r == reply.data.value.items.GetOr([])
  {
    ToListResult(reply).data
  }

  /** The order the view renders the records in: ascending `sendTime`, nothing added or dropped. */
  function ShownConversation(reply: Reply<Option<Page<MessageItem>>>): (r: seq<MessageItem>)
    ensures SortedByTime(r)
    ensures multiset(r) == multiset(GroupConversation(reply))
  {
    SortByTime(GroupConversation(reply))
  }
}
