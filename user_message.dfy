/**
 * The single-chat message page (pages/im/message/user_message/index.tsx):
 * the search request, the preview text of a message body, the revoke
 * request and the conversation view, which merges four searches.
 */
module UserMessage {
  import opened Optional
  import opened JsText
  import opened JsValues
  import opened Api
  import opened ChatLogs
  import opened DayFormat
  import opened Initials

  /** The search form's values, with ProTable's `current` and `pageSize`. */
  datatype SearchForm = SearchForm(
    current: Option<int>,
    pageSize: Option<int>,
    recvID: Option<string>,
    sendID: Option<string>,
    contentType: FieldValue,
    sessionType: FieldValue,
    content: Option<string>,
    sendTime: Option<Day>)

  /**
   * `fetchMessages`' request: pagination with defaults, and each filter
   * only when the form holds a usable value for it.
   */
  method BuildSearchQuery(form: SearchForm) returns (q: MessageQuery)
    ensures q.pagination == Pagination(PageField(form.current, 1), PageField(form.pageSize, 10))
    ensures q.recvID.Some? <==> HasText(form.recvID)
    ensures q.recvID.Some? ==> q.recvID == form.recvID
    ensures q.sendID.Some? <==> HasText(form.sendID)
    ensures q.sendID.Some? ==> q.sendID == form.sendID
    ensures q.contentType.Some? <==> form.contentType.Number? && form.contentType.n != 0
    ensures q.contentType.Some? ==> q.contentType.value == form.contentType.n
    ensures q.sessionType.Some? <==> form.sessionType.Number?
    ensures q.sessionType.Some? ==> q.sessionType.value == form.sessionType.n
    ensures q.content.Some? <==> HasText(form.content)
    ensures q.content.Some? ==> q.content == form.content
    ensures q.sendTime.Some? <==> form.sendTime.Some?
    ensures q.sendTime.Some? ==> q.sendTime.value == Format(form.sendTime.value)
  {
    var sendTime: Option<string> := None;
    if form.sendTime.Some? {
      sendTime := Some(Format(form.sendTime.value));
    }
    q := MessageQuery(Pagination(PageField(form.current, 1), PageField(form.pageSize, 10)), None, None, None, None, None, None);
    if HasText(form.recvID) {
      q := q.(recvID := form.recvID);
    }
    if HasText(form.sendID) {
      q := q.(sendID := form.sendID);
    }
    if form.contentType.Number? && form.contentType.n != 0 {
      q := q.(contentType := Some(form.contentType.n));
    }
    if form.sessionType.Number? {
      q := q.(sessionType := Some(form.sessionType.n));
    }
    if HasText(form.content) {
      q := q.(content := form.content);
    }
    if sendTime.Some? {
      q := q.(sendTime := sendTime);
    }
  }

  /** The bracketed label each listed content type's preview starts with; 101 (text) has none. */
  function Label(contentType: int): Option<string>
  {
    match contentType
    case 102 => Some("[图片消息]")
    case 103 => Some("[语音消息]")
    case 104 => Some("[视频消息]")
    case 105 => Some("[文件消息]")
    case 106 => Some("[位置消息]")
    case 107 => Some("[自定义消息]")
    case 108 => Some("[引用消息]")
    case 109 => Some("[表情消息]")
    case 110 => Some("[名片消息]")
    case 111 => Some("[合并转发]")
    case 112 => Some("[链接消息]")
    case 113 => Some("[系统消息]")
    case 114 => Some("[撤回消息]")
    case 115 => Some("[群公告]")
    case 116 => Some("[群成员变更]")
    case 117 => Some("[群名称变更]")
    case 118 => Some("[群头像变更]")
    case 119 => Some("[群禁言]")
    case 120 => Some("[群解禁]")
    case 1201 => Some("[好友申请]")
    case 1202 => Some("[好友申请通过]")
    case 1203 => Some("[好友申请拒绝]")
    case 1204 => Some("[好友删除]")
    case 1205 => Some("[好友申请撤回]")
    case 1206 => Some("[好友申请过期]")
    case 1701 => Some("[音视频通话]")
    case _ => None
  }

  /** The content types the preview switch lists. */
  predicate Listed(contentType: int)
  {
    contentType == 101 || Label(contentType).Some?
  }

  /** The listed types whose template does not read the parsed body. */
  predicate LabelOnly(contentType: int)
  {
    contentType in {114, 118, 1202, 1203, 1204, 1205, 1206}
  }

  /** What a labelled template writes after its label, reading properties of the parsed body `v`. */
  function Detail(contentType: int, v: JsValue, content: string): string
    requires !v.JsNull?
  {
    match contentType
    case 102 => " " + (if IsTruthy(Field(v, "sourceUrl")) then "已上传" else "未上传")
    case 103 => " 时长: " + TextOr(Field(v, "duration"), "0") + "秒"
    case 104 => " 时长: " + TextOr(Field(v, "duration"), "0") + "秒"
    case 105 => " " + TextOr(Field(v, "fileName"), "未知文件")
    case 106 => " " + TextOr(Field(v, "description"), "未知位置")
    case 107 => " " + TextOr(Field(v, "data"), content)
    case 108 => " " + TextOr(Field(v, "text"), content)
    case 109 => " " + TextOr(Field(v, "emoji"), "\U{1F600}")
    case 110 => " " + TextOr(Field(v, "nickname"), "未知用户")
    case 111 => " " + TextOr(Field(v, "title"), "聊天记录")
    case 112 => " " + TextOr(OrValue(Field(v, "title"), Field(v, "url")), "未知链接")
    case 1201 => " " + TextOr(Field(v, "reqMsg"), "申请添加好友")
    case 1701 =>
      var duration := Field(v, "duration");
      " " + (if IsTruthy(duration) then "时长: " + ToText(duration.value) + "秒" else "")
    case _ => if LabelOnly(contentType) then "" else " " + TextOr(Field(v, "text"), content)
  }

  /**
   * `parseMessageContent(content, contentType)`, where `parsed` is what
   * `JSON.parse(content)` returns, or `None` when it throws. Reading a
   * property of a `null` body throws too; both are caught and the raw
   * content is shown.
   */
  function ParseMessageContent(content: string, contentType: int, parsed: Option<JsValue>): (r: string)
    ensures parsed.None? || !Listed(contentType) ==> r == content
    ensures parsed == Some(JsNull) && !LabelOnly(contentType) ==> r == content
    ensures parsed.Some? && (!parsed.value.JsNull? || LabelOnly(contentType)) && Label(contentType).Some?
      ==> Label(contentType).value <= r
    ensures parsed.Some? && !parsed.value.JsNull? && contentType == 101
      ==> r == TextOr(Field(parsed.value, "content"), content)
  {
    if parsed.None? || !Listed(contentType) then content
    else if parsed.value.JsNull? && !LabelOnly(contentType) then content
    else if contentType == 101 then TextOr(Field(parsed.value, "content"), content)
    else if LabelOnly(contentType) then Label(contentType).value
    else Label(contentType).value + Detail(contentType, parsed.value, content)
  }

  /** A label is `[`, text without `]`, then `]`. */
  predicate Bracketed(l: string)
  {
    |l| >= 2 && l[0] == '[' && l[|l| - 1] == ']' && forall i :: 0 <= i < |l| - 1 ==> l[i] != ']'
  }

  lemma LabelsBracketed(contentType: int)
    requires Label(contentType).Some?
    ensures Bracketed(Label(contentType).value)
  {
  }

  /** Of two bracketed labels, one is a prefix of the other only when they are equal. */
  lemma BracketedPrefix(a: string, b: string)
    requires Bracketed(a) && Bracketed(b) && a <= b
    ensures a == b
  {
    assert b[|a| - 1] == a[|a| - 1] == ']';
  }

  lemma LabelsDistinct(a: int, b: int)
    requires Label(a).Some? && Label(b).Some? && Label(a).value == Label(b).value
    ensures a == b
  {
    var l := Label(a).value;
    assert |l| == |Label(b).value| && l[1] == Label(b).value[1] && l[|l| - 2] == Label(b).value[|l| - 2];
  }

  /**
   * The preview text tells the content type apart: two labelled previews
   * that are the same text belong to the same content type.
   */
  lemma PreviewDeterminesType(c1: string, t1: int, p1: Option<JsValue>, c2: string, t2: int, p2: Option<JsValue>)
    requires p1.Some? && (!p1.value.JsNull? || LabelOnly(t1)) && Label(t1).Some?
    requires p2.Some? && (!p2.value.JsNull? || LabelOnly(t2)) && Label(t2).Some?
    requires ParseMessageContent(c1, t1, p1) == ParseMessageContent(c2, t2, p2)
    ensures t1 == t2
  {
    var r := ParseMessageContent(c1, t1, p1);
    LabelsBracketed(t1);
    LabelsBracketed(t2);
    assert Label(t1).value == Label(t2).value;
    LabelsDistinct(t1, t2);
  }

  /** `si_${sendID}_${recvID}`. */
  function ConversationID(sendID: string, recvID: string): string
  {
    "si_" + sendID + "_" + recvID
  }

  /** The revoke request: the sender revokes the record's sequence number in their conversation. */
  datatype RevokeRequest = RevokeRequest(userID: string, conversationID: string, msgSeq: int)

  function RevokeRequestFor(record: MessageItem): (r: RevokeRequest)
    ensures r.userID == record.chatLog.sendID && r.msgSeq == record.chatLog.msgSeq
    ensures StartsWith(r.conversationID, "si_" + record.chatLog.sendID + "_")
    ensures r.conversationID == "si_" + record.chatLog.sendID + "_" + record.chatLog.recvID
  {
    RevokeRequest(record.chatLog.sendID, ConversationID(record.chatLog.sendID, record.chatLog.recvID), record.chatLog.msgSeq)
  }

  /**
   * While sender ids hold no underscore, the conversation id names its pair
   * unambiguously: equal ids mean the same sender and the same receiver.
   */
  lemma ConversationIDDeterminesPair(s1: string, r1: string, s2: string, r2: string)
    requires Excludes(s1, '_') && Excludes(s2, '_')
    requires ConversationID(s1, r1) == ConversationID(s2, r2)
    ensures s1 == s2 && r1 == r2
  {
    var t := ConversationID(s1, r1)[3..];
    assert t == s1 + "_" + r1;
    assert t == ConversationID(s2, r2)[3..] == s2 + "_" + r2;
    assert t[|s1|] == '_' && t[|s2|] == '_';
    assert forall i :: 0 <= i < |s1| ==> t[i] == s1[i];
    assert forall i :: 0 <= i < |s2| ==> t[i] == s2[i];
    assert s1 == t[..|s1|] == s2;
    assert r1 == t[|s1| + 1..] == r2;
  }

  /** A search whose only filters are the two parties. */
  function PairQuery(sendID: string, recvID: string): MessageQuery
  {
    MessageQuery(Pagination(1, 50), Some(recvID), Some(sendID), None, None, None, None)
  }

  /** The four searches `fetchConversationMessages` sends, in order: each direction twice. */
  function ConversationQueries(sendID: string, recvID: string): (r: seq<MessageQuery>)
    ensures |r| == 4 && r[0] == r[3] && r[1] == r[2]
    ensures r[0].sendID == Some(sendID) && r[0].recvID == Some(recvID)
    ensures r[1].sendID == Some(recvID) && r[1].recvID == Some(sendID)
    ensures forall i :: 0 <= i < 4 ==> r[i].pagination == Pagination(1, 50) && r[i].content.None? && r[i].sendTime.None?
  {
    [PairQuery(sendID, recvID), PairQuery(recvID, sendID), PairQuery(recvID, sendID), PairQuery(sendID, recvID)]
  }

  /** One answer of the conversation search; `data` holds `data.chatLogs` when both are present. */
  type ConversationReply = Reply<Option<seq<MessageItem>>>

  datatype ConversationOutcome = Loaded(messages: seq<MessageItem>) | Failed(notice: string)

  const ExceptionNotice: string := "获取聊天记录失败，请重试"
  const ErrorFallback: string := "获取聊天记录失败"

  /** The chat logs a reply contributes to the merge. */
  function LogsIn(r: ConversationReply): seq<MessageItem>
  {
    if r.Answered? && r.data.Some? then r.data.value else []
  }

  /** All replies' chat logs, in reply order. */
  function LogsOf(replies: seq<ConversationReply>): seq<MessageItem>
  {
    if |replies| == 0 then [] else LogsOf(replies[..|replies| - 1]) + LogsIn(replies[|replies| - 1])
  }

  predicate AnyThrew(replies: seq<ConversationReply>)
  {
    exists i :: 0 <= i < |replies| && replies[i].Threw?
  }

  /** `responses.findIndex(resp => resp.errCode !== 0)`, for answered replies. */
  function FirstFailure(replies: seq<ConversationReply>): (k: int)
    requires !AnyThrew(replies)
    ensures -1 <= k < |replies|
    ensures k >= 0 ==> replies[k].errCode != 0 && forall j :: 0 <= j < k ==> replies[j].errCode == 0
    ensures k == -1 ==> forall j :: 0 <= j < |replies| ==> replies[j].errCode == 0
  {
    if |replies| == 0 then -1
    else if replies[0].errCode != 0 then 0
    else
      var k := FirstFailure(replies[1..]);
      if k == -1 then -1 else k + 1
  }

  /**
   * `fetchConversationMessages` once the four searches have answered:
   * any exception or non-zero `errCode` empties the view; otherwise the
   * chat logs are concatenated in reply order, the first record per
   * `serverMsgID` is kept and the result is ordered by `sendTime`.
   */
  method MergeConversation(replies: seq<ConversationReply>) returns (outcome: ConversationOutcome)
    ensures AnyThrew(replies) ==> outcome == Failed(ExceptionNotice)
    ensures !AnyThrew(replies) && FirstFailure(replies) >= 0
      ==> outcome == Failed(Or(replies[FirstFailure(replies)].errMsg, ErrorFallback))
    ensures outcome.Loaded? <==> !AnyThrew(replies) && FirstFailure(replies) == -1
    ensures outcome.Loaded? ==> outcome.messages == SortByTime(KeepFirstPerId(LogsOf(replies)))
    ensures outcome.Loaded? ==> IsMergedConversation(LogsOf(replies), outcome.messages)
  {
    if exists i :: 0 <= i < |replies| && replies[i].Threw? {
      return Failed(ExceptionNotice);
    }
    var failed := FirstFailure(replies);
    if failed >= 0 {
      return Failed(Or(replies[failed].errMsg, ErrorFallback));
    }
    var all: seq<MessageItem> := [];
    var i := 0;
    while i < |replies|
      invariant 0 <= i <= |replies|
      invariant all == LogsOf(replies[..i])
    {
      assert replies[..i + 1][..i] == replies[..i];
      if replies[i].data.Some? {
        all := all + replies[i].data.value;
      }
      i := i + 1;
    }
    assert replies[..i] == replies;
    var unique := KeepFirstPerId(all);
    outcome := Loaded(SortByTime(unique));
    MergedConversationSpec(all);
  }

  /**
   * What the view shows for the concatenated logs: no id twice, ascending
   * `sendTime`, only records of the logs, each the first of its id, and one
   * record for every id the logs carry.
   */
  predicate IsMergedConversation(logs: seq<MessageItem>, messages: seq<MessageItem>)
  {
    && NoDuplicateIds(messages)
    && SortedByTime(messages)
    && (forall x :: x in messages ==> x in logs && logs[FindIndex(logs, Id(x))] == x)
    && (forall j :: 0 <= j < |logs| ==> logs[FindIndex(logs, Id(logs[j]))] in messages)
  }

  lemma MergedConversationSpec(logs: seq<MessageItem>)
    ensures IsMergedConversation(logs, SortByTime(KeepFirstPerId(logs)))
  {
    var unique := KeepFirstPerId(logs);
    var messages := SortByTime(unique);
    KeepFirstPerIdSpec(logs);
    SortKeepsIdsDistinct(unique);
    forall x ensures x in messages <==> x in unique {
      assert x in messages <==> x in multiset(messages);
      assert x in unique <==> x in multiset(unique);
    }
  }

  /** The avatar letter of the rows and the conversation view: the name's first character in upper case, `'U'` without a name. */
  function SenderInitial(name: string): (r: string)
    ensures name == "" ==> r == "U"
    ensures name != "" ==> |r| == 1 && !IsAsciiLower(r[0])
    ensures name != "" && !IsAsciiLower(name[0]) ==> r == [name[0]]
    ensures name != "" ==> r == [AsciiUpper(name[0])]
  {
    PlainInitial(name, "U")
  }
}
