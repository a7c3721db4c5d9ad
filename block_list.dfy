/**
 * The blocked users page (pages/chat/user/block_list/index.tsx): the
 * columns of a blocked user, and lifting the block.
 */
module BlockList {
  import opened Optional
  import opened JsText
  import opened Api
  import opened Initials
  import ChatUserList

  /** `BlockedUserItem`; the phone fields may be missing. */
  datatype BlockedUserItem = BlockedUserItem(userID: string, nickname: string, faceURL: string, gender: int,
                                             phoneNumber: Option<string>, areaCode: Option<string>, reason: string)

  /** The gender column of this page: 0 and 2 are 女, 1 is 男, anything else 未知. */
  function GenderText(gender: int): (text: string)
    ensures text == "女" <==> gender == 0 || gender == 2
    ensures text == "男" <==> gender == 1
    ensures text == "未知" <==> gender !in {0, 1, 2}
  {
    match gender
    case 0 => "女"
    case 1 => "男"
    case 2 => "女"
    case _ => "未知"
  }

  /** The tag colour beside it: only 0 and 1 have their own. */
  function GenderColor(gender: int): (color: string)
    ensures color == "default" <==> gender != 0 && gender != 1
    ensures color == "blue" <==> gender == 0
    ensures color == "green" <==> gender == 1
  {
    if gender == 0 then "blue" else if gender == 1 then "green" else "default"
  }

  /** The two user pages read gender 2 differently, and agree on every other code. */
  lemma GenderTextsDisagreeOnTwo(gender: int)
    ensures GenderText(gender) != ChatUserList.GenderText(gender) <==> gender == 2
  {
  }

  /** The avatar letter, as on the user list: `'U'` without a nickname. */
  function UserInitial(nickname: string): (r: string)
    ensures nickname == "" ==> r == "U"
    ensures nickname != "" && HasCjk(nickname) ==> r == [nickname[0]]
    ensures nickname != "" && !HasCjk(nickname) ==> r == [AsciiUpper(nickname[0])]
  {
    CjkAwareInitial(nickname, "U")
  }

  /** The phone column, shared with the user list. */
  function PhoneText(record: BlockedUserItem): (text: string)
    ensures record.phoneNumber.None? || record.phoneNumber.value == "" ==> text == "-"
    ensures record.phoneNumber.Some? && record.phoneNumber.value != "" ==>
      text == OrOpt(record.areaCode, "+86") + " " + record.phoneNumber.value
  {
    ChatUserList.PhoneDisplay(record.phoneNumber, record.areaCode)
  }

  /** The reason column: `'-'` for an empty reason. */
  function ReasonText(record: BlockedUserItem): (text: string)
    ensures text != ""
    ensures record.reason != "" ==> text == record.reason
  {
    Or(record.reason, "-")
  }

  /** `fetchBlockedUsers`'s request: the table's page, or page 1 of 10. */
  datatype BlockedQuery = BlockedQuery(current: int, pageSize: int, pageNumber: int, showNumber: int)

  function BlockedQueryFor(current: Option<int>, pageSize: Option<int>): (q: BlockedQuery)
    ensures q.current == q.pageNumber == PageField(current, 1)
    ensures q.pageSize == q.showNumber == PageField(pageSize, 10)
  {
    BlockedQuery(PageField(current, 1), PageField(pageSize, 10), PageField(current, 1), PageField(pageSize, 10))
  }

  /** The page's reload key. */
  class BlockListPage {
    var refreshKey: int

    constructor()
      ensures refreshKey == 0
    {
      refreshKey := 0;
    }

    /** `handleUnblock`: exactly the row's user, and a reload on success. */
    method Unblock(record: BlockedUserItem, reply: Reply<()>) returns (notice: string, sent: seq<string>)
      modifies this
      ensures sent == [record.userID] && notice == RequestNotice(reply, "解禁成功", "解禁失败")
      ensures refreshKey == old(refreshKey) + (if reply.Succeeded() then 1 else 0)
    {
      sent := [record.userID];
      notice := RequestNotice(reply, "解禁成功", "解禁失败");
      if reply.Succeeded() {
        refreshKey := refreshKey + 1;
      }
    }
  }
}
