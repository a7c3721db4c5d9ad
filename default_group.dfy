/**
 * The default groups page (pages/chat/register/default_group/index.tsx):
 * the groups every new account joins, added by typing a group id and
 * removed row by row.
 */
module DefaultGroup {
  import opened Optional
  import opened JsText
  import opened Api
  import opened Initials

  /** The fields of a default group the page reads. */
  datatype DefaultGroupItem = DefaultGroupItem(groupID: string, groupName: string, faceURL: string)

  /** The group avatar letter: `'G'` without a name, the CJK-aware initial otherwise. */
  function GroupInitial(groupName: string): (r: string)
    ensures groupName == "" ==> r == "G"
    ensures groupName != "" && HasCjk(groupName) ==> r == [groupName[0]]
    ensures groupName != "" && !HasCjk(groupName) ==> r == [AsciiUpper(groupName[0])]
  {
    CjkAwareInitial(groupName, "G")
  }

  /**
   * The page's state: the group id typed into the input, and the key whose
   * change makes the table reload.
   */
  class DefaultGroupPage {
    var groupID: string
    var refreshKey: int

    constructor()
      ensures groupID == "" && refreshKey == 0
    {
      groupID := "";
      refreshKey := 0;
    }

    method TypeGroupID(v: string)
      modifies this
      ensures groupID == v && refreshKey == old(refreshKey)
    {
      groupID := v;
    }

    /**
     * `handleAdd`: a blank id is a warning and sends nothing; otherwise the
     * trimmed id is added, and a success clears the input and reloads.
     */
    method Add(reply: Reply<()>) returns (notice: string, sent: Option<seq<string>>)
      modifies this
      ensures IsBlank(old(groupID)) <==> sent.None?
      ensures sent.None? ==> notice == "请输入群组ID" && groupID == old(groupID) && refreshKey == old(refreshKey)
      ensures sent.Some? ==> sent.value == [Trim(old(groupID))] && notice == RequestNotice(reply, "添加成功", "添加失败")
      ensures sent.Some? && reply.Succeeded() ==> groupID == "" && refreshKey == old(refreshKey) + 1
      ensures sent.Some? && !reply.Succeeded() ==> groupID == old(groupID) && refreshKey == old(refreshKey)
    {
      if IsBlank(groupID) {
        return "请输入群组ID", None;
      }
      sent := Some([Trim(groupID)]);
      notice := RequestNotice(reply, "添加成功", "添加失败");
      if reply.Succeeded() {
        groupID := "";
        refreshKey := refreshKey + 1;
      }
    }

    /** `handleRemove`: exactly the row's group, and a reload on success. */
    method Remove(record: DefaultGroupItem, reply: Reply<()>) returns (notice: string, sent: seq<string>)
      modifies this
      ensures sent == [record.groupID] && notice == RequestNotice(reply, "移除成功", "移除失败")
      ensures refreshKey == old(refreshKey) + (if reply.Succeeded() then 1 else 0)
      ensures groupID == old(groupID)
    {
      sent := [record.groupID];
      notice := RequestNotice(reply, "移除成功", "移除失败");
      if reply.Succeeded() {
        refreshKey := refreshKey + 1;
      }
    }
  }

  /** The id that is added has no white space at either end and is not empty. */
  lemma AddedIdIsClean(typed: string)
    requires !IsBlank(typed)
    ensures Trim(typed) != "" && Trim(Trim(typed)) == Trim(typed)
    ensures !IsJsWhitespace(Trim(typed)[0]) && !IsJsWhitespace(Trim(typed)[|Trim(typed)| - 1])
  {
    TrimIdempotent(typed);
    TrimEdges(typed);
  }
}
