/**
 * The default friends page (pages/chat/register/default_friends/index.tsx):
 * the list of users every new account is befriended with, and the dialog
 * that picks a user to add to it.
 */
module DefaultFriends {
  import opened Optional
  import opened JsText
  import opened Api
  import opened Initials
  import opened IdLists

  /** The fields of a user the page reads. */
  datatype UserItem = UserItem(userID: string, nickname: string, faceURL: string)

  /** `{pagination: {pageNumber, showNumber}, keyword}`. */
  datatype SearchQuery = SearchQuery(pageNumber: int, showNumber: int, keyword: string)

  /** `fetchDefaultFriends`: the table's page, or page 1 of 10, and its keyword or `''`. */
  function FriendsQuery(current: Option<int>, pageSize: Option<int>, keyword: Option<string>): (q: SearchQuery)
    ensures q.pageNumber == PageField(current, 1) && q.showNumber == PageField(pageSize, 10)
    ensures q.keyword == OrOpt(keyword, "")
  {
    SearchQuery(PageField(current, 1), PageField(pageSize, 10), OrOpt(keyword, ""))
  }

  /** `fetchUserList`: the first 100 users matching the search text. */
  function CandidatesQuery(searchText: string): (q: SearchQuery)
    ensures q == SearchQuery(1, 100, searchText)
  {
    SearchQuery(1, 100, searchText)
  }

  /** The ids of a list of users, in order. */
  function Ids(users: seq<UserItem>): (ids: seq<string>)
    ensures |ids| == |users|
    ensures forall i :: 0 <= i < |users| ==> ids[i] == users[i].userID
  {
    if |users| == 0 then [] else Ids(users[..|users| - 1]) + [users[|users| - 1].userID]
  }

  /** `selectedUsers.filter(user => user.userID !== userID)`. */
  function DropUser(users: seq<UserItem>, userID: string): (r: seq<UserItem>)
    ensures |r| <= |users|
    ensures forall u :: u in r <==> u in users && u.userID != userID
  {
    if |users| == 0 then []
    else
      var init := DropUser(users[..|users| - 1], userID);
      var last := users[|users| - 1];
      assert forall u :: u in users <==> u in users[..|users| - 1] || u == last by {
        assert users == users[..|users| - 1] + [last];
      }
      if last.userID != userID then init + [last] else init
  }

  /** Dropping a user from the rows and from the keys keeps the two lists in step. */
  lemma {:induction false} DropUserKeepsKeys(users: seq<UserItem>, userID: string)
    ensures Ids(DropUser(users, userID)) == Without(Ids(users), userID)
  {
    if |users| > 0 {
      var init := users[..|users| - 1];
      DropUserKeepsKeys(init, userID);
      assert Ids(users)[..|users| - 1] == Ids(init);
      if users[|users| - 1].userID != userID {
        assert Ids(DropUser(users, userID)) == Ids(DropUser(init, userID) + [users[|users| - 1]]);
        IdsOfAppend(DropUser(init, userID), users[|users| - 1]);
      }
    }
  }

  lemma IdsOfAppend(users: seq<UserItem>, u: UserItem)
    ensures Ids(users + [u]) == Ids(users) + [u.userID]
  {
    assert (users + [u])[..|users|] == users;
  }

  /** The avatar letter: `'U'` without a nickname, the CJK-aware initial otherwise. */
  function UserInitial(nickname: string): (r: string)
    ensures nickname == "" ==> r == "U"
    ensures nickname != "" && HasCjk(nickname) ==> r == [nickname[0]]
    ensures nickname != "" && !HasCjk(nickname) ==> r == [AsciiUpper(nickname[0])]
  {
    CjkAwareInitial(nickname, "U")
  }

  /**
   * The add dialog: the users found, the rows ticked with their keys, and
   * the search text. The ticked rows and their keys always name the same
   * users.
   */
  class AddFriendDialog {
    var visible: bool
    var allUsers: seq<UserItem>
    var filteredUsers: seq<UserItem>
    var selectedUsers: seq<UserItem>
    var selectedRowKeys: seq<string>
    var searchText: string

    predicate Valid()
      reads this
    {
      selectedRowKeys == Ids(selectedUsers)
    }

    constructor()
      ensures Valid() && !visible && allUsers == [] && filteredUsers == [] && selectedUsers == [] && searchText == ""
    {
      visible := false;
      allUsers := [];
      filteredUsers := [];
      selectedUsers := [];
      selectedRowKeys := [];
      searchText := "";
    }

    /** `fetchUserList`'s effect: both lists become the users found, or both become empty. */
    method LoadCandidates(reply: Reply<Option<Page<UserItem>>>)
      modifies this
      ensures allUsers == filteredUsers == ToListResult(reply).data
      ensures !reply.Succeeded() ==> allUsers == []
      ensures visible == old(visible) && selectedUsers == old(selectedUsers)
      ensures selectedRowKeys == old(selectedRowKeys) && searchText == old(searchText)
    {
      var result := ToListResult(reply);
      allUsers := result.data;
      filteredUsers := result.data;
    }

    /** `handleAdd`: the dialog opens with nothing ticked and no search text, and loads every user. */
    method Open(reply: Reply<Option<Page<UserItem>>>) returns (query: SearchQuery)
      modifies this
      ensures Valid() && visible && selectedUsers == [] && searchText == ""
      ensures query == CandidatesQuery("") && allUsers == filteredUsers == ToListResult(reply).data
    {
      visible := true;
      selectedUsers := [];
      selectedRowKeys := [];
      searchText := "";
      query := CandidatesQuery("");
      LoadCandidates(reply);
    }

    /** `handleSearch`. */
    method Search(value: string, reply: Reply<Option<Page<UserItem>>>) returns (query: SearchQuery)
      modifies this
      ensures searchText == value && query == CandidatesQuery(value)
      ensures allUsers == filteredUsers == ToListResult(reply).data
      ensures visible == old(visible) && selectedUsers == old(selectedUsers) && selectedRowKeys == old(selectedRowKeys)
    {
      searchText := value;
      query := CandidatesQuery(value);
      LoadCandidates(reply);
    }

    /** The table's `onChange`: the ticked rows, and their keys. */
    method SelectionChange(rows: seq<UserItem>)
      modifies this
      ensures Valid() && selectedUsers == rows
      ensures visible == old(visible) && allUsers == old(allUsers) && filteredUsers == old(filteredUsers)
      ensures searchText == old(searchText)
    {
      selectedRowKeys := Ids(rows);
      selectedUsers := rows;
    }

    /** `removeSelectedUser`: the user leaves both lists, the rest keep their order. */
    method RemoveSelected(userID: string)
      requires Valid()
      modifies this
      ensures Valid()
      ensures selectedUsers == DropUser(old(selectedUsers), userID)
      ensures selectedRowKeys == Without(old(selectedRowKeys), userID)
      ensures visible == old(visible) && allUsers == old(allUsers) && filteredUsers == old(filteredUsers)
      ensures searchText == old(searchText)
    {
      DropUserKeepsKeys(selectedUsers, userID);
      selectedUsers := DropUser(selectedUsers, userID);
      selectedRowKeys := Without(selectedRowKeys, userID);
    }

    /**
     * `handleConfirmAdd`: nothing ticked is a warning; otherwise only the
     * first ticked user is added, and a success closes the dialog.
     */
    method Confirm(reply: Reply<()>) returns (notice: string, sent: Option<string>)
      modifies this
      ensures |selectedUsers| == 0 <==> sent.None?
      ensures sent.None? ==> notice == "请选择要添加的用户"
      ensures sent.Some? ==> sent.value == selectedUsers[0].userID && notice == RequestNotice(reply, "添加成功", "添加失败")
      ensures visible == (old(visible) && !(sent.Some? && reply.Succeeded()))
      ensures allUsers == old(allUsers) && filteredUsers == old(filteredUsers)
      ensures selectedUsers == old(selectedUsers) && selectedRowKeys == old(selectedRowKeys) && searchText == old(searchText)
    {
      if |selectedUsers| == 0 {
        return "请选择要添加的用户", None;
      }
      sent := Some(selectedUsers[0].userID);
      notice := RequestNotice(reply, "添加成功", "添加失败");
      if reply.Succeeded() {
        visible := false;
      }
    }

    /** `handleCancelAdd`. */
    method Cancel()
      modifies this
      ensures Valid() && !visible && selectedUsers == [] && searchText == ""
      ensures allUsers == old(allUsers) && filteredUsers == old(filteredUsers)
    {
      visible := false;
      selectedUsers := [];
      selectedRowKeys := [];
      searchText := "";
    }
  }
}
