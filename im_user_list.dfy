/**
 * The IM user list (pages/im/user/user_list/index.tsx): the online-status
 * lookup and its merge into the user rows, the status column, and the
 * force-logout drawer with its per-platform requests.
 */
module ImUserList {
  import opened Optional
  import opened JsText
  import opened Api
  import opened Initials

  /** `{status, platforms}`: 1 is online; the platforms are platform ids. */
  datatype OnlineStatus = OnlineStatus(status: int, platforms: seq<int>)

  /** The default a user without a lookup entry gets. */
  const UnknownStatus := OnlineStatus(0, [])

  datatype Token = Token(platformID: int)

  /** One entry of the status lookup's answer. */
  datatype StatusItem = StatusItem(userID: string, status: int, singlePlatformToken: seq<Token>)

  datatype User = User(userID: string, nickname: string, onlineStatus: Option<OnlineStatus>)

  /** `item.singlePlatformToken.map(token => token.platformID)`. */
  function PlatformsOf(tokens: seq<Token>): (r: seq<int>)
    ensures |r| == |tokens|
    ensures forall i :: 0 <= i < |tokens| ==> r[i] == tokens[i].platformID
  {
    if |tokens| == 0 then [] else PlatformsOf(tokens[..|tokens| - 1]) + [tokens[|tokens| - 1].platformID]
  }

  function EntryOf(item: StatusItem): OnlineStatus
  {
    OnlineStatus(item.status, PlatformsOf(item.singlePlatformToken))
  }

  /** The map the `forEach` builds: each item writes its own entry, a later one for the same user overwriting. */
  function StatusMapOf(items: seq<StatusItem>): map<string, OnlineStatus>
  {
    if |items| == 0 then map[]
    else StatusMapOf(items[..|items| - 1])[items[|items| - 1].userID := EntryOf(items[|items| - 1])]
  }

  /**
   * A user has an entry exactly when an item names them, and the entry is
   * that of the last such item: its status, and its tokens' platform ids in
   * order.
   */
  lemma {:induction false} StatusMapSpec(items: seq<StatusItem>, id: string)
    ensures id in StatusMapOf(items) <==> exists i :: 0 <= i < |items| && items[i].userID == id
    ensures id in StatusMapOf(items) ==>
      exists i :: (0 <= i < |items| && items[i].userID == id
        && StatusMapOf(items)[id] == EntryOf(items[i])
        && forall j :: i < j < |items| ==> items[j].userID != id)
  {
    if |items| > 0 {
      var init := items[..|items| - 1];
      StatusMapSpec(init, id);
      assert forall i :: 0 <= i < |init| ==> init[i] == items[i];
      if items[|items| - 1].userID != id && id in StatusMapOf(items) {
        var i :| 0 <= i < |init| && init[i].userID == id && StatusMapOf(init)[id] == EntryOf(init[i])
          && forall j :: i < j < |init| ==> init[j].userID != id;
        assert items[i] == init[i];
      }
    }
  }

  /** The `forEach` over the lookup's answer. */
  method BuildStatusMap(items: seq<StatusItem>) returns (m: map<string, OnlineStatus>)
    ensures m == StatusMapOf(items)
  {
    m := map[];
    var k := 0;
    while k < |items|
      invariant 0 <= k <= |items|
      invariant m == StatusMapOf(items[..k])
    {
      var platforms: seq<int> := [];
      var t := 0;
      var tokens := items[k].singlePlatformToken;
      while t < |tokens|
        invariant 0 <= t <= |tokens|
        invariant platforms == PlatformsOf(tokens[..t])
      {
        assert tokens[..t + 1][..t] == tokens[..t];
        platforms := platforms + [tokens[t].platformID];
        t := t + 1;
      }
      assert tokens[..t] == tokens;
      assert items[..k + 1][..k] == items[..k];
      m := m[items[k].userID := OnlineStatus(items[k].status, platforms)];
      k := k + 1;
    }
    assert items[..k] == items;
  }

  /**
   * `fetchUsersOnlineStatus`: no request for no users; an error code, an
   * exception, or an answer without `data` (whose `forEach` throws) give the
   * empty map. `reply` is the lookup's answer.
   */
  method FetchUsersOnlineStatus(ids: seq<string>, reply: Reply<Option<seq<StatusItem>>>)
    returns (m: map<string, OnlineStatus>, requested: bool)
    ensures requested <==> |ids| > 0
    ensures !requested || !reply.Succeeded() || reply.data.None? ==> m == map[]
    ensures requested && reply.Succeeded() && reply.data.Some? ==> m == StatusMapOf(reply.data.value)
  {
    if |ids| == 0 {
      return map[], false;
    }
    requested := true;
    if reply.Succeeded() && reply.data.Some? {
      m := BuildStatusMap(reply.data.value);
    } else {
      m := map[];
    }
  }

  /** `onlineStatusMap[user.userID] || {status: 0, platforms: []}` for every user, in order. */
  function WithStatus(users: seq<User>, m: map<string, OnlineStatus>): (r: seq<User>)
    ensures |r| == |users|
    ensures forall i :: 0 <= i < |users| ==>
      r[i].userID == users[i].userID && r[i].nickname == users[i].nickname
      && r[i].onlineStatus == Some(if users[i].userID in m then m[users[i].userID] else UnknownStatus)
  {
    if |users| == 0 then []
    else
      var u := users[|users| - 1];
      WithStatus(users[..|users| - 1], m)
        + [u.(onlineStatus := Some(if u.userID in m then m[u.userID] else UnknownStatus))]
  }

  /** `users.map(user => user.userID)`. */
  function IdsOf(users: seq<User>): (r: seq<string>)
    ensures |r| == |users|
    ensures forall i :: 0 <= i < |users| ==> r[i] == users[i].userID
  {
    if |users| == 0 then [] else IdsOf(users[..|users| - 1]) + [users[|users| - 1].userID]
  }

  /** The user search: empty filters are left out. */
  datatype UsersQuery = UsersQuery(pageNumber: int, showNumber: int, userID: Option<string>, nickname: Option<string>)

  function NonEmpty(v: Option<string>): (r: Option<string>)
    ensures r.Some? <==> v.Some? && v.value != ""
    ensures r.Some? ==> r == v
  {
    if v.Some? && v.value != "" then v else None
  }

  function UsersQueryFor(current: Option<int>, pageSize: Option<int>, userID: Option<string>, nickname: Option<string>): (q: UsersQuery)
    ensures q.pageNumber == PageField(current, 1) && q.showNumber == PageField(pageSize, 10)
    ensures q.userID == NonEmpty(userID) && q.nickname == NonEmpty(nickname)
  {
    UsersQuery(PageField(current, 1), PageField(pageSize, 10), NonEmpty(userID), NonEmpty(nickname))
  }

  /**
   * `fetchIMUsers` after the request: the listed users, each with its
   * status, in the list's order; any failure of the user list gives the
   * empty failed result and asks for no statuses. `statusReply` is the
   * status lookup's answer.
   */
  method FetchIMUsers(reply: Reply<Option<Page<User>>>, statusReply: Reply<Option<seq<StatusItem>>>)
    returns (result: ListResult<User>, statusRequested: bool)
    ensures !(reply.Succeeded() && reply.data.Some?) ==> result == ListResult([], false, 0) && !statusRequested
    ensures reply.Succeeded() && reply.data.Some? ==>
      var users := reply.data.value.items.GetOr([]);
      && result.success && result.total == reply.data.value.total.GetOr(0)
      && statusRequested == (|users| > 0)
      && result.data == WithStatus(users,
           if |users| > 0 && statusReply.Succeeded() && statusReply.data.Some? then StatusMapOf(statusReply.data.value) else map[])
  {
    var listed := ToListResult(reply);
    if !listed.success {
      return ListResult([], false, 0), false;
    }
    var m;
    m, statusRequested := FetchUsersOnlineStatus(IdsOf(listed.data), statusReply);
    result := ListResult(WithStatus(listed.data, m), true, listed.total);
  }

  /** The avatar letter: `'U'` without a nickname, the CJK-aware initial otherwise. */
  function UserInitial(nickname: string): (r: string)
    ensures nickname == "" ==> r == "U"
    ensures nickname != "" && HasCjk(nickname) ==> r == [nickname[0]]
    ensures nickname != "" && !HasCjk(nickname) ==> r == [AsciiUpper(nickname[0])]
  {
    CjkAwareInitial(nickname, "U")
  }

  /** `getOnlineStatusDisplay`'s platform names. */
  function PlatformName(id: int): (name: string)
    ensures 1 <= id <= 5 ==> name == ["iOS", "Android", "Windows", "macOS", "Web"][id - 1]
    ensures !(1 <= id <= 5) ==> name == "平台" + IntToString(id)
  {
    match id
    case 1 => "iOS"
    case 2 => "Android"
    case 3 => "Windows"
    case 4 => "macOS"
    case 5 => "Web"
    case _ => "平台" + IntToString(id)
  }

  /** Different platform ids get different names. */
  /** Only the names of unknown platforms begin with '平'. */
  lemma UnknownPlatformMark(id: int)
    ensures |PlatformName(id)| > 0
    ensures PlatformName(id)[0] == '平' <==> !(1 <= id <= 5)
  {
  }

  lemma PlatformNamesDistinct(a: int, b: int)
    ensures PlatformName(a) == PlatformName(b) ==> a == b
  {
    UnknownPlatformMark(a);
    UnknownPlatformMark(b);
    if PlatformName(a) == PlatformName(b) {
      if !(1 <= a <= 5) && !(1 <= b <= 5) {
        assert PlatformName(a)[2..] == IntToString(a);
        assert PlatformName(b)[2..] == IntToString(b);
        IntToStringInjective(a, b);
      }
    }
  }

  function PlatformNames(platforms: seq<int>): (r: seq<string>)
    ensures |r| == |platforms|
    ensures forall i :: 0 <= i < |platforms| ==> r[i] == PlatformName(platforms[i])
  {
    if |platforms| == 0 then [] else PlatformNames(platforms[..|platforms| - 1]) + [PlatformName(platforms[|platforms| - 1])]
  }

  datatype StatusTag = StatusTag(text: string, color: string)

  /** `getOnlineStatusDisplay`. */
  function StatusDisplay(s: Option<OnlineStatus>): (t: StatusTag)
    ensures s.None? ==> t == StatusTag("未知", "default")
    ensures s.Some? && s.value.status == 1 && |s.value.platforms| > 0 ==>
      t == StatusTag("在线 (" + Join(PlatformNames(s.value.platforms), ", ") + ")", "green")
    ensures s.Some? && s.value.status == 1 && |s.value.platforms| == 0 ==> t == StatusTag("在线", "green")
    ensures s.Some? && s.value.status != 1 ==> t == StatusTag("离线", "default")
  {
    if s.None? then StatusTag("未知", "default")
    else if s.value.status == 1 && |s.value.platforms| > 0 then
      StatusTag("在线 (" + Join(PlatformNames(s.value.platforms), ", ") + ")", "green")
    else if s.value.status == 1 then StatusTag("在线", "green")
    else StatusTag("离线", "default")
  }

  /** The force-logout button is enabled only for a user whose status is 1. */
  predicate ForceLogoutEnabled(u: User)
  {
    u.onlineStatus.Some? && u.onlineStatus.value.status == 1
  }

  /** The button is enabled exactly on the rows whose tag is green, that is, that read as online. */
  lemma ForceLogoutOnlyWhenShownOnline(u: User)
    ensures ForceLogoutEnabled(u) <==> StatusDisplay(u.onlineStatus).color == "green"
    ensures ForceLogoutEnabled(u) <==> StartsWith(StatusDisplay(u.onlineStatus).text, "在线")
  {
    var t := StatusDisplay(u.onlineStatus);
    if !ForceLogoutEnabled(u) {
      assert t.text[0] != '在';
    }
  }

  /** The merged rows of a user list are never shown as unknown: a user without an entry reads as offline. */
  lemma MergedRowsHaveStatus(users: seq<User>, m: map<string, OnlineStatus>, i: int)
    requires 0 <= i < |users| && users[i].userID !in m
    ensures StatusDisplay(WithStatus(users, m)[i].onlineStatus) == StatusTag("离线", "default")
  {
  }

  /** `forceUserLogout`'s request. */
  datatype LogoutRequest = LogoutRequest(userID: string, platformID: int)

  /** One request per platform, in the order the platforms were ticked. */
  function LogoutRequests(userID: string, platforms: seq<int>): (r: seq<LogoutRequest>)
    ensures |r| == |platforms|
    ensures forall i :: 0 <= i < |platforms| ==> r[i] == LogoutRequest(userID, platforms[i])
  {
    if |platforms| == 0 then [] else LogoutRequests(userID, platforms[..|platforms| - 1]) + [LogoutRequest(userID, platforms[|platforms| - 1])]
  }

  /** `responses.filter(res => res.errCode === 0).length`. */
  function SuccessCount(replies: seq<Reply<()>>): (n: nat)
    ensures n <= |replies|
  {
    if |replies| == 0 then 0
    else SuccessCount(replies[..|replies| - 1]) + (if replies[|replies| - 1].Succeeded() then 1 else 0)
  }

  lemma {:induction false} SuccessCountSpec(replies: seq<Reply<()>>)
    ensures SuccessCount(replies) == |replies| <==> forall i :: 0 <= i < |replies| ==> replies[i].Succeeded()
    ensures SuccessCount(replies) == 0 <==> forall i :: 0 <= i < |replies| ==> !replies[i].Succeeded()
  {
    if |replies| > 0 {
      var init := replies[..|replies| - 1];
      SuccessCountSpec(init);
      assert forall i :: 0 <= i < |init| ==> init[i] == replies[i];
    }
  }

  /** How a force logout ends. */
  datatype LogoutOutcome =
    | NothingChosen
    | AllLoggedOut(count: nat)
    | SomeLoggedOut(succeeded: nat, failed: nat)
    | NoneLoggedOut
    | LogoutThrew

  /** `Promise.all` rejects when any request throws. */
  predicate AnyThrew(replies: seq<Reply<()>>)
  {
    exists i :: 0 <= i < |replies| && replies[i].Threw?
  }

  /** The classification of `handleConfirmForceLogout` once the requests are answered. */
  function Classify(replies: seq<Reply<()>>): (o: LogoutOutcome)
    requires |replies| > 0
    ensures AnyThrew(replies) ==> o == LogoutThrew
    ensures !AnyThrew(replies) ==>
      (o.AllLoggedOut? <==> forall i :: 0 <= i < |replies| ==> replies[i].Succeeded())
      && (o == NoneLoggedOut <==> forall i :: 0 <= i < |replies| ==> !replies[i].Succeeded())
      && (o.AllLoggedOut? ==> o.count == |replies|)
      && (o.SomeLoggedOut? ==> 0 < o.succeeded < |replies| && o.succeeded + o.failed == |replies|)
  {
    SuccessCountSpec(replies);
    var n := SuccessCount(replies);
    if AnyThrew(replies) then LogoutThrew
    else if n == |replies| then AllLoggedOut(n)
    else if n > 0 then SomeLoggedOut(n, |replies| - n)
    else NoneLoggedOut
  }

  /** The message each outcome shows; the two failures share the prefix `强制下线失败`. */
  function OutcomeNotice(o: LogoutOutcome): (notice: string)
    ensures StartsWith(notice, "强制下线失败") <==> o == NoneLoggedOut || o == LogoutThrew
  {
    match o
    case NothingChosen =>
      var r := "请选择要下线的平台";
      assert r[0] == '请';
      r
    case AllLoggedOut(n) =>
      var r := "成功强制下线 " + IntToString(n) + " 个平台";
      assert r[0] == '成';
      r
    case SomeLoggedOut(s, f) =>
      var r := "部分平台下线成功，成功 " + IntToString(s) + " 个，失败 " + IntToString(f) + " 个";
      assert r[0] == '部';
      r
    case NoneLoggedOut => "强制下线失败"
    case LogoutThrew => "强制下线失败，请重试"
  }

  /** A digit string cannot run past the first character of a non-digit separator. */
  lemma SeparatorNotEarlier(a1: string, b1: string, a2: string, b2: string, sep: string)
    requires AllDigits(a2) && |sep| > 0 && !IsDigit(sep[0])
    requires a1 + sep + b1 == a2 + sep + b2
    ensures |a2| <= |a1|
  {
    var s := a1 + sep + b1;
    assert s[|a1|] == sep[0];
  }

  /** Two digit strings around the same non-digit separator are told apart by it. */
  lemma DigitsAroundSeparator(a1: string, b1: string, a2: string, b2: string, sep: string)
    requires AllDigits(a1) && AllDigits(a2) && |sep| > 0 && !IsDigit(sep[0])
    requires a1 + sep + b1 == a2 + sep + b2
    ensures a1 == a2 && b1 == b2
  {
    SeparatorNotEarlier(a1, b1, a2, b2, sep);
    SeparatorNotEarlier(a2, b2, a1, b1, sep);
    var s := a1 + sep + b1;
    assert a1 == s[..|a1|] == a2;
    assert b1 == s[|a1| + |sep|..] == b2;
  }

  /** The all-succeeded notice gives back the count. */
  lemma AllNoticeInjective(n1: nat, n2: nat)
    requires OutcomeNotice(AllLoggedOut(n1)) == OutcomeNotice(AllLoggedOut(n2))
    ensures n1 == n2
  {
    var p := "成功强制下线 ";
    var q := " 个平台";
    var n := p + IntToString(n1) + q;
    assert n == p + IntToString(n2) + q;
    assert IntToString(n1) == n[|p|..|n| - |q|] == IntToString(n2);
    IntToStringInjective(n1, n2);
  }

  /** The partial-success notice gives back both counts. */
  lemma SomeNoticeInjective(s1: nat, f1: nat, s2: nat, f2: nat)
    requires OutcomeNotice(SomeLoggedOut(s1, f1)) == OutcomeNotice(SomeLoggedOut(s2, f2))
    ensures s1 == s2 && f1 == f2
  {
    var p := "部分平台下线成功，成功 ";
    var m := " 个，失败 ";
    var q := " 个";
    var a1, b1 := IntToString(s1), IntToString(f1);
    var a2, b2 := IntToString(s2), IntToString(f2);
    var n := p + (a1 + m + b1) + q;
    assert OutcomeNotice(SomeLoggedOut(s1, f1)) == n;
    assert n == p + (a2 + m + b2) + q;
    assert a1 + m + b1 == n[|p|..|n| - |q|] == a2 + m + b2;
    DigitsAroundSeparator(a1, b1, a2, b2, m);
    IntToStringInjective(s1, s2);
    IntToStringInjective(f1, f2);
  }

  /** The first character of each notice, which tells the kinds of outcome apart but for the two failures. */
  function NoticeLead(o: LogoutOutcome): char
  {
    match o
    case NothingChosen => '请'
    case AllLoggedOut(_) => '成'
    case SomeLoggedOut(_, _) => '部'
    case NoneLoggedOut => '强'
    case LogoutThrew => '强'
  }

  lemma NoticeStartsWithLead(o: LogoutOutcome)
    ensures |OutcomeNotice(o)| > 0 && OutcomeNotice(o)[0] == NoticeLead(o)
    ensures o == NoneLoggedOut ==> |OutcomeNotice(o)| == 6
    ensures o == LogoutThrew ==> |OutcomeNotice(o)| == 10
  {
  }

  /** The notice names the outcome: different outcomes never show the same message. */
  lemma OutcomeNoticeInjective(o1: LogoutOutcome, o2: LogoutOutcome)
    requires OutcomeNotice(o1) == OutcomeNotice(o2)
    ensures o1 == o2
  {
    NoticeStartsWithLead(o1);
    NoticeStartsWithLead(o2);
    if o1.AllLoggedOut? && o2.AllLoggedOut? {
      AllNoticeInjective(o1.count, o2.count);
    } else if o1.SomeLoggedOut? && o2.SomeLoggedOut? {
      SomeNoticeInjective(o1.succeeded, o1.failed, o2.succeeded, o2.failed);
    }
  }

  /** The force-logout drawer's state. */
  class ForceLogoutDrawer {
    var visible: bool
    var user: Option<User>
    var platforms: seq<int>

    constructor()
      ensures !visible && user.None? && platforms == []
    {
      visible := false;
      user := None;
      platforms := [];
    }

    /** `handleOpenForceLogout`: a fresh drawer for the row, with nothing ticked. */
    method Open(u: User)
      modifies this
      ensures visible && user == Some(u) && platforms == []
    {
      user := Some(u);
      platforms := [];
      visible := true;
    }

    /** `handleCloseForceLogoutDrawer`. */
    method Close()
      modifies this
      ensures !visible && user.None? && platforms == []
    {
      visible := false;
      user := None;
      platforms := [];
    }

    /** The platform checkboxes. */
    method SetPlatforms(value: seq<int>)
      modifies this
      ensures platforms == value && visible == old(visible) && user == old(user)
    {
      platforms := value;
    }

    /**
     * `handleConfirmForceLogout`. With no user or no platform nothing is
     * sent; otherwise one request per ticked platform goes out, `replies`
     * holding their answers in the same order. The drawer closes when at
     * least one platform was logged out.
     */
    method Confirm(replies: seq<Reply<()>>) returns (outcome: LogoutOutcome, notice: string, sent: seq<LogoutRequest>)
      requires user.Some? && |platforms| > 0 ==> |replies| == |platforms|
      modifies this
      ensures user == old(user) && platforms == old(platforms)
      ensures user.None? || platforms == [] ==> outcome == NothingChosen && sent == []
      ensures user.Some? && platforms != [] ==>
        (sent == LogoutRequests(user.value.userID, platforms) && outcome == Classify(replies))
      ensures visible == (old(visible) && !(outcome.AllLoggedOut? || outcome.SomeLoggedOut?))
      ensures notice == OutcomeNotice(outcome)
    {
      if user.None? || |platforms| == 0 {
        return NothingChosen, OutcomeNotice(NothingChosen), [];
      }
      sent := LogoutRequests(user.value.userID, platforms);
      outcome := Classify(replies);
      notice := OutcomeNotice(outcome);
      if outcome.AllLoggedOut? || outcome.SomeLoggedOut? {
        visible := false;
      }
    }
  }
}
