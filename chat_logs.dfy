/**
 * Chat-log records as the message search endpoint returns them, and the two
 * list operations the message pages apply to them: keeping the first record
 * per `serverMsgID` (`filter` with `findIndex`) and ordering by `sendTime`
 * (`Array.prototype.sort` with `a.sendTime - b.sendTime`, which is stable).
 */
module ChatLogs {
  import opened Optional
  /** The chat-log fields the console reads (`seq` is named `msgSeq`, since `seq` is a Dafny keyword). */
  datatype ChatLog = ChatLog(
    serverMsgID: string,
    sendID: string,
    recvID: string,
    groupID: string,
    sessionType: int,
    contentType: int,
    content: string,
    status: int,
    sendTime: int,
    msgSeq: int)

  /** One row of the search result. */
  datatype MessageItem = MessageItem(chatLog: ChatLog, isRevoked: bool)

  /**
   * A numeric search field as the form hands it over: absent, null, the
   * empty string a cleared input leaves, or a number.
   */
  datatype FieldValue = Undefined | Null | EmptyString | Number(n: int)

  /** `{pageNumber, showNumber}`. */
  datatype Pagination = Pagination(pageNumber: int, showNumber: int)

  /** The body of a message search; `None` is a property the request leaves out. */
  datatype MessageQuery = MessageQuery(
    pagination: Pagination,
    recvID: Option<string>,
    sendID: Option<string>,
    contentType: Option<int>,
    sessionType: Option<int>,
    content: Option<string>,
    sendTime: Option<string>)

  function Id(m: MessageItem): string
  {
    m.chatLog.serverMsgID
  }

  function Time(m: MessageItem): int
  {
    m.chatLog.sendTime
  }

  predicate NoDuplicateIds(s: seq<MessageItem>)
  {
    forall a, b :: 0 <= a < b < |s| ==> Id(s[a]) != Id(s[b])
  }

  predicate SortedByTime(s: seq<MessageItem>)
  {
    forall a, b :: 0 <= a < b < |s| ==> Time(s[a]) <= Time(s[b])
  }

  /** `self.findIndex(m => m.chatLog.serverMsgID === id)`: the first index carrying `id`, or -1. */
  function FindIndex(s: seq<MessageItem>, id: string): (r: int)
    ensures -1 <= r < |s|
    ensures r >= 0 ==> Id(s[r]) == id && forall j :: 0 <= j < r ==> Id(s[j]) != id
    ensures r == -1 ==> forall j :: 0 <= j < |s| ==> Id(s[j]) != id
  {
    if |s| == 0 then -1
    else if Id(s[0]) == id then 0
    else
      var k := FindIndex(s[1..], id);
      if k == -1 then -1 else k + 1
  }

  /** The records of `s` from index `i` on that are the first with their id. */
  function KeepFirstFrom(s: seq<MessageItem>, i: nat): (r: seq<MessageItem>)
    requires i <= |s|
    ensures forall x :: x in r ==> i <= FindIndex(s, Id(x)) && s[FindIndex(s, Id(x))] == x
    ensures forall j :: i <= j < |s| && FindIndex(s, Id(s[j])) == j ==> s[j] in r
    ensures NoDuplicateIds(r)
    decreases |s| - i
  {
    if i == |s| then []
    else
      var rest := KeepFirstFrom(s, i + 1);
      if FindIndex(s, Id(s[i])) == i then [s[i]] + rest else rest
  }

  /** `s.filter((m, i, self) => i === self.findIndex(n => n.chatLog.serverMsgID === m.chatLog.serverMsgID))`. */
  function KeepFirstPerId(s: seq<MessageItem>): seq<MessageItem>
  {
    KeepFirstFrom(s, 0)
  }

  /**
   * Deduplication keeps exactly one record per id: no id twice, every kept
   * record is the first in `s` with its id, and every id of `s` survives.
   */
  lemma {:induction false} KeepFirstPerIdSpec(s: seq<MessageItem>)
    ensures NoDuplicateIds(KeepFirstPerId(s))
    ensures forall x :: x in KeepFirstPerId(s) ==> x in s && s[FindIndex(s, Id(x))] == x
    ensures forall j :: 0 <= j < |s| ==> s[FindIndex(s, Id(s[j]))] in KeepFirstPerId(s)
  {
    var r := KeepFirstPerId(s);
    forall j | 0 <= j < |s|
      ensures s[FindIndex(s, Id(s[j]))] in r
    {
      var k := FindIndex(s, Id(s[j]));
      assert 0 <= k <= j;
      assert FindIndex(s, Id(s[k])) == k;
    }
  }

  /** Inserting after every record that is not later than `m`, which keeps the order of equal times. */
  function InsertByTime(m: MessageItem, s: seq<MessageItem>): (r: seq<MessageItem>)
    requires SortedByTime(s)
    ensures SortedByTime(r)
    ensures multiset(r) == multiset(s) + multiset{m}
  {
    if |s| == 0 || Time(m) < Time(s[0]) then [m] + s
    else
      var rest := InsertByTime(m, s[1..]);
      assert s == [s[0]] + s[1..];
      LaterThanHead(m, s, rest);
      [s[0]] + rest
  }

  lemma LaterThanHead(m: MessageItem, s: seq<MessageItem>, rest: seq<MessageItem>)
    requires |s| > 0 && SortedByTime(s) && Time(s[0]) <= Time(m)
    requires multiset(rest) == multiset(s[1..]) + multiset{m}
    ensures forall k :: 0 <= k < |rest| ==> Time(s[0]) <= Time(rest[k])
  {
    forall k | 0 <= k < |rest|
      ensures Time(s[0]) <= Time(rest[k])
    {
      assert rest[k] in multiset(rest);
      if rest[k] != m {
        assert rest[k] in multiset(s[1..]);
        var j :| 0 <= j < |s[1..]| && s[1..][j] == rest[k];
        assert s[j + 1] == rest[k];
      }
    }
  }

  /** The ascending `sendTime` order, stable for equal times (`SortIsStable`). */
  function SortByTime(s: seq<MessageItem>): (r: seq<MessageItem>)
    ensures SortedByTime(r)
    ensures multiset(r) == multiset(s)
  {
    if |s| == 0 then []
    else
      var init := s[..|s| - 1];
      assert s == init + [s[|s| - 1]];
      InsertByTime(s[|s| - 1], SortByTime(init))
  }

  /** Inserting a record whose id is new keeps the ids distinct. */
  lemma {:induction false} InsertKeepsIdsDistinct(m: MessageItem, s: seq<MessageItem>)
    requires SortedByTime(s) && NoDuplicateIds(s)
    requires forall x :: x in s ==> Id(x) != Id(m)
    ensures NoDuplicateIds(InsertByTime(m, s))
  {
    if |s| > 0 && Time(s[0]) <= Time(m) {
      var rest := InsertByTime(m, s[1..]);
      InsertKeepsIdsDistinct(m, s[1..]);
      forall k | 0 <= k < |rest|
        ensures Id(rest[k]) != Id(s[0])
      {
        assert rest[k] in multiset(rest);
        if rest[k] != m {
          assert rest[k] in multiset(s[1..]);
          var j :| 0 <= j < |s[1..]| && s[1..][j] == rest[k];
          assert s[j + 1] == rest[k];
        }
      }
    }
  }

  /** Sorting a list without repeated ids gives a list without repeated ids. */
  lemma {:induction false} SortKeepsIdsDistinct(s: seq<MessageItem>)
    requires NoDuplicateIds(s)
    ensures NoDuplicateIds(SortByTime(s))
  {
    if |s| > 0 {
      var init := s[..|s| - 1];
      var last := s[|s| - 1];
      assert s == init + [last];
      SortKeepsIdsDistinct(init);
      var sorted := SortByTime(init);
      forall x | x in sorted
        ensures Id(x) != Id(last)
      {
        assert x in multiset(sorted);
        assert x in multiset(init);
        var k :| 0 <= k < |init| && init[k] == x;
        assert s[k] == x;
      }
      InsertKeepsIdsDistinct(last, sorted);
    }
  }

  /** The records of `s` sent at time `t`, in their order in `s`. */
  function SentAt(s: seq<MessageItem>, t: int): seq<MessageItem>
  {
    if |s| == 0 then []
    else (if Time(s[0]) == t then [s[0]] else []) + SentAt(s[1..], t)
  }

  lemma {:induction false} SentAtAppend(a: seq<MessageItem>, b: seq<MessageItem>, t: int)
    ensures SentAt(a + b, t) == SentAt(a, t) + SentAt(b, t)
  {
    if |a| > 0 {
      assert (a + b)[1..] == a[1..] + b;
      SentAtAppend(a[1..], b, t);
    } else {
      assert a + b == b;
    }
  }

  /** A sorted list whose first record is later than `t` has nothing sent at `t`. */
  lemma {:induction false} NothingSentBefore(s: seq<MessageItem>, t: int)
    requires SortedByTime(s)
    requires |s| > 0 ==> t < Time(s[0])
    ensures SentAt(s, t) == []
  {
    if |s| > 0 {
      NothingSentBefore(s[1..], t);
    }
  }

  /** `m` goes after every record sent at its own time. */
  lemma {:induction false} InsertIsStable(m: MessageItem, s: seq<MessageItem>, t: int)
    requires SortedByTime(s)
    ensures SentAt(InsertByTime(m, s), t) == SentAt(s, t) + SentAt([m], t)
  {
    if |s| == 0 || Time(m) < Time(s[0]) {
      InsertAtFrontIsStable(m, s, t);
    } else {
      var head, tail := [s[0]], s[1..];
      assert head + tail == s;
      var rest := InsertByTime(m, tail);
      assert InsertByTime(m, s) == head + rest;
      InsertIsStable(m, tail, t);
      SentAtAppend(head, rest, t);
      SentAtAppend(head, tail, t);
      calc {
        SentAt(head + rest, t);
        SentAt(head, t) + SentAt(rest, t);
        SentAt(head, t) + (SentAt(tail, t) + SentAt([m], t));
        (SentAt(head, t) + SentAt(tail, t)) + SentAt([m], t);
        SentAt(s, t) + SentAt([m], t);
      }
    }
  }

  lemma InsertAtFrontIsStable(m: MessageItem, s: seq<MessageItem>, t: int)
    requires SortedByTime(s)
    requires |s| == 0 || Time(m) < Time(s[0])
    ensures SentAt([m] + s, t) == SentAt(s, t) + SentAt([m], t)
  {
    SentAtAppend([m], s, t);
    if Time(m) == t {
      NothingSentBefore(s, t);
    }
  }

  /**
   * The sort is stable: for every time, the records sent then come out in
   * the order they went in.
   */
  lemma {:induction false} SortIsStable(s: seq<MessageItem>, t: int)
    ensures SentAt(SortByTime(s), t) == SentAt(s, t)
  {
    if |s| > 0 {
      var init := s[..|s| - 1];
      assert s == init + [s[|s| - 1]];
      SortIsStable(init, t);
      InsertIsStable(s[|s| - 1], SortByTime(init), t);
      SentAtAppend(init, [s[|s| - 1]], t);
    }
  }
}
