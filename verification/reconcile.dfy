/** Thread reconciliation in `createMockDb`: messages are grouped by the
    string form of their thread id, each group is sorted by time (a stable
    sort), and a thread with messages takes the last one's text and time and
    counts its unread messages; a thread without messages keeps its
    generated placeholders. */
module Reconcile {
  import opened Ids
  import opened Seqs
  import opened Models

  /** `messagesByThread.get(String(threadId)) ?? []`, in message order. */
  function MessagesOf(messages: seq<Message>, threadId: Id): (r: seq<Message>)
    ensures |r| <= |messages|
    ensures forall i :: 0 <= i < |r| ==> r[i] in messages && Canon(r[i].threadId) == Canon(threadId)
    ensures forall i :: 0 <= i < |messages| && Canon(messages[i].threadId) == Canon(threadId) ==> messages[i] in r
  {
    Filter(messages, (m: Message) => Canon(m.threadId) == Canon(threadId))
  }

  /** Times never decrease along `s`. */
  predicate SortedByTime(s: seq<Message>) {
    forall i, j :: 0 <= i < j < |s| ==> s[i].time <= s[j].time
  }

  /** Places `x` after every element of `sorted` whose time is not later:
      the step of a stable insertion sort. */
  function InsertByTime(sorted: seq<Message>, x: Message): (r: seq<Message>)
    ensures |r| == |sorted| + 1
    ensures multiset(r) == multiset(sorted) + multiset{x}
    decreases |sorted|
  {
    if |sorted| == 0 then [x]
    else if sorted[|sorted| - 1].time <= x.time then sorted + [x]
    else
      var init := sorted[..|sorted| - 1];
      assert sorted == init + [sorted[|sorted| - 1]];
      InsertByTime(init, x) + [sorted[|sorted| - 1]]
  }

  lemma {:induction false} InsertByTimeSorted(sorted: seq<Message>, x: Message)
    requires SortedByTime(sorted)
    ensures SortedByTime(InsertByTime(sorted, x))
    decreases |sorted|
  {
    if |sorted| > 0 && sorted[|sorted| - 1].time > x.time {
      var init := sorted[..|sorted| - 1];
      var last := sorted[|sorted| - 1];
      InsertByTimeSorted(init, x);
      var ins := InsertByTime(init, x);
      forall i | 0 <= i < |ins|
        ensures ins[i].time <= last.time
      {
        assert ins[i] in multiset(ins);
        if ins[i] != x {
          assert ins[i] in multiset(init);
          var k :| 0 <= k < |init| && init[k] == ins[i];
          assert sorted[k] == init[k];
        }
      }
      var r := ins + [last];
      forall i, j | 0 <= i < j < |r|
        ensures r[i].time <= r[j].time
      {
        if j < |ins| {
          assert r[i] == ins[i] && r[j] == ins[j];
        } else {
          assert r[i] == ins[i];
        }
      }
    }
  }

  /** `list.sort((a, b) => a.time - b.time)`, stable. */
  function SortByTime(list: seq<Message>): (r: seq<Message>)
    ensures |r| == |list|
    ensures multiset(r) == multiset(list)
    ensures SortedByTime(r)
    decreases |list|
  {
    if |list| == 0 then []
    else
      var init := list[..|list| - 1];
      assert list == init + [list[|list| - 1]];
      InsertByTimeSorted(SortByTime(init), list[|list| - 1]);
      InsertByTime(SortByTime(init), list[|list| - 1])
  }

  /** Where the message the sort leaves last sits, found in one pass: the
      latest time, and among messages sharing it the last position. */
  function LatestIndex(list: seq<Message>): (k: nat)
    requires |list| > 0
    ensures k < |list|
    ensures forall i :: 0 <= i < |list| ==> list[i].time <= list[k].time
    ensures forall j :: k < j < |list| ==> list[j].time < list[k].time
    decreases |list|
  {
    if |list| == 1 then 0
    else
      var init := list[..|list| - 1];
      var k := LatestIndex(init);
      assert init[k] == list[k];
      if list[k].time <= list[|list| - 1].time then |list| - 1 else k
  }

  /** The message the sort leaves last: one with the latest time, after
      which only earlier messages follow. */
  function Latest(list: seq<Message>): (r: Message)
    requires |list| > 0
    ensures r in list
    ensures forall i :: 0 <= i < |list| ==> list[i].time <= r.time
    ensures exists k :: 0 <= k < |list| && list[k] == r && forall j :: k < j < |list| ==> list[j].time < r.time
  {
    var k := LatestIndex(list);
    list[k]
  }

  /** The element the stable sort puts last is the one `Latest` finds. */
  lemma {:induction false} LastOfSortIsLatest(list: seq<Message>)
    requires |list| > 0
    ensures SortByTime(list)[|list| - 1] == Latest(list)
    decreases |list|
  {
    if |list| > 1 {
      var init := list[..|list| - 1];
      LastOfSortIsLatest(init);
    }
  }

  /** `list.filter((m) => !m.isRead).length`. */
  function UnreadCount(list: seq<Message>): nat {
    Count(list, (m: Message) => !m.isRead)
  }

  /** One thread: unchanged without messages, otherwise the last message's
      text and time and the unread count. */
  function ReconcileThread(t: Thread, list: seq<Message>): (r: Thread)
    ensures r.id == t.id && r.userIds == t.userIds && r.otherUserId == t.otherUserId && r.productId == t.productId
    ensures |list| == 0 ==> r == t
  {
    if |list| == 0 then t
    else
      var last := SortByTime(list)[|list| - 1];
      t.(lastMessageText := last.text, lastMessageTime := last.time, unreadCount := UnreadCount(list))
  }

  function ReconcileThreads(threads: seq<Thread>, messages: seq<Message>): (r: seq<Thread>)
    ensures |r| == |threads|
    ensures forall i :: 0 <= i < |r| ==> r[i] == ReconcileThread(threads[i], MessagesOf(messages, threads[i].id))
  {
    seq(|threads|, i requires 0 <= i < |threads| => ReconcileThread(threads[i], MessagesOf(messages, threads[i].id)))
  }

  /** A thread's summary against its messages: with messages, the time is
      the latest one, the text is that of the last message at that time,
      and the unread count counts the unread ones. */
  predicate SummaryOk(t: Thread, list: seq<Message>) {
    |list| > 0 ==>
      && (forall i :: 0 <= i < |list| ==> list[i].time <= t.lastMessageTime)
      && (exists k :: 0 <= k < |list| && list[k].time == t.lastMessageTime && list[k].text == t.lastMessageText
           && forall j :: k < j < |list| ==> list[j].time < t.lastMessageTime)
      && t.unreadCount == UnreadCount(list)
  }

  /** A thread with messages ends at its latest message time, carries the
      text of the message that is last among those at that time, and counts
      its unread messages; a thread without messages is left as generated. */
  lemma ReconcileThreadCorrect(t: Thread, list: seq<Message>)
    ensures var r := ReconcileThread(t, list);
      && (|list| == 0 ==> r == t)
      && SummaryOk(r, list)
  {
    if |list| > 0 {
      LastOfSortIsLatest(list);
    }
  }

  /** Every reconciled thread's summary agrees with its own messages. */
  lemma ReconcileThreadsCorrect(threads: seq<Thread>, messages: seq<Message>)
    ensures var r := ReconcileThreads(threads, messages);
      forall i :: 0 <= i < |r| ==> SummaryOk(r[i], MessagesOf(messages, r[i].id))
  {
    var r := ReconcileThreads(threads, messages);
    forall i | 0 <= i < |r|
      ensures SummaryOk(r[i], MessagesOf(messages, r[i].id))
    {
      ReconcileThreadCorrect(threads[i], MessagesOf(messages, threads[i].id));
    }
  }
}
