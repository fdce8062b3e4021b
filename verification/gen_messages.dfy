/** The messages pass of `createMockDb`: each message goes to a thread id
    drawn from all thread ids and is sent by one of that thread's two
    participants. */
module GenMessages {
  import opened Ids
  import opened Wrappers
  import opened Sampling
  import opened Models
  import opened Lookup

  const MESSAGE_MAX_AGE_DAYS: nat := 14
  const MESSAGE_READ_PERCENT: nat := 75

  /** The draws of one message; `text` stands for the sentence picked from the corpus. */
  datatype MessageDraw = MessageDraw(threadDraw: nat, senderDraw: nat, text: string, daysDraw: nat, readRoll: nat, statusRoll: nat)

  /** `m_<n>`. */
  function MessageIdAt(n: nat): Id {
    Str("m_" + NatToString(n))
  }

  /** The message points at a thread, is sent by one of its participants
      and is at most 14 days old. */
  predicate MessageOk(threads: seq<Thread>, m: Message, now: int) {
    && m.threadId in ThreadIds(threads)
    && FindThread(threads, m.threadId).Some?
    && m.senderUserId in FindThread(threads, m.threadId).value.userIds
    && now - MESSAGE_MAX_AGE_DAYS * DAY_MS <= m.time <= now
  }

  predicate MessagesOk(threads: seq<Thread>, ms: seq<Message>, now: int) {
    forall i :: 0 <= i < |ms| ==> MessageOk(threads, ms[i], now)
  }

  /** The messages carry ids `m_<first>`, `m_<first + 1>`, ... */
  predicate NumberedFrom(ms: seq<Message>, first: nat) {
    forall i :: 0 <= i < |ms| ==> ms[i].id == MessageIdAt(first + i)
  }

  /** One iteration: `pick(threadIds)`, `threads.find(...)`, `pick(thread.userIds)`. */
  function MakeMessage(threads: seq<Thread>, d: MessageDraw, now: int, n: nat): (r: Result<Message, GenError>)
    ensures |threads| == 0 ==> r == Failure(EmptyPool(ThreadsPool))
    ensures r.Failure? ==> r.error.EmptyPool?
    ensures r.Success? ==> MessageOk(threads, r.value, now) && r.value.id == MessageIdAt(n)
    ensures r.Success? ==> r.value.text == d.text && r.value.isRead == Chance(MESSAGE_READ_PERCENT, d.readRoll)
  {
    if |threads| == 0 then Failure(EmptyPool(ThreadsPool))
    else
      var threadId := Pick(ThreadIds(threads), d.threadDraw);
      match FindThread(threads, threadId)
      // unreachable: the id was drawn from the threads themselves
      case None => Failure(EmptyPool(ThreadsPool))
      case Some(t) =>
        if |t.userIds| == 0 then Failure(EmptyPool(ParticipantsPool))
        else
          var days := Between(0, MESSAGE_MAX_AGE_DAYS, d.daysDraw);
          DaysAgoWindow(now, days, MESSAGE_MAX_AGE_DAYS);
          Success(Message(MessageIdAt(n), threadId, Pick(t.userIds, d.senderDraw), d.text,
            DaysAgo(now, days),
            Chance(MESSAGE_READ_PERCENT, d.readRoll), MessageStatusFromRoll(d.statusRoll)))
  }

  /** The messages loop from message number `n` on. */
  function RunMessages(threads: seq<Thread>, draws: seq<MessageDraw>, now: int, n: nat): (r: Result<seq<Message>, GenError>)
    ensures r.Success? ==> |r.value| == |draws| && NumberedFrom(r.value, n) && MessagesOk(threads, r.value, now)
    decreases |draws|
  {
    if |draws| == 0 then Success([])
    else
      match MakeMessage(threads, draws[0], now, n)
      case Failure(e) => Failure(e)
      case Success(m) =>
        match RunMessages(threads, draws[1..], now, n + 1)
        case Failure(e) => Failure(e)
        case Success(rest) =>
          MessagesCons(threads, m, rest, now, n);
          Success([m] + rest)
  }

  lemma MessagesCons(threads: seq<Thread>, m: Message, rest: seq<Message>, now: int, n: nat)
    requires m.id == MessageIdAt(n) && MessageOk(threads, m, now)
    requires NumberedFrom(rest, n + 1) && MessagesOk(threads, rest, now)
    ensures NumberedFrom([m] + rest, n) && MessagesOk(threads, [m] + rest, now)
  {
    assert forall i :: 1 <= i < |rest| + 1 ==> ([m] + rest)[i] == rest[i - 1];
  }

  /** The messages pass: one message per draw, ids `m_1`, `m_2`, ... */
  function GenerateMessages(threads: seq<Thread>, draws: seq<MessageDraw>, now: int): (r: Result<seq<Message>, GenError>)
    ensures r.Success? ==> |r.value| == |draws| && NumberedFrom(r.value, 1) && MessagesOk(threads, r.value, now)
  {
    RunMessages(threads, draws, now, 1)
  }

  /** With threads that all have participants only an empty thread list
      can make the pass fail, and only if a message is asked for. */
  lemma {:induction false} GenerateMessagesFails(threads: seq<Thread>, draws: seq<MessageDraw>, now: int, n: nat)
    requires forall i :: 0 <= i < |threads| ==> |threads[i].userIds| > 0
    ensures RunMessages(threads, draws, now, n).Failure? <==> |threads| == 0 && |draws| > 0
    decreases |draws|
  {
    if |draws| > 0 && |threads| > 0 {
      var threadId := Pick(ThreadIds(threads), draws[0].threadDraw);
      var k :| 0 <= k < |threads| && ThreadIds(threads)[k] == threadId;
      assert threads[k].id == threadId;
      var t := FindThread(threads, threadId).value;
      var j :| 0 <= j < |threads| && threads[j] == t;
      GenerateMessagesFails(threads, draws[1..], now, n + 1);
    }
  }

  /** The loop throws only by drawing from an empty pool. */
  lemma {:induction false} RunMessagesErrors(threads: seq<Thread>, draws: seq<MessageDraw>, now: int, n: nat)
    ensures var r := RunMessages(threads, draws, now, n);
      r.Failure? ==> r.error.EmptyPool?
    decreases |draws|
  {
    if |draws| > 0 {
      RunMessagesErrors(threads, draws[1..], now, n + 1);
    }
  }

  /** Message ids are pairwise different. */
  lemma MessageIdsDistinct(ms: seq<Message>, first: nat)
    requires NumberedFrom(ms, first)
    ensures forall i, j :: 0 <= i < |ms| && 0 <= j < |ms| && i != j ==> ms[i].id != ms[j].id
  {
    forall i, j | 0 <= i < |ms| && 0 <= j < |ms| && i != j
      ensures ms[i].id != ms[j].id
    {
      PrefixedCounterInjective("m_", first + i, first + j);
    }
  }
}
