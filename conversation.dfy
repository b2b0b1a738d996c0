/**
 * The conversation scheduler: a self-rescheduling chain of timeouts that
 * replays the script one message at a time, showing a typing indicator
 * before each message from another participant.
 *
 * Timers are events: the single pending timeout is the `timer` field of a
 * `Chat`, and firing it is `Fire`, which is given the clock reading and the
 * random number the callback would observe.
 */
module Conversation {
  import opened Script

  /** A value of `Math.random()`. */
  type Random = r: real | 0.0 <= r < 1.0

  /** What a timer callback observes when it runs: `Date.now()` and the next
      `Math.random()`. */
  datatype Tick = Tick(now: int, rand: Random)

  /** Delay before index 0 is processed. */
  const StartDelay: real := 1000.0

  /** The range of the typing delay. The upper bound is closed: in double
      arithmetic the largest value of `Math.random()` rounds the sum up to
      exactly 2700. */
  predicate TypingDelayInRange(d: real)
  {
    1200.0 <= d <= 2700.0
  }

  /** The range of the delay before the next index; closed for the same
      reason. */
  predicate NextDelayInRange(d: real)
  {
    1500.0 <= d <= 2500.0
  }

  /** Delay between setting the indicator and showing the message. */
  function TypingDelay(rand: Random): (d: real)
    ensures TypingDelayInRange(d)
  {
    1200.0 + rand * 1500.0
  }

  /** Delay between showing a message and processing the next index. */
  function NextDelay(rand: Random): (d: real)
    ensures NextDelayInRange(d)
  {
    1500.0 + rand * 1000.0
  }

  /** The one pending conversation timeout (`currentTimeout`) and the
      callback it will run. `ShowMessage` holds the entry its closure
      captured. */
  datatype Timer =
    | NoTimer
    | AddMessage(index: nat, delay: real)
    | ShowMessage(index: nat, entry: Entry, delay: real)

  /** A delivered message: the script entry plus the id assigned on display. */
  datatype Delivered = Delivered(entry: Entry, id: int)

  /** The scheduler's state: the `messages` and `typingAvatar` cells and the
      pending timeout. */
  datatype Chat = Chat(messages: seq<Delivered>, typing: Option<string>, timer: Timer)

  const Idle: Chat := Chat([], None, NoTimer)

  /** The effect's first statement: schedule index 0. */
  function StartChat(c: Chat): (r: Chat)
    ensures r.messages == c.messages && r.typing == c.typing
    ensures r.timer.AddMessage? && r.timer.index == 0 && r.timer.delay == StartDelay
  {
    c.(timer := AddMessage(0, StartDelay))
  }

  /** The cleanup function: clear the pending timeout. */
  function CancelChat(c: Chat): (r: Chat)
    ensures r.messages == c.messages && r.typing == c.typing && r.timer == NoTimer
  {
    c.(timer := NoTimer)
  }

  /** `displayMessage`: clear the indicator, append the message with id
      `Date.now() + index`, and schedule the next index. */
  function DisplayMessage(c: Chat, index: nat, e: Entry, t: Tick): (r: Chat)
    ensures |r.messages| == |c.messages| + 1 && r.messages[..|c.messages|] == c.messages
    ensures r.messages[|c.messages|].entry == e && r.typing == None
    ensures r.timer.AddMessage? && r.timer.index == index + 1 && NextDelayInRange(r.timer.delay)
  {
    Chat(c.messages + [Delivered(e, t.now + index)], None, AddMessage(index + 1, NextDelay(t.rand)))
  }

  /** `addMessageWithDelay`: stop at the end of the script, otherwise either
      show the indicator and schedule the display, or display at once. */
  function AddMessageWithDelay(script: seq<Entry>, c: Chat, index: nat, t: Tick): (r: Chat)
    ensures index >= |script| ==> r.messages == c.messages && r.typing == None && r.timer == NoTimer
    ensures index < |script| && NeedsTyping(script[index]) ==>
      r.messages == c.messages && r.typing == TypingAvatarOf(script[index])
      && r.timer.ShowMessage? && r.timer.index == index && r.timer.entry == script[index]
    ensures index < |script| && !NeedsTyping(script[index]) ==>
      |r.messages| == |c.messages| + 1 && r.messages[|c.messages|].entry == script[index]
      && r.typing == None && r.timer.AddMessage? && r.timer.index == index + 1
  {
    if index >= |script| then
      c.(typing := None, timer := NoTimer)
    else if NeedsTyping(script[index]) then
      c.(typing := TypingAvatarOf(script[index]), timer := ShowMessage(index, script[index], TypingDelay(t.rand)))
    else
      DisplayMessage(c, index, script[index], t)
  }

  /** The pending timeout fires; with nothing pending nothing happens. */
  function Fire(script: seq<Entry>, c: Chat, t: Tick): (r: Chat)
    ensures c.timer == NoTimer ==> r == c
    ensures |c.messages| <= |r.messages| <= |c.messages| + 1
    ensures r.messages[..|c.messages|] == c.messages
  {
    match c.timer
    case NoTimer => c
    case AddMessage(i, _) => AddMessageWithDelay(script, c.(timer := NoTimer), i, t)
    case ShowMessage(i, e, _) => DisplayMessage(c, i, e, t)
  }

  /** The delivered messages are the first entries of the script, in order. */
  ghost predicate DeliveredPrefix(script: seq<Entry>, ms: seq<Delivered>)
  {
    |ms| <= |script| && forall k :: 0 <= k < |ms| ==> ms[k].entry == script[k]
  }

  /** The indicator shows only for the next message, which must need typing,
      and then shows that message's avatar. */
  ghost predicate TypingForNext(script: seq<Entry>, c: Chat)
  {
    c.typing.Some? ==>
      |c.messages| < |script| && NeedsTyping(script[|c.messages|])
      && c.typing == TypingAvatarOf(script[|c.messages|])
  }

  /** What the pending timeout is for, and the range of its delay. */
  ghost predicate TimerAgrees(script: seq<Entry>, c: Chat)
  {
    match c.timer
    case NoTimer => true
    case AddMessage(i, d) =>
      i == |c.messages| && c.typing == None
      && (i == 0 ==> d == StartDelay)
      && (i > 0 ==> NextDelayInRange(d))
    case ShowMessage(i, e, d) =>
      i == |c.messages| < |script| && e == script[i] && NeedsTyping(e)
      && c.typing == TypingAvatarOf(e) && TypingDelayInRange(d)
  }

  ghost predicate Valid(script: seq<Entry>, c: Chat)
  {
    DeliveredPrefix(script, c.messages) && TypingForNext(script, c) && TimerAgrees(script, c)
  }

  /** The replay has run to its end. */
  ghost predicate Finished(script: seq<Entry>, c: Chat)
  {
    |c.messages| == |script| && c.typing == None && c.timer == NoTimer
    && forall k :: 0 <= k < |script| ==> c.messages[k].entry == script[k]
  }

  lemma StartChatValid(script: seq<Entry>)
    ensures Valid(script, Idle) && Valid(script, StartChat(Idle))
  {
  }

  lemma CancelChatValid(script: seq<Entry>, c: Chat)
    requires Valid(script, c)
    ensures Valid(script, CancelChat(c))
    ensures CancelChat(c).messages == c.messages && CancelChat(c).typing == c.typing
  {
  }

  /** Firing keeps the invariant. */
  lemma FireValid(script: seq<Entry>, c: Chat, t: Tick)
    requires Valid(script, c)
    ensures Valid(script, Fire(script, c, t))
  {
  }

  /** Each fire either leaves the messages alone or appends exactly the next
      script entry, with id `now + index`, clearing the indicator first. */
  lemma FireAppendsNext(script: seq<Entry>, c: Chat, t: Tick)
    requires Valid(script, c)
    ensures var r := Fire(script, c, t);
      || r.messages == c.messages
      || (&& |c.messages| < |script|
          && r.messages == c.messages + [Delivered(script[|c.messages|], t.now + |c.messages|)]
          && r.typing == None)
  {
  }

  /** Typing discipline around a delivery: a message that needs typing is
      delivered by the display callback while its avatar was showing; any
      other message is delivered by the same callback that reached it, with
      no indicator before or after. */
  lemma TypingBeforeDelivery(script: seq<Entry>, c: Chat, t: Tick)
    requires Valid(script, c)
    requires |Fire(script, c, t).messages| > |c.messages|
    ensures var n := |c.messages|;
      && n < |script|
      && (NeedsTyping(script[n]) ==> c.timer.ShowMessage? && c.typing == TypingAvatarOf(script[n]))
      && (!NeedsTyping(script[n]) ==> c.timer.AddMessage? && c.typing == None)
      && Fire(script, c, t).typing == None
  {
  }

  /** The indicator is only ever switched on for the next message, and only
      when that message needs typing. */
  lemma TypingSetOnlyForTypedMessage(script: seq<Entry>, c: Chat, t: Tick)
    requires Valid(script, c)
    requires Fire(script, c, t).typing.Some?
    ensures var r := Fire(script, c, t);
      && r.messages == c.messages
      && |c.messages| < |script| && NeedsTyping(script[|c.messages|])
      && r.typing == TypingAvatarOf(script[|c.messages|])
  {
  }

  /** Reaching the end of the script: every entry has been delivered, the
      indicator is cleared and nothing further is scheduled. */
  lemma FireAtEnd(script: seq<Entry>, c: Chat, t: Tick)
    requires Valid(script, c)
    requires c.timer.AddMessage? && c.timer.index >= |script|
    ensures Finished(script, Fire(script, c, t))
    ensures Fire(script, c, t).messages == c.messages
  {
  }

  /** Without a pending timeout, a fire changes nothing. */
  lemma FireWithoutTimer(script: seq<Entry>, c: Chat, t: Tick)
    requires c.timer == NoTimer
    ensures Fire(script, c, t) == c
  {
  }

  /** Number of callbacks still to run once `addMessageWithDelay(i)` is due. */
  function FiresFrom(script: seq<Entry>, i: nat): (n: nat)
    decreases |script| - i
    ensures n >= 1
  {
    if i >= |script| then 1
    else (if NeedsTyping(script[i]) then 2 else 1) + FiresFrom(script, i + 1)
  }

  /** Number of callbacks still to run before the replay stops. */
  function Remaining(script: seq<Entry>, c: Chat): nat
  {
    match c.timer
    case NoTimer => 0
    case AddMessage(i, _) => FiresFrom(script, i)
    case ShowMessage(i, _, _) => 1 + FiresFrom(script, i + 1)
  }

  /** Every fire of a pending timeout brings the replay one callback closer
      to its end, so the chain always terminates. */
  lemma FireCountsDown(script: seq<Entry>, c: Chat, t: Tick)
    requires Valid(script, c) && c.timer != NoTimer
    ensures Remaining(script, Fire(script, c, t)) == Remaining(script, c) - 1
  {
  }

  /** The timeout chain stops only at the end of the script. */
  lemma StopsOnlyAtEnd(script: seq<Entry>, c: Chat, t: Tick)
    requires Valid(script, c) && c.timer != NoTimer
    requires Fire(script, c, t).timer == NoTimer
    ensures Finished(script, Fire(script, c, t))
  {
  }

  /** A run of consecutive conversation-timer fires. */
  function FireMany(script: seq<Entry>, c: Chat, ticks: seq<Tick>): Chat
    decreases |ticks|
  {
    if ticks == [] then c else FireMany(script, Fire(script, c, ticks[0]), ticks[1..])
  }

  /** Once started, `Remaining` fires replay the whole script: exactly
      `|script|` messages in script order, the indicator cleared, and no
      timeout left. */
  lemma {:induction false} ReplayDeliversScript(script: seq<Entry>, c: Chat, ticks: seq<Tick>)
    requires Valid(script, c) && c.timer != NoTimer
    requires |ticks| == Remaining(script, c)
    ensures Finished(script, FireMany(script, c, ticks))
    decreases |ticks|
  {
    var c' := Fire(script, c, ticks[0]);
    FireValid(script, c, ticks[0]);
    FireCountsDown(script, c, ticks[0]);
    if c'.timer == NoTimer {
      StopsOnlyAtEnd(script, c, ticks[0]);
      assert ticks[1..] == [];
    } else {
      ReplayDeliversScript(script, c', ticks[1..]);
    }
  }

  /** The whole replay from mount: `FiresFrom(script, 0)` fires after the
      start deliver the entire script. */
  lemma FullReplay(script: seq<Entry>, ticks: seq<Tick>)
    requires |ticks| == FiresFrom(script, 0)
    ensures Finished(script, FireMany(script, StartChat(Idle), ticks))
  {
    StartChatValid(script);
    ReplayDeliversScript(script, StartChat(Idle), ticks);
  }

  /** The clock reading at which message `k` was displayed. */
  function DisplayedAt(ms: seq<Delivered>, k: nat): int
    requires k < |ms|
  {
    ms[k].id - k
  }

  ghost predicate IdsIncreasing(ms: seq<Delivered>)
  {
    forall j, k :: 0 <= j < k < |ms| ==> ms[j].id < ms[k].id
  }

  /** Ids are `Date.now() + index`: if the clock has not gone back since the
      last display, the new id is larger than every earlier one. */
  lemma FireKeepsIdsIncreasing(script: seq<Entry>, c: Chat, t: Tick)
    requires Valid(script, c) && IdsIncreasing(c.messages)
    requires c.messages != [] ==> DisplayedAt(c.messages, |c.messages| - 1) <= t.now
    ensures IdsIncreasing(Fire(script, c, t).messages)
  {
    var r := Fire(script, c, t);
    if |r.messages| > |c.messages| {
      FireAppendsNext(script, c, t);
      var n := |c.messages|;
      assert r.messages[n].id == t.now + n;
      forall j, k | 0 <= j < k < |r.messages| ensures r.messages[j].id < r.messages[k].id {
        if k == n && j < n {
          assert c.messages[j].id <= c.messages[n - 1].id;
        }
      }
    }
  }
}
