/**
 * The `App` component: its five state cells, the conversation timeout, the
 * one-shot reveal timeout, the redirect effect and the join and share click
 * handlers, driven by one event at a time.
 *
 * `AppState` and `Step` are the specification; the class `App` holds the
 * state cells as fields and has one method per event, each proved to perform
 * `Step`.
 */
module AppModel {
  import opened Script
  import opened Conversation
  import opened ShareCounter

  /** Browser side effects, recorded in the order they are triggered. */
  datatype Effect =
    | OpenJoinLink        // window.open of the join page
    | OpenShareComposer   // window.open of the share composer
    | Redirect            // window.location.href assignment

  datatype Phase = BeforeMount | Mounted | TornDown

  datatype AppState = AppState(
    chat: Chat,             // messages, typingAvatar, currentTimeout
    revealPending: bool,    // joinTimeout is set and has not fired
    showJoinAction: bool,
    showShareGate: bool,
    shareCount: int,
    outbox: seq<Effect>,
    phase: Phase)

  /** The initial values of the state cells. */
  const Init: AppState := AppState(Idle, false, false, false, 0, [], BeforeMount)

  datatype Event =
    | Mount
    | ChatTimerFires(t: Tick)
    | RevealTimerFires
    | Unmount
    | JoinClicked
    | ShareClicked

  /** The redirect effect's body for a given count. */
  function RedirectEffect(count: int): seq<Effect>
  {
    if ReachedQuota(count) then [Redirect] else []
  }

  /** How many redirects have been triggered. */
  function RedirectCount(s: AppState): nat
  {
    multiset(s.outbox)[Redirect]
  }

  /** Mounting runs the three effects in declaration order. */
  function MountApp(s: AppState): (r: AppState)
    ensures r.phase == Mounted && r.revealPending && r.chat == StartChat(s.chat)
    ensures s.shareCount == 0 ==> r.outbox == s.outbox
    ensures r.showJoinAction == s.showJoinAction && r.showShareGate == s.showShareGate
    ensures r.shareCount == s.shareCount
  {
    s.(revealPending := true, chat := StartChat(s.chat),
       outbox := s.outbox + RedirectEffect(s.shareCount), phase := Mounted)
  }

  /** `handleShareClick` and the redirect effect it re-runs when the count
      changes. */
  function Share(s: AppState): (r: AppState)
    ensures 0 <= s.shareCount <= ShareQuota ==>
      && r.shareCount == Min(s.shareCount + 1, ShareQuota)
      && RedirectCount(r) == RedirectCount(s) + (if s.shareCount == ShareQuota - 1 then 1 else 0)
    ensures multiset(r.outbox)[OpenShareComposer] == multiset(s.outbox)[OpenShareComposer] + 1
    ensures r.chat == s.chat && r.phase == s.phase && r.showShareGate == s.showShareGate
  {
    var n := NextShareCount(s.shareCount);
    s.(shareCount := n,
       outbox := s.outbox + [OpenShareComposer]
                 + (if Redirects(s.shareCount, n) then [Redirect] else []))
  }

  /** `handleJoinClick`. */
  function Join(s: AppState): (r: AppState)
    ensures !r.showJoinAction && r.showShareGate
    ensures r.outbox == s.outbox + [OpenJoinLink] && RedirectCount(r) == RedirectCount(s)
    ensures r.chat == s.chat && r.shareCount == s.shareCount && r.phase == s.phase
  {
    s.(outbox := s.outbox + [OpenJoinLink], showJoinAction := false, showShareGate := true)
  }

  /** One event. Mounting happens once; the cleanup runs once, while mounted.
      The share button exists only while the gate is shown and the chat
      window (with the join button) only while it is not; an event the
      component cannot receive in a state leaves it unchanged. */
  function Step(script: seq<Entry>, s: AppState, e: Event): (r: AppState)
    ensures |s.chat.messages| <= |r.chat.messages| && r.chat.messages[..|s.chat.messages|] == s.chat.messages
    ensures s.outbox <= r.outbox
    ensures r.phase == BeforeMount ==> s.phase == BeforeMount
    ensures r.phase == TornDown ==> s.phase != BeforeMount
    ensures e != Mount ==> r.revealPending ==> s.revealPending
  {
    match e
    case Mount => if s.phase == BeforeMount then MountApp(s) else s
    case ChatTimerFires(t) => s.(chat := Fire(script, s.chat, t))
    case RevealTimerFires =>
      if s.revealPending then s.(revealPending := false, showJoinAction := true) else s
    case Unmount =>
      if s.phase == Mounted then s.(chat := CancelChat(s.chat), revealPending := false, phase := TornDown) else s
    case JoinClicked => if s.phase == Mounted && !s.showShareGate then Join(s) else s
    case ShareClicked => if s.phase == Mounted && s.showShareGate then Share(s) else s
  }

  function Run(script: seq<Entry>, s: AppState, events: seq<Event>): AppState
    decreases |events|
  {
    if events == [] then s else Run(script, Step(script, s, events[0]), events[1..])
  }

  /** The component's invariant. */
  ghost predicate Inv(script: seq<Entry>, s: AppState)
  {
    && Conversation.Valid(script, s.chat)
    && 0 <= s.shareCount <= ShareQuota
    && RedirectCount(s) == (if s.shareCount == ShareQuota then 1 else 0)
    && (s.shareCount > 0 ==> s.showShareGate)
    && (s.revealPending ==> s.phase == Mounted && !s.showJoinAction)
    && (s.phase == BeforeMount ==> s == Init)
    && (s.phase == TornDown ==> s.chat.timer == NoTimer && !s.revealPending)
    && (s.phase == Mounted && s.chat.timer == NoTimer ==> Finished(script, s.chat))
  }

  lemma InitInv(script: seq<Entry>)
    ensures Inv(script, Init)
  {
    StartChatValid(script);
  }

  /** Every event keeps the invariant. */
  lemma StepInv(script: seq<Entry>, s: AppState, e: Event)
    requires Inv(script, s)
    ensures Inv(script, Step(script, s, e))
    ensures s.shareCount <= Step(script, s, e).shareCount
  {
    match e
    case Mount =>
      StartChatValid(script);
    case ChatTimerFires(t) =>
      FireValid(script, s.chat, t);
      if s.chat.timer != NoTimer && Fire(script, s.chat, t).timer == NoTimer {
        StopsOnlyAtEnd(script, s.chat, t);
      }
    case RevealTimerFires =>
    case Unmount =>
      CancelChatValid(script, s.chat);
    case JoinClicked =>
    case ShareClicked =>
  }

  lemma {:induction false} RunInv(script: seq<Entry>, s: AppState, events: seq<Event>)
    requires Inv(script, s)
    ensures Inv(script, Run(script, s, events))
    decreases |events|
  {
    if events != [] {
      StepInv(script, s, events[0]);
      RunInv(script, Step(script, s, events[0]), events[1..]);
    }
  }

  /** Every reachable state keeps the invariant; in particular the redirect
      has fired at most once, and exactly once when the count is 5. */
  lemma Reachable(script: seq<Entry>, events: seq<Event>)
    ensures Inv(script, Run(script, Init, events))
    ensures RedirectCount(Run(script, Init, events)) <= 1
  {
    InitInv(script);
    RunInv(script, Init, events);
  }

  /** After teardown no event changes anything: both timeouts are cleared,
      so neither the messages nor the indicator nor the join action move. */
  lemma {:induction false} TornDownIsFinal(script: seq<Entry>, s: AppState, events: seq<Event>)
    requires Inv(script, s) && s.phase == TornDown
    ensures Run(script, s, events) == s
    decreases |events|
  {
    if events != [] {
      assert Step(script, s, events[0]) == s;
      TornDownIsFinal(script, s, events[1..]);
    }
  }

  /** Teardown before any timeout fires: no message is ever delivered, the
      indicator stays null and the join action never shows. */
  lemma TeardownBeforeAnyFire(script: seq<Entry>, events: seq<Event>)
    ensures var r := Run(script, Init, [Mount, Unmount] + events);
      r.chat.messages == [] && r.chat.typing == None && !r.showJoinAction
  {
    var s := Step(script, Step(script, Init, Mount), Unmount);
    assert ([Mount, Unmount] + events)[1..] == [Unmount] + events;
    assert ([Unmount] + events)[1..] == events;
    assert Run(script, Init, [Mount, Unmount] + events) == Run(script, s, events);
    StartChatValid(script);
    InitInv(script);
    StepInv(script, Init, Mount);
    StepInv(script, Step(script, Init, Mount), Unmount);
    TornDownIsFinal(script, s, events);
  }

  /** The number of events in a run that switch the join action on. */
  function Reveals(script: seq<Entry>, s: AppState, events: seq<Event>): nat
    decreases |events|
  {
    if events == [] then 0
    else
      var s' := Step(script, s, events[0]);
      (if !s.showJoinAction && s'.showJoinAction then 1 else 0) + Reveals(script, s', events[1..])
  }

  /** Only the reveal timeout switches the join action on, and only while it
      is pending. */
  lemma RevealOnlyByTimer(script: seq<Entry>, s: AppState, e: Event)
    requires Inv(script, s)
    requires !s.showJoinAction && Step(script, s, e).showJoinAction
    ensures e == RevealTimerFires && s.revealPending && !Step(script, s, e).revealPending
  {
  }

  /** The reveal timeout fires at most once per mount: once mounted and past
      it (fired or cleared), the join action is never switched on again. */
  lemma {:induction false} RevealAtMostOnce(script: seq<Entry>, s: AppState, events: seq<Event>)
    requires Inv(script, s)
    ensures Reveals(script, s, events) <= if s.phase == BeforeMount || s.revealPending then 1 else 0
    decreases |events|
  {
    if events != [] {
      var s' := Step(script, s, events[0]);
      StepInv(script, s, events[0]);
      RevealAtMostOnce(script, s', events[1..]);
      if !s.showJoinAction && s'.showJoinAction {
        RevealOnlyByTimer(script, s, events[0]);
      }
    }
  }

  /** `k` share clicks. */
  function Clicks(k: nat): (evs: seq<Event>)
  {
    seq(k, _ => ShareClicked)
  }

  /** While the gate is shown, `k` clicks advance the count as `k` clamped
      increments, open the composer `k` times and redirect only on the click
      that reaches 5. */
  lemma {:induction false} ShareClicksFromGate(script: seq<Entry>, s: AppState, k: nat)
    requires Inv(script, s) && s.phase == Mounted && s.showShareGate
    ensures var r := Run(script, s, Clicks(k));
      && r.shareCount == CountAfter(s.shareCount, k)
      && multiset(r.outbox)[OpenShareComposer] == multiset(s.outbox)[OpenShareComposer] + k
      && RedirectCount(r) == RedirectCount(s) + (if s.shareCount < ShareQuota <= s.shareCount + k then 1 else 0)
      && r.chat == s.chat && r.showShareGate
    decreases k
  {
    if k > 0 {
      var s' := Step(script, s, ShareClicked);
      StepInv(script, s, ShareClicked);
      assert Clicks(k)[1..] == Clicks(k - 1);
      ShareClicksFromGate(script, s', k - 1);
      CountAfterShift(s.shareCount, k - 1);
    }
  }

  /** The share gate scenario: after opening the gate with count 0, `k`
      clicks read `min(k, 5)` and the redirect has fired once exactly when
      `k >= 5`. */
  lemma ShareScenario(script: seq<Entry>, s: AppState, k: nat)
    requires Inv(script, s) && s.phase == Mounted && s.showShareGate && s.shareCount == 0
    ensures var r := Run(script, s, Clicks(k));
      r.shareCount == Min(k, ShareQuota) && RedirectCount(r) == (if k >= ShareQuota then 1 else 0)
  {
    ShareClicksFromGate(script, s, k);
    ClicksFromZero(k);
  }

  /** The two-message scenario: one typed message from another participant,
      then one own message. */
  lemma TwoMessageScenario(a: string, t1: Tick, t2: Tick, t3: Tick, t4: Tick)
    requires a != ""
    ensures
      var m0 := Entry(OtherSender, TextKind, "hello", Some(a));
      var m1 := Entry(SelfSender, TextKind, "hi", None);
      var script := [m0, m1];
      var c0 := StartChat(Idle);
      var c1 := Fire(script, c0, t1);
      var c2 := Fire(script, c1, t2);
      var c3 := Fire(script, c2, t3);
      var c4 := Fire(script, c3, t4);
      && c1.messages == [] && c1.typing == Some(a)
      && c2.messages == [Delivered(m0, t2.now)] && c2.typing == None
      && c3.messages == [Delivered(m0, t2.now), Delivered(m1, t3.now + 1)] && c3.typing == None
      && c4 == c3.(timer := NoTimer)
  {
  }

  /** The component. Fields mirror the state cells; `pending` is
      `currentTimeout`, `revealPending` is `joinTimeout`, `outbox` records
      the browser side effects. */
  class App {
    const script: seq<Entry>
    var messages: seq<Delivered>
    var typingAvatar: Option<string>
    var showJoinAction: bool
    var showShareGate: bool
    var shareCount: int
    var pending: Timer
    var revealPending: bool
    var phase: Phase
    var outbox: seq<Effect>

    function ChatCells(): Chat
      reads this
    {
      Chat(messages, typingAvatar, pending)
    }

    function Snapshot(): AppState
      reads this
    {
      AppState(ChatCells(), revealPending, showJoinAction, showShareGate, shareCount, outbox, phase)
    }

    ghost predicate Valid()
      reads this
    {
      Inv(script, Snapshot())
    }

    /** The state cells' initial values. */
    constructor (script: seq<Entry>)
      ensures this.script == script && Snapshot() == Init && Valid()
    {
      this.script := script;
      messages, typingAvatar := [], None;
      showJoinAction, showShareGate := false, false;
      shareCount := 0;
      pending, revealPending := NoTimer, false;
      phase := BeforeMount;
      outbox := [];
      new;
      InitInv(script);
    }

    /** Mount: set the reveal timeout, schedule index 0, run the redirect
        effect once. */
    method Start()
      requires Valid() && phase == BeforeMount
      modifies this
      ensures Valid() && Snapshot() == Step(script, old(Snapshot()), Mount)
      ensures pending == AddMessage(0, StartDelay) && revealPending && phase == Mounted
      ensures messages == [] && typingAvatar == None && outbox == []
    {
      revealPending := true;
      pending := AddMessage(0, StartDelay);
      if ReachedQuota(shareCount) {
        outbox := outbox + [Redirect];
      }
      phase := Mounted;
      StepInv(script, old(Snapshot()), Mount);
    }

    /** `displayMessage` for `index`, whose entry is `e`. */
    method DisplayMessage(index: nat, e: Entry, t: Tick)
      modifies this
      ensures Snapshot() == old(Snapshot()).(chat := Conversation.DisplayMessage(old(ChatCells()), index, e, t))
      ensures messages == old(messages) + [Delivered(e, t.now + index)] && typingAvatar == None
    {
      typingAvatar := None;
      messages := messages + [Delivered(e, t.now + index)];
      pending := AddMessage(index + 1, NextDelay(t.rand));
    }

    /** `addMessageWithDelay(index)`. */
    method AddMessageWithDelay(index: nat, t: Tick)
      modifies this
      ensures Snapshot() == old(Snapshot()).(chat := Conversation.AddMessageWithDelay(script, old(ChatCells()), index, t))
    {
      if index >= |script| {
        typingAvatar := None;
        pending := NoTimer;
        return;
      }
      var messageData := script[index];
      if NeedsTyping(messageData) {
        typingAvatar := TypingAvatarOf(messageData);
        pending := ShowMessage(index, messageData, TypingDelay(t.rand));
      } else {
        DisplayMessage(index, messageData, t);
      }
    }

    /** The conversation timeout fires, observing `t`. */
    method FireConversationTimer(t: Tick)
      requires Valid()
      modifies this
      ensures Valid() && Snapshot() == Step(script, old(Snapshot()), ChatTimerFires(t))
      ensures old(pending) == NoTimer ==> messages == old(messages) && typingAvatar == old(typingAvatar)
      ensures messages == old(messages) || messages == old(messages) + [Delivered(script[|old(messages)|], t.now + |old(messages)|)]
    {
      ghost var before := Snapshot();
      match pending {
        case NoTimer =>
        case AddMessage(i, _) =>
          pending := NoTimer;
          AddMessageWithDelay(i, t);
        case ShowMessage(i, e, _) =>
          DisplayMessage(i, e, t);
      }
      StepInv(script, before, ChatTimerFires(t));
      FireAppendsNext(script, before.chat, t);
    }

    /** The reveal timeout fires. */
    method FireRevealTimer()
      requires Valid()
      modifies this
      ensures Valid() && Snapshot() == Step(script, old(Snapshot()), RevealTimerFires)
      ensures showJoinAction == (old(showJoinAction) || old(revealPending)) && !revealPending
    {
      if revealPending {
        revealPending := false;
        showJoinAction := true;
      }
      StepInv(script, old(Snapshot()), RevealTimerFires);
    }

    /** The effects' cleanups: clear both timeouts. */
    method Teardown()
      requires Valid() && phase == Mounted
      modifies this
      ensures Valid() && Snapshot() == Step(script, old(Snapshot()), Unmount)
      ensures pending == NoTimer && !revealPending && phase == TornDown
      ensures messages == old(messages) && typingAvatar == old(typingAvatar)
    {
      pending := NoTimer;
      revealPending := false;
      phase := TornDown;
      StepInv(script, old(Snapshot()), Unmount);
    }

    /** `handleJoinClick`, from the chat window. */
    method JoinClick()
      requires Valid() && phase == Mounted && !showShareGate
      modifies this
      ensures Valid() && Snapshot() == Step(script, old(Snapshot()), JoinClicked)
      ensures !showJoinAction && showShareGate && outbox == old(outbox) + [OpenJoinLink]
    {
      outbox := outbox + [OpenJoinLink];
      showJoinAction := false;
      showShareGate := true;
      StepInv(script, old(Snapshot()), JoinClicked);
    }

    /** `handleShareClick`, from the share gate, and the redirect effect. */
    method ShareClick()
      requires Valid() && phase == Mounted && showShareGate
      modifies this
      ensures Valid() && Snapshot() == Step(script, old(Snapshot()), ShareClicked)
      ensures shareCount == Min(old(shareCount) + 1, ShareQuota) && old(shareCount) <= shareCount
      ensures outbox == old(outbox) + [OpenShareComposer]
                        + (if old(shareCount) == ShareQuota - 1 then [Redirect] else [])
    {
      outbox := outbox + [OpenShareComposer];
      var prev := shareCount;
      shareCount := NextShareCount(prev);
      if Redirects(prev, shareCount) {
        outbox := outbox + [Redirect];
      }
      StepInv(script, old(Snapshot()), ShareClicked);
    }
  }
}
