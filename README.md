# Scripted group chat: a Dafny model of the `App` component

The `App` component plays back a fixed conversation script. One message is
shown at a time. A message from another participant that is not a system
notice first shows a typing indicator with that participant's avatar. The
component also reveals a join action after a fixed delay. Once the user has
joined, it shows a share gate: each share click raises a counter, clamped at
5, and reaching 5 redirects the page.

This project models the component as a state machine driven by events: mount,
the conversation timeout firing, the reveal timeout firing, unmount, a join
click and a share click.

- `script.dfy` (module `Script`) holds the script entries, the test that
  decides whether a typing phase comes first, and the `avatar || null` rule.
- `conversation.dfy` (module `Conversation`) holds the conversation replay.
  The single pending `currentTimeout` is one `Timer` value. `Fire` runs its
  callback:
  - `addMessageWithDelay` stops at the end of the script, or starts typing, or
    displays at once;
  - `displayMessage` clears the indicator, appends the message and schedules
    the next index.

  The module has the replay's invariant and its lemmas: deliveries form a
  prefix of the script, the typing discipline, termination and the full
  replay.
- `share_counter.dfy` (module `ShareCounter`) holds the clamped counter
  `Math.min(prev + 1, 5)` and the redirect test.
- `app.dfy` (module `AppModel`) holds the component: `AppState` with one
  field per state cell, the pending timers and a log of browser side
  effects; `Step` for one event; and lemmas over any run of events. The class
  `App` has the same cells as fields and one method per event. Each event
  method is proved to do exactly what `Step` does and to keep the invariant;
  the helpers `DisplayMessage` and `AddMessageWithDelay`, which mirror the
  source's closures, are proved equal to the `Conversation` functions of the
  same names.

Timers are events, not durations. Each conversation-timer fire receives a
`Tick`: the clock reading `Date.now()` and a value of `Math.random()` in
[0, 1). The delay a callback chooses is stored in the pending `Timer`, and
the invariant bounds it to the source's range.

Notes on the code's behaviour:

- After the last message, the code still schedules `addMessageWithDelay`
  for index `|script|` (line 72). That callback clears the indicator and
  stops (lines 63-65), so the replay ends one timeout after the last
  delivery.
- The join click sets `showJoinAction` back to false (line 95).
- `avatar || null` (line 76) also maps an empty avatar string to null.
- The redirect effect runs at mount and whenever `shareCount` changes
  (lines 87-91). It fires once because the count is clamped at 5: a click at
  5 leaves the count unchanged, so the effect does not run again.

## Model

| member | source | states |
|---|---|---|
| Script.NeedsTyping | App.tsx:75 | a message has a typing phase exactly when its sender is `other` and its type string is not `system`; used by every lemma about the typing indicator |
| Script.TypingAvatarOf | App.tsx:76 | the indicator gets the entry's avatar exactly when it is a non-empty string, and null otherwise |
| Conversation.TypingDelay | App.tsx:77 | the delay before a typed message is shown lies in [1200, 2700] ms for every random value in [0, 1) |
| Conversation.NextDelay | App.tsx:72 | the delay before the next index lies in [1500, 2500] ms for every random value in [0, 1) |
| Conversation.StartChat | App.tsx:82 | mounting schedules the processing of index 0 after 1000 ms and leaves messages and indicator alone; `StartChatValid` and `FullReplay` carry its promises |
| Conversation.CancelChat | App.tsx:83 | the cleanup leaves no conversation timeout pending and keeps messages and indicator; `CancelChatValid`, `FireWithoutTimer` and `AppModel.TornDownIsFinal` carry its promises |
| Conversation.DisplayMessage | App.tsx:69-73 | appends one message carrying the given entry after the existing ones, clears the indicator, and schedules index + 1 with a delay in [1500, 2500] |
| Conversation.AddMessageWithDelay | App.tsx:62-81 | past the end: clears the indicator and schedules nothing; a typed message: shows its avatar and schedules its display; any other message: appends it at once with the indicator cleared and schedules the next index |
| Conversation.Fire | App.tsx:72-82 | runs the pending callback (the ones set at lines 72, 77 and 82), is the identity with none pending, and appends at most one message without changing earlier ones; `FireValid`, `FireAppendsNext` and `FireCountsDown` carry its promises |
| Conversation.StartChatValid | App.tsx:82 | the initial state and the state with index 0 scheduled after 1000 ms satisfy the replay invariant |
| Conversation.CancelChatValid | App.tsx:83 | clearing the pending timeout keeps the invariant and leaves messages and indicator as they were |
| Conversation.FireValid | App.tsx:62-81 | every fire keeps the invariant: messages are a prefix of the script in order, the indicator is set only for the next message and only if it needs typing, the pending timeout matches the next index and its delay is in range |
| Conversation.FireAppendsNext | App.tsx:68-73 | a fire either leaves the messages unchanged or appends exactly the next script entry, with id now + index, and clears the indicator; nothing is reordered or removed |
| Conversation.TypingBeforeDelivery | App.tsx:69-80 | a delivered message that needs typing was delivered by the display callback while its avatar was showing; any other delivered message was delivered directly with no indicator before or after |
| Conversation.TypingSetOnlyForTypedMessage | App.tsx:75-77 | whenever a fire leaves the indicator on, no message was appended and the indicator is the avatar of the next message, which needs typing |
| Conversation.FireAtEnd | App.tsx:62-66 | the callback for the index past the end delivers nothing, and leaves all entries delivered in order, the indicator null and no timeout pending |
| Conversation.FireWithoutTimer | App.tsx:83 | with no timeout pending (never started, finished or cleared), a fire changes nothing |
| Conversation.FireCountsDown | App.tsx:62-82 | each fire of a pending timeout lowers the number of callbacks still to run by one, so the timeout chain always ends |
| Conversation.StopsOnlyAtEnd | App.tsx:62-66 | the chain leaves no timeout pending only after delivering the whole script with the indicator cleared |
| Conversation.ReplayDeliversScript | App.tsx:62-82 | from any running state, the remaining number of fires delivers every entry of the script in script order, clears the indicator and leaves nothing scheduled |
| Conversation.FullReplay | App.tsx:59-84 | from mount, `FiresFrom(script, 0)` fires deliver exactly the whole script in order, for every script length |
| Conversation.FireKeepsIdsIncreasing | App.tsx:71 | ids `Date.now() + index` strictly increase if the clock has not gone back since the previous display |
| ShareCounter.NextShareCount | App.tsx:104 | a click below 5 adds one, a click at or above 5 gives 5, and the result never exceeds 5 |
| ShareCounter.ReachedQuota | App.tsx:88 | within the counter's range, the test `shareCount >= 5` holds exactly at 5 |
| ShareCounter.Redirects | App.tsx:87-91 | the redirect effect navigates on a click exactly when the click takes the count from 4 to 5, since at 5 the count does not change and the effect does not re-run |
| ShareCounter.CountAfterShift | App.tsx:104 | one click followed by k clicks is the same as k + 1 clicks |
| ShareCounter.CountAfterClicks | App.tsx:104 | from a count n in [0, 5], k clicks give min(n + k, 5) |
| ShareCounter.ClicksFromZero | App.tsx:104 | from 0, k clicks give min(k, 5) |
| ShareCounter.ClickBoundedAndMonotone | App.tsx:104 | a click keeps the count in [0, 5], never lowers it, and leaves it unchanged exactly when it is 5 |
| AppModel.MountApp | App.tsx:50-91 | mounting arms the reveal timeout, schedules the conversation, leaves the flags and count as they were, and triggers no redirect at count 0 |
| AppModel.Join | App.tsx:93-97 | hides the join action, shows the share gate, records the join link and changes nothing else |
| AppModel.Share | App.tsx:99-105 | within [0, 5], sets the count to min(count + 1, 5), records one more share composer, and adds a redirect exactly on the click from 4 to 5 |
| AppModel.Step | App.tsx:50-105 | one event: messages only ever grow at the end, the effect log only grows, the component never returns to before mount nor reaches teardown without mounting, and only mounting arms the reveal timeout; `StepInv`, `RunInv` and the run lemmas carry its other promises |
| AppModel.InitInv | App.tsx:43-47 | the initial state cells satisfy the component invariant |
| AppModel.StepInv | App.tsx:50-105 | no event lowers the share count, and every event keeps the invariant: the replay invariant, count in [0, 5], one redirect exactly when the count is 5, pending reveal only while the join action is hidden, no timer after teardown, and a finished replay once the chat timeout is gone while mounted |
| AppModel.RunInv | App.tsx:50-105 | any sequence of events keeps the invariant |
| AppModel.Reachable | App.tsx:87-91 | every state reachable from the initial one keeps the invariant, and the redirect has fired at most once |
| AppModel.TornDownIsFinal | App.tsx:55-83 | after both cleanups have run (clearing the reveal timeout, line 55, and the conversation timeout, line 83), no event changes any part of the state, in particular messages, indicator and join action |
| AppModel.TeardownBeforeAnyFire | App.tsx:55-83 | unmounting (clearing the reveal timeout, line 55, and the conversation timeout, line 83) before any timeout fires leaves no delivered message, a null indicator and a hidden join action for every later run of events |
| AppModel.RevealOnlyByTimer | App.tsx:51-53 | the join action is switched on only by the reveal timeout while it is pending, and that fire consumes it |
| AppModel.RevealAtMostOnce | App.tsx:50-56 | in any run, the join action is switched on at most once, and not at all once the reveal timeout has fired or been cleared |
| AppModel.ShareClicksFromGate | App.tsx:99-105 | k clicks on the share gate give the clamped count, open the share composer k times and add a redirect only if the count crosses 5 |
| AppModel.ShareScenario | App.tsx:87-105 | from a fresh gate, k clicks read min(k, 5), and the redirect has fired once exactly when k >= 5 |
| AppModel.TwoMessageScenario | App.tsx:62-81 | for a typed message followed by an own message: typing with the avatar, then the first message, then the second with no typing, then the chain stops |
| AppModel.App.constructor | App.tsx:43-47 | the fields take the state cells' initial values and the invariant holds |
| AppModel.App.Start | App.tsx:50-91 | mounting sets the reveal timeout, schedules index 0 after 1000 ms and runs the redirect effect once, all as `Step` |
| AppModel.App.DisplayMessage | App.tsx:69-73 | clears the indicator, appends the captured entry with id now + index and schedules the next index, leaving the cells as `Conversation.DisplayMessage` computes |
| AppModel.App.AddMessageWithDelay | App.tsx:62-81 | stops at the end of the script, starts typing before a typed message, or displays at once, leaving the cells as `Conversation.AddMessageWithDelay` computes |
| AppModel.App.FireConversationTimer | App.tsx:72-82 | runs the pending callback as `Step`, keeps the invariant, changes nothing with no timeout pending, and appends at most the next script entry |
| AppModel.App.FireRevealTimer | App.tsx:51-53 | shows the join action if the reveal timeout was pending and consumes it |
| AppModel.App.Teardown | App.tsx:83 | clears the conversation timeout (and the reveal timeout, line 55) without touching messages or indicator |
| AppModel.App.JoinClick | App.tsx:93-97 | opens the join link, hides the join action and shows the share gate |
| AppModel.App.ShareClick | App.tsx:99-105 | opens the share composer, sets the count to min(count + 1, 5), which never decreases, and records the redirect only on the click that reaches 5 |

## Left out

- Rendering: the JSX, the `ShareGate` markup and its floating-point progress
  bar, the styles, and the `Header`, `ChatWindow` and `MessageInput`
  components. These components are not part of this model.
- Gating by `ChatWindow`: the model assumes the join button can be clicked
  whenever the chat window is shown, that is, while the share gate is hidden
  (line 115). Whether `ChatWindow` also hides the button until
  `showJoinAction` is true is not part of this model.
- `handleAnyClick` (lines 108-110), and clicks bubbling up to it from the
  join and share buttons: it only opens an external link.
- The URLs, `encodeURIComponent`, `window.open` and the
  `window.location.href` assignment: each is recorded only as an `Effect` in
  the log. The model does not stop after the redirect; later events are still
  modelled.
- Real time: delays are recorded and bounded but never elapse, so the order
  in which the two timers fire is a free choice of the event sequence. "The
  join action never shows before 8000 ms" is a timing property and is not
  modelled; the reveal timeout's 8000 ms is not recorded.
- Conversation.TypingDelay, Conversation.NextDelay: delays are computed over
  exact reals, not IEEE doubles. Double rounding makes the largest value of
  `Math.random()` give exactly 2700 (and 2500), so the bounds are stated
  closed. The truncation of a `setTimeout` delay to whole milliseconds is not
  modelled.
- Conversation.FireKeepsIdsIncreasing: increasing ids are proved only under an
  explicit clock assumption, because `Date.now()` can go back. No uniqueness is
  claimed beyond that.
- The contents of `MESSAGE_SCRIPT` and `GROUP_INFO`, and the fields of the
  message type other than sender, type, content and avatar: the script is an
  arbitrary sequence, and `./constants` and `./types` are not part of this
  model.
- React internals: re-running effects in strict mode, batching of state
  updates, and re-renders.
