# Werewolf lobby and game room: a verified model

This project models the client core of a browser game of "One Night
Werewolf" (多能力一夜人狼) in Dafny:

- the entry screen's checks on the player name and the game ID;
- the game room's reaction to each snapshot of the remote game record
  (`updateGameUI`, `updateWaitingPhaseUI`, `showStartGameButton`,
  `handleGameActiveUI` and the snapshot listener of `enterGameRoom`);
- the card animation engine (`flipCard`, `dealFromDeck`,
  `flipCardsSequence`, `createRoleCard`, `setupFieldCards`, `shakeCard`,
  `highlightCard`, `floatCard`, `initDeck`).

Modules:

- `Common`: `Option`, `Count` over sequences and its lemmas, `Distinct`.
- `Session`: the game record as one snapshot delivers it (`Role`,
  `Player`, `Snapshot`) and the lookup of the current user's entry.
- `HomeScreen`: JavaScript's `String.prototype.trim` and the two form
  checks of the entry screen.
- `StartGate`: the rule for the host's start button (at least four players,
  all ready) with its two reasons and its hint.
- `Reconciler`: one snapshot as a pure step over the room's annotations.
  - The annotations are the status last recorded, whether the field cards
    were dealt, the role name last shown and the ready button's state;
    the cache also notes whether the entry screen has replaced the room.
  - A step returns the new annotations and a `Reaction`: the hand, the
    ready button, then the waiting room or the active game.
- `GameRoomView`: the class `GameRoom`, whose fields are those annotations
  kept on the page's elements. Its methods update them in place and are
  proved to perform exactly the step `Reconciler` specifies.
- `CardAnimation`: classes `Card`, `Deck`, `Deal` (one `dealFromDeck`
  call in progress) and `FlipSequence` (one `flipCardsSequence` call in
  progress). Browser events (`transitionend`, `animationend`) and
  `setTimeout` callbacks are explicit method calls; the time at which each
  timer fires is computed by a schedule function.

How the code behaves where a plain reading of its intent suggests
otherwise (the model follows the code):

- **Status through `waiting`.** The status annotation is written only
  outside the waiting phase. A room that goes night → waiting → night
  therefore shows the night notice once, not twice
  (`Reconciler.SamePhaseAfterWaitingIsSilent`).
- **Reveal after the first deal.** `createRoleCard` builds a face-up card.
  The `flipCard(roleCard, true)` that follows the first deal of a role card
  therefore completes at once without any transition
  (`CardAnimation.FreshRoleCardFlips`).
- **Deck during a deal.** `dealFromDeck` shows the deck (`active`) while
  dealing and hides it when the last card finishes.
- **Ignored flip in a sequence.** In `flipCardsSequence`, a flip ignored by
  the in-flight guard never calls back. One such card keeps the sequence's
  callback from ever running (`CardAnimation.FlipSequence.CallbackRule`).
- **After "game not found".** The entry screen replaces the room, but the
  listener stays subscribed. A later snapshot that names the user reaches
  the players list, which is gone, and throws before anything changes, so
  nothing is shown or dealt again (`Reconciler.LeftRoomIsInert`).
- **Empty role name.** A stored role name of `''` is falsy, so a player
  whose role name is empty has the card dealt again on every snapshot
  (`Reconciler.EmptyRoleNameRedeals`).

## Model

| member | source | states |
|---|---|---|
| Session.FindPlayer | js/app.js:347-352 | the entry found has the current user's id and is one of the players; none is found exactly when no player has that id |
| StartGate.AllReadyMeans | js/app.js:490 | `every(player => player.ready)` holds exactly when each player is ready |
| StartGate.ReadyCountFull | js/app.js:462-463 | the ready counter equals the player count exactly when everyone is ready |
| StartGate.ReadyCountAppend | js/app.js:462 | the ready count of two groups of players together is the sum of their counts |
| StartGate.ReadyCountIsSize | js/app.js:462 | the ready counter is the number of positions holding a ready player |
| StartGate.Eligibility | js/app.js:488-533 | the start button is enabled iff there are at least four players and all are ready; fewer than four gives the count reason even when players are unready; otherwise an unready player gives the readiness reason |
| StartGate.StartHint | js/app.js:536-573 | the hint reads the ready message exactly when the button is enabled; while it is disabled the hint is exactly the gate's reason (the count reason first, then the readiness reason) |
| StartGate.EligibilityIgnoresOrder | js/app.js:490-491 | the verdict depends only on the multiset of players, not on their enumeration order |
| StartGate.JoinEffect | js/app.js:523 | a ready player joining an enabled room keeps it enabled; an unready player joining disables it |
| StartGate.ThreeThenFour | js/app.js:523-530 | three ready players give the count reason; a fourth ready player enables the button |
| StartGate.CountCheckedFirst | js/app.js:527-531 | two unready players get the count reason, not the readiness reason |
| StartGate.FiveWithOneUnready | js/app.js:527-533 | five players with one unready get the readiness reason |
| HomeScreen.TrimStart | js/app.js:117 | the result is a suffix of the input, the characters dropped are white space, and it does not start with white space |
| HomeScreen.TrimEnd | js/app.js:117 | the result is a prefix of the input, the characters dropped are white space, and it does not end with white space |
| HomeScreen.TrimEmptyIffBlank | js/app.js:117-118 | `trim()` gives the empty (falsy) string exactly for input made only of white space |
| HomeScreen.TrimShape | js/app.js:117 | the trimmed text is a contiguous slice of the input with no white space at either end |
| HomeScreen.TrimIdempotent | js/app.js:117 | trimming twice is trimming once |
| HomeScreen.SubmitCreate | js/app.js:116-126 | a blank name is rejected with the name message on the name input; any other name gives a create request with the trimmed, non-empty name and the selected icon |
| HomeScreen.SubmitJoin | js/app.js:144-166 | a blank name is rejected first; then a blank game ID on the game-ID input; otherwise both are sent trimmed and non-empty |
| HomeScreen.BlankAfterTrim | js/app.js:117-118 | trimmed input is blank exactly when the input was, and trimming it again changes nothing |
| HomeScreen.CreateIgnoresPadding | js/app.js:117 | surrounding white space in the name never changes what "create game" submits |
| HomeScreen.JoinIgnoresPadding | js/app.js:145-146 | surrounding white space in either input never changes what "join game" submits |
| CardAnimation.ToInt32 | js/modules/card-animation.js:113-115 | the delay `setTimeout` receives is the 32-bit signed value congruent to the given one modulo 2^32, and any value already in that range is kept |
| CardAnimation.TimerDelay | js/modules/card-animation.js:113-115 | the wait is below 2^31 ms; a delay in [0, 2^31) waits that long, one in [-2^31, 0) waits 0, one in [2^31, 2^32) wraps negative and waits 0, one in [-2^32, -2^31) wraps to itself plus 2^32 |
| CardAnimation.DealSchedule | js/modules/card-animation.js:70-115 | one timer per card in index order; card i is revealed after the initial delay plus i times the stagger, each wait wrapped to 32 bits and clamped at zero as `setTimeout` does |
| CardAnimation.FlipSchedule | js/modules/card-animation.js:306-315 | one timer per card in index order; flip i starts after i times the delay, wrapped to 32 bits and clamped at zero |
| CardAnimation.RevealTimesStaggered | js/modules/card-animation.js:113-115 | with a non-negative stagger whose product stays below 2^31 ms, each card is revealed exactly one stagger after the previous one, never before the initial delay |
| CardAnimation.NegativeStaggerRevealsTogether | js/modules/card-animation.js:113 | a negative stagger whose product stays at or above -2^31 is clamped, so every card is revealed at the initial delay |
| CardAnimation.RoleImageKey | js/modules/card-animation.js:241-256 | a listed role name maps to its image; every other name maps to "unknown"; the key is never empty |
| CardAnimation.RoleImagesDistinct | js/modules/card-animation.js:241-254 | two different listed roles never share an image |
| CardAnimation.RoleFaceOf | js/modules/card-animation.js:256-266 | the card shows the role's name, cost, description and image; the team class is "village" exactly for the village team, otherwise "werewolf" |
| CardAnimation.Card.constructor | js/modules/card-animation.js:237-238 | a new card is face up and visible, with no flip in flight and no animation class |
| CardAnimation.Card.Flip | js/modules/card-animation.js:124-155 | with a flip in flight the call is ignored and nothing changes; the orientation already shown calls back at once and leaves no flip in flight; otherwise the orientation changes and the call-back waits for the transition |
| CardAnimation.Card.TransitionEnd | js/modules/card-animation.js:149-153 | the waiting flip, if any, detaches its listener, clears the in-flight marker and calls back; with none, nothing is called back |
| CardAnimation.Card.Hide | js/modules/card-animation.js:65-67 | the card's opacity becomes 0 |
| CardAnimation.Card.BeginDealing | js/modules/card-animation.js:79-80 | the card gets the dealing class, becomes visible and waits for its animation end |
| CardAnimation.Card.AnimationEnd | js/modules/card-animation.js:83-85 | the deal listener, if attached, detaches itself and removes the dealing class |
| CardAnimation.Card.Shake | js/modules/card-animation.js:162-168 | the shake class is added, to be removed after 500 ms |
| CardAnimation.Card.Highlight | js/modules/card-animation.js:175-181 | the highlight class is added, to be removed after the given duration (1000 ms by default) as `setTimeout` waits for it, wrapped to 32 bits and clamped at zero |
| CardAnimation.Card.EndShake | js/modules/card-animation.js:165-167 | the shake class is removed |
| CardAnimation.Card.EndHighlight | js/modules/card-animation.js:178-180 | the highlight class is removed |
| CardAnimation.Card.Float | js/modules/card-animation.js:188-194 | the float class is present exactly when floating is asked for |
| CardAnimation.InitDeck | js/modules/card-animation.js:11-20 | the deck, when present, is hidden |
| CardAnimation.CreateRoleCard | js/modules/card-animation.js:236-273 | a new face-up card showing the role's face |
| CardAnimation.CreateFieldCard | js/modules/card-animation.js:279-289 | a new face-up card showing "?" |
| CardAnimation.FreshRoleCardFlips | js/modules/card-animation.js:124-136 | on a new role card, flipping to the front calls back at once and flipping to the back starts a transition |
| CardAnimation.DealNewRoleCard | js/app.js:397-404 | a role card created and dealt on its own: with a deck a deal of that one card starts with the resolved options, the deck is shown and the card hidden; without one nothing is dealt |
| CardAnimation.SetupFieldCards | js/modules/card-animation.js:200-206 | every field card shows its back |
| CardAnimation.DealFromDeck | js/modules/card-animation.js:30-67 | with no cards or no deck nothing changes; otherwise the deck is shown, every card is hidden and a deal starts with the resolved options and the schedule of DealSchedule |
| CardAnimation.Deal.constructor | js/modules/card-animation.js:69-73 | no card has been revealed or dealt yet and the completion callback has not run |
| CardAnimation.Deal.Reveal | js/modules/card-animation.js:74-106 | the card's timer reveals it and starts its deal animation; the deal count is kept |
| CardAnimation.Deal.AnimationEnd | js/modules/card-animation.js:83-103 | a card still dealing becomes dealt and the count grows by one; when the count reaches the number of cards the deck is hidden and the completion callback runs; otherwise the deck stays as it was; the callback never runs twice, and the deal is finished exactly when every card is dealt |
| CardAnimation.FlipSequence.constructor | js/modules/card-animation.js:298-315 | an empty list calls back at once; otherwise one flip per card is scheduled, 200 ms apart by default |
| CardAnimation.FlipSequence.CallbackRule | js/modules/card-animation.js:304-312 | the final callback runs at most once, exactly when every flip has called back, and never once some flip was ignored |
| CardAnimation.FlipSequence.FireTimer | js/modules/card-animation.js:307-313 | flip i is ignored exactly when that card was mid-flip; otherwise it calls back at once exactly when the card already shows the asked side, and waits for the transition otherwise; the card then shows the asked side only after a waiting flip and keeps its side otherwise, and stays mid-flip unless it called back; a synchronous call-back is counted at once; the final callback runs when this completes the count |
| CardAnimation.FlipSequence.TransitionEnd | js/modules/card-animation.js:308-312 | a transition end completes flip i only when that flip was waiting for it; afterwards card i is no longer mid-flip and has no listener; the final callback runs when this completes the count |
| Reconciler.PhaseNotice | js/app.js:585-604 | the notice tables list exactly night, day, voting and result, and the notice is the listed icon and message |
| Reconciler.ShowHand | js/app.js:392-424 | without a role the hand is empty and the stored name stays; with one a card for it is placed; it is dealt iff no (truthy) role is stored, flipped down and up iff another role is stored, left still iff the same non-empty role is stored; the role's name is then stored |
| Reconciler.WaitingPhase | js/app.js:449-485 | the counter shows the number of ready players out of all, full exactly when everyone is ready; the host gets the start button with the gate's verdict and anyone else its removal; an enabled button goes with a full counter of at least four |
| Reconciler.GameActive | js/app.js:582-630 | a notice only when the status differs from the recorded one and is listed, and the status is recorded; the field cards are dealt (300 ms apart after 1000 ms) iff not yet recorded as dealt and present, and the deal is recorded; the snapshot is handed on |
| Reconciler.UpdateGameUI | js/app.js:340-446 | a snapshot without the current user changes nothing; once the room has been replaced a member's snapshot changes nothing either; otherwise hand and ready button follow the user's entry; a waiting snapshot yields WaitingPhase for the user and leaves status and deal annotations alone; an active one runs GameActive on the snapshot carrying the room's game ID |
| Reconciler.OnSnapshot | js/app.js:276-287 | an absent game reports "game not found" and returns to the entry screen, which replaces the room, changing no annotation; a present one is handled by UpdateGameUI |
| Reconciler.Run | js/app.js:276-287 | one reaction per delivery, in delivery order, the first being the listener's reaction to the first delivery |
| Reconciler.RunConcat | js/app.js:276-287 | two batches of deliveries handled one after the other give the same annotations and reactions as handled together |
| Reconciler.LeftRoomIsInert | js/app.js:279-283 | after the entry screen replaced the room, no delivery changes the annotations, renders anything, shows a notice or deals |
| Reconciler.CardsStayInitialized | js/app.js:610-621 | once the deal is recorded no later delivery deals again or clears the record |
| Reconciler.FieldDealtExactlyOnce | js/app.js:609-622 | over any run the field cards are dealt exactly once if the room is on screen, has field cards, had not dealt them and some delivery arriving before any "game not found" is an active game the user belongs to, and otherwise never |
| Reconciler.RedeliveryIsQuiet | js/app.js:584-621 | for a role whose name is not empty, delivering the same snapshot again changes no annotation and shows no notice, deal or role animation |
| Reconciler.EmptyRoleNameRedeals | js/app.js:401-402 | an empty role name reads as no stored role, so the card is dealt again |
| Reconciler.SeerThenThief | js/app.js:395-424 | a first role is dealt; a later different role is flipped down and up, not dealt, and becomes the stored role |
| Reconciler.DayToVoting | js/app.js:584-604 | from day to voting the voting notice with its icon is shown |
| Reconciler.SamePhaseAfterWaitingIsSilent | js/app.js:439-445 | night, waiting, night shows one notice in all |
| Reconciler.DealtOnceAcrossPhases | js/app.js:609-622 | waiting, night, day deals the field cards once, with the night snapshot |
| GameRoomView.GameRoom.constructor | js/app.js:214-275 | a newly entered room holds two field cards and no annotation |
| GameRoomView.GameRoom.OnData | js/app.js:276-287 | the room's annotations, its replacement by the entry screen and its reaction are exactly those of Reconciler.OnSnapshot |
| GameRoomView.GameRoom.UpdateGameUI | js/app.js:340-446 | the in-place update equals Reconciler.UpdateGameUI on the room's annotations |
| GameRoomView.GameRoom.HandleGameActiveUI | js/app.js:582-622 | the in-place update equals Reconciler.GameActive on the room's annotations |
| GameRoomView.GameRoom.ClickReady | js/app.js:290-302 | the request asks for the opposite of the ready state the button shows, for this room and user |
| GameRoomView.EnterAndRedeliver | js/app.js:609-622 | in a newly entered room the first active snapshot deals the field cards and the same snapshot again does not |

## Left out

- Rendering: HTML markup, ARIA attributes, the player list, the connection
  status text, the ready bar's width and the button labels. A `Reaction`
  carries the values these show, not the markup.
- The network and the store: `listenToData`/`unsubscribeAll`, `createGame`,
  `joinGame`, `updatePlayerReady`, `startGame` and `leaveGame`. Snapshots
  are inputs; requests are returned values (`HomeScreen.Submission`,
  `GameRoomView.ReadyRequest`). The outcome of create and join (entering the
  room or the failure message) is not modelled.
- `initGame`, `initGameUtils` and `handlePhase`: js/modules/game-core.js and
  the utilities module are not part of this model. The hand-off to them is
  the `handOff` value of an active reaction.
- Timers and concurrency: the button-click and input-error classes (300 ms
  and 1000 ms), the 500 ms and 1000 ms waits inside the role choreography
  (recorded as values), and the order in which timers from different calls
  interleave.
- `setupPlayerCard`, the layout rectangles read by `dealFromDeck` and the
  CSS properties it sets: position only, no state.
- Icon selection on the entry screen, the Enter-key shortcuts, the
  tutorial, the help and leave buttons, and the keyboard shortcuts.
- Lookups in the plain-object tables (`statusMessages`, `statusIcons`,
  `roleImageMap`) by keys inherited from `Object.prototype`, such as
  "constructor": the model's maps have only the listed keys.
- Non-string phase tags (an absent `status` recorded as "undefined").
- An options key present with the value `undefined`: it overrides the
  default in the spread, while `DealOptions` treats it as absent.
- Whether the page provides the `#card-deck` element: the room template
  does not contain it. `DealFromDeck` and `InitDeck` model both cases, but
  the link from a `Reaction` to a `Deal` object is by its options value.
- A delivery after "game not found": the exception that ends it is the
  `RoomGone` reaction; the console output before it is not modelled.
- Delays as JavaScript numbers: fractional and very large delays (the
  products in the schedules are exact integers here) and the browser's
  nesting clamp of short timers are not modelled.
- CardAnimation.RevealTimesStaggered: the regular spacing is stated only
  while the stagger products stay below 2^31 ms; beyond that the wrapped
  waits of `TimerDelay` apply.
- CardAnimation.NegativeStaggerRevealsTogether: stated only while the
  products stay at or above -2^31; a product below that wraps to a
  positive wait, as `TimerDelay` states.
- CardAnimation.DealFromDeck: requires distinct cards with no deal already
  in flight on them; overlapping deals on the same card are not modelled.
- CardAnimation.FlipSequence.constructor: requires distinct cards and
  models the callback as present; without one the counting still happens
  and nothing runs.
- CardAnimation.Card.Shake: returns the removal delay instead of setting a
  timer; `EndShake` and `EndHighlight` are the timers firing.
