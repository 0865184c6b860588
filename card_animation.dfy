/** The card choreography engine: per-card flip and deal state machines,
    their completion counting, the stagger schedules, and the role-card
    image table.

    Browser events are explicit method calls (`TransitionEnd`,
    `AnimationEnd`); a `setTimeout` callback firing is a method call too, and
    the time at which it fires is a schedule value computed from the
    options, counted in milliseconds from the call that set the timer. */
module CardAnimation {
  import opened Common
  import opened Session

  const DefaultDealDelay: int := 300
  const DefaultInitialDelay: int := 500
  const DefaultSequenceDelay: int := 200
  const ShakeDuration: nat := 500
  const DefaultHighlightDuration: int := 1000
  const UnknownImage: string := "unknown"

  const TwoTo31: int := 0x8000_0000
  const TwoTo32: int := 0x1_0000_0000

  /** The delay as `setTimeout` receives it, a 32-bit signed `long`: the
      value wraps modulo 2^32 into [-2^31, 2^31). */
  function ToInt32(ms: int): (v: int)
    ensures -TwoTo31 <= v < TwoTo31
    ensures (ms - v) % TwoTo32 == 0
    ensures -TwoTo31 <= ms < TwoTo31 ==> v == ms
  {
    var w := ms % TwoTo32;
    if w >= TwoTo31 then w - TwoTo32 else w
  }

  /** The wait of `setTimeout(f, ms)`: the delay is wrapped to 32 bits and a
      negative result waits 0 ms. */
  function TimerDelay(ms: int): (d: nat)
    ensures d < TwoTo31
    ensures 0 <= ms < TwoTo31 ==> d == ms
    ensures -TwoTo31 <= ms < 0 ==> d == 0
    ensures TwoTo31 <= ms < TwoTo32 ==> d == 0
    ensures -TwoTo32 <= ms < -TwoTo31 ==> d == ms + TwoTo32
  {
    var v := ToInt32(ms);
    if v < 0 then 0 else v
  }

  // ---------------------------------------------------------------------
  // Schedules

  /** The options object of dealFromDeck; an absent key keeps the default. */
  datatype DealOptions = DealOptions(delay: Option<int>, initialDelay: Option<int>, onComplete: bool)

  datatype DealSettings = DealSettings(delay: int, initialDelay: int, onComplete: bool)

  /** `{delay: 300, initialDelay: 500, onComplete: null, ...options}` */
  function Resolve(options: DealOptions): DealSettings {
    DealSettings(
      options.delay.GetOr(DefaultDealDelay),
      options.initialDelay.GetOr(DefaultInitialDelay),
      options.onComplete)
  }

  /** When card `i` of a deal is revealed: the outer timer waits
      `initialDelay`, then card `i`'s own timer waits `delay * i`. */
  function RevealTime(s: DealSettings, i: nat): nat {
    TimerDelay(s.initialDelay) + TimerDelay(s.delay * i)
  }

  /** When flip `i` of a flip sequence starts. */
  function FlipTime(delay: int, i: nat): nat {
    TimerDelay(i * delay)
  }

  /** The timers that dealFromDeck sets, one per card, in index order. */
  method DealSchedule(s: DealSettings, n: nat) returns (due: seq<nat>)
    ensures |due| == n
    ensures forall i :: 0 <= i < n ==> due[i] == RevealTime(s, i)
    ensures n > 0 ==> due[0] == TimerDelay(s.initialDelay)
  {
    due := [];
    var index := 0;
    while index < n
      invariant index <= n && |due| == index
      invariant forall i :: 0 <= i < index ==> due[i] == RevealTime(s, i)
    {
      due := due + [TimerDelay(s.initialDelay) + TimerDelay(s.delay * index)];
      index := index + 1;
    }
  }

  /** The timers that flipCardsSequence sets, one per card, in index order. */
  method FlipSchedule(delay: int, n: nat) returns (due: seq<nat>)
    ensures |due| == n
    ensures forall i :: 0 <= i < n ==> due[i] == FlipTime(delay, i)
  {
    due := [];
    var index := 0;
    while index < n
      invariant index <= n && |due| == index
      invariant forall i :: 0 <= i < index ==> due[i] == FlipTime(delay, i)
    {
      due := due + [TimerDelay(index * delay)];
      index := index + 1;
    }
  }

  /** With a non-negative stagger whose waits stay below 2^31 ms, cards are
      revealed in index order, each `delay` after the previous one. */
  lemma RevealTimesStaggered(s: DealSettings, i: nat)
    requires s.delay >= 0 && s.delay * (i + 1) < TwoTo31
    ensures RevealTime(s, i + 1) == RevealTime(s, i) + s.delay
    ensures RevealTime(s, i) >= TimerDelay(s.initialDelay)
  {
    assert s.delay * (i + 1) == s.delay * i + s.delay;
  }

  /** A negative stagger whose products stay at or above -2^31 is clamped:
      every card is revealed together. */
  lemma NegativeStaggerRevealsTogether(s: DealSettings, i: nat)
    requires s.delay < 0 && s.delay * i >= -TwoTo31
    ensures RevealTime(s, i) == TimerDelay(s.initialDelay)
  {
    if i > 0 {
      assert s.delay * i <= s.delay;
    }
  }

  // ---------------------------------------------------------------------
  // Role card faces

  /** createRoleCard's `roleImageMap`: role name to image file stem. */
  const RoleImageMap: map<string, string> := map[
    "占い師" := "seer",
    "占星術師" := "fortune_teller",
    "占い師の弟子" := "apprentice",
    "無法者" := "outlaw",
    "村長" := "mayor",
    "怪盗" := "thief",
    "スパイ" := "spy",
    "大熊" := "werewolf",
    "占い人狼" := "seer_wolf",
    "やっかいな豚男" := "troublesome_pig",
    "蛇女" := "snake_woman",
    "博識な子犬" := "knowledgeable_puppy"
  ]

  /** `roleImageMap[role.name] || 'unknown'` */
  function RoleImageKey(name: string): (key: string)
    ensures key != ""
    ensures key == UnknownImage <==> name !in RoleImageMap
    ensures name in RoleImageMap ==> key == RoleImageMap[name]
  {
    if name in RoleImageMap && RoleImageMap[name] != "" then RoleImageMap[name] else UnknownImage
  }

  /** Two different listed roles never share an image. */
  lemma RoleImagesDistinct(a: string, b: string)
    requires a in RoleImageMap && b in RoleImageMap && a != b
    ensures RoleImageKey(a) != RoleImageKey(b)
  {
  }

  /** What a card element shows: a field card's "?" or a role's data. */
  datatype Face =
    | FieldFace
    | RoleFace(name: string, imageKey: string, teamClass: string, cost: int, description: string)

  /** The face createRoleCard builds for `role`. */
  function RoleFaceOf(role: Role): (f: Face)
    ensures f.RoleFace? && f.name == role.name && f.imageKey == RoleImageKey(role.name)
    ensures f.teamClass == "village" <==> role.team == "village"
    ensures f.teamClass != "village" ==> f.teamClass == "werewolf"
    ensures f.cost == role.cost && f.description == role.description
  {
    var teamClass := if role.team == "village" then "village" else "werewolf";
    RoleFace(role.name, RoleImageKey(role.name), teamClass, role.cost, role.description)
  }

  // ---------------------------------------------------------------------
  // Cards and the deck

  /** How a flipCard call ended: ignored by the in-flight guard, called back
      at once, or called back later by the card's transitionend. */
  datatype FlipOutcome = Ignored | CalledBack | Deferred

  /** One card element: its classes, its inline opacity, its `flipping`
      data attribute and the listeners this engine attached to it. */
  class Card {
    const face: Face
    var flipped: bool        // class 'flipped': the back is showing
    var flipping: bool       // dataset.flipping === 'true'
    var flipListener: bool   // flipCard's transitionend listener is attached
    var opacityZero: bool    // style.opacity === '0'
    var dealing: bool        // class 'dealing'
    var dealListener: bool   // dealFromDeck's animationend listener is attached
    var floating: bool       // class 'float-animation'
    var shaking: bool        // class 'shake-animation'
    var highlighted: bool    // class 'highlight-animation'

    /** A card is mid-flip exactly while its transitionend listener waits. */
    ghost predicate Valid()
      reads this
    {
      flipping == flipListener
    }

    /** A new element: face up, visible, no animation classes. */
    constructor (face: Face)
      ensures Valid() && this.face == face
      ensures !flipped && !flipping && !flipListener && !opacityZero
      ensures !dealing && !dealListener && !floating && !shaking && !highlighted
    {
      this.face := face;
      flipped, flipping, flipListener, opacityZero := false, false, false, false;
      dealing, dealListener, floating, shaking, highlighted := false, false, false, false, false;
    }

    /** flipCard(card, isFront, callback) */
    method Flip(isFront: bool) returns (r: FlipOutcome)
      requires Valid()
      modifies this`flipped, this`flipping, this`flipListener
      ensures Valid()
      ensures old(flipping) ==> r == Ignored && flipped == old(flipped) && flipping
      ensures !old(flipping) && !old(flipped) == isFront ==>
                r == CalledBack && flipped == old(flipped) && !flipping
      ensures !old(flipping) && !old(flipped) != isFront ==>
                r == Deferred && flipped == !isFront && flipping
    {
      if flipping {
        return Ignored;
      }
      flipping := true;
      var isCurrentlyFront := !flipped;
      if isCurrentlyFront == isFront {
        flipping := false;
        return CalledBack;
      }
      if isFront {
        flipped := false;
      } else {
        flipped := true;
      }
      flipListener := true;
      r := Deferred;
    }

    /** The card's transitionend event: the waiting flip, if any, detaches
        its listener, clears the guard and calls back. */
    method TransitionEnd() returns (calledBack: bool)
      requires Valid()
      modifies this`flipping, this`flipListener
      ensures Valid()
      ensures calledBack == old(flipListener)
      ensures !flipping
    {
      calledBack := flipListener;
      if flipListener {
        flipListener := false;
        flipping := false;
      }
    }

    /** `card.style.opacity = '0'` before a deal. */
    method Hide()
      modifies this`opacityZero
      ensures opacityZero
    {
      opacityZero := true;
    }

    /** A deal timer reaches this card: class 'dealing', opacity 1, and the
        animationend listener attached. */
    method BeginDealing()
      modifies this`dealing, this`opacityZero, this`dealListener
      ensures dealing && !opacityZero && dealListener
    {
      dealing := true;
      opacityZero := false;
      dealListener := true;
    }

    /** The card's animationend event: the deal listener, if attached,
        detaches itself and removes 'dealing'. */
    method AnimationEnd() returns (handled: bool)
      modifies this`dealing, this`dealListener
      ensures handled == old(dealListener) && !dealListener
      ensures dealing == (old(dealing) && !handled)
    {
      handled := dealListener;
      if dealListener {
        dealListener := false;
        dealing := false;
      }
    }

    /** shakeCard: add the class; returns the delay after which it is removed. */
    method Shake() returns (revertAfter: nat)
      modifies this`shaking
      ensures shaking && revertAfter == ShakeDuration
    {
      shaking := true;
      revertAfter := ShakeDuration;
    }

    /** highlightCard(card, duration = 1000) */
    method Highlight(duration: Option<int>) returns (revertAfter: nat)
      modifies this`highlighted
      ensures highlighted && revertAfter == TimerDelay(duration.GetOr(DefaultHighlightDuration))
    {
      highlighted := true;
      revertAfter := TimerDelay(duration.GetOr(DefaultHighlightDuration));
    }

    /** The timer of Shake fires. */
    method EndShake()
      modifies this`shaking
      ensures !shaking
    {
      shaking := false;
    }

    /** The timer of Highlight fires. */
    method EndHighlight()
      modifies this`highlighted
      ensures !highlighted
    {
      highlighted := false;
    }

    /** floatCard: level-triggered, no timer. */
    method Float(isFloating: bool)
      modifies this`floating
      ensures floating == isFloating
    {
      if isFloating {
        floating := true;
      } else {
        floating := false;
      }
    }
  }

  /** The `#card-deck` element; `active` shows it. */
  class Deck {
    var active: bool

    constructor ()
      ensures !active
    {
      active := false;
    }
  }

  /** initDeck: hide the deck; a missing deck element is only logged. */
  method InitDeck(deck: Deck?)
    modifies deck
    ensures deck != null ==> !deck.active
  {
    if deck == null {
      return;
    }
    deck.active := false;
  }

  /** createRoleCard: a new, face-up card showing `role`. */
  method CreateRoleCard(role: Role) returns (card: Card)
    ensures fresh(card) && card.Valid() && card.face == RoleFaceOf(role)
    ensures !card.flipped && !card.flipping && !card.dealing && !card.opacityZero
    ensures !card.dealListener && !card.floating && !card.shaking && !card.highlighted
  {
    card := new Card(RoleFaceOf(role));
  }

  /** createFieldCard: a new, face-up "?" card. */
  method CreateFieldCard() returns (card: Card)
    ensures fresh(card) && card.Valid() && card.face == FieldFace
    ensures !card.flipped && !card.flipping && !card.dealing && !card.opacityZero
    ensures !card.dealListener && !card.floating && !card.shaking && !card.highlighted
  {
    card := new Card(FieldFace);
  }

  /** A role card comes out of createRoleCard face up: asking it to show
      its front calls back at once without a transition, and asking it to
      show its back starts one. */
  method FreshRoleCardFlips(role: Role) returns (toFront: FlipOutcome, toBack: FlipOutcome)
    ensures toFront == CalledBack && toBack == Deferred
  {
    var first := CreateRoleCard(role);
    toFront := first.Flip(true);
    var second := CreateRoleCard(role);
    toBack := second.Flip(false);
  }

  /** A new role card dealt from the deck on its own, as the first showing
      of a role does: with a deck the deal starts, the deck is shown and the
      card is hidden until its timer fires. */
  method DealNewRoleCard(role: Role, options: DealOptions, deck: Deck?) returns (card: Card, d: Deal?)
    modifies deck
    ensures fresh(card) && card.face == RoleFaceOf(role)
    ensures d == null <==> deck == null
    ensures d != null ==>
              fresh(d) && d.Valid() && d.cards == [card] && deck.active && card.opacityZero &&
              d.settings == Resolve(options) && d.progress == [Pending] && d.dealCount == 0
  {
    card := CreateRoleCard(role);
    d := DealFromDeck([card], options, deck);
  }

  /** setupFieldCards: every field card shows its back. */
  method SetupFieldCards(cards: seq<Card>)
    modifies (set c | c in cards)`flipped
    ensures forall i :: 0 <= i < |cards| ==> cards[i].flipped
  {
    for k := 0 to |cards|
      invariant forall i :: 0 <= i < k ==> cards[i].flipped
    {
      cards[k].flipped := true;
    }
  }

  // ---------------------------------------------------------------------
  // Dealing from the deck

  datatype DealProgress = Pending | Dealing | Dealt

  /** One dealFromDeck call in progress: which cards have been revealed and
      which have finished their deal animation, counted in `dealCount`. */
  class Deal {
    const cards: seq<Card>
    const deck: Deck
    const settings: DealSettings
    const due: seq<nat>           // when each card is revealed
    var progress: seq<DealProgress>
    var dealCount: nat
    var finished: bool            // the deck was put away
    var completeCalls: nat        // how often onComplete ran

    ghost predicate Valid()
      reads this, cards
    {
      |cards| > 0 && Distinct(cards) &&
      |progress| == |cards| && |due| == |cards| &&
      (forall i :: 0 <= i < |cards| ==> due[i] == RevealTime(settings, i)) &&
      (forall i :: 0 <= i < |cards| ==> (progress[i] == Dealing <==> cards[i].dealListener)) &&
      dealCount == Count(progress, Dealt) &&
      finished == (dealCount == |cards|) &&
      completeCalls == (if finished && settings.onComplete then 1 else 0)
    }

    constructor (cards: seq<Card>, deck: Deck, settings: DealSettings, due: seq<nat>)
      requires |cards| > 0 && Distinct(cards) && |due| == |cards|
      requires forall i :: 0 <= i < |cards| ==> due[i] == RevealTime(settings, i)
      requires forall i :: 0 <= i < |cards| ==> !cards[i].dealListener
      ensures Valid()
      ensures this.cards == cards && this.deck == deck && this.settings == settings && this.due == due
      ensures progress == seq(|cards|, _ => Pending) && dealCount == 0 && !finished && completeCalls == 0
    {
      this.cards := cards;
      this.deck := deck;
      this.settings := settings;
      this.due := due;
      progress := seq(|cards|, _ => Pending);
      dealCount := 0;
      finished := false;
      completeCalls := 0;
      new;
      CountAbsent(progress, Dealt);
    }

    /** Card `i`'s timer fires (at `due[i]`): it is revealed and starts its
        deal animation. */
    method Reveal(i: nat)
      requires Valid() && i < |cards| && progress[i] == Pending
      modifies this`progress, {cards[i]}`dealing, {cards[i]}`opacityZero, {cards[i]}`dealListener
      ensures Valid()
      ensures progress == old(progress)[i := Dealing]
      ensures cards[i].dealing && !cards[i].opacityZero
    {
      cards[i].BeginDealing();
      CountUpdate(progress, i, Dealing, Dealt);
      progress := progress[i := Dealing];
    }

    /** Card `i`'s animationend event. */
    method AnimationEnd(i: nat) returns (completed: bool)
      requires Valid() && i < |cards|
      modifies this`progress, this`dealCount, this`finished, this`completeCalls
      modifies {cards[i]}`dealing, {cards[i]}`dealListener, deck`active
      ensures Valid()
      ensures old(progress[i]) == Dealing ==>
                progress == old(progress)[i := Dealt] && dealCount == old(dealCount) + 1 && !cards[i].dealing
      ensures old(progress[i]) != Dealing ==>
                progress == old(progress) && dealCount == old(dealCount) && finished == old(finished) &&
                unchanged(cards[i]) && unchanged(deck)
      ensures finished && !old(finished) ==> !deck.active
      ensures !(finished && !old(finished)) ==> deck.active == old(deck.active)
      ensures completed <==> !old(finished) && finished && settings.onComplete
      ensures completeCalls <= 1
      ensures finished <==> forall j :: 0 <= j < |cards| ==> progress[j] == Dealt
    {
      CountFull(progress, Dealt);
      if progress[i] != Dealing {
        return false;
      }
      var handled := cards[i].AnimationEnd();
      CountUpdate(progress, i, Dealt, Dealt);
      progress := progress[i := Dealt];
      dealCount := dealCount + 1;
      completed := false;
      if dealCount >= |cards| {
        deck.active := false;
        finished := true;
        if settings.onComplete {
          completeCalls := completeCalls + 1;
          completed := true;
        }
      }
      CountFull(progress, Dealt);
    }
  }

  /** dealFromDeck(cards, options): with no cards or no deck element nothing
      happens; otherwise the deck is shown, every card hidden, and the deal
      scheduled. */
  method DealFromDeck(cards: seq<Card>, options: DealOptions, deck: Deck?) returns (d: Deal?)
    requires Distinct(cards)
    requires forall i :: 0 <= i < |cards| ==> !cards[i].dealListener
    modifies deck, (set c | c in cards)`opacityZero
    ensures d == null <==> |cards| == 0 || deck == null
    ensures d == null ==> (deck != null ==> unchanged(deck)) && forall c :: c in cards ==> unchanged(c)
    ensures d != null ==>
              fresh(d) && d.Valid() && d.cards == cards && d.deck == deck &&
              d.settings == Resolve(options) && deck.active &&
              (forall i :: 0 <= i < |cards| ==> cards[i].opacityZero) &&
              d.progress == seq(|cards|, _ => Pending) && d.dealCount == 0 && d.completeCalls == 0
  {
    if |cards| == 0 {
      return null;
    }
    if deck == null {
      return null;
    }
    var settings := Resolve(options);
    deck.active := true;
    for k := 0 to |cards|
      invariant deck.active
      invariant forall i :: 0 <= i < k ==> cards[i].opacityZero
      invariant forall i :: 0 <= i < |cards| ==> !cards[i].dealListener
    {
      cards[k].opacityZero := true;
    }
    var due := DealSchedule(settings, |cards|);
    d := new Deal(cards, deck, settings, due);
  }

  // ---------------------------------------------------------------------
  // Flipping a sequence of cards

  datatype FlipProgress = Scheduled | Skipped | Awaiting | Done

  /** One flipCardsSequence call in progress: the state of each card's flip
      and the shared completion counter `count`. */
  class FlipSequence {
    const cards: seq<Card>
    const isFront: bool
    const due: seq<nat>           // when each card's flip starts
    var progress: seq<FlipProgress>
    var count: nat
    var callbackCalls: nat        // how often the final callback ran

    ghost predicate Valid()
      reads this, cards
    {
      Distinct(cards) && |progress| == |cards| && |due| == |cards| &&
      (forall i :: 0 <= i < |cards| ==> cards[i].Valid()) &&
      (forall i :: 0 <= i < |cards| && progress[i] == Awaiting ==> cards[i].flipListener) &&
      count == Count(progress, Done) &&
      callbackCalls == (if count == |cards| then 1 else 0)
    }

    /** flipCardsSequence(cards, isFront, delay = 200, callback): an empty
        list calls back at once; otherwise one timer per card is set. */
    constructor (cards: seq<Card>, isFront: bool, delay: Option<int>)
      requires Distinct(cards)
      requires forall i :: 0 <= i < |cards| ==> cards[i].Valid()
      ensures Valid() && this.cards == cards && this.isFront == isFront
      ensures forall i :: 0 <= i < |cards| ==> due[i] == FlipTime(delay.GetOr(DefaultSequenceDelay), i)
      ensures progress == seq(|cards|, _ => Scheduled) && count == 0
      ensures callbackCalls == (if |cards| == 0 then 1 else 0)
    {
      var schedule := FlipSchedule(delay.GetOr(DefaultSequenceDelay), |cards|);
      this.cards := cards;
      this.isFront := isFront;
      this.due := schedule;
      progress := seq(|cards|, _ => Scheduled);
      count := 0;
      callbackCalls := if |cards| == 0 then 1 else 0;
      new;
      CountAbsent(progress, Done);
    }

    /** The final callback has run at most once, and only once every flip
        has called back; one ignored flip keeps it from ever running. */
    lemma CallbackRule()
      requires Valid()
      ensures callbackCalls <= 1
      ensures callbackCalls == 1 <==> forall i :: 0 <= i < |cards| ==> progress[i] == Done
      ensures (exists i :: 0 <= i < |cards| && progress[i] == Skipped) ==> callbackCalls == 0
    {
      CountFull(progress, Done);
    }

    /** Card `i`'s timer fires (at `due[i]`): flipCard on it, counting a
        synchronous call-back at once. */
    method FireTimer(i: nat) returns (r: FlipOutcome, calledBack: bool)
      requires Valid() && i < |cards| && progress[i] == Scheduled
      modifies this`progress, this`count, this`callbackCalls
      modifies {cards[i]}`flipped, {cards[i]}`flipping, {cards[i]}`flipListener
      ensures Valid()
      ensures r == Ignored <==> old(cards[i].flipping)
      ensures !old(cards[i].flipping) ==> (r == CalledBack <==> !old(cards[i].flipped) == isFront)
      ensures cards[i].flipped == if r == Deferred then !isFront else old(cards[i].flipped)
      ensures cards[i].flipping <==> r != CalledBack
      ensures progress == old(progress)[i := match r
                                              case Ignored => Skipped
                                              case CalledBack => Done
                                              case Deferred => Awaiting]
      ensures calledBack <==> old(callbackCalls) == 0 && callbackCalls == 1
      ensures calledBack ==> forall j :: 0 <= j < |cards| ==> progress[j] == Done
    {
      r := cards[i].Flip(isFront);
      calledBack := false;
      match r
      case Ignored =>
        CountUpdate(progress, i, Skipped, Done);
        progress := progress[i := Skipped];
      case Deferred =>
        CountUpdate(progress, i, Awaiting, Done);
        progress := progress[i := Awaiting];
      case CalledBack =>
        CountUpdate(progress, i, Done, Done);
        progress := progress[i := Done];
        count := count + 1;
        if count >= |cards| {
          callbackCalls := callbackCalls + 1;
          calledBack := true;
        }
      CountFull(progress, Done);
    }

    /** Card `i`'s transitionend event: when it ends this sequence's flip of
        that card, that flip is counted. */
    method TransitionEnd(i: nat) returns (ours: bool, calledBack: bool)
      requires Valid() && i < |cards|
      modifies this`progress, this`count, this`callbackCalls
      modifies {cards[i]}`flipping, {cards[i]}`flipListener
      ensures Valid()
      ensures ours <==> old(progress[i]) == Awaiting
      ensures !cards[i].flipping && !cards[i].flipListener
      ensures progress == if ours then old(progress)[i := Done] else old(progress)
      ensures calledBack <==> old(callbackCalls) == 0 && callbackCalls == 1
      ensures calledBack ==> forall j :: 0 <= j < |cards| ==> progress[j] == Done
    {
      var fired := cards[i].TransitionEnd();
      ours := progress[i] == Awaiting;
      calledBack := false;
      if ours {
        CountUpdate(progress, i, Done, Done);
        progress := progress[i := Done];
        count := count + 1;
        if count >= |cards| {
          callbackCalls := callbackCalls + 1;
          calledBack := true;
        }
      }
      CountFull(progress, Done);
    }
  }
}
