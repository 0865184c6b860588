/** What the game room does with each snapshot of the remote game record,
    as a step function over the room's local annotations.

    The annotations (`LocalCache`) are the status last recorded, whether the
    field cards have been dealt, the role name last shown and whether the
    ready button is pressed; besides them the cache notes whether the entry
    screen has replaced the room. One step takes them and a snapshot and yields
    the new annotations and the room's `Reaction`: what it shows, in the
    fixed order hand, ready button, then the waiting room or the active
    game. The class GameRoomView.GameRoom performs the same step
    statement by statement. */
module Reconciler {
  import opened Common
  import opened Session
  import StartGate
  import CardAnimation

  const Waiting: string := "waiting"
  const GameNotFound: string := "ゲームが見つかりません"

  /** The phase notice tables of handleGameActiveUI. */
  const StatusMessages: map<string, string> := map[
    "night" := "夜フェーズが始まりました",
    "day" := "日中フェーズが始まりました",
    "voting" := "投票フェーズが始まりました",
    "result" := "結果発表フェーズです"
  ]
  const StatusIcons: map<string, string> := map[
    "night" := "🌙",
    "day" := "☀️",
    "voting" := "✍️",
    "result" := "🏆"
  ]

  /** The first deal of a role card: 300 ms stagger, default initial delay,
      with a completion callback that flips the card face up 500 ms later. */
  const RoleDeal: CardAnimation.DealOptions := CardAnimation.DealOptions(Some(300), None, true)
  const RoleSettleDelay: nat := 500
  /** The pause between the face-down and the face-up flip of a role change. */
  const RoleChangePause: nat := 1000
  /** The deal of the field cards: 300 ms stagger after 1000 ms, no callback. */
  const FieldDeal: CardAnimation.DealOptions := CardAnimation.DealOptions(Some(300), Some(1000), false)

  /** The room's own annotations; never written back to the game record. */
  datatype LocalCache = LocalCache(
    lastStatus: Option<string>,   // gameStatus's data-status attribute
    cardsInitialized: bool,       // gameStatus's data-cards-initialized
    currentRole: Option<string>,  // playerHand's data-current-role
    readyActive: bool,            // readyBtn's 'active' class
    left: bool)                   // showHomeScreen has replaced the room's elements

  /** The annotations of a room just entered. */
  const FreshCache: LocalCache := LocalCache(None, false, None, false, false)

  /** What one room knows besides the snapshot: its game ID, the signed-in
      user and how many field card elements its view holds. */
  datatype Context = Context(gameId: string, uid: string, fieldCards: nat)

  /** How a newly placed role card is animated. */
  datatype Choreography =
    | Still                                                   // the stored role is unchanged
    | DealThenReveal(options: CardAnimation.DealOptions, settleDelay: nat)
    | FlipDownThenUp(pause: nat)

  /** The player's hand after it is cleared: empty, or one role card. */
  datatype Hand = Cleared | RoleCard(face: CardAnimation.Face, choreography: Choreography)

  /** The host's start button with its gate, or its removal for anyone else. */
  datatype StartControl = StartButton(gate: StartGate.Gate) | NoStartButton

  /** A phase notice, shown as the icon, a space and the message. */
  datatype Notice = Notice(icon: string, message: string)

  datatype Phase =
    | WaitingRoom(readyCount: nat, playerCount: nat, start: StartControl)
    | ActiveGame(notice: Option<Notice>,
                 fieldDeal: Option<CardAnimation.DealOptions>,   // setupFieldCards, then dealFromDeck
                 handOff: Snapshot)                              // initGame, initGameUtils, handlePhase

  datatype Reaction =
    | GameMissing(error: string)      // the error notification, then the entry screen
    | NotMember                       // logged; nothing else happens
    | RoomGone                        // the room's elements are gone: updateGameUI
                                      // throws at the players list before any change
    | Render(hand: Hand, readyActive: bool, phase: Phase)

  /** The notice for a phase tag: `statusMessages[status]` when it is truthy. */
  function PhaseNotice(status: string): (n: Option<Notice>)
    ensures n.Some? <==> status in {"night", "day", "voting", "result"}
    ensures n.Some? ==> n.value == Notice(StatusIcons[status], StatusMessages[status])
  {
    if status in StatusMessages && StatusMessages[status] != "" then
      Some(Notice(StatusIcons[status], StatusMessages[status]))
    else None
  }

  /** `previousRole` is truthy: present and not the empty string. */
  predicate HasStoredRole(prev: Option<string>) {
    prev.Some? && prev.value != ""
  }

  /** The player's hand for this snapshot and the role name stored after
      it: a player without a role gets an empty hand and the stored name
      stays; otherwise a new card for the role is dealt when no role is
      stored, flipped down and up when another role is stored, and left as
      it is when the same role is stored. */
  function ShowHand(prev: Option<string>, role: Option<Role>): (r: (Hand, Option<string>))
    ensures role.None? ==> r == (Cleared, prev)
    ensures role.Some? ==> r.1 == Some(role.value.name) && r.0.RoleCard? &&
                           r.0.face == CardAnimation.RoleFaceOf(role.value)
    ensures role.Some? ==> (r.0.choreography.DealThenReveal? <==> !HasStoredRole(prev))
    ensures role.Some? ==> (r.0.choreography.FlipDownThenUp? <==>
                              HasStoredRole(prev) && prev.value != role.value.name)
    ensures role.Some? ==> (r.0.choreography.Still? <==> role.value.name != "" && prev == Some(role.value.name))
    ensures r.0.RoleCard? && r.0.choreography.DealThenReveal? ==>
              r.0.choreography == DealThenReveal(RoleDeal, RoleSettleDelay)
    ensures r.0.RoleCard? && r.0.choreography.FlipDownThenUp? ==>
              r.0.choreography == FlipDownThenUp(RoleChangePause)
  {
    match role
    case None => (Cleared, prev)
    case Some(role) =>
      var choreography :=
        if !HasStoredRole(prev) then DealThenReveal(RoleDeal, RoleSettleDelay)
        else if prev.value != role.name then FlipDownThenUp(RoleChangePause)
        else Still;
      (RoleCard(CardAnimation.RoleFaceOf(role), choreography), Some(role.name))
  }

  /** updateWaitingPhaseUI: the ready counter, then for the host the start
      button with the gate's verdict and for anyone else its removal. The
      counter is full exactly when everyone is ready, and an enabled button
      always goes with a full counter of at least four. */
  function WaitingPhase(data: Snapshot, me: Player): (p: Phase)
    ensures p.WaitingRoom? && p.playerCount == |data.players|
    ensures p.readyCount == |StartGate.ReadyPositions(data.players)| <= p.playerCount
    ensures p.readyCount == p.playerCount <==> forall i :: 0 <= i < |data.players| ==> data.players[i].ready
    ensures me.isHost <==> p.start.StartButton?
    ensures me.isHost ==> p.start.gate == StartGate.Eligibility(data.players)
    ensures p.start.StartButton? && p.start.gate.Enabled? ==>
              p.readyCount == p.playerCount >= StartGate.MinPlayers
  {
    StartGate.ReadyCountFull(data.players);
    StartGate.ReadyCountIsSize(data.players);
    StartGate.AllReadyMeans(data.players);
    var button := if me.isHost then StartButton(StartGate.Eligibility(data.players)) else NoStartButton;
    WaitingRoom(StartGate.ReadyCount(data.players), |data.players|, button)
  }

  /** handleGameActiveUI: the phase notice when the status differs from the
      recorded one and the tables list it, the status recorded; the field
      cards set up and dealt while not recorded as dealt and present, the
      deal recorded; and the snapshot handed to the rules modules. */
  function GameActive(c: LocalCache, ctx: Context, data: Snapshot): (r: (Phase, LocalCache))
    ensures r.0.ActiveGame? && r.0.handOff == data
    ensures r.1 == c.(lastStatus := Some(data.status),
                      cardsInitialized := c.cardsInitialized || ctx.fieldCards > 0)
    ensures r.0.notice.Some? <==>
              c.lastStatus != Some(data.status) && data.status in {"night", "day", "voting", "result"}
    ensures r.0.notice.Some? ==> r.0.notice == PhaseNotice(data.status)
    ensures r.0.fieldDeal.Some? <==> !c.cardsInitialized && ctx.fieldCards > 0
    ensures r.0.fieldDeal.Some? ==> r.0.fieldDeal.value == FieldDeal
  {
    var changed := c.lastStatus != Some(data.status);
    var notice := if changed then PhaseNotice(data.status) else None;
    var status := if changed then Some(data.status) else c.lastStatus;
    var deal := !c.cardsInitialized && ctx.fieldCards > 0;
    var dealing := if deal then Some(FieldDeal) else None;
    (ActiveGame(notice, dealing, data),
     c.(lastStatus := status, cardsInitialized := c.cardsInitialized || deal))
  }

  /** updateGameUI(gameData, gameId): a snapshot without the current user
      changes nothing; once the entry screen has replaced the room a member's
      snapshot changes nothing either; otherwise the hand and the ready
      button follow the user's entry, and the status selects the waiting
      room, which leaves the phase annotations alone, or the active game,
      which receives the snapshot with the room's game ID filled in. */
  function UpdateGameUI(c: LocalCache, ctx: Context, snapshot: Snapshot): (r: (LocalCache, Reaction))
    ensures !IsMember(snapshot, ctx.uid) <==> r == (c, NotMember)
    ensures r.1.RoomGone? <==> IsMember(snapshot, ctx.uid) && c.left
    ensures r.1.RoomGone? ==> r.0 == c
    ensures r.0.left == c.left
    ensures IsMember(snapshot, ctx.uid) && !c.left ==>
              var me := FindPlayer(snapshot.players, ctx.uid).value;
              var hand := ShowHand(c.currentRole, me.role);
              r.1.Render? && r.1.hand == hand.0 && r.0.currentRole == hand.1 &&
              r.1.readyActive == me.ready && r.0.readyActive == me.ready
    ensures r.1.Render? ==> (r.1.phase.WaitingRoom? <==> snapshot.status == Waiting)
    ensures IsMember(snapshot, ctx.uid) && !c.left && snapshot.status == Waiting ==>
              r.1.phase == WaitingPhase(snapshot.(gameId := ctx.gameId),
                                        FindPlayer(snapshot.players, ctx.uid).value)
    ensures snapshot.status == Waiting ==>
              r.0.lastStatus == c.lastStatus && r.0.cardsInitialized == c.cardsInitialized
    ensures r.1.Render? && r.1.phase.ActiveGame? ==>
              r.1.phase == GameActive(c.(currentRole := r.0.currentRole, readyActive := r.0.readyActive),
                                      ctx, snapshot.(gameId := ctx.gameId)).0 &&
              r.0.lastStatus == Some(snapshot.status) &&
              r.0.cardsInitialized == (c.cardsInitialized || ctx.fieldCards > 0) &&
              r.1.phase.handOff == snapshot.(gameId := ctx.gameId)
  {
    var data := snapshot.(gameId := ctx.gameId);
    match FindPlayer(data.players, ctx.uid)
    case None => (c, NotMember)
    case Some(me) =>
      if c.left then (c, RoomGone) else
      var hand := ShowHand(c.currentRole, me.role);
      var c1 := c.(currentRole := hand.1, readyActive := me.ready);
      if data.status == Waiting then
        (c1, Render(hand.0, me.ready, WaitingPhase(data, me)))
      else
        var active := GameActive(c1, ctx, data);
        (active.1, Render(hand.0, me.ready, active.0))
  }

  /** The snapshot listener of enterGameRoom: an absent game shows an error
      and the entry screen, which replaces the room, and changes no
      annotation; the listener stays subscribed. */
  function OnSnapshot(c: LocalCache, ctx: Context, snapshot: Option<Snapshot>): (r: (LocalCache, Reaction))
    ensures snapshot.None? ==> r == (c.(left := true), GameMissing(GameNotFound))
    ensures snapshot.Some? ==> r == UpdateGameUI(c, ctx, snapshot.value) && !r.1.GameMissing?
  {
    match snapshot
    case None => (c.(left := true), GameMissing(GameNotFound))
    case Some(s) => UpdateGameUI(c, ctx, s)
  }

  /** A run of deliveries to one room, one after the other. */
  function Run(c: LocalCache, ctx: Context, deliveries: seq<Option<Snapshot>>): (r: (LocalCache, seq<Reaction>))
    ensures |r.1| == |deliveries|
    ensures deliveries != [] ==> r.1[0] == OnSnapshot(c, ctx, deliveries[0]).1
    decreases |deliveries|
  {
    if deliveries == [] then (c, [])
    else
      var first := OnSnapshot(c, ctx, deliveries[0]);
      var rest := Run(first.0, ctx, deliveries[1..]);
      (rest.0, [first.1] + rest.1)
  }

  predicate DealsField(r: Reaction) {
    r.Render? && r.phase.ActiveGame? && r.phase.fieldDeal.Some?
  }

  predicate Notifies(r: Reaction) {
    r.Render? && r.phase.ActiveGame? && r.phase.notice.Some?
  }

  /** How many reactions of a run deal the field cards. */
  function FieldDeals(rs: seq<Reaction>): (n: nat)
    ensures n <= |rs|
  {
    if rs == [] then 0 else (if DealsField(rs[0]) then 1 else 0) + FieldDeals(rs[1..])
  }

  /** How many reactions of a run show a phase notice. */
  function Notices(rs: seq<Reaction>): (n: nat)
    ensures n <= |rs|
  {
    if rs == [] then 0 else (if Notifies(rs[0]) then 1 else 0) + Notices(rs[1..])
  }

  /** The deal is recorded once made: no later delivery undoes it. */
  lemma {:induction false} CardsStayInitialized(c: LocalCache, ctx: Context, deliveries: seq<Option<Snapshot>>)
    requires c.cardsInitialized
    ensures Run(c, ctx, deliveries).0.cardsInitialized
    ensures FieldDeals(Run(c, ctx, deliveries).1) == 0
    decreases |deliveries|
  {
    if deliveries != [] {
      var first := OnSnapshot(c, ctx, deliveries[0]);
      CardsStayInitialized(first.0, ctx, deliveries[1..]);
      assert ([first.1] + Run(first.0, ctx, deliveries[1..]).1)[1..] == Run(first.0, ctx, deliveries[1..]).1;
    }
  }

  /** Running two batches of deliveries one after the other is running
      them together. */
  lemma {:induction false} RunConcat(c: LocalCache, ctx: Context, a: seq<Option<Snapshot>>, b: seq<Option<Snapshot>>)
    ensures var first := Run(c, ctx, a);
            var second := Run(first.0, ctx, b);
            Run(c, ctx, a + b) == (second.0, first.1 + second.1)
    decreases |a|
  {
    if a == [] {
      assert a + b == b;
      assert [] + Run(c, ctx, b).1 == Run(c, ctx, b).1;
    } else {
      var step := OnSnapshot(c, ctx, a[0]);
      assert (a + b)[0] == a[0];
      assert (a + b)[1..] == a[1..] + b;
      RunConcat(step.0, ctx, a[1..], b);
      var first := Run(step.0, ctx, a[1..]);
      var second := Run(first.0, ctx, b);
      assert [step.1] + (first.1 + second.1) == ([step.1] + first.1) + second.1;
    }
  }

  /** Once the entry screen has replaced the room nothing is rendered again:
      every later delivery leaves the cache as it is and shows no hand, no
      notice and no deal. */
  lemma {:induction false} LeftRoomIsInert(c: LocalCache, ctx: Context, deliveries: seq<Option<Snapshot>>)
    requires c.left
    ensures Run(c, ctx, deliveries).0 == c
    ensures forall k :: 0 <= k < |deliveries| ==> !Run(c, ctx, deliveries).1[k].Render?
    ensures FieldDeals(Run(c, ctx, deliveries).1) == 0 && Notices(Run(c, ctx, deliveries).1) == 0
    decreases |deliveries|
  {
    if deliveries != [] {
      var first := OnSnapshot(c, ctx, deliveries[0]);
      assert first.0 == c;
      var rest := Run(c, ctx, deliveries[1..]);
      LeftRoomIsInert(c, ctx, deliveries[1..]);
      var rs := [first.1] + rest.1;
      assert rs[1..] == rest.1;
      assert forall k :: 0 < k < |rs| ==> rs[k] == rest.1[k - 1];
    }
  }

  /** An active-game delivery for a member of the room. */
  predicate ActiveFor(ctx: Context, d: Option<Snapshot>) {
    d.Some? && IsMember(d.value, ctx.uid) && d.value.status != Waiting
  }

  /** No delivery before position `i` reported the game missing, so the
      room is still on screen when delivery `i` arrives. */
  predicate OnScreenAt(deliveries: seq<Option<Snapshot>>, i: int) {
    forall j :: 0 <= j < i && j < |deliveries| ==> deliveries[j].Some?
  }

  /** Over a whole run the field cards are dealt exactly once when the room
      is on screen, has field cards, had not dealt them, and some delivery
      that arrives before any "game not found" is an active game the user
      belongs to; otherwise they are not dealt at all. */
  lemma {:induction false} FieldDealtExactlyOnce(c: LocalCache, ctx: Context, deliveries: seq<Option<Snapshot>>)
    ensures FieldDeals(Run(c, ctx, deliveries).1) ==
              (if !c.left && !c.cardsInitialized && ctx.fieldCards > 0 &&
                  exists i :: 0 <= i < |deliveries| && ActiveFor(ctx, deliveries[i]) && OnScreenAt(deliveries, i)
               then 1 else 0)
    ensures FieldDeals(Run(c, ctx, deliveries).1) == 1 ==> Run(c, ctx, deliveries).0.cardsInitialized
    decreases |deliveries|
  {
    if deliveries == [] {
    } else if c.left {
      LeftRoomIsInert(c, ctx, deliveries);
    } else {
      var ds := deliveries;
      var first := OnSnapshot(c, ctx, ds[0]);
      var rest := Run(first.0, ctx, ds[1..]);
      assert ([first.1] + rest.1)[1..] == rest.1;
      if ds[0].None? {
        LeftRoomIsInert(first.0, ctx, ds[1..]);
        assert !exists i :: 0 <= i < |ds| && ActiveFor(ctx, ds[i]) && OnScreenAt(ds, i);
      } else if first.0.cardsInitialized {
        CardsStayInitialized(first.0, ctx, ds[1..]);
        assert OnScreenAt(ds, 0);
        if !c.cardsInitialized && ctx.fieldCards > 0 && !ActiveFor(ctx, ds[0]) {
          assert false;
        }
      } else {
        FieldDealtExactlyOnce(first.0, ctx, ds[1..]);
        assert !DealsField(first.1);
        var tail := ds[1..];
        if ctx.fieldCards > 0 && !c.cardsInitialized {
          assert !ActiveFor(ctx, ds[0]);
          if exists i :: 0 <= i < |ds| && ActiveFor(ctx, ds[i]) && OnScreenAt(ds, i) {
            var i :| 0 <= i < |ds| && ActiveFor(ctx, ds[i]) && OnScreenAt(ds, i);
            assert tail[i - 1] == ds[i];
            assert forall j :: 0 <= j < i - 1 ==> tail[j] == ds[j + 1];
            assert ActiveFor(ctx, tail[i - 1]) && OnScreenAt(tail, i - 1);
          }
          if exists i :: 0 <= i < |tail| && ActiveFor(ctx, tail[i]) && OnScreenAt(tail, i) {
            var i :| 0 <= i < |tail| && ActiveFor(ctx, tail[i]) && OnScreenAt(tail, i);
            assert ds[i + 1] == tail[i];
            assert forall j :: 0 < j < i + 1 ==> ds[j] == tail[j - 1];
            assert ActiveFor(ctx, ds[i + 1]) && OnScreenAt(ds, i + 1);
          }
        }
      }
    }
  }

  /** Delivering the same snapshot twice: the second delivery changes no
      annotation, shows no notice, deals nothing and animates no role card,
      for a role whose name is not empty. */
  lemma RedeliveryIsQuiet(c: LocalCache, ctx: Context, s: Snapshot)
    requires var me := FindPlayer(s.players, ctx.uid);
             me.Some? && me.value.role.Some? ==> me.value.role.value.name != ""
    ensures var first := UpdateGameUI(c, ctx, s);
            var second := UpdateGameUI(first.0, ctx, s);
            second.0 == first.0 && !Notifies(second.1) && !DealsField(second.1) &&
            (second.1.Render? && second.1.hand.RoleCard? ==> second.1.hand.choreography == Still)
  {
  }

  /** A role whose name is empty is stored as the falsy '', so every
      snapshot deals its card again. */
  lemma EmptyRoleNameRedeals(prev: Option<string>, role: Role)
    requires role.name == ""
    ensures ShowHand(ShowHand(prev, Some(role)).1, Some(role)).0.choreography.DealThenReveal?
  {
  }

  /** First the role "占い師" (seer), later "怪盗" (thief): the first card is
      dealt, the second flipped down and up and not dealt again. */
  lemma SeerThenThief(ctx: Context, s1: Snapshot, s2: Snapshot)
    requires var me := FindPlayer(s1.players, ctx.uid);
             me.Some? && me.value.role.Some? && me.value.role.value.name == "占い師"
    requires var me := FindPlayer(s2.players, ctx.uid);
             me.Some? && me.value.role.Some? && me.value.role.value.name == "怪盗"
    ensures var first := UpdateGameUI(FreshCache, ctx, s1);
            var second := UpdateGameUI(first.0, ctx, s2);
            first.1.Render? && first.1.hand.RoleCard? &&
            first.1.hand.choreography == DealThenReveal(RoleDeal, RoleSettleDelay) &&
            second.1.Render? && second.1.hand.RoleCard? &&
            second.1.hand.choreography == FlipDownThenUp(RoleChangePause) &&
            second.0.currentRole == Some("怪盗")
  {
    assert IsMember(s1, ctx.uid) && IsMember(s2, ctx.uid);
  }

  /** From "day" to "voting": the voting notice. */
  lemma DayToVoting(c: LocalCache, ctx: Context, s: Snapshot)
    requires c.lastStatus == Some("day") && !c.left && s.status == "voting" && IsMember(s, ctx.uid)
    ensures var r := UpdateGameUI(c, ctx, s).1;
            r.Render? && r.phase.ActiveGame? && r.phase.notice == Some(Notice("✍️", "投票フェーズが始まりました"))
  {
    assert StatusIcons["voting"] == "✍️" && StatusMessages["voting"] == "投票フェーズが始まりました";
  }

  /** The status is recorded only outside the waiting phase, so a return
      to the same phase through "waiting" shows no second notice. */
  lemma SamePhaseAfterWaitingIsSilent(ctx: Context, night: Snapshot, waiting: Snapshot)
    requires night.status == "night" && waiting.status == Waiting && IsMember(night, ctx.uid)
    ensures Notices(Run(FreshCache, ctx, [Some(night), Some(waiting), Some(night)]).1) == 1
  {
    var s1 := UpdateGameUI(FreshCache, ctx, night);
    var s2 := UpdateGameUI(s1.0, ctx, waiting);
    var s3 := UpdateGameUI(s2.0, ctx, night);
    assert [Some(night), Some(waiting), Some(night)][1..] == [Some(waiting), Some(night)];
    assert [Some(waiting), Some(night)][1..] == [Some(night)];
    assert [Some(night)][1..] == [];
    assert Run(s2.0, ctx, [Some(night)]).1 == [s3.1];
    assert Run(s1.0, ctx, [Some(waiting), Some(night)]).1 == [s2.1, s3.1];
    var rs := [s1.1, s2.1, s3.1];
    assert Run(FreshCache, ctx, [Some(night), Some(waiting), Some(night)]).1 == rs;
    assert Notifies(s1.1) && !Notifies(s2.1) && !Notifies(s3.1);
    assert rs[1..] == [s2.1, s3.1];
    assert rs[1..][1..] == [s3.1];
    assert [s3.1][1..] == [];
    assert Notices([s3.1]) == 0;
    assert Notices([s2.1, s3.1]) == 0;
  }

  /** waiting, then night, then day: the field cards are dealt once, with
      the night snapshot. */
  lemma DealtOnceAcrossPhases(ctx: Context, waiting: Snapshot, night: Snapshot, day: Snapshot)
    requires ctx.fieldCards > 0
    requires waiting.status == Waiting && night.status == "night" && day.status == "day"
    requires IsMember(night, ctx.uid)
    ensures FieldDeals(Run(FreshCache, ctx, [Some(waiting), Some(night), Some(day)]).1) == 1
    ensures DealsField(UpdateGameUI(UpdateGameUI(FreshCache, ctx, waiting).0, ctx, night).1)
  {
    var ds := [Some(waiting), Some(night), Some(day)];
    assert ActiveFor(ctx, ds[1]);
    FieldDealtExactlyOnce(FreshCache, ctx, ds);
  }
}
