/** One entered game room: the annotations the page keeps on its own
    elements, updated in place by each snapshot. Every method is proved to
    perform exactly the step Reconciler specifies. */
module GameRoomView {
  import opened Common
  import opened Session
  import CardAnimation
  import opened Reconciler

  /** The room template holds two field card elements. */
  const TemplateFieldCards: nat := 2

  /** `updatePlayerReady(gameId, uid, ready)`, sent by the ready button. */
  datatype ReadyRequest = ReadyRequest(gameId: string, uid: string, ready: bool)

  class GameRoom {
    const gameId: string
    const uid: string
    const fieldCards: nat
    var lastStatus: Option<string>
    var cardsInitialized: bool
    var currentRole: Option<string>
    var readyActive: bool
    var left: bool           // the entry screen has replaced the room's elements

    function Cache(): LocalCache
      reads this
    {
      LocalCache(lastStatus, cardsInitialized, currentRole, readyActive, left)
    }

    function Ctx(): Context {
      Context(gameId, uid, fieldCards)
    }

    /** enterGameRoom: the room is drawn afresh, so no annotation survives
        from an earlier room. */
    constructor (gameId: string, uid: string)
      ensures this.gameId == gameId && this.uid == uid && fieldCards == TemplateFieldCards
      ensures Cache() == FreshCache
    {
      this.gameId := gameId;
      this.uid := uid;
      fieldCards := TemplateFieldCards;
      lastStatus := None;
      cardsInitialized := false;
      currentRole := None;
      readyActive := false;
      left := false;
    }

    /** The snapshot listener of enterGameRoom; it stays subscribed after
        the entry screen has replaced the room. */
    method OnData(snapshot: Option<Snapshot>) returns (r: Reaction)
      modifies this`lastStatus, this`cardsInitialized, this`currentRole, this`readyActive, this`left
      ensures (Cache(), r) == OnSnapshot(old(Cache()), Ctx(), snapshot)
    {
      if snapshot.None? {
        left := true;
        return GameMissing(GameNotFound);
      }
      r := UpdateGameUI(snapshot.value);
    }

    /** updateGameUI(gameData, gameId) */
    method UpdateGameUI(snapshot: Snapshot) returns (r: Reaction)
      modifies this`lastStatus, this`cardsInitialized, this`currentRole, this`readyActive
      ensures (Cache(), r) == Reconciler.UpdateGameUI(old(Cache()), Ctx(), snapshot)
    {
      var data := snapshot.(gameId := gameId);
      var found := FindPlayer(data.players, uid);
      if found.None? {
        return NotMember;
      }
      if left {
        return RoomGone;
      }
      var me := found.value;

      var hand := Cleared;
      if me.role.Some? {
        var role := me.role.value;
        var choreography := Still;
        if !HasStoredRole(currentRole) {
          choreography := DealThenReveal(RoleDeal, RoleSettleDelay);
        } else if currentRole.value != role.name {
          choreography := FlipDownThenUp(RoleChangePause);
        }
        hand := RoleCard(CardAnimation.RoleFaceOf(role), choreography);
        currentRole := Some(role.name);
      }

      readyActive := me.ready;

      var phase;
      if data.status == Waiting {
        phase := WaitingPhase(data, me);
      } else {
        phase := HandleGameActiveUI(data);
      }
      r := Render(hand, me.ready, phase);
    }

    /** handleGameActiveUI(gameData, currentUserId) */
    method HandleGameActiveUI(data: Snapshot) returns (phase: Phase)
      modifies this`lastStatus, this`cardsInitialized
      ensures (phase, Cache()) == GameActive(old(Cache()), Ctx(), data)
    {
      var notice := None;
      if lastStatus != Some(data.status) {
        notice := PhaseNotice(data.status);
        lastStatus := Some(data.status);
      }
      var fieldDeal := None;
      if !cardsInitialized {
        if fieldCards > 0 {
          fieldDeal := Some(FieldDeal);
          cardsInitialized := true;
        }
      }
      phase := ActiveGame(notice, fieldDeal, data);
    }

    /** The ready button: asks for the opposite of the state it shows. */
    method ClickReady() returns (request: ReadyRequest)
      ensures request.gameId == gameId && request.uid == uid
      ensures request.ready != readyActive
    {
      request := ReadyRequest(gameId, uid, !readyActive);
    }
  }

  /** A room entered and sent the same active snapshot twice deals its
      field cards with the first delivery only. */
  method EnterAndRedeliver(gameId: string, uid: string, s: Snapshot) returns (first: Reaction, second: Reaction)
    requires IsMember(s, uid) && s.status != Waiting
    ensures DealsField(first) && !DealsField(second)
  {
    var room := new GameRoom(gameId, uid);
    first := room.OnData(Some(s));
    second := room.OnData(Some(s));
  }
}
