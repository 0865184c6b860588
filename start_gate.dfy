/** The waiting-room start rule: the host's start button is enabled only
    for four or more players who are all ready; otherwise it carries one of
    two reasons, the player count being checked first. */
module StartGate {
  import opened Session

  const MinPlayers: nat := 4
  const CountReason: string := "4人以上のプレイヤーが必要です"
  const ReadyReason: string := "全員が準備完了になるまで待ってください"
  /** The hint shown under an enabled start button. */
  const ReadyHint: string := "全員の準備が完了しました！ゲームを開始できます"

  /** The start button's state: enabled, or disabled with a reason. */
  datatype Gate = Enabled | Disabled(reason: string)

  /** `players.every(player => player.ready)` */
  function AllReady(players: seq<Player>): bool {
    if players == [] then true else players[0].ready && AllReady(players[1..])
  }

  /** `players.filter(p => p.ready).length` */
  function ReadyCount(players: seq<Player>): (n: nat)
    ensures n <= |players|
  {
    if players == [] then 0
    else (if players[0].ready then 1 else 0) + ReadyCount(players[1..])
  }

  lemma {:induction false} AllReadyMeans(players: seq<Player>)
    ensures AllReady(players) <==> forall i :: 0 <= i < |players| ==> players[i].ready
  {
    if players != [] {
      AllReadyMeans(players[1..]);
      assert forall i :: 0 < i < |players| ==> players[i] == players[1..][i - 1];
    }
  }

  /** The ready counter shows n/n exactly when everyone is ready. */
  lemma {:induction false} ReadyCountFull(players: seq<Player>)
    ensures ReadyCount(players) == |players| <==> AllReady(players)
  {
    if players != [] {
      ReadyCountFull(players[1..]);
    }
  }

  /** The positions of the ready players. */
  ghost function ReadyPositions(players: seq<Player>): set<int> {
    set i | 0 <= i < |players| && players[i].ready
  }

  /** Counting a room in two parts counts each part. */
  lemma {:induction false} ReadyCountAppend(a: seq<Player>, b: seq<Player>)
    ensures ReadyCount(a + b) == ReadyCount(a) + ReadyCount(b)
  {
    if a != [] {
      assert (a + b)[1..] == a[1..] + b;
      ReadyCountAppend(a[1..], b);
    } else {
      assert a + b == b;
    }
  }

  /** The ready counter is the number of ready players. */
  lemma {:induction false} ReadyCountIsSize(players: seq<Player>)
    ensures ReadyCount(players) == |ReadyPositions(players)|
  {
    if players != [] {
      var n := |players|;
      var init := players[..n - 1];
      ReadyCountIsSize(init);
      assert init + [players[n - 1]] == players;
      ReadyCountAppend(init, [players[n - 1]]);
      assert ReadyCount([players[n - 1]]) == if players[n - 1].ready then 1 else 0;
      if players[n - 1].ready {
        assert ReadyPositions(players) == ReadyPositions(init) + {n - 1};
      } else {
        assert ReadyPositions(players) == ReadyPositions(init);
      }
    }
  }

  /** `canStart` and `reason` of showStartGameButton. */
  function Eligibility(players: seq<Player>): (g: Gate)
    ensures g.Enabled? <==> |players| >= MinPlayers && forall i :: 0 <= i < |players| ==> players[i].ready
    ensures |players| < MinPlayers ==> g == Disabled(CountReason)
    ensures |players| >= MinPlayers && (exists i :: 0 <= i < |players| && !players[i].ready) ==>
              g == Disabled(ReadyReason)
  {
    AllReadyMeans(players);
    var allReady := AllReady(players);
    var playerCount := |players|;
    var canStart := playerCount >= MinPlayers && allReady;
    if canStart then Enabled
    else if playerCount < MinPlayers then Disabled(CountReason)
    else if !allReady then Disabled(ReadyReason)
    else Disabled("")  // the initial `reason = ''`, which no input reaches
  }

  /** The hint under the host's start button: the reason while it is
      disabled, the ready message once it is enabled. */
  function StartHint(players: seq<Player>): (hint: string)
    ensures hint == ReadyHint <==> Eligibility(players).Enabled?
    ensures hint != ReadyHint ==> hint == CountReason || hint == ReadyReason
    ensures Eligibility(players).Disabled? ==> hint == Eligibility(players).reason
  {
    match Eligibility(players)
    case Enabled => ReadyHint
    case Disabled(reason) => reason
  }

  /** The gate is recomputed from the whole player set: the order in which
      the players object enumerates its entries does not matter. */
  lemma EligibilityIgnoresOrder(ps: seq<Player>, qs: seq<Player>)
    requires multiset(ps) == multiset(qs)
    ensures Eligibility(ps) == Eligibility(qs)
  {
    assert |ps| == |multiset(ps)| == |multiset(qs)| == |qs|;
    forall i | 0 <= i < |ps| && !ps[i].ready
      ensures exists j :: 0 <= j < |qs| && !qs[j].ready
    {
      assert ps[i] in multiset(qs);
    }
    forall j | 0 <= j < |qs| && !qs[j].ready
      ensures exists i :: 0 <= i < |ps| && !ps[i].ready
    {
      assert qs[j] in multiset(ps);
    }
  }

  /** A ready player joining an enabled room keeps it enabled; an unready
      player joining any room disables it. */
  lemma JoinEffect(players: seq<Player>, p: Player)
    ensures Eligibility(players).Enabled? && p.ready ==> Eligibility(players + [p]).Enabled?
    ensures !p.ready ==> Eligibility(players + [p]).Disabled?
  {
    var ps := players + [p];
    assert ps[|players|] == p;
    assert forall i :: 0 <= i < |players| ==> ps[i] == players[i];
  }

  /** Three ready players: the count reason; a fourth ready player enables it. */
  lemma ThreeThenFour(a: Player, b: Player, c: Player, d: Player)
    requires a.ready && b.ready && c.ready && d.ready
    ensures Eligibility([a, b, c]) == Disabled(CountReason)
    ensures Eligibility([a, b, c, d]) == Enabled
  {
  }

  /** Two unready players still surface the count reason, not readiness. */
  lemma CountCheckedFirst(a: Player, b: Player)
    requires !a.ready && !b.ready
    ensures Eligibility([a, b]) == Disabled(CountReason)
  {
  }

  /** Five players with one unready: the readiness reason. */
  lemma FiveWithOneUnready(ps: seq<Player>)
    requires |ps| == 5 && !ps[4].ready
    ensures Eligibility(ps) == Disabled(ReadyReason)
  {
    assert !ps[4].ready;
  }
}
