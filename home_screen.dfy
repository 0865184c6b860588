/** The entry screen's two forms: "create game" needs a player name; "join
    game" needs a player name and then a game ID. Both inputs are trimmed
    the way JavaScript's `String.prototype.trim` does before the check. */
module HomeScreen {

  const NameRequired: string := "プレイヤー名を入力してください"
  const GameIdRequired: string := "ゲームIDを入力してください"

  /** The code points `trim` removes: ECMAScript WhiteSpace (tab, vertical
      tab, form feed, space, no-break space, byte order mark and the other
      space separators) and LineTerminator. */
  predicate IsJsSpace(c: char) {
    c == '\U{9}' || c == '\U{B}' || c == '\U{C}' || c == '\U{20}' ||
    c == '\U{A0}' || c == '\U{FEFF}' || c == '\U{1680}' ||
    ('\U{2000}' <= c <= '\U{200A}') || c == '\U{202F}' || c == '\U{205F}' || c == '\U{3000}' ||
    c == '\U{A}' || c == '\U{D}' || c == '\U{2028}' || c == '\U{2029}'
  }

  /** Nothing but white space: what `trim()` turns into the falsy `''`. */
  predicate IsBlank(s: string) {
    forall i :: 0 <= i < |s| ==> IsJsSpace(s[i])
  }

  /** Drops the leading white space. */
  function TrimStart(s: string): (r: string)
    ensures |r| <= |s| && r == s[|s| - |r|..]
    ensures forall i :: 0 <= i < |s| - |r| ==> IsJsSpace(s[i])
    ensures r == [] || !IsJsSpace(r[0])
  {
    if s != [] && IsJsSpace(s[0]) then TrimStart(s[1..]) else s
  }

  /** Drops the trailing white space. */
  function TrimEnd(s: string): (r: string)
    ensures |r| <= |s| && r == s[..|r|]
    ensures forall i :: |r| <= i < |s| ==> IsJsSpace(s[i])
    ensures r == [] || !IsJsSpace(r[|r| - 1])
  {
    if s != [] && IsJsSpace(s[|s| - 1]) then TrimEnd(s[..|s| - 1]) else s
  }

  /** `s.trim()` */
  function Trim(s: string): string {
    TrimEnd(TrimStart(s))
  }

  /** `trim()` yields the empty string exactly for blank input. */
  lemma TrimEmptyIffBlank(s: string)
    ensures Trim(s) == [] <==> IsBlank(s)
  {
    var t := TrimStart(s);
    assert t != [] ==> t[0] == s[|s| - |t|];
    assert t != [] ==> TrimEnd(t)[..1] == t[..1] || TrimEnd(t) == [];
  }

  /** The trimmed text neither starts nor ends with white space and is a
      contiguous part of the input. */
  lemma TrimShape(s: string)
    ensures Trim(s) == [] || (!IsJsSpace(Trim(s)[0]) && !IsJsSpace(Trim(s)[|Trim(s)| - 1]))
    ensures exists i, j :: 0 <= i <= j <= |s| && Trim(s) == s[i..j]
  {
    var t := TrimStart(s);
    var r := TrimEnd(t);
    if r != [] {
      assert r[0] == t[0];
    }
    var i := |s| - |t|;
    assert r == t[..|r|] == s[i..i + |r|];
  }

  /** Trimming twice is trimming once. */
  lemma TrimIdempotent(s: string)
    ensures Trim(Trim(s)) == Trim(s)
  {
    var r := Trim(s);
    TrimShape(s);
    var a := TrimStart(r);
    assert |a| < |r| ==> IsJsSpace(r[0]);
    assert a == r;
  }

  /** Which input a rejection points at. */
  datatype Field = PlayerNameInput | GameIdInput

  /** What pressing a button leads to: a request to the game store, or an
      error message with the offending input focused and marked. */
  datatype Submission =
    | CreateRequest(name: string, icon: string)
    | JoinRequest(gameId: string, name: string, icon: string)
    | Rejected(field: Field, message: string)

  /** The "create game" button's check. */
  function SubmitCreate(nameInput: string, icon: string): (r: Submission)
    ensures r.Rejected? <==> IsBlank(nameInput)
    ensures r.Rejected? ==> r == Rejected(PlayerNameInput, NameRequired)
    ensures !IsBlank(nameInput) ==> r == CreateRequest(Trim(nameInput), icon) && r.name != []
  {
    TrimEmptyIffBlank(nameInput);
    var playerName := Trim(nameInput);
    if playerName == [] then Rejected(PlayerNameInput, NameRequired)
    else CreateRequest(playerName, icon)
  }

  /** The "join game" button's check: the name is checked before the game ID. */
  function SubmitJoin(nameInput: string, gameIdInput: string, icon: string): (r: Submission)
    ensures IsBlank(nameInput) ==> r == Rejected(PlayerNameInput, NameRequired)
    ensures !IsBlank(nameInput) && IsBlank(gameIdInput) ==> r == Rejected(GameIdInput, GameIdRequired)
    ensures !IsBlank(nameInput) && !IsBlank(gameIdInput) ==>
              r.JoinRequest? && r.gameId != [] && r.name != [] &&
              r.gameId == Trim(gameIdInput) && r.name == Trim(nameInput) && r.icon == icon
  {
    TrimEmptyIffBlank(nameInput);
    TrimEmptyIffBlank(gameIdInput);
    var playerName := Trim(nameInput);
    var gameId := Trim(gameIdInput);
    if playerName == [] then Rejected(PlayerNameInput, NameRequired)
    else if gameId == [] then Rejected(GameIdInput, GameIdRequired)
    else JoinRequest(gameId, playerName, icon)
  }

  /** Trimming keeps blank input blank and other input non-blank. */
  lemma BlankAfterTrim(s: string)
    ensures IsBlank(Trim(s)) <==> IsBlank(s)
    ensures Trim(Trim(s)) == Trim(s)
  {
    TrimIdempotent(s);
    TrimEmptyIffBlank(s);
    TrimEmptyIffBlank(Trim(s));
  }

  /** Surrounding white space in the name never changes what "create game"
      submits. */
  lemma {:induction false} CreateIgnoresPadding(name: string, icon: string)
    ensures SubmitCreate(Trim(name), icon) == SubmitCreate(name, icon)
  {
    BlankAfterTrim(name);
  }

  /** Surrounding white space in either input never changes what "join
      game" submits. */
  lemma {:induction false} JoinIgnoresPadding(name: string, gameId: string, icon: string)
    ensures SubmitJoin(Trim(name), Trim(gameId), icon) == SubmitJoin(name, gameId, icon)
  {
    BlankAfterTrim(name);
    BlankAfterTrim(gameId);
  }
}
