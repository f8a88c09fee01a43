/**
 * The game screen's state (src/components/GameView.tsx): the status, player
 * list and creator flag refreshed by polling, the remaining time pushed on the
 * game's timer topic, the start request, and which view the status selects.
 *
 * The poll and the start request are given by their outcome; the status is the
 * text the server sent, which need not be one of the three the screen knows.
 */
module GameScreen {
  import opened Wrappers

  const Lobby := "LOBBY"
  const Playing := "PLAYING"
  const Finished := "FINISHED"

  datatype GameState = GameState(status: string, players: seq<string>, isCreator: bool, timeLeft: int)

  function Initial(): GameState {
    GameState(Lobby, [], false, 60)
  }

  /** What one poll of the game resource gave. */
  datatype PollResponse =
    | Failed                                            // the request or the body threw
    | NotOk                                             // `response.ok` is false
    | Ok(status: string, players: Option<seq<string>>)  // the game's status and its players, if present

  /** `game.players && game.players[0] === username`: a present list, non-empty, led by this user. */
  predicate LeadsList(players: Option<seq<string>>, username: string) {
    players.Some? && |players.value| > 0 && players.value[0] == username
  }

  function Poll(s: GameState, username: string, r: PollResponse): (t: GameState)
    ensures !r.Ok? ==> t == s
    ensures r.Ok? ==> t.status == r.status && t.players == r.players.GetOr([])
    ensures r.Ok? ==> (t.isCreator <==> |t.players| > 0 && t.players[0] == username)
    ensures t.timeLeft == s.timeLeft
  {
    match r
    case Ok(status, players) => s.(status := status, players := players.GetOr([]), isCreator := LeadsList(players, username))
    case _ => s
  }

  /** A value on the timer topic. */
  function Tick(s: GameState, time: int): (t: GameState)
    ensures t.timeLeft == time
    ensures t.status == (if time == 0 then Finished else s.status)
    ensures t.players == s.players && t.isCreator == s.isCreator
  {
    var t := s.(timeLeft := time);
    if time == 0 then t.(status := Finished) else t
  }

  /** `handleStartGame`: PLAYING once the POST resolves, whatever its HTTP status; unchanged when it throws. */
  function Start(s: GameState, resolved: bool): (t: GameState)
    ensures resolved ==> t == s.(status := Playing)
    ensures !resolved ==> t == s
  {
    if resolved then s.(status := Playing) else s
  }

  datatype View = LobbyView | EndView | PlayView

  function ViewOf(status: string): (v: View)
    ensures v == LobbyView <==> status == Lobby
    ensures v == EndView <==> status == Finished
  {
    if status == Lobby then LobbyView else if status == Finished then EndView else PlayView
  }

  /** A poll that still reports the game as running undoes a FINISHED the timer set. */
  lemma PollCanReopenFinishedGame(s: GameState, username: string)
    ensures var f := Tick(s, 0);
      && ViewOf(f.status) == EndView
      && ViewOf(Poll(f, username, Ok(Playing, None)).status) == PlayView
  {
  }

  /** Only a zero on the timer ends the game; any other value only moves the clock. */
  lemma TimerEndsOnlyAtZero(s: GameState, time: int)
    requires time != 0
    ensures Tick(s, time) == s.(timeLeft := time)
  {
  }

  /** What a guesser sees instead of the word: `'_ '` once per character. */
  function Masked(word: string): (m: string)
    ensures |m| == 2 * |word|
  {
    if word == [] then [] else "_ " + Masked(word[1..])
  }

  /** The mask reveals nothing but the length: underscores at even positions, spaces at odd ones. */
  lemma {:induction false} MaskedShape(word: string)
    ensures forall i :: 0 <= i < |Masked(word)| ==> Masked(word)[i] == if i % 2 == 0 then '_' else ' '
    decreases |word|
  {
    if word != [] {
      MaskedShape(word[1..]);
      var m := Masked(word);
      var rest := Masked(word[1..]);
      assert m == "_ " + rest;
      forall i | 2 <= i < |m| ensures m[i] == rest[i - 2] {
      }
    }
  }

  /** Equal lengths give equal masks. */
  lemma {:induction false} MaskedDependsOnLengthOnly(a: string, b: string)
    requires |a| == |b|
    ensures Masked(a) == Masked(b)
    decreases |a|
  {
    if a != [] {
      MaskedDependsOnLengthOnly(a[1..], b[1..]);
    }
  }

  class GameView {
    const gameCode: string
    const username: string
    var status: string
    var players: seq<string>
    var isCreator: bool
    var timeLeft: int

    function State(): GameState
      reads this
    {
      GameState(status, players, isCreator, timeLeft)
    }

    constructor (gameCode: string, username: string)
      ensures State() == Initial() && this.gameCode == gameCode && this.username == username
    {
      this.gameCode := gameCode;
      this.username := username;
      status, players, isCreator, timeLeft := Lobby, [], false, 60;
    }

    method FetchGameState(r: PollResponse)
      modifies this
      ensures State() == Poll(old(State()), username, r)
    {
      if r.Ok? {
        status := r.status;
        players := if r.players.Some? then r.players.value else [];
        isCreator := r.players.Some? && |r.players.value| > 0 && r.players.value[0] == username;
      }
    }

    method OnTimer(time: int)
      modifies this
      ensures State() == Tick(old(State()), time)
    {
      timeLeft := time;
      if time == 0 {
        status := Finished;
      }
    }

    method HandleStartGame(resolved: bool)
      modifies this
      ensures State() == Start(old(State()), resolved)
    {
      if resolved {
        status := Playing;
      }
    }
  }
}
