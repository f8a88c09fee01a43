/**
 * The top-level screen state machine (src/App.tsx): four fields set by the
 * login, join, leave and logout handlers, and the screen chosen from them.
 */
module AppShell {
  import AuthService

  datatype AppState = AppState(isLoggedIn: bool, inGame: bool, gameCode: string, username: string)

  datatype Screen = Welcome | GameScreen | Dashboard

  function Initial(): AppState {
    AppState(false, false, "", "")
  }

  /** The screen rendered for a state. */
  function ScreenOf(s: AppState): (v: Screen)
    ensures v == Welcome <==> !s.isLoggedIn
    ensures v == GameScreen <==> s.isLoggedIn && s.inGame
    ensures v == Dashboard <==> s.isLoggedIn && !s.inGame
  {
    if !s.isLoggedIn then Welcome else if s.inGame then GameScreen else Dashboard
  }

  /** `handleLogin`: remembers the user and leaves the welcome screen. */
  function Login(s: AppState, user: string): (r: AppState)
    ensures r.username == user && ScreenOf(r) != Welcome
    ensures r.inGame == s.inGame && r.gameCode == s.gameCode
  {
    s.(username := user, isLoggedIn := true)
  }

  /** `handleJoinGame`: remembers the code; a logged-in user sees the game. */
  function JoinGame(s: AppState, code: string): (r: AppState)
    ensures r.gameCode == code && r.username == s.username && r.isLoggedIn == s.isLoggedIn
    ensures s.isLoggedIn <==> ScreenOf(r) == GameScreen
  {
    s.(gameCode := code, inGame := true)
  }

  /** `handleLeaveGame`: forgets the code; a logged-in user is back on the dashboard. */
  function LeaveGame(s: AppState): (r: AppState)
    ensures r.gameCode == "" && r.username == s.username && r.isLoggedIn == s.isLoggedIn
    ensures s.isLoggedIn <==> ScreenOf(r) == Dashboard
  {
    s.(inGame := false, gameCode := "")
  }

  /** `handleLogout`'s state change: every field back to its initial value, whatever the state was. */
  function Logout(s: AppState): (r: AppState)
    ensures r == Initial() && ScreenOf(r) == Welcome
  {
    s.(isLoggedIn := false, inGame := false, username := "", gameCode := "")
  }

  /** Leaving a game goes back to the dashboard of the same user. */
  lemma LeaveReturnsToDashboard(s: AppState)
    requires s.isLoggedIn
    ensures var r := LeaveGame(s);
      ScreenOf(r) == Dashboard && r.username == s.username && r.gameCode == ""
  {
  }

  /** Logging out from anywhere shows the welcome screen with nothing remembered, and the next login lands on the dashboard. */
  lemma LogoutForgetsEverything(s: AppState, user: string)
    ensures Logout(s) == Initial()
    ensures ScreenOf(Logout(s)) == Welcome
    ensures ScreenOf(Login(Logout(s), user)) == Dashboard
  {
  }

  /** Not logged in means the welcome screen, even with a game code set. */
  lemma WelcomeWinsOverGame(s: AppState)
    requires !s.isLoggedIn && s.inGame
    ensures ScreenOf(s) == Welcome && ScreenOf(Login(s, s.username)) == GameScreen
  {
  }

  /** A user who logs in and joins a game sees that game; leaving does not log them out. */
  lemma LoginJoinLeave(user: string, code: string)
    ensures var a := Login(Initial(), user);
      var b := JoinGame(a, code);
      && ScreenOf(a) == Dashboard
      && ScreenOf(b) == GameScreen && b.gameCode == code && b.username == user
      && LeaveGame(b) == a
  {
  }

  class App {
    var isLoggedIn: bool
    var inGame: bool
    var gameCode: string
    var username: string
    const auth: AuthService.AuthStore

    function State(): AppState
      reads this
    {
      AppState(isLoggedIn, inGame, gameCode, username)
    }

    constructor (auth: AuthService.AuthStore)
      ensures State() == Initial() && this.auth == auth
    {
      isLoggedIn, inGame, gameCode, username := false, false, "", "";
      this.auth := auth;
    }

    method HandleLogin(user: string)
      modifies this
      ensures State() == Login(old(State()), user)
    {
      username := user;
      isLoggedIn := true;
    }

    method HandleJoinGame(code: string)
      modifies this
      ensures State() == JoinGame(old(State()), code)
    {
      gameCode := code;
      inGame := true;
    }

    method HandleLeaveGame()
      modifies this
      ensures State() == LeaveGame(old(State()))
    {
      inGame := false;
      gameCode := "";
    }

    /** Clears the stored session, then resets all four fields. */
    method HandleLogout()
      modifies this, auth
      ensures State() == Logout(old(State()))
      ensures auth.items == AuthService.ClearSession(old(auth.items))
    {
      auth.Logout();
      isLoggedIn := false;
      inGame := false;
      username := "";
      gameCode := "";
    }
  }
}
