/**
 * The in-game chat (src/components/GameChat.tsx): every message that arrives on
 * the game's chat topic is completed with defaults and appended to the list;
 * sending publishes the typed text to the game's chat destination and clears
 * the input, without adding it locally.
 *
 * What the handler receives is a `StompSession.Delivery`: the parsed body, or
 * the raw text when it did not parse. Reading a property of text, of a number
 * or of an array gives `undefined`. A body of `null` makes the first property
 * read throw; the service's catch then hands the same handler the raw text
 * "null", whose properties are all `undefined`, so it reads here as a message
 * with every field missing. The current time is a parameter: `now` stands for
 * `Date.now().toString()` and `clock` for the formatted local time.
 */
module GameChat {
  import opened Wrappers
  import opened Json
  import StompSession

  const AvatarBase := "https://api.dicebear.com/7.x/avataaars/svg?seed="
  const UnknownUser := "Unknown"

  /** A message as the list holds it; the fields keep whatever JSON the sender put there. */
  datatype ChatMessage = ChatMessage(
    id: Json,
    username: Json,
    avatar: Json,
    message: Option<Json>,  // `None` is `undefined`: the text is not defaulted
    timestamp: Json,
    isGuess: Json,
    isCorrect: Json)

  /** `msg.key` for what the handler was given. */
  function Field(d: StompSession.Delivery, key: string): (r: Option<Json>)
    ensures d.Raw? ==> r.None?
  {
    match d
    case Parsed(v) => Get(v, key)
    case Raw(_) => None
  }

  /** `msg.key || fallback`. */
  function OrElse(v: Option<Json>, fallback: Json): (r: Json)
    ensures v.Some? && Truthy(v.value) ==> r == v.value
    ensures !(v.Some? && Truthy(v.value)) ==> r == fallback
  {
    if v.Some? && Truthy(v.value) then v.value else fallback
  }

  /** The message built from an inbound delivery. */
  function Normalise(d: StompSession.Delivery, now: string, clock: string): (m: ChatMessage)
    ensures m.message == Field(d, "message")
    ensures m.id == OrElse(Field(d, "id"), JStr(now))
    ensures m.username == OrElse(Field(d, "username"), JStr(UnknownUser))
    ensures m.avatar == OrElse(Field(d, "avatar"), JStr(AvatarBase + TemplateText(m.username)))
    ensures m.timestamp == OrElse(Field(d, "timestamp"), JStr(clock))
    ensures m.isGuess == OrElse(Field(d, "isGuess"), JBool(false))
    ensures m.isCorrect == OrElse(Field(d, "isCorrect"), JBool(false))
  {
    var username := OrElse(Field(d, "username"), JStr(UnknownUser));
    ChatMessage(
      OrElse(Field(d, "id"), JStr(now)),
      username,
      OrElse(Field(d, "avatar"), JStr(AvatarBase + TemplateText(username))),
      Field(d, "message"),
      OrElse(Field(d, "timestamp"), JStr(clock)),
      OrElse(Field(d, "isGuess"), JBool(false)),
      OrElse(Field(d, "isCorrect"), JBool(false)))
  }

  /** Every field the sender set to a truthy value is kept as sent; only falsy or missing fields get defaults. */
  lemma TruthySenderFieldsKept(d: StompSession.Delivery, now: string, clock: string, key: string)
    requires key in {"id", "username", "avatar", "timestamp", "isGuess", "isCorrect"}
    requires Field(d, key).Some? && Truthy(Field(d, key).value)
    ensures var m := Normalise(d, now, clock);
      var sent := Field(d, key).value;
      && (key == "id" ==> m.id == sent)
      && (key == "username" ==> m.username == sent)
      && (key == "avatar" ==> m.avatar == sent)
      && (key == "timestamp" ==> m.timestamp == sent)
      && (key == "isGuess" ==> m.isGuess == sent)
      && (key == "isCorrect" ==> m.isCorrect == sent)
  {
  }

  /** A missing or empty username, and missing flags, get their defaults. */
  lemma MissingFieldsDefaulted(d: StompSession.Delivery, now: string, clock: string)
    requires Field(d, "username").None? || Field(d, "username") == Some(JStr(""))
    requires Field(d, "isGuess").None? && Field(d, "isCorrect").None?
    ensures var m := Normalise(d, now, clock);
      && m.username == JStr(UnknownUser)
      && m.avatar in {JStr(AvatarBase + UnknownUser), Field(d, "avatar").GetOr(JNull)}
      && m.isGuess == JBool(false) && m.isCorrect == JBool(false)
  {
  }

  /** Text that did not parse, or a `null` body, gives a message with every field defaulted and no text. */
  lemma UnparsedBodyIsAllDefaults(body: string, now: string, clock: string)
    ensures Normalise(StompSession.Raw(body), now, clock)
         == ChatMessage(JStr(now), JStr(UnknownUser), JStr(AvatarBase + UnknownUser), None, JStr(clock), JBool(false), JBool(false))
    ensures Normalise(StompSession.Parsed(JNull), now, clock) == Normalise(StompSession.Raw("null"), now, clock)
  {
  }

  /** `!inputValue.trim()`: the characters `String.prototype.trim` removes (white space and line terminators). */
  predicate IsJsSpace(c: char) {
    c == '\t' || c == '\n' || c == '\U{B}' || c == '\U{C}' || c == '\r' || c == ' '
    || c == '\U{A0}' || c == '\U{1680}' || ('\U{2000}' <= c <= '\U{200A}') || c == '\U{2028}' || c == '\U{2029}'
    || c == '\U{202F}' || c == '\U{205F}' || c == '\U{3000}' || c == '\U{FEFF}'
  }

  predicate IsBlank(s: string) {
    forall i :: 0 <= i < |s| ==> IsJsSpace(s[i])
  }

  /** The message `handleSend` publishes. */
  function Outbound(username: string, text: string, now: string, clock: string): ChatMessage {
    ChatMessage(JStr(now), JStr(username), JStr(AvatarBase + username), Some(JStr(text)), JStr(clock), JBool(false), JBool(false))
  }

  /** The JSON object a message is published as. */
  function ToJson(m: ChatMessage): Json {
    var base := map["id" := m.id, "username" := m.username, "avatar" := m.avatar, "timestamp" := m.timestamp,
                    "isGuess" := m.isGuess, "isCorrect" := m.isCorrect];
    JObj(if m.message.Some? then base["message" := m.message.value] else base)
  }

  /** `/app/chat/${gameCode}`. */
  function ChatDestination(gameCode: string): string {
    "/app/chat/" + gameCode
  }

  /** A published message that comes back on the topic is listed as it was sent, whenever its username, id and time are non-empty. */
  lemma EchoedSendIsListedAsSent(username: string, text: string, now: string, clock: string, now2: string, clock2: string)
    requires username != "" && now != "" && clock != ""
    ensures Normalise(StompSession.Parsed(ToJson(Outbound(username, text, now, clock))), now2, clock2)
         == Outbound(username, text, now, clock)
  {
  }

  datatype ChatState = ChatState(messages: seq<ChatMessage>, inputValue: string, sent: seq<(string, Json)>)

  /** One delivery on the chat topic: appended at the end, earlier messages untouched, nothing else changes. */
  function Receive(s: ChatState, d: StompSession.Delivery, now: string, clock: string): (r: ChatState)
    ensures |r.messages| == |s.messages| + 1
    ensures r.messages[..|s.messages|] == s.messages
    ensures r.messages[|s.messages|] == Normalise(d, now, clock)
    ensures r.inputValue == s.inputValue && r.sent == s.sent
  {
    s.(messages := s.messages + [Normalise(d, now, clock)])
  }

  /** `handleSend`: blank input does nothing; otherwise one publish of the untrimmed text, the input cleared, the list untouched. */
  function Send(s: ChatState, gameCode: string, username: string, now: string, clock: string): (r: ChatState)
    ensures IsBlank(s.inputValue) ==> r == s
    ensures !IsBlank(s.inputValue) ==>
      && r.messages == s.messages
      && r.inputValue == ""
      && r.sent == s.sent + [(ChatDestination(gameCode), ToJson(Outbound(username, s.inputValue, now, clock)))]
  {
    if IsBlank(s.inputValue) then s
    else s.(inputValue := "", sent := s.sent + [(ChatDestination(gameCode), ToJson(Outbound(username, s.inputValue, now, clock)))])
  }

  /** Sending twice in a row publishes once: the first send clears the input. */
  lemma SecondSendIsNoOp(s: ChatState, gameCode: string, username: string, now: string, clock: string, now2: string, clock2: string)
    ensures var once := Send(s, gameCode, username, now, clock);
      Send(once, gameCode, username, now2, clock2) == once
  {
  }

  /** `s.trimStart()`. */
  function TrimStart(s: string): (r: string)
    ensures |r| <= |s| && r == s[|s| - |r|..]
    ensures r == [] || !IsJsSpace(r[0])
    ensures forall i :: 0 <= i < |s| - |r| ==> IsJsSpace(s[i])
  {
    if s == [] || !IsJsSpace(s[0]) then s else TrimStart(s[1..])
  }

  /** `s.trimEnd()`. */
  function TrimEnd(s: string): (r: string)
    ensures |r| <= |s| && r == s[..|r|]
    ensures r == [] || !IsJsSpace(r[|r| - 1])
    ensures forall i :: |r| <= i < |s| ==> IsJsSpace(s[i])
  {
    if s == [] || !IsJsSpace(s[|s| - 1]) then s else TrimEnd(s[..|s| - 1])
  }

  /** `s.trim()`. */
  function Trim(s: string): string {
    TrimEnd(TrimStart(s))
  }

  lemma {:induction false} TrimStartEmptyIffBlank(s: string)
    ensures TrimStart(s) == [] <==> IsBlank(s)
    decreases |s|
  {
    if s != [] && IsJsSpace(s[0]) {
      TrimStartEmptyIffBlank(s[1..]);
      assert IsBlank(s) ==> IsBlank(s[1..]) by {
        if IsBlank(s) {
          forall i | 0 <= i < |s| - 1 ensures IsJsSpace(s[1..][i]) {
            assert s[1..][i] == s[i + 1];
          }
        }
      }
      assert IsBlank(s[1..]) ==> IsBlank(s) by {
        if IsBlank(s[1..]) {
          forall i | 0 <= i < |s| ensures IsJsSpace(s[i]) {
            if i > 0 { assert s[i] == s[1..][i - 1]; }
          }
        }
      }
    }
  }

  /** The guard `!inputValue.trim()`: the text trims to nothing exactly when it is blank. */
  lemma BlankIffTrimsToNothing(s: string)
    ensures IsBlank(s) <==> Trim(s) == ""
  {
    TrimStartEmptyIffBlank(s);
    var u := TrimStart(s);
    if u != [] {
      TrimEndKeepsNonSpaceHead(u);
    }
  }

  lemma {:induction false} TrimEndKeepsNonSpaceHead(u: string)
    requires u != [] && !IsJsSpace(u[0])
    ensures TrimEnd(u) != []
    decreases |u|
  {
    if IsJsSpace(u[|u| - 1]) {
      assert |u| > 1;
      TrimEndKeepsNonSpaceHead(u[..|u| - 1]);
    }
  }

  /**
   * Whenever the text does not trim to nothing, `handleSend` publishes it as
   * typed: the message carries the untrimmed input, even when trimming would
   * have changed it.
   */
  lemma SendKeepsSurroundingSpaces(s: ChatState, gameCode: string, username: string, now: string, clock: string)
    requires Trim(s.inputValue) != ""
    ensures var r := Send(s, gameCode, username, now, clock);
      && |r.sent| == |s.sent| + 1
      && r.sent[|s.sent|].0 == ChatDestination(gameCode)
      && Get(r.sent[|s.sent|].1, "message") == Some(JStr(s.inputValue))
      && r.inputValue == ""
  {
    BlankIffTrimsToNothing(s.inputValue);
    var m := Outbound(username, s.inputValue, now, clock);
    assert ToJson(m).fields["message"] == JStr(s.inputValue);
    assert Send(s, gameCode, username, now, clock).sent == s.sent + [(ChatDestination(gameCode), ToJson(m))];
  }

  class Chat {
    const gameCode: string
    const username: string
    var messages: seq<ChatMessage>
    var inputValue: string
    var sent: seq<(string, Json)>

    function State(): ChatState
      reads this
    {
      ChatState(messages, inputValue, sent)
    }

    constructor (gameCode: string, username: string)
      ensures State() == ChatState([], "", []) && this.gameCode == gameCode && this.username == username
    {
      this.gameCode := gameCode;
      this.username := username;
      messages, inputValue, sent := [], "", [];
    }

    method SetInput(text: string)
      modifies this
      ensures State() == old(State()).(inputValue := text)
    {
      inputValue := text;
    }

    /** The topic handler. */
    method OnMessage(d: StompSession.Delivery, now: string, clock: string)
      modifies this
      ensures State() == Receive(old(State()), d, now, clock)
    {
      var m := Normalise(d, now, clock);
      messages := messages + [m];
    }

    method HandleSend(now: string, clock: string)
      modifies this
      ensures State() == Send(old(State()), gameCode, username, now, clock)
    {
      if IsBlank(inputValue) {
        return;
      }
      var m := Outbound(username, inputValue, now, clock);
      sent := sent + [(ChatDestination(gameCode), ToJson(m))];
      inputValue := "";
    }
  }
}
