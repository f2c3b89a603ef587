/** The older, text-only chat page (src/components/ChatPage.tsx). It calls an
    agent endpoint with a plain `fetch`, checks `response.ok` and `data.text`
    itself, and has no image handling. As in ChatPageNew, `sendMessage` is
    split into ChatPage.Submit (the part before the `await`) and
    ChatPage.Resolve (the rest, given how the fetch settled). */
module ChatPageLegacy {
  import opened Js
  import ApiTypes

  const AgentId: string := "catConsultantAgent"
  const GeneratePath: string := "/api/agents/" + AgentId + "/generate"

  const ErrorPrefix: string := "抱歉，发生了错误: "
  const UnknownError: string := "未知错误"
  const ApiFailurePrefix: string := "API 请求失败: "
  const InvalidFormat: string := "无效的响应格式"

  datatype Role = User | Assistant

  /** A chat message; `timestamp` is the clock reading in milliseconds. */
  datatype Message = Message(id: int, role: Role, content: string, timestamp: int)

  /** The request body `{messages: [{role, content}]}`. */
  datatype AgentTurn = AgentTurn(role: string, content: string)
  datatype AgentRequest = AgentRequest(messages: seq<AgentTurn>)

  /** The parsed reply body, as far as the page reads it. */
  datatype AgentReply = AgentReply(text: Option<string>)

  datatype PageState = PageState(messages: seq<Message>, input: string, isLoading: bool)

  /** The guard of sendMessage: blank text, or a request already in flight. */
  predicate SendBlocked(s: PageState)
  {
    Trim(s.input) == [] || s.isLoading
  }

  /** Sending is blocked exactly when loading or when the text is blank. */
  lemma SendBlockedIff(s: PageState)
    ensures SendBlocked(s) <==> s.isLoading || IsBlank(s.input)
  {
    TrimEmptyIffBlank(s.input);
  }

  /** The optimistic user message: the trimmed input, which a permitted
      submit guarantees is not blank. */
  function UserMessage(input: string, now: int): (m: Message)
    requires Trim(input) != []
    ensures m.role == User && m.content == Trim(input) && m.timestamp == now
    ensures !IsBlank(m.content)
  {
    assert !IsWhiteSpace(Trim(input)[0]);
    Message(now, User, Trim(input), now)
  }

  /** The error text of a non-ok response: its status code and status text. */
  function ApiFailure(status: nat, statusText: string): string
  {
    ApiFailurePrefix + DecimalString(status) + " " + statusText
  }

  /** The status code can be read back from the error text. */
  lemma {:induction false} ApiFailureEmbedsStatus(status: nat, statusText: string)
    ensures var r := ApiFailure(status, statusText);
            |r| > |ApiFailurePrefix| && r[..|ApiFailurePrefix|] == ApiFailurePrefix &&
            var digits := LeadingDigits(r[|ApiFailurePrefix|..]);
            ParseDecimal(digits) == status
  {
    var r := ApiFailure(status, statusText);
    var rest := " " + statusText;
    assert r[|ApiFailurePrefix|..] == DecimalString(status) + rest;
    LeadingDigitsOfNumeral(DecimalString(status), rest);
    ParseDecimalString(status);
  }

  /** The reason shown for a settled fetch that does not yield a reply text. */
  function FailureReason(outcome: Settled<ApiTypes.HttpResponse<AgentReply>>): string
  {
    match outcome
    case Rejected(JsError(_, message)) => message
    case Rejected(NonError) => UnknownError
    case Resolved(response) =>
      if !response.ok then ApiFailure(response.status, response.statusText) else InvalidFormat
  }

  /** The agent answered: an ok response whose body has a non-empty text. */
  predicate Answered(outcome: Settled<ApiTypes.HttpResponse<AgentReply>>)
  {
    outcome.Resolved? && outcome.value.ok && Truthy(outcome.value.body.text)
  }

  /** The one assistant message appended when the fetch settles at `now`. */
  function Reply(outcome: Settled<ApiTypes.HttpResponse<AgentReply>>, now: int): (m: Message)
    ensures m.role == Assistant && m.timestamp == now
    ensures Answered(outcome) ==> m.content == outcome.value.body.text.value
    ensures !Answered(outcome) ==> m.content == ErrorPrefix + FailureReason(outcome)
    ensures outcome.Resolved? && !outcome.value.ok ==>
              m.content == ErrorPrefix + ApiFailure(outcome.value.status, outcome.value.statusText)
    ensures outcome.Resolved? && outcome.value.ok && !Truthy(outcome.value.body.text) ==>
              m.content == ErrorPrefix + InvalidFormat
  {
    if Answered(outcome) then
      Message(now + 1, Assistant, outcome.value.body.text.value, now)
    else
      Message(now + 1, Assistant, ErrorPrefix + FailureReason(outcome), now)
  }

  /** A 503 is shown with its code and text. */
  lemma ServiceUnavailableShown(now: int)
    ensures Reply(Resolved(ApiTypes.HttpResponse(false, 503, "Service Unavailable", AgentReply(None))), now).content
            == "抱歉，发生了错误: API 请求失败: 503 Service Unavailable"
  {
    assert DecimalString(503) == "503" by {
      assert DecimalString(5) == "5";
      assert DecimalString(50) == "50";
    }
  }

  /** clearChat empties the message log and nothing else. */
  function ClearedChat(s: PageState): (r: PageState)
    ensures r.messages == [] && r.input == s.input && r.isLoading == s.isLoading
  {
    s.(messages := [])
  }

  /** Clearing twice leaves the same state as clearing once. */
  lemma ClearChatIdempotent(s: PageState)
    ensures ClearedChat(ClearedChat(s)) == ClearedChat(s)
  {
  }

  class ChatPage {
    var messages: seq<Message>
    var input: string
    var isLoading: bool

    function State(): PageState
      reads this
    {
      PageState(messages, input, isLoading)
    }

    constructor ()
      ensures State() == PageState([], "", false)
    {
      messages := [];
      input := "";
      isLoading := false;
    }

    /** The text input's onChange. */
    method SetInput(text: string)
      modifies this
      ensures State() == old(State()).(input := text)
    {
      input := text;
    }

    /** The synchronous part of sendMessage at clock `now`: a blocked send
      changes nothing and issues nothing; otherwise the user message is
      appended, the input cleared, the loading flag set, and the agent
      request issued with the message's text. */
    method Submit(now: int) returns (request: Option<ApiTypes.HttpRequest<AgentRequest>>)
      modifies this
      ensures SendBlocked(old(State())) ==> request.None? && State() == old(State())
      ensures !SendBlocked(old(State())) ==>
                var m := UserMessage(old(input), now);
                request == Some(ApiTypes.HttpRequest("POST", GeneratePath, true,
                                            Some(AgentRequest([AgentTurn("user", m.content)])))) &&
                State() == PageState(old(messages) + [m], "", true)
    {
      if SendBlocked(State()) {
        return None;
      }
      var userMessage := UserMessage(input, now);
      messages := messages + [userMessage];
      input := "";
      isLoading := true;
      request := Some(ApiTypes.HttpRequest("POST", GeneratePath, true,
                                  Some(AgentRequest([AgentTurn("user", userMessage.content)]))));
    }

    /** The rest of sendMessage once the fetch has settled as `outcome` at
      clock `now`: exactly one assistant message is appended and the loading
      flag is cleared, whatever the outcome. */
    method Resolve(outcome: Settled<ApiTypes.HttpResponse<AgentReply>>, now: int)
      modifies this
      ensures State() == old(State()).(messages := old(messages) + [Reply(outcome, now)], isLoading := false)
    {
      messages := messages + [Reply(outcome, now)];
      isLoading := false;
    }

    /** clearChat. */
    method ClearChat()
      modifies this
      ensures State() == ClearedChat(old(State()))
    {
      messages := [];
    }
  }
}
