/** The chat page with image upload (src/components/ChatPage.new.tsx). The
    component's React state is the fields of class ChatPage. `sendMessage`
    is split at its first `await`: ChatPage.Submit is the synchronous part
    (guard, optimistic user message, loading flag), AwaitConsultation is the
    awaited body of its `try`, and ChatPage.Resolve is the rest of the `try`
    after the call (the report test and its `throw`), its `catch` and its
    `finally`, run on whatever the awaited part settled to. */
module ChatPageNew {
  import opened Js
  import opened ApiTypes
  import Api

  const ImageOnlyContent: string := "(发送了一张图片)"
  const ErrorPrefix: string := "抱歉，发生了错误: "
  const UnknownError: string := "未知错误"

  /** A snapshot of the component state. */
  datatype PageState = PageState(
    messages: seq<ChatMessage>,
    input: string,
    isLoading: bool,
    selectedImage: Option<ImageFile>,
    imagePreview: Option<string>,
    consultationType: ConsultationType)

  /** What a permitted submit passes on to the awaited part of sendMessage:
      the user message it appended and the values it read from the state. */
  datatype Submission = Submission(userMessage: ChatMessage, consultationType: ConsultationType, image: Option<ImageFile>)

  /** The guard of sendMessage (and the disabled state of the send button):
      blank text with no image, or a request already in flight. */
  predicate SendBlocked(s: PageState)
  {
    (Trim(s.input) == [] && s.selectedImage.None?) || s.isLoading
  }

  /** Sending is blocked exactly when loading, or when the text is blank and
      no image is selected. */
  lemma SendBlockedIff(s: PageState)
    ensures SendBlocked(s) <==> s.isLoading || (IsBlank(s.input) && s.selectedImage.None?)
  {
    TrimEmptyIffBlank(s.input);
  }

  /** The user message's text: the trimmed input, or the image placeholder
      when the input is blank. Never blank itself. */
  function UserContent(input: string): (r: string)
    ensures !IsBlank(r)
    ensures !IsBlank(input) ==> r == Trim(input)
    ensures IsBlank(input) ==> r == ImageOnlyContent
  {
    TrimEmptyIffBlank(input);
    var t := Trim(input);
    if t != [] then
      assert !IsWhiteSpace(t[0]);
      t
    else
      assert !IsWhiteSpace(ImageOnlyContent[0]);
      ImageOnlyContent
  }

  /** The optimistic user message created at submit time `now`. */
  function UserMessage(input: string, preview: Option<string>, now: int): (m: ChatMessage)
    ensures m.role == User && m.content == UserContent(input)
    ensures m.timestamp == ClockTime(now)
    ensures m.imageUrl == (if Truthy(preview) then preview else None)
  {
    ChatMessage(now, User, UserContent(input), ClockTime(now), if Truthy(preview) then preview else None)
  }

  /** The request sendMessage sends: the category selected at submit time,
      the user message's text as notes, and the encoded image if any. */
  function RequestFor(sub: Submission, imageBase64: Option<string>): (r: ConsultationRequest)
    ensures r.consultationType == sub.consultationType
    ensures r.additionalNotes == Some(sub.userMessage.content)
    ensures r.imageBase64 == imageBase64
    ensures r.catName.None? && r.symptoms.None? && r.imageUrl.None?
  {
    ConsultationRequest(None, None, None, None, None, imageBase64, None, None, None, None,
                        sub.consultationType, Some(sub.userMessage.content))
  }

  /** The awaited body of sendMessage's `try`: read the staged image (if any)
      with `fileToBase64`, whose settlement is `read`, then call
      simpleConsultation, whose fetch settles as `fetched`. A failed read
      skips the call. */
  method AwaitConsultation(timers: Timers, sub: Submission, read: Settled<string>,
                           fetched: Settled<HttpResponse<SimpleResponse>>)
    returns (issued: Option<HttpRequest<ConsultationRequest>>, outcome: Settled<SimpleResponse>)
    requires timers.Valid()
    modifies timers
    ensures timers.Valid() && timers.armed == old(timers.armed)
    ensures sub.image.Some? && read.Rejected? ==>
              issued.None? && outcome == Rejected(read.reason) && timers.log == old(timers.log)
    ensures sub.image.None? || read.Resolved? ==>
              var imageBase64 := if sub.image.Some? then Some(read.value) else None;
              issued == Some(HttpRequest("POST", Api.ConsultationPath, true, Some(RequestFor(sub, imageBase64)))) &&
              outcome == Api.ConsultationOutcome(Api.AfterFetch(fetched)) &&
              timers.log == old(timers.log) + [Api.RequestTimeout]
  {
    var imageBase64: Option<string> := None;
    if sub.image.Some? {
      match read {
        case Rejected(error) =>
          issued, outcome := None, Rejected(error);
          return;
        case Resolved(dataUrl) =>
          imageBase64 := Some(dataUrl);
      }
    }
    var request;
    request, outcome := Api.SimpleConsultation(timers, RequestFor(sub, imageBase64), fetched);
    issued := Some(request);
  }

  /** The consultation produced a report. */
  predicate Answered(outcome: Settled<SimpleResponse>)
  {
    outcome.Resolved? && outcome.value.success && outcome.value.report.Some?
  }

  /** The reason shown when there is no report: the response's error text or
      the message of the thrown Error, "未知错误" when there is neither. */
  function FailureReason(outcome: Settled<SimpleResponse>): string
  {
    match outcome
    case Resolved(response) => OrElse(response.error, UnknownError)
    case Rejected(JsError(_, message)) => message
    case Rejected(NonError) => UnknownError
  }

  /** The one assistant message appended when the request settles at `now`:
      the report's text stamped with the report's own timestamp, or the
      prefixed failure reason stamped with the clock. */
  function Reply(outcome: Settled<SimpleResponse>, now: int): (m: ChatMessage)
    ensures m.role == Assistant && m.imageUrl.None?
    ensures Answered(outcome) ==>
              m.content == outcome.value.report.value.text &&
              m.timestamp == ParsedDate(outcome.value.report.value.timestamp)
    ensures !Answered(outcome) ==>
              m.content == ErrorPrefix + FailureReason(outcome) && m.timestamp == ClockTime(now)
  {
    if Answered(outcome) then
      var report := outcome.value.report.value;
      ChatMessage(now + 1, Assistant, report.text, ParsedDate(report.timestamp), None)
    else
      ChatMessage(now + 1, Assistant, ErrorPrefix + FailureReason(outcome), ClockTime(now), None)
  }

  /** A body with `success == false` and an error text, under any HTTP status,
      is shown to the user as exactly that text after the prefix. */
  lemma BusinessErrorShown(response: HttpResponse<SimpleResponse>, now: int)
    requires !response.body.success && Truthy(response.body.error)
    ensures Reply(Api.ConsultationOutcome(Api.AfterFetch(Resolved(response))), now).content
            == ErrorPrefix + response.body.error.value
  {
  }

  /** An aborted fetch is shown as the timeout message. */
  lemma TimeoutShown(message: string, now: int)
    ensures Reply(Api.ConsultationOutcome<ConsultationReport>(Api.AfterFetch(Rejected(JsError(AbortErrorName, message)))), now).content
            == ErrorPrefix + Api.TimeoutMessage
  {
  }

  function ClearedImage(s: PageState): (r: PageState)
    ensures r.selectedImage.None? && r.imagePreview.None?
    ensures r.messages == s.messages && r.input == s.input && r.isLoading == s.isLoading
    ensures r.consultationType == s.consultationType
  {
    s.(selectedImage := None, imagePreview := None)
  }

  function ClearedChat(s: PageState): (r: PageState)
    ensures r.messages == [] && r.selectedImage.None? && r.imagePreview.None?
    ensures r.input == s.input && r.isLoading == s.isLoading && r.consultationType == s.consultationType
  {
    ClearedImage(s).(messages := [])
  }

  /** Clearing the chat twice leaves the same state as clearing it once. */
  lemma ClearChatIdempotent(s: PageState)
    ensures ClearedChat(ClearedChat(s)) == ClearedChat(s)
  {
  }

  class ChatPage {
    var messages: seq<ChatMessage>
    var input: string
    var isLoading: bool
    var selectedImage: Option<ImageFile>
    var imagePreview: Option<string>
    var consultationType: ConsultationType

    function State(): PageState
      reads this
    {
      PageState(messages, input, isLoading, selectedImage, imagePreview, consultationType)
    }

    /** The initial state: no messages, empty input, idle, no image, general. */
    constructor ()
      ensures State() == PageState([], "", false, None, None, General)
    {
      messages := [];
      input := "";
      isLoading := false;
      selectedImage := None;
      imagePreview := None;
      consultationType := General;
    }

    /** The text input's onChange. */
    method SetInput(text: string)
      modifies this
      ensures State() == old(State()).(input := text)
    {
      input := text;
    }

    /** The category selector's onChange. */
    method SetConsultationType(t: ConsultationType)
      modifies this
      ensures State() == old(State()).(consultationType := t)
    {
      consultationType := t;
    }

    /** handleImageSelect: no file does nothing; an invalid file raises the
      validation error as an alert and leaves the selection alone; a valid
      one becomes the selected image (its preview arrives later). */
    method HandleImageSelect(file: Option<ImageFile>) returns (alert: Option<string>)
      modifies this
      ensures file.None? ==> alert.None? && State() == old(State())
      ensures file.Some? && !Api.ValidateImageFile(file.value).valid ==>
                alert == Api.ValidateImageFile(file.value).error && Truthy(alert) &&
                State() == old(State())
      ensures file.Some? && Api.ValidateImageFile(file.value).valid ==>
                alert.None? && State() == old(State()).(selectedImage := file)
    {
      alert := None;
      if file.None? {
        return;
      }
      var validation := Api.ValidateImageFile(file.value);
      if !validation.valid {
        alert := validation.error;
        return;
      }
      selectedImage := file;
    }

    /** The preview reader's onload: the data URL becomes the preview. */
    method PreviewLoaded(dataUrl: string)
      modifies this
      ensures State() == old(State()).(imagePreview := Some(dataUrl))
    {
      imagePreview := Some(dataUrl);
    }

    /** clearImage: drops the staged image and its preview. */
    method ClearImage()
      modifies this
      ensures State() == ClearedImage(old(State()))
    {
      selectedImage := None;
      imagePreview := None;
    }

    /** clearChat: empties the message log and drops the staged image. */
    method ClearChat()
      modifies this
      ensures State() == ClearedChat(old(State()))
    {
      messages := [];
      ClearImage();
    }

    /** The synchronous part of sendMessage at clock `now`. A blocked send
      changes nothing. Otherwise it appends the user message, clears the
      input and sets the loading flag, and returns what the awaited part
      needs. */
    method Submit(now: int) returns (sub: Option<Submission>)
      modifies this
      ensures SendBlocked(old(State())) ==> sub.None? && State() == old(State())
      ensures !SendBlocked(old(State())) ==>
                sub == Some(Submission(UserMessage(old(input), old(imagePreview), now),
                                       old(consultationType), old(selectedImage))) &&
                State() == old(State()).(messages := old(messages) + [sub.value.userMessage],
                                         input := "", isLoading := true)
    {
      if SendBlocked(State()) {
        return None;
      }
      var userMessage := UserMessage(input, imagePreview, now);
      messages := messages + [userMessage];
      input := "";
      isLoading := true;
      sub := Some(Submission(userMessage, consultationType, selectedImage));
    }

    /** The rest of sendMessage's `try` after the call, its `catch` and its
      `finally`, once the awaited part has
      settled as `outcome` at clock `now`: exactly one assistant message is
      appended, the loading flag is cleared and the staged image dropped. */
    method Resolve(outcome: Settled<SimpleResponse>, now: int)
      modifies this
      ensures State() == old(State()).(messages := old(messages) + [Reply(outcome, now)],
                                       isLoading := false, selectedImage := None, imagePreview := None)
    {
      messages := messages + [Reply(outcome, now)];
      isLoading := false;
      ClearImage();
    }
  }

  /** A text-only health question answered by a report. */
  method SneezingScenario() returns (log: seq<ChatMessage>, issued: Option<HttpRequest<ConsultationRequest>>)
    ensures log == [ChatMessage(1000, User, "my cat is sneezing", ClockTime(1000), None),
                    ChatMessage(2001, Assistant, "Keep her warm.", ParsedDate("2024-01-01T00:00:00Z"), None)]
    ensures issued.Some? && issued.value.body.Some?
    ensures issued.value.body.value.consultationType == Health
    ensures issued.value.body.value.additionalNotes == Some("my cat is sneezing")
  {
    var page := new ChatPage();
    page.SetConsultationType(Health);
    page.SetInput("my cat is sneezing");
    assert Trim("my cat is sneezing") == "my cat is sneezing" by {
      assert TrimStart("my cat is sneezing") == "my cat is sneezing";
    }
    assert !IsBlank("my cat is sneezing") by { assert !IsWhiteSpace("my cat is sneezing"[0]); }
    var sub := page.Submit(1000);
    var timers := new Timers();
    var body := ConsultationResponse(true, None, Some(ConsultationReport("Keep her warm.", "2024-01-01T00:00:00Z")), None);
    var outcome;
    issued, outcome := AwaitConsultation(timers, sub.value, Rejected(NonError), Resolved(HttpResponse(true, 200, "OK", body)));
    page.Resolve(outcome, 2000);
    log := page.messages;
  }

  /** A business failure sent with status 200 shows its own error text. */
  method RateLimitedScenario() returns (log: seq<ChatMessage>)
    ensures |log| == 2 && log[0].content == "hello" && log[1].role == Assistant
    ensures log[1].content == ErrorPrefix + "rate limited"
  {
    var page := new ChatPage();
    page.SetInput("hello");
    assert Trim("hello") == "hello" by {
      assert TrimStart("hello") == "hello";
    }
    assert !IsBlank("hello") by { assert !IsWhiteSpace("hello"[0]); }
    var sub := page.Submit(1000);
    var timers := new Timers();
    var body: SimpleResponse := ConsultationResponse(false, None, None, Some("rate limited"));
    var issued, outcome := AwaitConsultation(timers, sub.value, Rejected(NonError), Resolved(HttpResponse(true, 200, "OK", body)));
    page.Resolve(outcome, 2000);
    log := page.messages;
  }
}
