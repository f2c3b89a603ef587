/** The service layer that talks to the consultation backend
    (src/services/api.ts). Each network call is given the way its promise
    settled; the functions here are the decisions the client takes on those
    outcomes, and the methods are the calls themselves, with the timer they
    arm and clear. */
module Api {
  import opened Js
  import opened ApiTypes

  /** Default request timeout in milliseconds (60 s). */
  const RequestTimeout: nat := 60000
  /** Timeout of the health check in milliseconds (10 s). */
  const HealthTimeout: nat := 10000

  const TimeoutMessage: string := "请求超时，请稍后重试"
  const ConsultationFailedMessage: string := "咨询请求失败，请稍后重试"
  const HealthFailurePrefix: string := "健康检查失败: "

  const HealthPath: string := "/api/health"
  const ConsultationPath: string := "/api/consultation"
  const WorkflowPath: string := "/api/consultation/workflow"

  /** Largest accepted image, in bytes (5 MiB). */
  const MaxImageSize: nat := 5 * 1024 * 1024
  const AllowedImageTypes: seq<string> := ["image/jpeg", "image/png", "image/webp"]
  const FormatError: string := "仅支持 JPG、PNG、WebP 格式的图片"
  const SizeError: string := "图片大小不能超过 5MB"

  // ---------------------------------------------------------------------------
  // validateImageFile

  datatype Validation = Validation(valid: bool, error: Option<string>)

  /** Accepts a file of one of the three allowed types of at most 5 MiB. The
      type is checked first: a file of another type gets the format error,
      whatever its size. */
  function ValidateImageFile(file: ImageFile): (r: Validation)
    ensures r.valid <==> r.error.None?
    ensures r.valid <==> file.mimeType in AllowedImageTypes && file.size <= MaxImageSize
    ensures file.mimeType !in AllowedImageTypes ==> r.error == Some(FormatError)
    ensures file.mimeType in AllowedImageTypes && file.size > MaxImageSize ==> r.error == Some(SizeError)
    ensures !r.valid ==> Truthy(r.error)
  {
    if file.mimeType !in AllowedImageTypes then
      Validation(false, Some(FormatError))
    else if file.size > MaxImageSize then
      Validation(false, Some(SizeError))
    else
      Validation(true, None)
  }

  /** The size ceiling is inclusive: exactly 5 MiB passes, one byte more does not. */
  lemma FiveMiBBoundary(name: string, mimeType: string)
    requires mimeType in AllowedImageTypes
    ensures ValidateImageFile(ImageFile(name, mimeType, 5242880)).valid
    ensures ValidateImageFile(ImageFile(name, mimeType, 5242881)) == Validation(false, Some(SizeError))
  {
  }

  // ---------------------------------------------------------------------------
  // fetchWithTimeout

  /** The rejection fetch produces when its AbortController fires. */
  predicate IsAbort(t: Thrown)
  {
    t.JsError? && t.name == AbortErrorName
  }

  /** What fetchWithTimeout hands back for a settled fetch: a response passes
      through, an abort becomes the timeout error, any other rejection is
      rethrown as it is. */
  function AfterFetch<B>(fetched: Settled<HttpResponse<B>>): (r: Settled<HttpResponse<B>>)
    ensures fetched.Resolved? ==> r == fetched
    ensures fetched.Rejected? && IsAbort(fetched.reason) ==> r == Rejected(NewError(TimeoutMessage))
    ensures fetched.Rejected? && !IsAbort(fetched.reason) ==> r == fetched
    ensures r.Rejected? ==> !IsAbort(r.reason)
  {
    match fetched
    case Resolved(response) => Resolved(response)
    case Rejected(t) => if IsAbort(t) then Rejected(NewError(TimeoutMessage)) else Rejected(t)
  }

  /** Arms a timer of `timeout` ms, awaits the fetch, and clears the timer on
      both the resolved and the rejected path before mapping the outcome. */
  method FetchWithTimeout<B>(timers: Timers, timeout: nat, fetched: Settled<HttpResponse<B>>)
    returns (r: Settled<HttpResponse<B>>)
    requires timers.Valid()
    modifies timers
    ensures timers.Valid()
    ensures timers.armed == old(timers.armed)
    ensures timers.log == old(timers.log) + [timeout]
    ensures r == AfterFetch(fetched)
  {
    var timeoutId := timers.SetTimeout(timeout);
    match fetched {
      case Resolved(response) =>
        timers.ClearTimeout(timeoutId);
        r := Resolved(response);
      case Rejected(error) =>
        timers.ClearTimeout(timeoutId);
        if IsAbort(error) {
          r := Rejected(NewError(TimeoutMessage));
        } else {
          r := Rejected(error);
        }
    }
  }

  // ---------------------------------------------------------------------------
  // checkHealth

  /** A non-ok response fails with a message carrying its status text; an ok
      one yields its body; a failed fetch is rethrown. */
  function HealthOutcome(after: Settled<HttpResponse<HealthCheckResponse>>): (r: Settled<HealthCheckResponse>)
    ensures r.Resolved? <==> after.Resolved? && after.value.ok
    ensures r.Resolved? ==> r.value == after.value.body
    ensures after.Resolved? && !after.value.ok ==>
              r == Rejected(NewError(HealthFailurePrefix + after.value.statusText))
    ensures after.Rejected? ==> r == Rejected(after.reason)
  {
    match after
    case Rejected(t) => Rejected(t)
    case Resolved(response) =>
      if !response.ok then Rejected(NewError(HealthFailurePrefix + response.statusText))
      else Resolved(response.body)
  }

  /** GET /api/health with the 10 s timeout. */
  method CheckHealth(timers: Timers, fetched: Settled<HttpResponse<HealthCheckResponse>>)
    returns (request: HttpRequest<ConsultationRequest>, r: Settled<HealthCheckResponse>)
    requires timers.Valid()
    modifies timers
    ensures timers.Valid() && timers.armed == old(timers.armed)
    ensures timers.log == old(timers.log) + [HealthTimeout]
    ensures request == HttpRequest("GET", HealthPath, false, None)
    ensures r == HealthOutcome(AfterFetch(fetched))
  {
    request := HttpRequest("GET", HealthPath, false, None);
    var response := FetchWithTimeout(timers, HealthTimeout, fetched);
    r := HealthOutcome(response);
  }

  // ---------------------------------------------------------------------------
  // simpleConsultation and workflowConsultation

  /** The business-level check on a parsed body: `success == false` with a
      non-empty `error` fails with exactly that error; every other body,
      including a failed one without an error text, is returned unchanged. */
  function FoldBody<R>(data: ConsultationResponse<R>): (r: Settled<ConsultationResponse<R>>)
    ensures r.Rejected? <==> !data.success && Truthy(data.error)
    ensures r.Rejected? ==> r.reason == NewError(data.error.value)
    ensures r.Resolved? ==> r.value == data
  {
    if !data.success && Truthy(data.error) then Rejected(NewError(data.error.value)) else Resolved(data)
  }

  /** The catch clause: an `Error` is rethrown as it is, anything else is
      replaced by the generic consultation failure. */
  function Rethrow(t: Thrown): (r: Thrown)
    ensures r.JsError?
    ensures t.JsError? ==> r == t
    ensures t.NonError? ==> r == NewError(ConsultationFailedMessage)
  {
    if t.JsError? then t else NewError(ConsultationFailedMessage)
  }

  /** The outcome of a consultation call given how fetchWithTimeout settled.
      The HTTP status is never consulted: only the parsed body decides. */
  function ConsultationOutcome<R>(after: Settled<HttpResponse<ConsultationResponse<R>>>): (r: Settled<ConsultationResponse<R>>)
    ensures r.Rejected? ==> r.reason.JsError?
    ensures after.Rejected? ==> r == Rejected(Rethrow(after.reason))
    ensures after.Resolved? ==> r == FoldBody(after.value.body)
  {
    match after
    case Rejected(t) => Rejected(Rethrow(t))
    case Resolved(response) =>
      match FoldBody(response.body)
      case Resolved(data) => Resolved(data)
      case Rejected(t) => Rejected(Rethrow(t))
  }

  /** Two responses with the same body lead to the same outcome, whatever
      their status, status text or `ok` flag. */
  lemma StatusIgnored<R>(a: HttpResponse<ConsultationResponse<R>>, b: HttpResponse<ConsultationResponse<R>>)
    requires a.body == b.body
    ensures ConsultationOutcome(Resolved(a)) == ConsultationOutcome(Resolved(b))
  {
  }

  /** An aborted fetch reaches the consultation's caller as the timeout error. */
  lemma AbortBecomesTimeout<R>(message: string)
    ensures ConsultationOutcome<R>(AfterFetch(Rejected(JsError(AbortErrorName, message))))
            == Rejected(NewError(TimeoutMessage))
  {
  }

  /** POST /api/consultation with the 60 s timeout. */
  method SimpleConsultation(timers: Timers, request: ConsultationRequest, fetched: Settled<HttpResponse<SimpleResponse>>)
    returns (issued: HttpRequest<ConsultationRequest>, r: Settled<SimpleResponse>)
    requires timers.Valid()
    modifies timers
    ensures timers.Valid() && timers.armed == old(timers.armed)
    ensures timers.log == old(timers.log) + [RequestTimeout]
    ensures issued == HttpRequest("POST", ConsultationPath, true, Some(request))
    ensures r == ConsultationOutcome(AfterFetch(fetched))
  {
    issued := HttpRequest("POST", ConsultationPath, true, Some(request));
    var response := FetchWithTimeout(timers, RequestTimeout, fetched);
    r := ConsultationOutcome(response);
  }

  /** POST /api/consultation/workflow with the 60 s timeout. */
  method WorkflowConsultation(timers: Timers, request: ConsultationRequest, fetched: Settled<HttpResponse<WorkflowResponse>>)
    returns (issued: HttpRequest<ConsultationRequest>, r: Settled<WorkflowResponse>)
    requires timers.Valid()
    modifies timers
    ensures timers.Valid() && timers.armed == old(timers.armed)
    ensures timers.log == old(timers.log) + [RequestTimeout]
    ensures issued == HttpRequest("POST", WorkflowPath, true, Some(request))
    ensures r == ConsultationOutcome(AfterFetch(fetched))
  {
    issued := HttpRequest("POST", WorkflowPath, true, Some(request));
    var response := FetchWithTimeout(timers, RequestTimeout, fetched);
    r := ConsultationOutcome(response);
  }
}
