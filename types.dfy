/** The request, response and message records exchanged with the consultation
    service (src/types/api.ts). JSON numbers the client never computes with are
    carried as `real`. */
module ApiTypes {
  import opened Js

  datatype ConsultationType = Health | Nutrition | Behavior | General

  datatype UrgencyLevel = Low | Medium | High | Emergency

  datatype ConsultationRequest = ConsultationRequest(
    catName: Option<string>,
    age: Option<real>,
    ageInWeeks: Option<real>,
    weight: Option<real>,
    breed: Option<string>,
    imageBase64: Option<string>,
    imageUrl: Option<string>,
    symptoms: Option<seq<string>>,
    symptomsDuration: Option<string>,
    behaviorChanges: Option<string>,
    consultationType: ConsultationType,
    additionalNotes: Option<string>)

  /** The body of a consultation reply, generic in the kind of report: the
      simple endpoint sends a ConsultationReport, the workflow endpoint a
      WorkflowReport. */
  datatype ConsultationResponse<+Report> = ConsultationResponse(
    success: bool,
    consultationId: Option<string>,
    report: Option<Report>,
    error: Option<string>)

  datatype ConsultationReport = ConsultationReport(text: string, timestamp: string)

  datatype CatInfo = CatInfo(name: Option<string>, age: Option<real>, weight: Option<real>, breed: Option<string>)

  datatype ImageAnalysis = ImageAnalysis(
    breedIdentification: Option<string>,
    healthObservations: Option<string>,
    confidence: Option<string>)

  datatype EmergencyAssessment = EmergencyAssessment(
    isEmergency: bool,
    urgencyLevel: UrgencyLevel,
    immediateActions: Option<seq<string>>,
    criticalSymptoms: Option<seq<string>>)

  datatype WorkflowReport = WorkflowReport(
    consultationId: string,
    timestamp: string,
    catInfo: CatInfo,
    imageAnalysis: Option<ImageAnalysis>,
    emergencyAssessment: Option<EmergencyAssessment>,
    recommendations: Option<seq<string>>,
    disclaimer: Option<string>)

  type SimpleResponse = ConsultationResponse<ConsultationReport>
  type WorkflowResponse = ConsultationResponse<WorkflowReport>

  datatype HealthStatus = StatusOk | StatusError

  datatype HealthCheckResponse = HealthCheckResponse(status: HealthStatus, timestamp: string)

  datatype MessageRole = User | Assistant | System

  /** When a message was created: the clock reading in milliseconds
      (`new Date()`), or the date parsed from a report's timestamp text
      (`new Date(report.timestamp)`). */
  datatype Instant = ClockTime(ms: int) | ParsedDate(text: string)

  datatype ChatMessage = ChatMessage(
    id: int,
    role: MessageRole,
    content: string,
    timestamp: Instant,
    imageUrl: Option<string>)

  /** A file picked in the browser, as far as the client inspects it: its
      declared MIME type and its size in bytes. */
  datatype ImageFile = ImageFile(name: string, mimeType: string, size: nat)

  /** An HTTP response whose body has already been parsed into `B`. */
  datatype HttpResponse<+B> = HttpResponse(ok: bool, status: nat, statusText: string, body: B)

  /** An HTTP request as issued: method, path below the base URL, whether it
      carries a JSON `Content-Type` header, and its body. */
  datatype HttpRequest<+B> = HttpRequest(verb: string, path: string, jsonContentType: bool, body: Option<B>)
}
