/** The translation proxy of server/controllers/proxyController.js as one
    decision: from the request body, the configured project id and the
    outcome of the translation call to the HTTP status and JSON body.

    Every optional field is `Option<string>`; `None` is `undefined`/`null`,
    and `Truthy` gives JavaScript's test (the empty string is falsy). The
    translation service is a function from the request to its outcome, so
    that a path which never builds a request can be seen not to depend on it. */
module ProxyController {
  import opened JsValues

  /** `req.body`. */
  datatype TranslateBody = TranslateBody(
    textToTranslate: Option<string>,
    targetLanguage: Option<string>,
    sourceLanguage: Option<string>)

  /** The request handed to `translateText` (lines 28-36). */
  datatype TranslateRequest = TranslateRequest(
    parent: string,
    contents: seq<string>,
    mimeType: string,
    sourceLanguageCode: Option<string>,
    targetLanguageCode: string)

  datatype Translation = Translation(translatedText: Option<string>)

  /** How `translateText` ended: a response whose `translations` may be
      missing, or an error with optional gRPC `code`, `details` and
      `message`. */
  datatype TranslateOutcome =
    | Responded(translations: Option<seq<Translation>>)
    | Failed(code: Option<int>, details: Option<string>, message: Option<string>)

  datatype ResponseBody =
    | MessageBody(message: string)
    | ErrorBody(message: string, details: Option<string>)
    | TranslationBody(translatedText: Option<string>)

  /** The status and JSON body sent; `res.json` alone sends 200. */
  datatype Response = Response(status: int, body: ResponseBody)

  const MissingFieldsMessage := "textToTranslate and targetLanguage are required in the request body"
  const MissingProjectMessage := "Proxy configuration error: GCP Project ID missing"
  const BadResponseMessage := "Failed to get translation from Google Cloud: Unexpected response format"
  const ConnectFailedMessage := "Failed to connect to Google Cloud Translation service"

  /** Validation and request construction (lines 16-36): the 400 and 500
      responses sent before any call, or the request to send. */
  function BuildRequest(body: TranslateBody, projectId: Option<string>): (r: Result<TranslateRequest, Response>)
    ensures !Truthy(body.textToTranslate) || !Truthy(body.targetLanguage) <==>
      r == Failure(Response(400, MessageBody(MissingFieldsMessage)))
    ensures Truthy(body.textToTranslate) && Truthy(body.targetLanguage) && !Truthy(projectId) <==>
      r == Failure(Response(500, MessageBody(MissingProjectMessage)))
    ensures r.Success? ==>
      && r.value.parent == "projects/" + projectId.value + "/locations/global"
      && r.value.contents == [body.textToTranslate.value]
      && r.value.mimeType == "text/plain"
      && r.value.targetLanguageCode == body.targetLanguage.value
      && (r.value.sourceLanguageCode.None? <==> !Truthy(body.sourceLanguage))
      && (Truthy(body.sourceLanguage) ==> r.value.sourceLanguageCode == body.sourceLanguage)
  {
    if !Truthy(body.textToTranslate) || !Truthy(body.targetLanguage) then
      Failure(Response(400, MessageBody(MissingFieldsMessage)))
    else if !Truthy(projectId) then
      Failure(Response(500, MessageBody(MissingProjectMessage)))
    else
      var location := "global";
      Success(TranslateRequest(
        "projects/" + projectId.value + "/locations/" + location,
        [body.textToTranslate.value],
        "text/plain",
        if Truthy(body.sourceLanguage) then body.sourceLanguage else None,
        body.targetLanguage.value))
  }

  /** The gRPC codes the `switch` of lines 54-60 knows. */
  predicate KnownCode(code: Option<int>)
  {
    code.Some? && code.value in {3, 5, 7, 16}
  }

  /** The status of the `switch` (lines 51-60); a missing, zero or unknown
      code keeps 500. */
  function ErrorStatus(code: Option<int>): (status: int)
    ensures status in {400, 401, 403, 404, 500}
    ensures status == 500 <==> !KnownCode(code)
  {
    if code.None? || code.value == 0 then 500
    else match code.value
      case 3 => 400
      case 5 => 404
      case 7 => 403
      case 16 => 401
      case _ => 500
  }

  /** The message a known code falls back to when `details` is falsy. */
  function DefaultMessage(code: int): (m: string)
    ensures m == ConnectFailedMessage <==> !KnownCode(Some(code))
  {
    match code
    case 3 => "Invalid argument for translation."
    case 5 => "Translation resource not found."
    case 7 => "Permission denied for translation service."
    case 16 => "Authentication failed for translation service."
    case _ => ConnectFailedMessage
  }

  /** The `message` field: `details` (when truthy) or the code's default for
      a known code, and the connection message for every other code, even
      when `details` is present. */
  function ErrorMessage(code: Option<int>, details: Option<string>): (m: string)
    ensures !KnownCode(code) ==> m == ConnectFailedMessage
    ensures KnownCode(code) && Truthy(details) ==> m == details.value
    ensures KnownCode(code) && !Truthy(details) ==> m == DefaultMessage(code.value)
  {
    if code.None? || code.value == 0 then ConnectFailedMessage
    else match code.value
      case 3 => if Truthy(details) then details.value else DefaultMessage(3)
      case 5 => if Truthy(details) then details.value else DefaultMessage(5)
      case 7 => if Truthy(details) then details.value else DefaultMessage(7)
      case 16 => if Truthy(details) then details.value else DefaultMessage(16)
      case _ => ConnectFailedMessage
  }

  /** The reply to the outcome of the call (lines 42-62): 200 with the
      first translation exactly when the service returned a non-empty list,
      and an error status otherwise. */
  function Respond(outcome: TranslateOutcome): (r: Response)
    ensures r.status in {200, 400, 401, 403, 404, 500}
    ensures r.status == 200 <==>
      outcome.Responded? && outcome.translations.Some? && |outcome.translations.value| > 0
    ensures r.status == 200 ==> r.body == TranslationBody(outcome.translations.value[0].translatedText)
    ensures outcome.Failed? ==> r.body.ErrorBody? && r.body.message == ErrorMessage(outcome.code, outcome.details)
  {
    match outcome
    case Responded(translations) =>
      if translations.Some? && |translations.value| > 0 then
        Response(200, TranslationBody(translations.value[0].translatedText))
      else
        Response(500, MessageBody(BadResponseMessage))
    case Failed(code, details, message) =>
      Response(ErrorStatus(code), ErrorBody(ErrorMessage(code, details),
                                            if Truthy(details) then details else message))
  }

  /** proxyToGoogleTranslate: every request gets exactly one of these
      statuses, and a 200 carries a translation. */
  function ProxyToGoogleTranslate(body: TranslateBody, projectId: Option<string>,
                                  translate: TranslateRequest -> TranslateOutcome): (r: Response)
    ensures r.status in {200, 400, 401, 403, 404, 500}
    ensures r.status == 200 <==> r.body.TranslationBody?
    ensures r.status == 400 && r.body.MessageBody? ==> r.body.message == MissingFieldsMessage
  {
    match BuildRequest(body, projectId)
    case Failure(response) => response
    case Success(request) => Respond(translate(request))
  }

  /** The validation failures answer without a request: the response does
      not depend on the translation service, and the body is checked before
      the project id. */
  lemma RejectionsSendNoRequest(body: TranslateBody, projectId: Option<string>,
                              t1: TranslateRequest -> TranslateOutcome,
                              t2: TranslateRequest -> TranslateOutcome)
    requires !Truthy(body.textToTranslate) || !Truthy(body.targetLanguage) || !Truthy(projectId)
    ensures ProxyToGoogleTranslate(body, projectId, t1) == ProxyToGoogleTranslate(body, projectId, t2)
    ensures !Truthy(body.textToTranslate) || !Truthy(body.targetLanguage) ==>
      ProxyToGoogleTranslate(body, projectId, t1) == Response(400, MessageBody(MissingFieldsMessage))
    ensures Truthy(body.textToTranslate) && Truthy(body.targetLanguage) ==>
      ProxyToGoogleTranslate(body, projectId, t1) == Response(500, MessageBody(MissingProjectMessage))
  {
  }

  /** A valid request answers 200 with the first translation exactly when
      the service returns a non-empty list, 500 on an empty or missing list,
      and the mapped status on an error, whose `details` field is the error's
      `details` or else its `message`. */
  lemma ReplyFollowsOutcome(body: TranslateBody, projectId: Option<string>,
                            translate: TranslateRequest -> TranslateOutcome)
    requires Truthy(body.textToTranslate) && Truthy(body.targetLanguage) && Truthy(projectId)
    ensures var request := BuildRequest(body, projectId).value;
      var outcome := translate(request);
      var r := ProxyToGoogleTranslate(body, projectId, translate);
      && (r.status == 200 <==> outcome.Responded? && outcome.translations.Some? && |outcome.translations.value| > 0)
      && (r.status == 200 ==> r.body == TranslationBody(outcome.translations.value[0].translatedText))
      && (outcome.Responded? && r.status != 200 ==> r == Response(500, MessageBody(BadResponseMessage)))
      && (outcome.Failed? ==>
            && r.status == ErrorStatus(outcome.code)
            && r.body.ErrorBody?
            && r.body.message == ErrorMessage(outcome.code, outcome.details)
            && r.body.details == if Truthy(outcome.details) then outcome.details else outcome.message)
  {
  }

  /** The mapping of the four known codes, and that distinct known codes give
      distinct statuses, so each error status names its code. */
  lemma ErrorStatusTable(a: int, b: int)
    ensures ErrorStatus(Some(3)) == 400 && ErrorStatus(Some(5)) == 404
    ensures ErrorStatus(Some(7)) == 403 && ErrorStatus(Some(16)) == 401
    ensures KnownCode(Some(a)) && KnownCode(Some(b)) && ErrorStatus(Some(a)) == ErrorStatus(Some(b)) ==> a == b
  {
  }
}
