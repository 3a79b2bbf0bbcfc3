/** The two route handlers of the billing application: creating an invoice
    (forwarded to a workflow webhook) and triggering the e-mail workflow
    for a lead. The configured webhook address and what the webhook call
    did are inputs; the JSON bodies are modelled as values. */
module Routes {
  import opened Rows
  import Invoices

  /** The JSON a handler answers with. */
  datatype Body =
    | ErrorBody(error: string)
    | ErrorDetails(error: string, details: string)
    | InvoiceBody(invoice: string)
    | OkBody

  /** `NextResponse.json(body, { status })`; the status defaults to 200. */
  datatype Response = Response(status: nat, body: Body)

  /** What calling the webhook did: it answered (with its `ok` flag and
      its body text), or the call threw with a message (possibly ''). */
  datatype WebhookOutcome = Answered(ok: bool, text: string) | Threw(message: string)

  /** What reading a body as JSON gives: the value, or the error that
      `.json()` (or destructuring a `null` body) throws, with its message. */
  datatype Parsed<T> = Json(value: T) | NotJson(message: string)

  /** `e?.message || fallback`. */
  function MessageOr(message: string, fallback: string): (m: string)
    ensures message != "" ==> m == message
    ensures message == "" ==> m == fallback
  {
    if message != "" then message else fallback
  }

  // ---------------------------------------------------------------------
  // POST /api/invoices

  const MissingFields := "Missing required fields"
  const NoInvoiceWebhook := "n8n webhook URL not configured"
  const InvoiceWebhookFailed := "Failed to trigger n8n webhook"
  const UnknownError := "Unknown error"

  /** The request body; absent members are `None`. */
  datatype InvoiceRequest = InvoiceRequest(
    leadId: Option<string>, amount: Option<real>, currency: Option<string>,
    dueDate: Option<string>, issuedAt: Option<string>, status: Option<string>)

  /** The payload forwarded to the webhook: exactly these six members. */
  datatype InvoicePayload = InvoicePayload(
    leadId: string, amount: real, currency: string, dueDate: string, issuedAt: string, status: string)

  /** JavaScript truthiness of an optional string and an optional number
      (a JSON number is never NaN, so only 0 is a falsy one). */
  predicate Given(v: Option<string>) {
    v.Some? && v.value != ""
  }

  predicate GivenNumber(v: Option<real>) {
    v.Some? && v.value != 0.0
  }

  predicate HasRequired(req: InvoiceRequest) {
    Given(req.leadId) && GivenNumber(req.amount) && Given(req.currency) && Given(req.dueDate)
  }

  /** The payload for a request that has its required members: an absent
      or empty issue date becomes now, an absent or empty status 'pending'. */
  function InvoicePayloadOf(req: InvoiceRequest, nowIso: string): (p: InvoicePayload)
    requires HasRequired(req)
    ensures p.leadId == req.leadId.value && p.amount == req.amount.value
    ensures p.currency == req.currency.value && p.dueDate == req.dueDate.value
    ensures p.issuedAt == (if Given(req.issuedAt) then req.issuedAt.value else nowIso)
    ensures p.status == (if Given(req.status) then req.status.value else "pending")
  {
    InvoicePayload(req.leadId.value, req.amount.value, req.currency.value, req.dueDate.value,
      if Given(req.issuedAt) then req.issuedAt.value else nowIso,
      if Given(req.status) then req.status.value else "pending")
  }

  /** The answer of the handler and the payload it sent, if any. */
  datatype Handled<P> = Handled(response: Response, sent: Option<P>)

  /** The handler: the request body is read first, then the required
      members are checked, then the webhook address; only then is the
      payload sent, and the webhook's answer decides the response. An ok
      answer's body is read as JSON with `parse` (`JSON.parse`, supplied
      by the caller); anything thrown on the way ends in the one `catch`. */
  function PostInvoice(body: Parsed<InvoiceRequest>, webhookUrl: string, outcome: WebhookOutcome,
                       parse: string -> Parsed<string>, nowIso: string)
    : Handled<InvoicePayload>
  {
    match body
    case NotJson(message) => Handled(Response(500, ErrorBody(MessageOr(message, UnknownError))), None)
    case Json(req) =>
      if !HasRequired(req) then Handled(Response(400, ErrorBody(MissingFields)), None)
      else if webhookUrl == "" then Handled(Response(500, ErrorBody(NoInvoiceWebhook)), None)
      else
        var sent := Some(InvoicePayloadOf(req, nowIso));
        match outcome
        case Answered(ok, text) =>
          if !ok then Handled(Response(500, ErrorDetails(InvoiceWebhookFailed, text)), sent)
          else (
            match parse(text)
            case Json(invoice) => Handled(Response(200, InvoiceBody(invoice)), sent)
            case NotJson(message) => Handled(Response(500, ErrorBody(MessageOr(message, UnknownError))), sent))
        case Threw(message) => Handled(Response(500, ErrorBody(MessageOr(message, UnknownError))), sent)
  }

  /** The handler's decision table: a 400 exactly for a readable request
      missing a member, a payload sent exactly when the members are there
      and a webhook is configured, a 200 exactly when the webhook answered
      ok with a JSON body (which becomes the invoice), and a 500 otherwise. */
  lemma PostInvoiceTable(body: Parsed<InvoiceRequest>, webhookUrl: string, outcome: WebhookOutcome,
                         parse: string -> Parsed<string>, nowIso: string)
    ensures var h := PostInvoice(body, webhookUrl, outcome, parse, nowIso);
      (h.response.status == 400 <==> body.Json? && !HasRequired(body.value))
      && (h.response.status == 400 ==> h.response.body == ErrorBody(MissingFields))
      && (h.sent.Some? <==> body.Json? && HasRequired(body.value) && webhookUrl != "")
      && (h.sent.Some? ==> h.sent.value == InvoicePayloadOf(body.value, nowIso))
      && (h.response.status == 200 <==>
            h.sent.Some? && outcome.Answered? && outcome.ok && parse(outcome.text).Json?)
      && (h.response.status == 200 ==> h.response.body == InvoiceBody(parse(outcome.text).value))
      && (h.response.status != 200 && h.response.status != 400 ==> h.response.status == 500)
  {
  }

  /** A 500 says why: the unreadable request's error, no webhook
      configured, the webhook's refusal with its text, or the message of
      the call's or the answer's failure ('Unknown error' when empty). */
  lemma PostInvoiceFailures(body: Parsed<InvoiceRequest>, webhookUrl: string, outcome: WebhookOutcome,
                            parse: string -> Parsed<string>, nowIso: string)
    ensures var r := PostInvoice(body, webhookUrl, outcome, parse, nowIso).response;
      (body.NotJson? ==> r == Response(500, ErrorBody(MessageOr(body.message, UnknownError))))
      && (body.Json? && HasRequired(body.value) ==>
        (webhookUrl == "" ==> r == Response(500, ErrorBody(NoInvoiceWebhook)))
        && (webhookUrl != "" && outcome.Answered? && !outcome.ok ==>
              r == Response(500, ErrorDetails(InvoiceWebhookFailed, outcome.text)))
        && (webhookUrl != "" && outcome.Answered? && outcome.ok && parse(outcome.text).NotJson? ==>
              r == Response(500, ErrorBody(MessageOr(parse(outcome.text).message, UnknownError))))
        && (webhookUrl != "" && outcome.Threw? ==>
              r == Response(500, ErrorBody(MessageOr(outcome.message, UnknownError)))))
  {
  }

  /** The request the invoices screen posts. */
  function RequestOf(p: Invoices.CreatePayload): InvoiceRequest {
    InvoiceRequest(Some(p.leadId), Some(p.amount), Some(p.currency), Some(p.dueDate), Some(p.issuedAt), Some(p.status))
  }

  /** A form the screen accepts is never refused by the route for missing
      members (its due date rendered as a non-empty timestamp), and the
      route forwards it with status 'pending'. */
  lemma ScreenAcceptsRouteAccepts(form: Invoices.CreateForm, amountValue: Option<real>,
                                  toIso: string -> string, nowIso: string, routeNow: string)
    requires Invoices.CreateError(form, amountValue).None?
    requires toIso(form.dueDate) != "" && (form.issuedAt != "" ==> toIso(form.issuedAt) != "") && nowIso != ""
    ensures var req := RequestOf(Invoices.PayloadOf(form, amountValue.value, toIso, nowIso));
      HasRequired(req) && InvoicePayloadOf(req, routeNow).status == "pending"
      && InvoicePayloadOf(req, routeNow).leadId == form.leadId
  {
  }

  // ---------------------------------------------------------------------
  // POST /api/send-email

  const InvalidLead := "Invalid lead payload"
  const EmailWebhookFailed := "Failed to trigger webhook"
  const WebhookError := "Webhook error"

  /** The `lead` member of the request, its members possibly absent. */
  datatype LeadPayload = LeadPayload(id: Option<string>, name: Option<string>, email: Option<string>,
                                     company: Option<string>)

  predicate ValidLead(lead: Option<LeadPayload>) {
    lead.Some? && Given(lead.value.id) && Given(lead.value.email) && Given(lead.value.name)
  }

  /** The handler: the request body is read first (the outer `catch`
      answers for an unreadable one), then the lead is checked; without a
      webhook the answer is ok; otherwise `{ lead }` is sent and the
      webhook's answer decides (the inner `catch` answers for a throw). */
  function PostSendEmail(body: Parsed<Option<LeadPayload>>, webhookUrl: string, outcome: WebhookOutcome)
    : Handled<LeadPayload>
  {
    match body
    case NotJson(message) => Handled(Response(500, ErrorBody(MessageOr(message, UnknownError))), None)
    case Json(lead) =>
      if !ValidLead(lead) then Handled(Response(400, ErrorBody(InvalidLead)), None)
      else if webhookUrl == "" then Handled(Response(200, OkBody), None)
      else
        match outcome
        case Answered(ok, _) =>
          if ok then Handled(Response(200, OkBody), lead)
          else Handled(Response(500, ErrorBody(EmailWebhookFailed)), lead)
        case Threw(message) => Handled(Response(500, ErrorBody(MessageOr(message, WebhookError))), lead)
  }

  /** An unreadable request gives a 500 with its error ('Unknown error'
      when empty); a 400 exactly for an invalid lead; the lead is forwarded
      exactly when it is valid and a webhook is configured; the answer is
      ok exactly when the lead is valid and either no webhook is configured
      or it answered ok; a refusal and a throw give a 500 with their
      message. */
  lemma PostSendEmailTable(body: Parsed<Option<LeadPayload>>, webhookUrl: string, outcome: WebhookOutcome)
    ensures var h := PostSendEmail(body, webhookUrl, outcome);
      (body.NotJson? ==> h == Handled(Response(500, ErrorBody(MessageOr(body.message, UnknownError))), None))
      && (h.response.status == 400 <==> body.Json? && !ValidLead(body.value))
      && (h.response.status == 400 ==> h.response.body == ErrorBody(InvalidLead))
      && (h.sent.Some? <==> body.Json? && ValidLead(body.value) && webhookUrl != "")
      && (h.sent.Some? ==> h.sent == body.value)
      && (h.response == Response(200, OkBody) <==>
            body.Json? && ValidLead(body.value) && (webhookUrl == "" || (outcome.Answered? && outcome.ok)))
      && (body.Json? && ValidLead(body.value) && webhookUrl != "" && outcome.Answered? && !outcome.ok ==>
            h.response == Response(500, ErrorBody(EmailWebhookFailed)))
      && (body.Json? && ValidLead(body.value) && webhookUrl != "" && outcome.Threw? ==>
            h.response == Response(500, ErrorBody(MessageOr(outcome.message, WebhookError))))
  {
  }
}
