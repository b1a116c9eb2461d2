/**
 * The contact routes (app/routes/contact.py): the e-mail dispatcher
 * `EmailService`, the acknowledgment built by `submit_contact_form`, the fixed
 * service catalog of `get_services` and its lookup `get_service_detail`.
 *
 * The SMTP relay, the clock and the uuid generator are outside the model: the
 * relay is an object whose answers are a function given from outside, and a
 * generated id is a parameter.
 */
module ContactRoutes {
  import opened Wrappers
  import opened Schemas

  // ---------------------------------------------------------------------------
  // Python evaluation: exceptions and the module namespace
  // ---------------------------------------------------------------------------

  /** The exceptions the send path can raise. */
  datatype PyException =
    | NameError(name: string)
    | SmtpException(stage: SmtpStage, reason: string)

  /** What the `try` block of the dispatcher does: return a value or raise. */
  datatype TryOutcome = Returned(value: bool) | Raised(exception: PyException)

  /**
   * The names bound at the top level of app/routes/contact.py by its imports
   * and definitions. A bare name inside a method is looked up here and then
   * among the builtins.
   */
  const ModuleGlobals: set<string> := {
    "APIRouter", "HTTPException", "ContactRequest", "ContactResponse", "ServiceInfo",
    "ServiceType", "smtplib", "MIMEText", "MIMEMultipart", "os", "datetime", "uuid",
    "settings", "router", "EmailService", "submit_contact_form", "get_services",
    "get_service_detail"}

  /** The builtins the file uses. */
  const Builtins: set<string> := {"Exception", "print", "str"}

  predicate Bound(name: string) { name in ModuleGlobals || name in Builtins }

  /**
   * The two spellings of the multipart message constructor: the one line 29
   * calls and the one line 5 imports.
   */
  datatype MultipartSpelling = AsCalled | AsImported

  function SpellingName(m: MultipartSpelling): string
  {
    match m
    case AsCalled => "MimeMultipart"
    case AsImported => "MIMEMultipart"
  }

  /** The constructor called on line 29 is not bound, the one imported on line 5 is. */
  lemma MultipartNames()
    ensures !Bound(SpellingName(AsCalled)) && Bound(SpellingName(AsImported))
  {
  }

  // ---------------------------------------------------------------------------
  // The outgoing message and the SMTP relay
  // ---------------------------------------------------------------------------

  /** The fixed inbox every contact message goes to. */
  const Recipient: string := "email@lexdatafinance.com"

  /** The text put in the body when no phone number was given. */
  const NoPhone: string := "Não informado"

  /** `contact_data.phone or 'Não informado'`: an empty string is falsy too. */
  function PhoneShown(phone: Option<string>): (s: string)
    ensures phone.Some? && phone.value != "" ==> s == phone.value
    ensures phone.None? || phone.value == "" ==> s == NoPhone
    ensures s != ""
  {
    if phone.Some? && phone.value != "" then phone.value else NoPhone
  }

  /**
   * The fields the body template shows. The rendered text, the timestamp and
   * the short id in it are not part of this model.
   */
  datatype MessageBody = MessageBody(
    name: string, email: string, company: string, phone: string,
    serviceType: string, message: string)

  datatype MailMessage = MailMessage(from: string, to: string, subject: string, body: MessageBody)

  /** One `with smtplib.SMTP(server, port)` session: STARTTLS, login, send. */
  datatype SmtpRequest = SmtpRequest(
    server: string, port: int, user: string, password: string, mail: MailMessage)

  datatype SmtpStage = Connect | StartTls | Login | SendMessage | Quit

  datatype SmtpReply = Delivered | Failed(stage: SmtpStage, reason: string)

  /** The message the dispatcher builds for a contact. */
  function ContactMail(sender: string, c: ContactRequest): (m: MailMessage)
    ensures m.from == sender && m.to == Recipient
    ensures m.subject == "Novo Contato - " + c.company
    ensures m.body.phone == PhoneShown(c.phone)
    ensures m.body.serviceType == ServiceTypeValue(c.serviceType)
  {
    MailMessage(sender, Recipient, "Novo Contato - " + c.company,
                MessageBody(c.name, c.email, c.company, PhoneShown(c.phone),
                            ServiceTypeValue(c.serviceType), c.message))
  }

  /**
   * The mail relay on the network. `respond` says how it answers a session;
   * `sessions` records every session opened against it.
   */
  class SmtpRelay {
    const respond: SmtpRequest -> SmtpReply
    var sessions: seq<SmtpRequest>

    constructor (respond: SmtpRequest -> SmtpReply)
      ensures this.respond == respond && sessions == []
    {
      this.respond := respond;
      sessions := [];
    }

    method Open(req: SmtpRequest) returns (reply: SmtpReply)
      modifies this
      ensures sessions == old(sessions) + [req]
      ensures reply == respond(req)
    {
      sessions := sessions + [req];
      reply := respond(req);
    }
  }

  // ---------------------------------------------------------------------------
  // EmailService
  // ---------------------------------------------------------------------------

  /** The mail settings the dispatcher reads at construction. */
  datatype MailSettings = MailSettings(
    smtpServer: string, smtpPort: int, senderEmail: string, senderPassword: string)

  /** Without sender address or password the dispatcher only simulates a send. */
  predicate Simulated(senderEmail: string, senderPassword: string)
  {
    senderEmail == "" || senderPassword == ""
  }

  class EmailService {
    const smtpServer: string
    const smtpPort: int
    const senderEmail: string
    const senderPassword: string

    constructor (settings: MailSettings)
      ensures smtpServer == settings.smtpServer && smtpPort == settings.smtpPort
      ensures senderEmail == settings.senderEmail && senderPassword == settings.senderPassword
    {
      smtpServer := settings.smtpServer;
      smtpPort := settings.smtpPort;
      senderEmail := settings.senderEmail;
      senderPassword := settings.senderPassword;
    }

    /** The session the dispatcher opens for a contact. */
    function Request(c: ContactRequest): (req: SmtpRequest)
      ensures req.server == smtpServer && req.port == smtpPort
      ensures req.user == senderEmail && req.password == senderPassword
      ensures req.mail == ContactMail(senderEmail, c)
    {
      SmtpRequest(smtpServer, smtpPort, senderEmail, senderPassword, ContactMail(senderEmail, c))
    }

    /**
     * The body of the `try` in `send_contact_email`, where `multipart` is the
     * spelling the message constructor is called by.
     */
    method TrySend(c: ContactRequest, multipart: MultipartSpelling, relay: SmtpRelay) returns (outcome: TryOutcome)
      modifies relay
      ensures Simulated(senderEmail, senderPassword) ==>
        outcome == Returned(true) && relay.sessions == old(relay.sessions)
      ensures !Simulated(senderEmail, senderPassword) && !Bound(SpellingName(multipart)) ==>
        outcome == Raised(NameError(SpellingName(multipart))) && relay.sessions == old(relay.sessions)
      ensures !Simulated(senderEmail, senderPassword) && Bound(SpellingName(multipart)) ==>
        && relay.sessions == old(relay.sessions) + [Request(c)]
        && (outcome == Returned(true) <==> relay.respond(Request(c)) == Delivered)
        && outcome != Returned(false)
    {
      if senderEmail == "" || senderPassword == "" {
        return Returned(true);
      }
      if !Bound(SpellingName(multipart)) {
        return Raised(NameError(SpellingName(multipart)));
      }
      var reply := relay.Open(Request(c));
      match reply
      case Delivered =>
        outcome := Returned(true);
      case Failed(stage, reason) =>
        outcome := Raised(SmtpException(stage, reason));
    }

    /**
     * `send_contact_email` as written: line 29 calls `MimeMultipart`, which is
     * not bound, so with credentials set the `NameError` is caught and the
     * result is false, without any session opened.
     */
    method SendContactEmail(c: ContactRequest, relay: SmtpRelay) returns (sent: bool)
      modifies relay
      ensures sent <==> Simulated(senderEmail, senderPassword)
      ensures relay.sessions == old(relay.sessions)
    {
      var outcome := TrySend(c, AsCalled, relay);
      sent := match outcome
        case Returned(b) => b
        case Raised(_) => false;
    }

    /**
     * `send_contact_email` with the constructor imported on line 5: with
     * credentials set it opens exactly one session and reports whether the
     * relay delivered the message.
     */
    method SendContactEmailCorrected(c: ContactRequest, relay: SmtpRelay) returns (sent: bool)
      modifies relay
      ensures Simulated(senderEmail, senderPassword) ==>
        sent && relay.sessions == old(relay.sessions)
      ensures !Simulated(senderEmail, senderPassword) ==>
        && relay.sessions == old(relay.sessions) + [Request(c)]
        && (sent <==> relay.respond(Request(c)) == Delivered)
    {
      var outcome := TrySend(c, AsImported, relay);
      sent := match outcome
        case Returned(b) => b
        case Raised(_) => false;
    }
  }

  // ---------------------------------------------------------------------------
  // Errors the routes report
  // ---------------------------------------------------------------------------

  /** An error the route raises as `HTTPException`. */
  datatype HttpError = HttpError(status: int, detail: string)

  const NotFound: HttpError := HttpError(404, "Serviço não encontrado")

  /**
   * What a route answers instead of its response: the framework's rejection
   * (status 422) of a request whose parameters fail the schema, naming the
   * failing fields, or an `HTTPException` of the route itself.
   */
  datatype RouteError = Unprocessable(fields: seq<Field>) | HttpRaised(error: HttpError)

  // ---------------------------------------------------------------------------
  // submit_contact_form
  // ---------------------------------------------------------------------------

  /** A 36-character string, the length of the text form of `uuid.uuid4()`. */
  type UuidText = s: string | |s| == 36
    witness "00000000-0000-0000-0000-000000000000"

  const SentMessage: string := "Mensagem enviada com sucesso! Entraremos em contato em breve."
  const FailedMessage: string := "Erro ao enviar mensagem. Tente novamente mais tarde."

  /** The response for a dispatch result; `newId` is the freshly generated uuid. */
  function Acknowledge(sent: bool, newId: UuidText): (r: ContactResponse)
    ensures r.success == sent
    ensures r.contactId.Some? <==> r.success
    ensures r.contactId.Some? ==> r.contactId.value == newId && r.contactId.value != ""
    ensures r.message == (if sent then SentMessage else FailedMessage) && r.message != ""
  {
    if sent then ContactResponse(true, SentMessage, Some(newId))
    else ResponseWithoutId(false, FailedMessage)
  }

  /**
   * `submit_contact_form` on a request the schema layer accepted: build the
   * dispatcher from the settings, dispatch, acknowledge. Nothing in it raises,
   * so the HTTP 500 branch is never taken.
   */
  method SubmitContactForm(settings: MailSettings, c: ContactRequest, relay: SmtpRelay, newId: UuidText)
    returns (r: ContactResponse)
    modifies relay
    ensures r == Acknowledge(Simulated(settings.senderEmail, settings.senderPassword), newId)
    ensures relay.sessions == old(relay.sessions)
  {
    var service := new EmailService(settings);
    var sent := service.SendContactEmail(c, relay);
    r := Acknowledge(sent, newId);
  }

  /**
   * `POST /contact`: the schema layer runs first; a payload it rejects never
   * reaches the dispatcher.
   */
  method PostContact(settings: MailSettings, p: ContactPayload, isEmail: string -> bool,
                     relay: SmtpRelay, newId: UuidText)
    returns (r: Result<ContactResponse, RouteError>)
    modifies relay
    ensures Validate(p, isEmail).Failure? ==> r == Failure(Unprocessable(Validate(p, isEmail).error))
    ensures Validate(p, isEmail).Success? ==>
      r == Success(Acknowledge(Simulated(settings.senderEmail, settings.senderPassword), newId))
    ensures relay.sessions == old(relay.sessions)
  {
    match Validate(p, isEmail)
    case Failure(fields) =>
      r := Failure(Unprocessable(fields));
    case Success(c) =>
      var ack := SubmitContactForm(settings, c, relay, newId);
      r := Success(ack);
  }

  // ---------------------------------------------------------------------------
  // get_services and get_service_detail
  // ---------------------------------------------------------------------------

  /** The keys of the catalog; "tecnologia" is there, "outro" is not. */
  const CatalogKeys: set<string> :=
    {"consultoria", "legaltech", "financas", "tecnologia", "treinamento"}

  /** The five records of `get_services`, one per catalog key. */
  const ConsultoriaInfo: ServiceInfo := ServiceInfo(
    "Consultoria Estratégica & Inteligência de Negócios",
    "Dashboards e BI integrados, análise preditiva e planejamento estratégico baseado em dados",
    ["Dashboards e BI integrados",
     "Análise preditiva para decisões estratégicas",
     "Planejamento estratégico baseado em dados"])

  const LegaltechInfo: ServiceInfo := ServiceInfo(
    "Soluções Jurídico-Tecnológicas (LegalTech)",
    "Automação de processos jurídicos, IA para previsão de resultados e compliance digital",
    ["Automação de cálculos trabalhistas e contratos",
     "Previsão de resultados judiciais com IA",
     "Compliance digital e LGPD"])

  const FinancasInfo: ServiceInfo := ServiceInfo(
    "Finanças & Investimentos",
    "Planejamento financeiro, análise de risco e estudos preditivos de mercado",
    ["Planejamento financeiro e tributário",
     "Modelos de análise de risco e scoring",
     "Estudos preditivos de mercado"])

  const TecnologiaInfo: ServiceInfo := ServiceInfo(
    "Tecnologia & Cloud",
    "Soluções em nuvem AWS, integração de dados e aplicativos web",
    ["Aplicativos web e automações em nuvem AWS",
     "Integração de dados através de ETL, APIs e Data Lakes",
     "Segurança e escalabilidade garantidas"])

  const TreinamentoInfo: ServiceInfo := ServiceInfo(
    "Educação & Treinamentos",
    "Capacitação profissional em LegalTech, Big Data e Inteligência Competitiva",
    ["Workshops e mentorias especializadas",
     "Cursos em LegalTech e Big Data",
     "Treinamentos em Inteligência Competitiva"])

  /** A record worth listing: a name, a description and three features. */
  predicate WellFormed(info: ServiceInfo)
  {
    info.name != "" && info.description != "" && |info.features| == 3
  }

  /** `get_services`: the fixed catalog of five offerings. */
  function Services(): (m: map<string, ServiceInfo>)
    ensures m.Keys == CatalogKeys
    ensures forall k :: k in m ==> WellFormed(m[k])
  {
    map[
      "consultoria" := ConsultoriaInfo,
      "legaltech" := LegaltechInfo,
      "financas" := FinancasInfo,
      "tecnologia" := TecnologiaInfo,
      "treinamento" := TreinamentoInfo
    ]
  }


  /** `get_service_detail`: the record under the member's value, or 404. */
  function ServiceDetail(t: ServiceType): (r: Result<ServiceInfo, HttpError>)
    ensures ServiceTypeValue(t) in Services() ==> r == Success(Services()[ServiceTypeValue(t)])
    ensures ServiceTypeValue(t) !in Services() ==> r == Failure(NotFound)
  {
    var services := Services();
    if ServiceTypeValue(t) in services then Success(services[ServiceTypeValue(t)])
    else Failure(NotFound)
  }

  /** Exactly one valid member, `Outro`, is never found in the catalog. */
  lemma ServiceDetailNotFoundIffOutro(t: ServiceType)
    ensures ServiceDetail(t).Failure? <==> t == Outro
    ensures ServiceDetail(t).Failure? ==> ServiceDetail(t).error == NotFound
  {
  }

  /** Every other member finds its record under its own value. */
  lemma ServiceDetailFound(t: ServiceType)
    requires t != Outro
    ensures ServiceDetail(t) == Success(Services()[ServiceTypeValue(t)])
    ensures |ServiceDetail(t).value.features| == 3
  {
  }

  /** No member names the "tecnologia" entry, so no request can reach it. */
  lemma TecnologiaUnreachable(t: ServiceType)
    ensures ServiceTypeValue(t) != "tecnologia"
    ensures ServiceDetail(t) != Success(Services()["tecnologia"])
  {
  }

  /** How the enumeration and the catalog keys overlap. */
  lemma EnumCatalogMismatch()
    ensures ServiceTypeValues * CatalogKeys == {"consultoria", "legaltech", "financas", "treinamento"}
    ensures ServiceTypeValues - CatalogKeys == {"outro"}
    ensures CatalogKeys - ServiceTypeValues == {"tecnologia"}
  {
  }

  /** Five members, five catalog keys, four of them shared. */
  lemma EnumCatalogOverlapSize()
    ensures |ServiceTypeValues| == 5 && |CatalogKeys| == |Services()| == 5
    ensures |ServiceTypeValues * CatalogKeys| == 4
  {
    EnumCatalogMismatch();
  }

  /** What the route pattern `{service_type}` matches: one non-empty segment. */
  type PathSegment = s: string | s != "" && '/' !in s witness "outro"

  /**
   * `GET /services/{service_type}`: the path segment must parse as a
   * `ServiceType` before the route runs.
   */
  function ServiceDetailRoute(path: PathSegment): (r: Result<ServiceInfo, RouteError>)
    ensures path !in ServiceTypeValues ==> r == Failure(Unprocessable([ServiceTypeField]))
    ensures path in ServiceTypeValues && path in Services() ==> r == Success(Services()[path])
    ensures path in ServiceTypeValues && path !in Services() ==> r == Failure(HttpRaised(NotFound))
  {
    match ParseServiceType(path)
    case None => Failure(Unprocessable([ServiceTypeField]))
    case Some(t) =>
      match ServiceDetail(t)
      case Success(info) => Success(info)
      case Failure(e) => Failure(HttpRaised(e))
  }

  /** A path finds a record exactly when it is both a member value and a catalog key. */
  lemma ServiceDetailRouteFound(path: PathSegment)
    ensures ServiceDetailRoute(path).Success? <==> path in ServiceTypeValues * CatalogKeys
  {
  }

  /** "tecnologia" is refused before the lookup, "outro" by the lookup. */
  lemma MismatchedKeysAtRoute()
    ensures ServiceDetailRoute("tecnologia") == Failure(Unprocessable([ServiceTypeField]))
    ensures ServiceDetailRoute("outro") == Failure(HttpRaised(NotFound))
  {
  }
}
