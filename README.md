# LexData contact API — a Dafny model of its core

This project models the core of the LexData & Finance Solutions backend. It covers:

- **The contact schema** (`app/models/schemas.py`, module `Schemas`): the five-member `ServiceType` enumeration with its string values, and the field constraints of `ContactRequest` as a validity predicate. That predicate covers the name and company lengths (2..100), the message length (10..1000), an optional phone of at most 20 characters, and an e-mail check. The model also covers the schema layer that turns a raw JSON payload into a request, and the default fields of `ContactResponse` and `ServiceInfo`.
- **The e-mail dispatcher** (`EmailService` in `app/routes/contact.py`, module `ContactRoutes`): a class holding the four settings it copies at construction. Its method `SendContactEmail` returns true without any network traffic when the sender address or the password is empty. With both set, line 29 calls `MimeMultipart`, which is not bound, so it raises `NameError` there. Line 58 catches it and the method returns false, before any SMTP session is opened (see Findings). `SendContactEmailCorrected` models the intended path. It builds the message with `MIMEMultipart` and opens one SMTP session; any exception in that path becomes false.
- **The acknowledgment** built by `submit_contact_form`. `success` is the dispatcher's result, and a `contact_id` is present, non-empty, exactly on success.
- **The service catalog** of `get_services` and its lookup `get_service_detail`. The catalog has five keys: consultoria, legaltech, financas, tecnologia, treinamento. The enumeration has consultoria, legaltech, financas, treinamento, outro. The model proves the consequences of that mismatch:
  - `outro` is the one valid member that always yields 404.
  - The other four members always find their record.
  - No member names `tecnologia`; as a path segment it is refused by the framework's enum parsing (422) before the lookup runs.

The outside world enters as parameters:

- **The e-mail syntax check of `EmailStr`**: a predicate `isEmail`.
- **The SMTP relay**: an `SmtpRelay` object whose answer to a session is a function given from outside. It also records every session opened against it, so "no session was opened" is a postcondition.
- **The generated uuid**: a 36-character string `newId`.

Because `Services` is a Dafny function, two calls always give equal content.

The route's parameter is typed `ServiceType`. So a path segment outside the enumeration is refused with 422 before the route body runs, and only `outro` reaches the 404 branch.

## Model

| member | source | states |
|---|---|---|
| `Schemas.ServiceTypeValue` | app/models/schemas.py:5-10 | every member's value is one of the five enumeration strings |
| `Schemas.ParseServiceType` | app/models/schemas.py:5-10 | a string parses iff it is one of the five values, and the parsed member carries that value |
| `Schemas.ParseValueRoundTrip` | app/models/schemas.py:5-10 | parsing a member's value gives back that member |
| `Schemas.ServiceTypeValueInjective` | app/models/schemas.py:6-10 | distinct members have distinct values |
| `Schemas.ParseServiceTypeInjective` | app/models/schemas.py:5-10 | two strings that parse to the same member are equal |
| `Schemas.Validate` | app/models/schemas.py:12-18 | an accepted payload describes a request meeting every field constraint; a rejected one names exactly the fields whose value is missing or breaks its constraint, and no valid request has that payload |
| `Schemas.ValidContact` | app/models/schemas.py:13-18 | a request is valid iff name and company have 2..100 characters, message has 10..1000, phone is absent or has at most 20, and `isEmail` accepts the e-mail |
| `Schemas.ValidateRoundTrip` | app/models/schemas.py:12-18 | every request meeting the constraints (name/company 2..100, message 10..1000, phone absent or at most 20, e-mail accepted) passes the schema layer unchanged |
| `Schemas.ResponseWithoutId` | app/models/schemas.py:20-23 | a response built without `contact_id` has it absent |
| `Schemas.InfoWithoutFeatures` | app/models/schemas.py:25-28 | a service record built without features has the empty list |
| `ContactRoutes.MultipartNames` | app/routes/contact.py:29 | the constructor spelling called on line 29 is bound neither in the module nor among builtins, while the spelling imported on line 5 is |
| `ContactRoutes.PhoneShown` | app/routes/contact.py:40 | the body shows the phone when it is a non-empty string and "Não informado" when it is absent or empty |
| `ContactRoutes.ContactMail` | app/routes/contact.py:29-48 | the message goes from the sender to the fixed inbox, with subject "Novo Contato - " plus the company and the service type's value in the body |
| `ContactRoutes.SmtpRelay.Open` | app/routes/contact.py:52-55 | one session is recorded and answered by the relay's response function |
| `ContactRoutes.Simulated` | app/routes/contact.py:25 | a string setting is falsy iff it is empty, so the send is simulated iff either credential is empty |
| `ContactRoutes.EmailService.constructor` | app/routes/contact.py:14-18 | the service copies server, port, sender address and password from the settings |
| `ContactRoutes.EmailService.Request` | app/routes/contact.py:52-55 | the session uses the configured server, port and credentials and carries the contact's message |
| `ContactRoutes.EmailService.TrySend` | app/routes/contact.py:24-57 | for either constructor spelling: empty credentials return true with no session; the unbound spelling raises NameError with no session; the imported spelling opens exactly one session, and the block returns true iff it was delivered, raising otherwise |
| `ContactRoutes.EmailService.SendContactEmail` | app/routes/contact.py:20-60 | as written: the result is true iff the sender address or password is empty, and no SMTP session is ever opened |
| `ContactRoutes.EmailService.SendContactEmailCorrected` | app/routes/contact.py:20-60 | with the imported constructor: empty credentials give true with no session; otherwise one session is opened and the result is whether it was delivered |
| `ContactRoutes.Acknowledge` | app/routes/contact.py:73-83 | `success` equals the dispatch result; `contact_id` is present iff `success`, and is then the fresh non-empty id; the message is the fixed confirmation text on success and the fixed failure text otherwise |
| `ContactRoutes.SubmitContactForm` | app/routes/contact.py:62-83 | the response is the acknowledgment of "credentials empty" (the as-written dispatch result), and no SMTP session is opened |
| `ContactRoutes.PostContact` | app/routes/contact.py:62-63 | a payload the schema layer rejects is answered 422 with the failing fields and gets no acknowledgment; an accepted one gets the acknowledgment of the as-written dispatch; no SMTP session is opened on either path, because the as-written dispatcher never opens one |
| `ContactRoutes.Services` | app/routes/contact.py:91-143 | the catalog has exactly the keys consultoria, legaltech, financas, tecnologia, treinamento, each with a non-empty name and description and exactly three features |
| `ContactRoutes.ServiceDetail` | app/routes/contact.py:145-155 | the record under the member's value when that value is a catalog key, the 404 "Serviço não encontrado" otherwise |
| `ContactRoutes.ServiceDetailNotFoundIffOutro` | app/routes/contact.py:150-155 | a lookup fails, and then with 404, exactly for `outro` |
| `ContactRoutes.ServiceDetailFound` | app/routes/contact.py:150-153 | each of the other four members finds its own record, with three features |
| `ContactRoutes.TecnologiaUnreachable` | app/routes/contact.py:124-132 | no member's value is "tecnologia" and no lookup returns the "tecnologia" record |
| `ContactRoutes.EnumCatalogMismatch` | app/routes/contact.py:96-142 | the enumeration and the catalog share consultoria, legaltech, financas, treinamento; only the enumeration has outro, only the catalog has tecnologia |
| `ContactRoutes.EnumCatalogOverlapSize` | app/routes/contact.py:96-142 | five members, five catalog keys, exactly four shared |
| `ContactRoutes.ServiceDetailRoute` | app/routes/contact.py:145-155 | a path segment outside the enumeration is refused with 422 before the lookup; a member value that is a catalog key gets its record; the remaining member value gets 404 |
| `ContactRoutes.ServiceDetailRouteFound` | app/routes/contact.py:145-155 | a path segment yields a record iff it is both an enumeration value and a catalog key |
| `ContactRoutes.MismatchedKeysAtRoute` | app/routes/contact.py:145-155 | "tecnologia" is refused as unprocessable and "outro" is answered 404 |

## Left out

- The SMTP session itself (connect, STARTTLS, login, send, quit) is network I/O. It is the `SmtpRelay` oracle, whose answers are a function supplied from outside; timeouts and blocking are not modelled.
- The rendered text of the body is not modelled, and neither are `datetime.now()` and the eight-character `uuid.uuid4()` prefix in it. These are nondeterministic, so the model keeps only the fields the template shows; the subject, "Novo Contato - " followed by the company, is modelled in full.
- The `print` logging on the simulated and failing paths has no effect on results.
- FastAPI routing and `async` are plumbing. So is the HTTP 500 wrapper with the exception text in its detail. Nothing in the modelled `try` block of `submit_contact_form` can raise, so that branch is unreachable in the model.
- The root and health endpoints and the CORS setup in app/main.py are constant responses and framework configuration. They hold no logic.
- Environment loading in config.py is out of scope, including the `int()` parse of the port that can fail at startup. The settings enter as plain values (`MailSettings`).
- The internals of pydantic's `EmailStr` are a library outside the model. They are the parameter `isEmail`, and the e-mail is stored as given, without the normalisation the library may apply.
- Pydantic's error kinds and messages are not modelled; a rejection lists only the failing fields. Its coercion of non-string JSON values is not modelled either.
- SubmitContactForm: the uniqueness of generated contact ids across requests is a property of the uuid generator. That generator is a parameter here.
- Lengths count Unicode scalar values, as Python counts code points. Lone surrogates, which Python strings can hold, are not representable.

## Findings

| source | as written | input that shows it | evidently intended | confidence | as-written member | corrected member |
|---|---|---|---|---|---|---|
| app/routes/contact.py:29 | the message is built with `MimeMultipart()`, a name that is not bound, since line 5 imports `MIMEMultipart`; the `NameError` is caught at line 58 and the dispatcher returns false | any contact, with `SENDER_EMAIL` and `SENDER_PASSWORD` both non-empty | build the message with `MIMEMultipart`, open one SMTP session and return whether it delivered | high (not executed) | `ContactRoutes.EmailService.SendContactEmail` | `ContactRoutes.EmailService.SendContactEmailCorrected` |
