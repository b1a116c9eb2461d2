/**
 * The request and response shapes of the contact API (app/models/schemas.py):
 * the `ServiceType` enumeration, the field constraints of a contact request as a
 * validity predicate, the schema layer that turns a raw payload into a request,
 * and the two response records with their default field values.
 */
module Schemas {
  import opened Wrappers

  /** The five service types a contact form may name. */
  datatype ServiceType = Consultoria | Legaltech | Financas | Treinamento | Outro

  /** The string values of the enumeration, as they appear on the wire. */
  const ServiceTypeValues: set<string> :=
    {"consultoria", "legaltech", "financas", "treinamento", "outro"}

  /** `ServiceType.value`: the string a member stands for. */
  function ServiceTypeValue(t: ServiceType): (s: string)
    ensures s in ServiceTypeValues
  {
    match t
    case Consultoria => "consultoria"
    case Legaltech => "legaltech"
    case Financas => "financas"
    case Treinamento => "treinamento"
    case Outro => "outro"
  }

  /** `ServiceType(s)`: accepts exactly the five value strings. */
  function ParseServiceType(s: string): (r: Option<ServiceType>)
    ensures r.Some? <==> s in ServiceTypeValues
    ensures r.Some? ==> ServiceTypeValue(r.value) == s
  {
    if s == "consultoria" then Some(Consultoria)
    else if s == "legaltech" then Some(Legaltech)
    else if s == "financas" then Some(Financas)
    else if s == "treinamento" then Some(Treinamento)
    else if s == "outro" then Some(Outro)
    else None
  }

  /** Parsing a member's value gives back that member. */
  lemma ParseValueRoundTrip(t: ServiceType)
    ensures ParseServiceType(ServiceTypeValue(t)) == Some(t)
  {
  }

  /** Distinct members have distinct values, so parsing is injective. */
  lemma ServiceTypeValueInjective(a: ServiceType, b: ServiceType)
    ensures ServiceTypeValue(a) == ServiceTypeValue(b) ==> a == b
  {
  }

  lemma ParseServiceTypeInjective(s: string, s': string)
    requires ParseServiceType(s).Some? && ParseServiceType(s') == ParseServiceType(s)
    ensures s == s'
  {
  }

  /** A contact request after the schema layer has accepted it. */
  datatype ContactRequest = ContactRequest(
    name: string,
    email: string,
    company: string,
    serviceType: ServiceType,
    message: string,
    phone: Option<string>)

  predicate NameOk(s: string) { 2 <= |s| <= 100 }

  predicate CompanyOk(s: string) { 2 <= |s| <= 100 }

  predicate MessageOk(s: string) { 10 <= |s| <= 1000 }

  /** The phone is optional; when given it has at most 20 characters. */
  predicate PhoneOk(p: Option<string>) { p.None? || |p.value| <= 20 }

  /**
   * The field constraints of `ContactRequest`. The syntax check of `EmailStr`
   * belongs to a library outside this model and is the parameter `isEmail`.
   */
  predicate ValidContact(c: ContactRequest, isEmail: string -> bool)
  {
    && NameOk(c.name)
    && isEmail(c.email)
    && CompanyOk(c.company)
    && MessageOk(c.message)
    && PhoneOk(c.phone)
  }

  /**
   * The JSON body as it arrives: every field may be missing (`None`), and the
   * service type is still a string. A JSON `null` reads as a missing field.
   */
  datatype ContactPayload = ContactPayload(
    name: Option<string>,
    email: Option<string>,
    company: Option<string>,
    serviceType: Option<string>,
    message: Option<string>,
    phone: Option<string>)

  /** The fields of `ContactRequest`, in declaration order, as error locations. */
  datatype Field = NameField | EmailField | CompanyField | ServiceTypeField | MessageField | PhoneField

  /** The payload a client sends for the request `c`. */
  function AsPayload(c: ContactRequest): ContactPayload
  {
    ContactPayload(Some(c.name), Some(c.email), Some(c.company),
                   Some(ServiceTypeValue(c.serviceType)), Some(c.message), c.phone)
  }

  function RequiredErrors(f: Field, v: Option<string>, ok: string -> bool): seq<Field>
  {
    if v.Some? && ok(v.value) then [] else [f]
  }

  /**
   * The schema layer: either the request the payload describes, or the fields
   * that failed, in declaration order. It accepts exactly the payloads of valid
   * requests.
   */
  function Validate(p: ContactPayload, isEmail: string -> bool): (r: Result<ContactRequest, seq<Field>>)
    ensures r.Success? ==> ValidContact(r.value, isEmail) && AsPayload(r.value) == p
    ensures r.Failure? ==> r.error != []
    ensures r.Failure? ==> (NameField in r.error <==> !(p.name.Some? && NameOk(p.name.value)))
    ensures r.Failure? ==> (EmailField in r.error <==> !(p.email.Some? && isEmail(p.email.value)))
    ensures r.Failure? ==> (CompanyField in r.error <==> !(p.company.Some? && CompanyOk(p.company.value)))
    ensures r.Failure? ==>
      (ServiceTypeField in r.error <==> !(p.serviceType.Some? && p.serviceType.value in ServiceTypeValues))
    ensures r.Failure? ==> (MessageField in r.error <==> !(p.message.Some? && MessageOk(p.message.value)))
    ensures r.Failure? ==> (PhoneField in r.error <==> !PhoneOk(p.phone))
    ensures r.Failure? ==> forall c :: AsPayload(c) == p ==> !ValidContact(c, isEmail)
  {
    var errors :=
      RequiredErrors(NameField, p.name, NameOk)
      + RequiredErrors(EmailField, p.email, isEmail)
      + RequiredErrors(CompanyField, p.company, CompanyOk)
      + RequiredErrors(ServiceTypeField, p.serviceType, s => s in ServiceTypeValues)
      + RequiredErrors(MessageField, p.message, MessageOk)
      + (if PhoneOk(p.phone) then [] else [PhoneField]);
    if errors == [] then
      Success(ContactRequest(p.name.value, p.email.value, p.company.value,
                             ParseServiceType(p.serviceType.value).value, p.message.value, p.phone))
    else
      Failure(errors)
  }

  /** Every valid request passes the schema layer unchanged. */
  lemma ValidateRoundTrip(c: ContactRequest, isEmail: string -> bool)
    requires ValidContact(c, isEmail)
    ensures Validate(AsPayload(c), isEmail) == Success(c)
  {
  }

  /** `ContactResponse`: `contact_id` defaults to `None`. */
  datatype ContactResponse = ContactResponse(success: bool, message: string, contactId: Option<string>)

  /** `ContactResponse(success=..., message=...)` without a `contact_id`. */
  function ResponseWithoutId(success: bool, message: string): (r: ContactResponse)
    ensures r.success == success && r.message == message && r.contactId == None
  {
    ContactResponse(success, message, None)
  }

  /** `ServiceInfo`: `features` defaults to the empty list. */
  datatype ServiceInfo = ServiceInfo(name: string, description: string, features: seq<string>)

  /** `ServiceInfo(name=..., description=...)` without `features`. */
  function InfoWithoutFeatures(name: string, description: string): (r: ServiceInfo)
    ensures r.name == name && r.description == description && r.features == []
  {
    ServiceInfo(name, description, [])
  }
}
