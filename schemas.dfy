/** The record types of schemas.py. Each Pydantic model becomes a datatype, a
    validity predicate for its field constraints, and a constructing function
    that fills in the declared defaults and validates, returning
    `InvalidInput(field)` where Pydantic would raise a validation error.
    An argument of type `Option` is one the caller may omit. */
module Schemas {
  import opened Outcomes

  const Languages: set<string> := {"en", "hi"}
  const DocTypes: set<string> := {"aadhaar", "pan", "dl", "voter", "passport"}
  const ApplicationStatuses: set<string> := {"draft", "submitted", "in_review", "approved", "rejected"}
  const Currencies: set<string> := {"INR"}
  const PaymentStatuses: set<string> := {"initiated", "successful", "failed", "refunded"}

  /** The free-form `metadata` mapping of an application. */
  type Metadata = map<string, string>

  datatype User = User(name: string, email: string, preferredLanguage: string, isActive: bool)

  predicate ValidUser(u: User) {
    u.preferredLanguage in Languages
  }

  /** `User(name=..., email=..., [preferred_language=...], [is_active=...])`. */
  function MakeUser(name: string, email: string, preferredLanguage: Option<string>, isActive: Option<bool>): (r: Result<User>)
    ensures r.Ok? <==> (preferredLanguage.None? || preferredLanguage.value in Languages)
    ensures r.Err? ==> r.error == InvalidInput("preferred_language")
    ensures r.Ok? ==> ValidUser(r.value) && r.value.name == name && r.value.email == email
    ensures r.Ok? && preferredLanguage.None? ==> r.value.preferredLanguage == "en"
    ensures r.Ok? && preferredLanguage.Some? ==> r.value.preferredLanguage == preferredLanguage.value
    ensures r.Ok? ==> r.value.isActive == (isActive.None? || isActive.value)
  {
    var language := match preferredLanguage case Some(l) => l case None => "en";
    var active := match isActive case Some(b) => b case None => true;
    if language in Languages then Ok(User(name, email, language, active))
    else Err(InvalidInput("preferred_language"))
  }

  lemma UserRoundTrip(u: User)
    ensures MakeUser(u.name, u.email, Some(u.preferredLanguage), Some(u.isActive)) ==
            (if ValidUser(u) then Ok(u) else Err(InvalidInput("preferred_language")))
  {
  }

  datatype Session = Session(userEmail: string, token: string, expiresAt: int)

  datatype Application = Application(
    userEmail: string, docType: string, status: string,
    referenceId: Option<string>, metadata: Metadata)

  predicate ValidApplication(a: Application) {
    a.docType in DocTypes && a.status in ApplicationStatuses
  }

  /** `Application(user_email=..., doc_type=..., [status=...], [reference_id=...], [metadata=...])`.
      Of several failing fields the first in declaration order is reported. */
  function MakeApplication(userEmail: string, docType: string, status: Option<string>,
                           referenceId: Option<string>, metadata: Option<Metadata>): (r: Result<Application>)
    ensures r.Ok? <==> docType in DocTypes && (status.None? || status.value in ApplicationStatuses)
    ensures docType !in DocTypes ==> r == Err(InvalidInput("doc_type"))
    ensures docType in DocTypes && r.Err? ==> r == Err(InvalidInput("status"))
    ensures r.Ok? ==> ValidApplication(r.value)
    ensures r.Ok? ==> r.value.userEmail == userEmail && r.value.docType == docType
                      && r.value.referenceId == referenceId
    ensures r.Ok? && status.None? ==> r.value.status == "draft"
    ensures r.Ok? && status.Some? ==> r.value.status == status.value
    ensures r.Ok? && metadata.None? ==> r.value.metadata == map[]
    ensures r.Ok? && metadata.Some? ==> r.value.metadata == metadata.value
  {
    var st := match status case Some(s) => s case None => "draft";
    var md := match metadata case Some(m) => m case None => map[];
    if docType !in DocTypes then Err(InvalidInput("doc_type"))
    else if st !in ApplicationStatuses then Err(InvalidInput("status"))
    else Ok(Application(userEmail, docType, st, referenceId, md))
  }

  /** Validating an application's own fields gives the application back exactly when it is valid. */
  lemma ApplicationRoundTrip(a: Application)
    ensures ValidApplication(a) <==>
            MakeApplication(a.userEmail, a.docType, Some(a.status), a.referenceId, Some(a.metadata)).Ok?
    ensures ValidApplication(a) ==>
            MakeApplication(a.userEmail, a.docType, Some(a.status), a.referenceId, Some(a.metadata)) == Ok(a)
  {
  }

  datatype Payment = Payment(
    userEmail: string, purpose: string, amount: real, currency: string, status: string,
    applicationRef: Option<string>, providerRef: Option<string>)

  predicate ValidPayment(p: Payment) {
    p.amount >= 0.0 && p.currency in Currencies && p.status in PaymentStatuses
  }

  /** `Payment(user_email=..., purpose=..., amount=..., [currency=...], [status=...],
      [application_ref=...], [provider_ref=...])`; `amount` must be at least 0. */
  function MakePayment(userEmail: string, purpose: string, amount: real, currency: Option<string>,
                       status: Option<string>, applicationRef: Option<string>,
                       providerRef: Option<string>): (r: Result<Payment>)
    ensures r.Ok? <==> amount >= 0.0 && (currency.None? || currency.value in Currencies)
                       && (status.None? || status.value in PaymentStatuses)
    ensures amount < 0.0 ==> r == Err(InvalidInput("amount"))
    ensures r.Ok? ==> ValidPayment(r.value)
    ensures r.Ok? ==> r.value.userEmail == userEmail && r.value.purpose == purpose
                      && r.value.amount == amount && r.value.currency == "INR"
                      && r.value.applicationRef == applicationRef && r.value.providerRef == providerRef
    ensures r.Ok? && status.None? ==> r.value.status == "initiated"
    ensures r.Ok? && status.Some? ==> r.value.status == status.value
  {
    var cur := match currency case Some(c) => c case None => "INR";
    var st := match status case Some(s) => s case None => "initiated";
    if amount < 0.0 then Err(InvalidInput("amount"))
    else if cur !in Currencies then Err(InvalidInput("currency"))
    else if st !in PaymentStatuses then Err(InvalidInput("status"))
    else Ok(Payment(userEmail, purpose, amount, cur, st, applicationRef, providerRef))
  }

  lemma PaymentRoundTrip(p: Payment)
    ensures ValidPayment(p) <==>
            MakePayment(p.userEmail, p.purpose, p.amount, Some(p.currency), Some(p.status),
                        p.applicationRef, p.providerRef).Ok?
    ensures ValidPayment(p) ==>
            MakePayment(p.userEmail, p.purpose, p.amount, Some(p.currency), Some(p.status),
                        p.applicationRef, p.providerRef) == Ok(p)
  {
  }

  /** `labelText` is the `label` field (`label` is a Dafny keyword). */
  datatype SearchItem = SearchItem(key: string, labelText: string, category: string, url: string, keywords: seq<string>)

  /** `SearchItem(key=..., label=..., category=..., url=..., [keywords=...])`: no constraints. */
  function MakeSearchItem(key: string, labelText: string, category: string, url: string,
                          keywords: Option<seq<string>>): (r: SearchItem)
    ensures r.key == key && r.labelText == labelText && r.category == category && r.url == url
    ensures keywords.None? ==> r.keywords == []
    ensures keywords.Some? ==> r.keywords == keywords.value
  {
    SearchItem(key, labelText, category, url, match keywords case Some(k) => k case None => [])
  }
}
