/** The application and payment services over an in-memory document store
    (main.py:66-115). The store keeps the four collections the handlers use;
    `nextId` stands in for the store's identifier generation. */
module Service {
  import opened Outcomes
  import opened Seqs
  import opened Schemas
  import opened Auth

  /** At most this many applications are listed. */
  const ListLimit: nat := 50

  /** A stored record with the identifier the store gave it. */
  datatype Document<T> = Document(id: nat, body: T)

  /** The `create_application` request body; `metadata` may be omitted. */
  datatype ApplicationCreate = ApplicationCreate(docType: string, metadata: Option<Metadata>)

  /** The request's metadata, the empty mapping when omitted (main.py:35). */
  function RequestMetadata(p: ApplicationCreate): Metadata {
    if p.metadata.Some? then p.metadata.value else map[]
  }

  datatype ApplicationCreated = ApplicationCreated(reference: string, status: string)
  datatype PaymentInit = PaymentInit(purpose: string, amount: real, applicationRef: Option<string>)
  datatype PaymentCreated = PaymentCreated(paymentId: string, status: string)
  /** A listed application: the document with its identifier rendered as a string. */
  datatype ListedApplication = ListedApplication(id: string, application: Application)

  /** The lower-case hexadecimal digit for `d`. */
  function HexDigit(d: nat): (c: char)
    requires d < 16
    ensures d < 10 ==> c as int == '0' as int + d
    ensures 10 <= d ==> c as int == 'a' as int + d - 10
  {
    if d < 10 then ('0' as int + d) as char else ('a' as int + d - 10) as char
  }

  /** The string form of an identifier: lower-case hexadecimal without leading zeros. */
  function IdText(n: nat): (r: string)
    ensures |r| >= 1
    ensures n < 16 <==> |r| == 1
    decreases n
  {
    if n < 16 then [HexDigit(n)] else IdText(n / 16) + [HexDigit(n % 16)]
  }

  /** Distinct identifiers have distinct string forms. */
  lemma {:induction false} IdTextInjective(n: nat, m: nat)
    requires IdText(n) == IdText(m)
    ensures n == m
    decreases n
  {
    if n >= 16 {
      var a, b := IdText(n), IdText(m);
      assert a[..|a| - 1] == IdText(n / 16) && b[..|b| - 1] == IdText(m / 16);
      IdTextInjective(n / 16, m / 16);
      assert HexDigit(n % 16) == a[|a| - 1] == HexDigit(m % 16);
    }
  }

  lemma IdTextDistinct(n: nat, m: nat)
    requires n != m
    ensures IdText(n) != IdText(m)
  {
    if IdText(n) == IdText(m) {
      IdTextInjective(n, m);
    }
  }

  /** Identifiers strictly increase along the collection and stay below `bound`. */
  ghost predicate IdsOrdered<T>(docs: seq<Document<T>>, bound: nat) {
    (forall i :: 0 <= i < |docs| ==> docs[i].id < bound)
    && (forall i, j :: 0 <= i < j < |docs| ==> docs[i].id < docs[j].id)
  }

  /** The applications of `email`, in store order: `get_documents`'s filter. */
  function OwnedBy(docs: seq<Document<Application>>, email: string): (r: seq<Document<Application>>)
    ensures |r| <= |docs|
  {
    if docs == [] then []
    else
      var last := docs[|docs| - 1];
      OwnedBy(docs[..|docs| - 1], email) + if last.body.userEmail == email then [last] else []
  }

  /** `get_documents("application", {"user_email": email}, limit=50)`. */
  function Query(docs: seq<Document<Application>>, email: string): seq<Document<Application>> {
    Take(OwnedBy(docs, email), ListLimit)
  }

  function Render(d: Document<Application>): ListedApplication {
    ListedApplication(IdText(d.id), d.body)
  }

  lemma {:induction false} OwnedByMembers(docs: seq<Document<Application>>, email: string)
    ensures forall d :: d in OwnedBy(docs, email) <==> d in docs && d.body.userEmail == email
  {
    if docs != [] {
      OwnedByMembers(docs[..|docs| - 1], email);
      assert docs == docs[..|docs| - 1] + [docs[|docs| - 1]];
    }
  }

  lemma {:induction false} OwnedBySubsequence(docs: seq<Document<Application>>, email: string)
    ensures IsSubsequence(OwnedBy(docs, email), docs)
  {
    if docs != [] {
      var init, last := docs[..|docs| - 1], docs[|docs| - 1];
      OwnedBySubsequence(init, email);
      var r := OwnedBy(docs, email);
      if last.body.userEmail == email {
        assert r[..|r| - 1] == OwnedBy(init, email);
      } else {
        assert r == OwnedBy(init, email);
        SubsequenceExtend(r, init, last);
        assert init + [last] == docs;
      }
    }
  }

  /** A record of another user appended to the collection does not change a listing. */
  lemma OthersDoNotChangeListing(docs: seq<Document<Application>>, d: Document<Application>, email: string)
    requires d.body.userEmail != email
    ensures Query(docs + [d], email) == Query(docs, email)
  {
    assert (docs + [d])[..|docs|] == docs;
  }

  /** A record appended for `email` is listed for `email` while fewer than fifty came before it. */
  lemma AppendedIsListed(docs: seq<Document<Application>>, d: Document<Application>)
    requires |OwnedBy(docs, d.body.userEmail)| < ListLimit
    ensures d in Query(docs + [d], d.body.userEmail)
  {
    var e := d.body.userEmail;
    assert (docs + [d])[..|docs|] == docs;
    assert OwnedBy(docs + [d], e) == OwnedBy(docs, e) + [d];
  }

  lemma {:induction false} OwnedByKeepsOrder(docs: seq<Document<Application>>, email: string, bound: nat)
    requires IdsOrdered(docs, bound)
    ensures IdsOrdered(OwnedBy(docs, email), bound)
  {
    if docs != [] {
      var init := docs[..|docs| - 1];
      OwnedByKeepsOrder(init, email, bound);
      OwnedByMembers(init, email);
      var last := docs[|docs| - 1];
      forall d | d in OwnedBy(init, email) ensures d.id < last.id {
        var i :| 0 <= i < |init| && init[i] == d;
      }
    }
  }

  /** What the listing promises: only the caller's records, at most fifty, each
      an application of the store, with pairwise distinct identifiers. */
  lemma QueryProperties(docs: seq<Document<Application>>, email: string, bound: nat)
    requires IdsOrdered(docs, bound)
    ensures |Query(docs, email)| <= ListLimit
    ensures forall d :: d in Query(docs, email) ==> d in docs && d.body.userEmail == email
    ensures IsSubsequence(Query(docs, email), docs)
    ensures forall i, j :: 0 <= i < j < |Query(docs, email)| ==>
              IdText(Query(docs, email)[i].id) != IdText(Query(docs, email)[j].id)
  {
    var o := OwnedBy(docs, email);
    var q := Query(docs, email);
    OwnedByMembers(docs, email);
    OwnedBySubsequence(docs, email);
    SubsequencePrefix(o, docs, |q|);
    assert q == o[..|q|];
    OwnedByKeepsOrder(docs, email, bound);
    forall i, j | 0 <= i < j < |q| ensures IdText(q[i].id) != IdText(q[j].id) {
      assert o[i].id < o[j].id;
      IdTextDistinct(q[i].id, q[j].id);
    }
  }

  /** Holds the collections `user`, `session`, `application` and `payment`. */
  class Store {
    var users: map<string, User>
    var sessions: seq<Session>
    var applications: seq<Document<Application>>
    var payments: seq<Document<Payment>>
    var nextId: nat

    /** Every identifier handed out is below `nextId`, in increasing order, and each
        user is stored under its own email, which the upsert filter matches on. */
    ghost predicate Valid()
      reads this
    {
      && IdsOrdered(applications, nextId) && IdsOrdered(payments, nextId)
      && forall e :: e in users ==> users[e].email == e
    }

    constructor ()
      ensures Valid()
      ensures users == map[] && sessions == [] && applications == [] && payments == [] && nextId == 0
    {
      users, sessions, applications, payments, nextId := map[], [], [], [], 0;
    }

    /** `login`: create the user if the email is new, then always append a session
        for `token` expiring seven days after `now`. */
    method Login(req: LoginRequest, token: string, now: int) returns (resp: LoginResponse)
      requires Valid()
      modifies this
      ensures Valid()
      ensures users == UpsertUser(old(users), req)
      ensures sessions == old(sessions) + [NewSession(req, token, now)]
      ensures applications == old(applications) && payments == old(payments) && nextId == old(nextId)
      ensures resp == LoginResponse(token, req.email, req.name)
    {
      users := UpsertUser(users, req);
      sessions := sessions + [NewSession(req, token, now)];
      resp := LoginResponse(token, req.email, req.name);
    }

    /** `create_application`: authenticate, validate as an `Application` with its
        default status, then append it. Nothing is written on failure. */
    method CreateApplication(payload: ApplicationCreate, token: string, now: int)
      returns (r: Result<ApplicationCreated>)
      requires Valid()
      modifies this
      ensures Valid()
      ensures users == old(users) && sessions == old(sessions) && payments == old(payments)
      ensures var auth := Authenticate(old(sessions), token, now);
              && (auth.Err? ==> r == Err(auth.error))
              && (auth.Ok? && payload.docType !in DocTypes ==> r == Err(InvalidInput("doc_type")))
              && (r.Ok? <==> auth.Ok? && payload.docType in DocTypes)
              && (r.Ok? ==>
                    && applications == old(applications)
                         + [Document(old(nextId), Application(auth.value, payload.docType, "draft", None, RequestMetadata(payload)))]
                    && nextId == old(nextId) + 1
                    && r.value == ApplicationCreated(IdText(old(nextId)), "draft"))
      ensures r.Err? ==> applications == old(applications) && nextId == old(nextId)
    {
      var auth := Authenticate(sessions, token, now);
      if auth.Err? {
        return Err(auth.error);
      }
      var doc := MakeApplication(auth.value, payload.docType, None, None, Some(RequestMetadata(payload)));
      if doc.Err? {
        return Err(doc.error);
      }
      var id := nextId;
      applications := applications + [Document(id, doc.value)];
      nextId := nextId + 1;
      r := Ok(ApplicationCreated(IdText(id), doc.value.status));
    }

    /** `list_applications`: authenticate, query the caller's applications, and give
        each its identifier as a string. */
    method ListApplications(token: string, now: int) returns (r: Result<seq<ListedApplication>>)
      requires Valid()
      ensures var auth := Authenticate(sessions, token, now);
              && (auth.Err? ==> r == Err(auth.error))
              && (auth.Ok? ==> r.Ok? && |r.value| == |Query(applications, auth.value)|
                               && forall i :: 0 <= i < |r.value| ==> r.value[i] == Render(Query(applications, auth.value)[i]))
      ensures r.Ok? ==> |r.value| <= ListLimit
      ensures r.Ok? ==> forall i :: 0 <= i < |r.value| ==>
                r.value[i].application.userEmail == Authenticate(sessions, token, now).value
      ensures r.Ok? ==> forall i, j :: 0 <= i < j < |r.value| ==> r.value[i].id != r.value[j].id
    {
      var auth := Authenticate(sessions, token, now);
      if auth.Err? {
        return Err(auth.error);
      }
      var items := Query(applications, auth.value);
      QueryProperties(applications, auth.value, nextId);
      var listed: seq<ListedApplication> := [];
      for k := 0 to |items|
        invariant |listed| == k
        invariant forall i :: 0 <= i < k ==> listed[i] == Render(items[i])
      {
        listed := listed + [Render(items[k])];
      }
      r := Ok(listed);
    }

    /** `init_payment`: authenticate, validate as a `Payment` with its defaults,
        then append it and report it initiated. Nothing is written on failure. */
    method InitPayment(payload: PaymentInit, token: string, now: int) returns (r: Result<PaymentCreated>)
      requires Valid()
      modifies this
      ensures Valid()
      ensures users == old(users) && sessions == old(sessions) && applications == old(applications)
      ensures var auth := Authenticate(old(sessions), token, now);
              && (auth.Err? ==> r == Err(auth.error))
              && (auth.Ok? && payload.amount < 0.0 ==> r == Err(InvalidInput("amount")))
              && (r.Ok? <==> auth.Ok? && payload.amount >= 0.0)
              && (r.Ok? ==>
                    && payments == old(payments)
                         + [Document(old(nextId), Payment(auth.value, payload.purpose, payload.amount, "INR",
                                                          "initiated", payload.applicationRef, None))]
                    && nextId == old(nextId) + 1
                    && r.value == PaymentCreated(IdText(old(nextId)), "initiated"))
      ensures r.Err? ==> payments == old(payments) && nextId == old(nextId)
    {
      var auth := Authenticate(sessions, token, now);
      if auth.Err? {
        return Err(auth.error);
      }
      var pay := MakePayment(auth.value, payload.purpose, payload.amount, None, None, payload.applicationRef, None);
      if pay.Err? {
        return Err(pay.error);
      }
      var id := nextId;
      payments := payments + [Document(id, pay.value)];
      nextId := nextId + 1;
      r := Ok(PaymentCreated(IdText(id), "initiated"));
    }
  }
}
