/**
 * The route handlers of the job-board server, over an in-memory store holding the
 * `jobs` and `job_applications` collections. Each request runs to completion before
 * the next one starts.
 */
module JobBox {
  import opened Wrappers
  import opened Json
  import opened ObjectIds
  import opened Tables
  import opened Auth
  import opened Enrichment

  /** What a handler sends back. */
  datatype Response =
    | Refused(status: int, message: string)        // a status code with `{ message }`
    | Docs(records: Table)                         // an array of documents
    | OneDoc(found: Option<Record>)                // one document, or null
    | Inserted(insertedId: ObjectId)               // an `insertOne` result
    | Updated(matchedCount: nat, modifiedCount: nat) // an `updateOne` result
    | Fault                                        // the handler throws; it sends nothing

  /** `if (email)` on the query parameter. */
  predicate NonEmpty(email: Option<string>) {
    email.Some? && email.value != ""
  }

  /** The filter `GET /jobs` builds: `{ hr_email: email }` when email is truthy, else `{}`. */
  function JobsQuery(email: Option<string>): (q: Query)
    ensures q.All? <==> !NonEmpty(email)
    ensures q.Eq? ==> q == Eq("hr_email", Str(email.value))
  {
    if NonEmpty(email) then Eq("hr_email", Str(email.value)) else All
  }

  /** `req.query.email` as a value to compare with `===`. */
  function QueryArg(email: Option<string>): Option<Value> {
    if email.Some? then Some(Str(email.value)) else None
  }

  /** `req.query.email` inside a filter: undefined is sent to the store as null. */
  function FilterValue(email: Option<string>): Value {
    if email.Some? then Str(email.value) else Null
  }

  /** The filter `{ applicant_email: email }`. */
  function ApplicantQuery(email: Option<string>): Query {
    Eq("applicant_email", FilterValue(email))
  }

  /**
   * The answer to `GET /job-application`: the gate, then the check that the caller's
   * email is the queried one, then the caller's applications joined with their jobs.
   */
  function Listing(jobs: Table, apps: Table, parse: Value -> Option<ObjectId>,
                   verify: string -> Verified, cookies: map<string, string>,
                   email: Option<string>): Response
  {
    match Gate(cookies, verify)
    case Deny(status, message) => Refused(status, message)
    case Admit(user) =>
      if Get(user, "email") != QueryArg(email) then Refused(403, "Forbidden access")
      else
        var selected := Find(apps, ApplicantQuery(email));
        if Faulty(jobs, parse, selected) then Fault
        else Docs(EnrichedList(jobs, parse, selected))
  }

  /** Without a token, or with one that fails verification, nothing is listed and the store is not consulted. */
  lemma ListingRefusesUnverifiedCallers(jobs: Table, apps: Table, parse: Value -> Option<ObjectId>,
                                       verify: string -> Verified, cookies: map<string, string>,
                                       email: Option<string>)
    ensures !HasToken(cookies) ==>
      Listing(jobs, apps, parse, verify, cookies, email) == Refused(401, "Unauthorized access")
    ensures HasToken(cookies) && verify(cookies["token"]).Err? ==>
      Listing(jobs, apps, parse, verify, cookies, email) == Refused(403, "Forbidden access")
  {
  }

  /** A verified caller asking for another email's applications gets 403, whatever the store holds. */
  lemma ListingRefusesOtherEmails(jobs: Table, apps: Table, parse: Value -> Option<ObjectId>,
                                 verify: string -> Verified, cookies: map<string, string>,
                                 email: Option<string>)
    requires HasToken(cookies) && verify(cookies["token"]).Ok?
    requires Get(verify(cookies["token"]).claims, "email") != QueryArg(email)
    ensures Listing(jobs, apps, parse, verify, cookies, email) == Refused(403, "Forbidden access")
  {
  }

  /** A listing is only ever returned to a verified caller whose email claim is the queried email. */
  lemma ListingAdmitsOnlyTheOwner(jobs: Table, apps: Table, parse: Value -> Option<ObjectId>,
                                  verify: string -> Verified, cookies: map<string, string>,
                                  email: Option<string>, rs: Table)
    requires Listing(jobs, apps, parse, verify, cookies, email) == Docs(rs)
    ensures HasToken(cookies) && verify(cookies["token"]).Ok?
    ensures Get(verify(cookies["token"]).claims, "email") == QueryArg(email)
    ensures rs == EnrichedList(jobs, parse, Find(apps, ApplicantQuery(email)))
  {
  }

  /**
   * A successful listing has one entry per selected application, in store order,
   * each still carrying the queried `applicant_email`.
   */
  lemma ListingKeepsSelection(jobs: Table, apps: Table, parse: Value -> Option<ObjectId>, email: Option<string>)
    ensures var selected := Find(apps, ApplicantQuery(email));
      var rs := EnrichedList(jobs, parse, selected);
      |rs| == |selected| &&
      (forall k :: 0 <= k < |rs| ==> rs[k].id == selected[k].id) &&
      (forall k :: 0 <= k < |rs| ==> Get(rs[k].doc, "applicant_email").GetOr(Null) == FilterValue(email))
  {
    var selected := Find(apps, ApplicantQuery(email));
    var rs := EnrichedList(jobs, parse, selected);
    forall k | 0 <= k < |rs|
      ensures rs[k].id == selected[k].id
      ensures Get(rs[k].doc, "applicant_email").GetOr(Null) == FilterValue(email)
    {
      EnrichedListFields(jobs, parse, selected, k);
      assert "applicant_email" !in DisplayFields;
      assert selected[k] in selected;
    }
  }

  /** No application with the queried `applicant_email` is missing from a successful listing. */
  lemma ListingMissesNone(jobs: Table, apps: Table, parse: Value -> Option<ObjectId>, email: Option<string>, a: Record)
    requires a in apps && Matches(a.doc, ApplicantQuery(email))
    ensures exists k :: (0 <= k < |Find(apps, ApplicantQuery(email))| &&
                         EnrichedList(jobs, parse, Find(apps, ApplicantQuery(email)))[k].id == a.id)
  {
    var selected := Find(apps, ApplicantQuery(email));
    assert a in selected;
    var k :| 0 <= k < |selected| && selected[k] == a;
    assert EnrichedList(jobs, parse, selected)[k] == EnrichedOne(jobs, parse, a);
  }

  /** The job whose counter a submission bumps: the one its `job_id` converts to, if stored. */
  function CountTarget(jobs: Table, parse: Value -> Option<ObjectId>, body: Doc): Option<nat> {
    Target(jobs, ToObjectId(parse, Get(body, "job_id")))
  }

  /** `data.status` inside `$set`: undefined is sent to the store as null. */
  function StatusOf(body: Doc): Value {
    Get(body, "status").GetOr(Null)
  }

  /**
   * The server's store. `parseId` stands for the `ObjectId` constructor's parsing
   * and `verify` for the token verifier with the server's secret.
   */
  class Store {
    var jobs: Table
    var applications: Table
    const parseId: Value -> Option<ObjectId>
    const verify: string -> Verified

    ghost predicate Valid()
      reads this
    {
      UniqueIds(jobs) && UniqueIds(applications)
    }

    constructor (parseId: Value -> Option<ObjectId>, verify: string -> Verified)
      ensures Valid() && jobs == [] && applications == []
      ensures this.parseId == parseId && this.verify == verify
    {
      this.parseId := parseId;
      this.verify := verify;
      jobs := [];
      applications := [];
    }

    /** `GET /jobs`: every job, or exactly those whose `hr_email` is the queried email. */
    function Jobs(email: Option<string>): (r: Response)
      reads this
      ensures r.Docs?
      ensures !NonEmpty(email) ==> r.records == jobs
      ensures NonEmpty(email) ==> forall x :: x in r.records <==>
        x in jobs && Get(x.doc, "hr_email") == Some(Str(email.value))
    {
      Docs(Find(jobs, JobsQuery(email)))
    }

    /** `GET /jobs/:id`: the job with that id or null; an id the constructor rejects makes it throw. */
    function JobById(id: string): (r: Response)
      reads this
      ensures r == Fault <==> ToObjectId(parseId, Some(Str(id))).Invalid?
      ensures r != Fault ==> r.OneDoc?
      ensures r.OneDoc? && r.found.Some? ==>
        r.found.value in jobs && ToObjectId(parseId, Some(Str(id))) == Parsed(r.found.value.id)
      ensures r.OneDoc? && r.found.None? ==>
        forall x :: x in jobs ==> ToObjectId(parseId, Some(Str(id))) != Parsed(x.id)
    {
      var ref := ToObjectId(parseId, Some(Str(id)));
      if ref.Invalid? then Fault
      else
        match Target(jobs, ref)
        case Some(i) => OneDoc(Some(jobs[i]))
        case None => OneDoc(None)
    }

    /** `POST /jobs`: the body is stored as it is, under the id the store assigns. */
    method CreateJob(body: Doc, newId: ObjectId) returns (r: Response)
      requires Valid() && newId !in Ids(jobs)
      modifies this
      ensures Valid()
      ensures jobs == old(jobs) + [Record(newId, body)] && applications == old(applications)
      ensures r == Inserted(newId)
    {
      jobs := Insert(jobs, newId, body);
      r := Inserted(newId);
    }

    /** `GET /job-application`, behind the gate. */
    method ApplicationsOfApplicant(cookies: map<string, string>, email: Option<string>) returns (r: Response)
      ensures r == Listing(jobs, applications, parseId, verify, cookies, email)
    {
      var decision := Gate(cookies, verify);
      if decision.Deny? {
        return Refused(decision.status, decision.message);
      }
      var user := decision.user;
      if Get(user, "email") != QueryArg(email) {
        return Refused(403, "Forbidden access");
      }
      var result := Find(applications, ApplicantQuery(email));
      r := Aggregate(result);
    }

    /** The loop that copies each application's job fields onto it. */
    method Aggregate(result: Table) returns (r: Response)
      ensures r == if Faulty(jobs, parseId, result) then Fault else Docs(EnrichedList(jobs, parseId, result))
    {
      var listed := result;
      var i := 0;
      while i < |listed|
        invariant 0 <= i <= |result| && |listed| == |result|
        invariant forall k :: 0 <= k < i ==> listed[k] == EnrichedOne(jobs, parseId, result[k])
        invariant forall k :: i <= k < |result| ==> listed[k] == result[k]
        invariant forall k :: 0 <= k < i ==> !Referenced(jobs, parseId, result[k].doc).Unparsable?
      {
        var ok, application := EnrichApplication(listed[i]);
        if !ok {
          return Fault;
        }
        listed := listed[i := application];
        i := i + 1;
      }
      assert listed == EnrichedList(jobs, parseId, result);
      r := Docs(listed);
    }

    /**
     * One iteration: look up the application's job and, when it exists, copy its
     * display fields. `ok` is false when `new ObjectId(application.job_id)` throws.
     */
    method EnrichApplication(application: Record) returns (ok: bool, enriched: Record)
      ensures ok <==> !Referenced(jobs, parseId, application.doc).Unparsable?
      ensures ok ==> enriched == EnrichedOne(jobs, parseId, application)
    {
      var queryId := ToObjectId(parseId, Get(application.doc, "job_id"));
      if queryId.Invalid? {
        return false, application;
      }
      var job := Target(jobs, queryId);
      enriched := application;
      if job.Some? {
        enriched := enriched.(doc := Enrich(enriched.doc, jobs[job.value].doc));
      }
      ok := true;
    }

    /** `GET /job-application/jobs/:job_id`: the applications whose raw `job_id` is the path parameter. */
    function ApplicationsOfJob(jobId: string): (r: Response)
      reads this
      ensures r.Docs?
      ensures forall x :: x in r.records <==> x in applications && Get(x.doc, "job_id") == Some(Str(jobId))
    {
      Docs(Find(applications, Eq("job_id", Str(jobId))))
    }

    /**
     * `POST /job-applications`: the application is stored first; then the referenced
     * job's `applicationsCount` is rewritten. When there is no such job the handler
     * throws with the application already stored and no job changed.
     */
    method SubmitApplication(body: Doc, newId: ObjectId) returns (r: Response)
      requires Valid() && newId !in Ids(applications)
      modifies this
      ensures Valid()
      ensures applications == old(applications) + [Record(newId, body)]
      ensures CountTarget(old(jobs), parseId, body).None? ==> jobs == old(jobs) && r == Fault
      ensures CountTarget(old(jobs), parseId, body).Some? ==>
        var i := CountTarget(old(jobs), parseId, body).value;
        jobs == SetField(old(jobs), i, "applicationsCount", NextCount(Get(old(jobs)[i].doc, "applicationsCount")))
        && r == Inserted(newId)
    {
      applications := Insert(applications, newId, body);
      var query := ToObjectId(parseId, Get(body, "job_id"));
      if query.Invalid? {
        return Fault;
      }
      var job := Target(jobs, query);
      if job.None? {
        return Fault;
      }
      var i := job.value;
      var newCount := NextCount(Get(jobs[i].doc, "applicationsCount"));
      jobs := SetField(jobs, i, "applicationsCount", newCount);
      r := Inserted(newId);
    }

    /** `PATCH /job-applications/:id`: overwrite the `status` of one application. */
    method PatchStatus(id: string, body: Doc) returns (r: Response)
      requires Valid()
      modifies this
      ensures Valid() && jobs == old(jobs)
      ensures ToObjectId(parseId, Some(Str(id))).Invalid? ==>
        r == Fault && applications == old(applications)
      ensures !ToObjectId(parseId, Some(Str(id))).Invalid? &&
              Target(old(applications), ToObjectId(parseId, Some(Str(id)))).None? ==>
        r == Updated(0, 0) && applications == old(applications)
      ensures Target(old(applications), ToObjectId(parseId, Some(Str(id)))).Some? ==>
        var i := Target(old(applications), ToObjectId(parseId, Some(Str(id)))).value;
        applications == SetField(old(applications), i, "status", StatusOf(body)) &&
        r == Updated(1, if Get(old(applications)[i].doc, "status") == Some(StatusOf(body)) then 0 else 1)
    {
      var filter := ToObjectId(parseId, Some(Str(id)));
      if filter.Invalid? {
        return Fault;
      }
      var found := Target(applications, filter);
      if found.None? {
        return Updated(0, 0);
      }
      var i := found.value;
      var same := Get(applications[i].doc, "status") == Some(StatusOf(body));
      applications := SetField(applications, i, "status", StatusOf(body));
      r := Updated(1, if same then 0 else 1);
    }
  }
}
