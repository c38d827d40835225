/**
 * Client-side uses of the handlers' contracts: what a caller can conclude from
 * them alone about a short sequence of requests.
 */
module Scenarios {
  import opened Wrappers
  import opened Json
  import opened ObjectIds
  import opened Tables
  import opened Auth
  import opened Enrichment
  import opened JobBox

  /** Three jobs posted by A, A and B: filtering by owner yields two and one of them. */
  lemma JobsByOwnerExample(a: Record, b: Record, c: Record)
    requires Get(a.doc, "hr_email") == Some(Str("A")) && Get(b.doc, "hr_email") == Some(Str("A"))
    requires Get(c.doc, "hr_email") == Some(Str("B"))
    ensures Find([a, b, c], JobsQuery(Some("A"))) == [a, b]
    ensures Find([a, b, c], JobsQuery(Some("B"))) == [c]
    ensures Find([a, b, c], JobsQuery(None)) == [a, b, c]
  {
    assert [a, b, c][1..] == [b, c] && [b, c][1..] == [c] && [c][1..] == [];
    assert "A" != "B" by { assert "A"[0] != "B"[0]; }
    assert !Matches(c.doc, Eq("hr_email", Str("A"))) && !Matches(a.doc, Eq("hr_email", Str("B")));
    assert !Matches(b.doc, Eq("hr_email", Str("B")));
    var qa, qb := Eq("hr_email", Str("A")), Eq("hr_email", Str("B"));
    assert Matches(a.doc, qa) && Matches(b.doc, qa) && Matches(c.doc, qb);
    assert Find([], qb) == [] && Find([c], qa) == [];
    assert Find([c], qb) == [c] + Find([], qb);
    assert Find([b, c], qa) == [b] && Find([b, c], qb) == [c];
  }

  /** Post a job and apply to it: the job's count goes from absent to 1 and the application is stored. */
  method PostThenApply()
  {
    var parse := (v: Value) => if v.Str? then Some(ObjectId(v.s)) else None;
    var store := new Store(parse, (t: string) => Err);
    var job := map["title" := Str("Developer"), "hr_email" := Str("hr@example.com")];
    var created := store.CreateJob(job, ObjectId("j1"));
    assert store.jobs == [Record(ObjectId("j1"), job)];
    var app := map["job_id" := Str("j1"), "applicant_email" := Str("ann@example.com")];
    assert Ids(store.applications) == {};
    assert ToObjectId(parse, Get(app, "job_id")) == Parsed(ObjectId("j1"));
    assert CountTarget(store.jobs, parse, app) == Some(0);
    var submitted := store.SubmitApplication(app, ObjectId("a1"));
    assert submitted == Inserted(ObjectId("a1"));
    assert store.applications == [Record(ObjectId("a1"), app)];
    assert Get(store.jobs[0].doc, "applicationsCount") == Some(Num(1));
  }

  /**
   * The listed application shows its job's title as stored at the time of the request,
   * whatever that title is: the join is made at read time, not copied once.
   */
  lemma ListingShowsCurrentTitle(title: string, job: Doc, parse: Value -> Option<ObjectId>,
                                 verify: string -> Verified)
    requires Get(job, "title") == Some(Str(title))
    requires parse(Str("j1")) == Some(ObjectId("j1"))
    requires verify("t1") == Ok(map["email" := Str("ann@example.com")])
    ensures
      var app := Record(ObjectId("a1"), map["job_id" := Str("j1"), "applicant_email" := Str("ann@example.com")]);
      var r := Listing([Record(ObjectId("j1"), job)], [app], parse, verify, map["token" := "t1"], Some("ann@example.com"));
      r.Docs? && |r.records| == 1 && Get(r.records[0].doc, "title") == Some(Str(title))
  {
    var app := Record(ObjectId("a1"), map["job_id" := Str("j1"), "applicant_email" := Str("ann@example.com")]);
    var jobs := [Record(ObjectId("j1"), job)];
    var cookies := map["token" := "t1"];
    assert Referenced(jobs, parse, app.doc) == Found(job) by {
      assert Get(app.doc, "job_id") == Some(Str("j1"));
    }
    assert Listing(jobs, [app], parse, verify, cookies, Some("ann@example.com"))
        == Docs(EnrichedList(jobs, parse, [app])) by {
      assert cookies["token"] == "t1" && |"t1"| == 2;
      assert Gate(cookies, verify) == Admit(map["email" := Str("ann@example.com")]);
      assert Get(app.doc, "applicant_email") == Some(Str("ann@example.com"));
      assert Find([app], ApplicantQuery(Some("ann@example.com"))) == [app];
      assert !Faulty(jobs, parse, [app]);
    }
    EnrichedListFields(jobs, parse, [app], 0);
    assert "title" in DisplayFields;
  }
}
