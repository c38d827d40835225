/**
 * The read-time join of `GET /job-application`: each listed application gets the
 * display fields of the job its `job_id` refers to. Nothing is written back; the
 * fields exist only in the response.
 */
module Enrichment {
  import opened Wrappers
  import opened Json
  import opened ObjectIds
  import opened Tables

  /** The fields copied from a job onto each of its applications, in the order they are set. */
  const DisplayFields: seq<string> := ["title", "location", "company", "applicationDeadline", "company_logo"]

  /**
   * `application.f = job.f`. When the job lacks `f` the assignment stores `undefined`,
   * which the JSON response omits, so the key is dropped.
   */
  function CopyField(app: Doc, job: Doc, f: string): (r: Doc)
    ensures Get(r, f) == Get(job, f)
    ensures forall g :: g != f ==> Get(r, g) == Get(app, g)
  {
    if f in job then app[f := job[f]] else app - {f}
  }

  /** The assignments for `fields`, one after another. */
  function CopyFields(app: Doc, job: Doc, fields: seq<string>): (r: Doc)
    ensures forall f :: f in fields ==> Get(r, f) == Get(job, f)
    ensures forall f :: f !in fields ==> Get(r, f) == Get(app, f)
    decreases |fields|
  {
    if fields == [] then app
    else CopyFields(CopyField(app, job, fields[0]), job, fields[1..])
  }

  /** One application after the five assignments from its job. */
  function Enrich(app: Doc, job: Doc): (r: Doc)
    ensures forall f :: f in DisplayFields ==> Get(r, f) == Get(job, f)
    ensures forall f :: f !in DisplayFields ==> Get(r, f) == Get(app, f)
  {
    CopyFields(app, job, DisplayFields)
  }

  /** What `findOne({ _id: new ObjectId(application.job_id) })` gives. */
  datatype Lookup = Found(job: Doc) | Missing | Unparsable

  function Referenced(jobs: Table, parse: Value -> Option<ObjectId>, app: Doc): Lookup {
    var ref := ToObjectId(parse, Get(app, "job_id"));
    if ref.Invalid? then Unparsable
    else
      match Target(jobs, ref)
      case Some(i) => Found(jobs[i].doc)
      case None => Missing
  }

  /** The lookup finds the job the application refers to, as it is stored now, or reports it absent. */
  lemma ReferencedIsCurrentJob(jobs: Table, parse: Value -> Option<ObjectId>, app: Doc)
    ensures Referenced(jobs, parse, app).Unparsable? <==>
      ToObjectId(parse, Get(app, "job_id")).Invalid?
    ensures Referenced(jobs, parse, app).Found? ==>
      exists i :: 0 <= i < |jobs| && jobs[i].doc == Referenced(jobs, parse, app).job &&
        ToObjectId(parse, Get(app, "job_id")) == Parsed(jobs[i].id)
    ensures Referenced(jobs, parse, app).Missing? ==>
      forall i :: 0 <= i < |jobs| ==> ToObjectId(parse, Get(app, "job_id")) != Parsed(jobs[i].id)
  {
    var ref := ToObjectId(parse, Get(app, "job_id"));
    match Target(jobs, ref)
    case Some(i) =>
      if !ref.Invalid? {
        assert jobs[i].doc == Referenced(jobs, parse, app).job;
      }
    case None =>
  }

  /** One application as listed. */
  function EnrichedOne(jobs: Table, parse: Value -> Option<ObjectId>, rec: Record): (r: Record)
    ensures r.id == rec.id
  {
    match Referenced(jobs, parse, rec.doc)
    case Found(job) => rec.(doc := Enrich(rec.doc, job))
    case _ => rec
  }

  /** The listed applications, one per selected application, in the same order. */
  function EnrichedList(jobs: Table, parse: Value -> Option<ObjectId>, apps: Table): (r: Table)
    ensures |r| == |apps|
  {
    seq(|apps|, k requires 0 <= k < |apps| => EnrichedOne(jobs, parse, apps[k]))
  }

  /** Some selected application has a `job_id` that `new ObjectId` rejects, so the loop throws. */
  predicate Faulty(jobs: Table, parse: Value -> Option<ObjectId>, apps: Table) {
    exists k :: 0 <= k < |apps| && Referenced(jobs, parse, apps[k].doc).Unparsable?
  }

  /**
   * Enrichment keeps the list's length, order and ids; an application whose job exists
   * gets that job's five display fields and keeps every other field; one whose job does
   * not exist is listed unchanged.
   */
  lemma EnrichedListFields(jobs: Table, parse: Value -> Option<ObjectId>, apps: Table, k: nat)
    requires k < |apps|
    ensures |EnrichedList(jobs, parse, apps)| == |apps|
    ensures EnrichedList(jobs, parse, apps)[k].id == apps[k].id
    ensures Referenced(jobs, parse, apps[k].doc).Found? ==>
      var job := Referenced(jobs, parse, apps[k].doc).job;
      var out := EnrichedList(jobs, parse, apps)[k].doc;
      (forall f :: f in DisplayFields ==> Get(out, f) == Get(job, f)) &&
      (forall f :: f !in DisplayFields ==> Get(out, f) == Get(apps[k].doc, f))
    ensures !Referenced(jobs, parse, apps[k].doc).Found? ==> EnrichedList(jobs, parse, apps)[k] == apps[k]
  {
  }
}
