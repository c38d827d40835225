# job-box-server: a Dafny model of the request handlers

This project models the request-handling core of a small job-board backend (`index.js`):
- the token gate `verifyToken`;
- the job routes `GET /jobs`, `GET /jobs/:id` and `POST /jobs`;
- the application routes `GET /job-application` (gated, and joined with each application's job), `GET /job-application/jobs/:job_id`, `POST /job-applications` and `PATCH /job-applications/:id`.

The MongoDB collections `jobs` and `job_applications` become two tables of records held by a `Store` class. A table is a sequence in natural (insertion) order, and every record has a distinct `_id`. Each request runs atomically, one after another.

Modules:
- `Wrappers`: `Option`.
- `Json`: the document values (`Str`, `Num`, `Bool`, `Null`). A document is a map from field names to values; a missing key is JavaScript's `undefined`. The module also holds JavaScript truthiness and `v + 1`, which the `applicationsCount` update depends on.
- `ObjectIds`: `new ObjectId(x)`. It parses `x` with an abstract partial parser. It throws when the parser rejects `x`. It draws a fresh identifier, which no stored document has, when `x` is undefined or null.
- `Tables`: `find(filter)`, `findOne({_id})`, `insertOne` and a one-field `$set`. A filter `{ f: v }` treats a missing field as null, as MongoDB does.
- `Auth`: the gate. The JSON Web Token check (RFC 7519) is an oracle that returns `Ok(claims)` or `Err`.
- `Enrichment`: the read-time join that copies `title`, `location`, `company`, `applicationDeadline` and `company_logo` from an application's job onto the listed application.
- `JobBox`: the responses, the `Store` class with one member per route, and the specification of the gated listing.
- `Scenarios`: what a client can conclude from the contracts alone: posting a job and applying to it, filtering jobs by owner, and a listing that shows the job's current title.

Behaviour modelled as the code has it:
- `GET /jobs` filters only when `email` is truthy. `?email=` (the empty string) lists every job.
- In `GET /job-application`, `req.user.email !== req.query.email` compares the claim and the query parameter as values, so undefined differs from null. When both are undefined the check passes. The filter `{ applicant_email: undefined }` is then sent as null. It selects the applications that have no `applicant_email`.
- Enrichment assigns `application.f = job.f`. When the job lacks `f`, the response omits `f`, even if the application had it.
- Any selected application whose `job_id` the `ObjectId` constructor rejects makes the whole listing throw.
- `GET /job-application/jobs/:job_id` compares the raw `job_id` string. The listing and the submission convert `job_id` with `new ObjectId` instead.
- `POST /job-applications` stores the application first. It then writes `applicationsCount := old + 1` when the old value is truthy, else `1`. This is JavaScript `+`, so a count stored as a string is concatenated. When the referenced job does not exist (or `job_id` is missing), reading `job.applicationsCount` throws. The application stays stored and no job changes. The response is `Fault`: the handler sends nothing.
- `PATCH` with no `status` in the body writes `status: null`, because the driver sends `undefined` as null. `modifiedCount` is 0 when the value was already there.

Two consequences of following the code:
- The count goes up by exactly one per accepted application only for numeric counts (`Json.NextCountAddsOne`).
- A submission naming a missing job is not rejected up front. The handler throws after the insert, and that is what is modelled.

## Model

| member | source | states |
|---|---|---|
| `Auth.Gate` | index.js:20-35 | no truthy `token` cookie gives 401 "Unauthorized access"; a token the verifier rejects gives 403 "Forbidden access"; otherwise the request proceeds as exactly the verifier's decoded claims |
| `Auth.GateOutcomes` | index.js:22-34 | a refusal is one of those two answers, and the handler runs as `u` exactly when the token is present and verifies to `u` |
| `JobBox.JobsQuery` | index.js:88-92 | the filter is `{}` exactly when the query email is missing or empty, and otherwise `{ hr_email: email }` |
| `JobBox.Store.Jobs` | index.js:86-95 | without an email, all jobs in store order; with email X, a job is listed iff it is stored and its `hr_email` is X |
| `JobBox.Store.JobById` | index.js:96-101 | throws exactly when the id does not convert; otherwise returns a stored job with that id, or null when none has it |
| `JobBox.Store.CreateJob` | index.js:103-107 | the body is appended verbatim under the new id; applications untouched; ids stay distinct |
| `JobBox.Store.ApplicationsOfApplicant` | index.js:110-135 | the response is the gate's refusal, or 403 on an email mismatch, or the caller's applications enriched with their jobs (or a throw on an unconvertible `job_id`) |
| `JobBox.Store.Aggregate` | index.js:121-132 | the in-place loop yields, element by element, the enriched list, or throws if some `job_id` does not convert |
| `JobBox.Store.EnrichApplication` | index.js:122-131 | one iteration throws exactly when `job_id` does not convert, and otherwise leaves the application enriched from its job if that job exists, unchanged if not |
| `JobBox.ListingRefusesUnverifiedCallers` | index.js:22-30 | with no token the listing is 401, with a failing token 403, whatever the store holds |
| `JobBox.ListingRefusesOtherEmails` | index.js:114-116 | a verified caller whose email claim differs from the query email gets 403 and no data |
| `JobBox.ListingAdmitsOnlyTheOwner` | index.js:110-118 | a listing is returned only when the gate admitted the caller and the caller's email claim equals the query email, and it is the enrichment of the applications the filter selects |
| `JobBox.ListingKeepsSelection` | index.js:118-134 | the listing has one entry per application with that `applicant_email`, in store order, each still carrying that email |
| `JobBox.ListingMissesNone` | index.js:112-118 | every stored application with the queried `applicant_email` appears in the listing |
| `JobBox.Store.ApplicationsOfJob` | index.js:137-142 | an application is listed iff it is stored and its raw `job_id` equals the path parameter; nothing changes |
| `JobBox.Store.SubmitApplication` | index.js:144-165 | the application is always appended; if the converted `job_id` names a stored job, only that job's `applicationsCount` is rewritten to the next count, else the handler throws and no job changes |
| `JobBox.Store.PatchStatus` | index.js:167-181 | an unconvertible id throws; no match changes nothing (0 matched); a match overwrites only that application's `status` (1 matched, modified unless equal) |
| `JobBox.Store.constructor` | index.js:59-62 | the store starts with two empty collections |
| `Json.NextCountAddsOne` | index.js:151-156 | for an absent, null, numeric or boolean count, the written count is a number exactly one greater |
| `Json.NextCountOfStringConcatenates` | index.js:152-153 | a non-empty string count has "1" appended, as JavaScript `+` does |
| `ObjectIds.ToObjectId` | index.js:123 | undefined or null draws a fresh id; otherwise the parser's id, or a throw when it rejects the value |
| `Tables.Find` | index.js:118 | a record is returned iff it is stored and matches the filter; `{}` returns the whole collection |
| `Tables.FindIsSublist` | index.js:93 | `find` keeps the collection's natural order |
| `Tables.FindKeepsUniqueIds` | index.js:140 | `find` never returns a document twice |
| `Tables.IndexOf` | index.js:124 | `findOne({_id})` gives the first position holding that id, or none when no record has it |
| `Tables.Target` | index.js:148-149 | a found position holds the converted id; a generated or unconvertible id finds nothing |
| `Tables.SetField` | index.js:170-179 | `$set` of one field changes that field of one record and nothing else, and keeps ids distinct |
| `Tables.Insert` | index.js:146 | `insertOne` appends the document and keeps ids distinct when the new id is fresh |
| `Enrichment.CopyField` | index.js:126 | one assignment gives the field the job's value (or drops it) and leaves every other field alone |
| `Enrichment.CopyFields` | index.js:126-130 | after the assignments, each listed field has the job's value and every other field the application's |
| `Enrichment.Enrich` | index.js:125-131 | the five display fields come from the job; every other field is the application's own |
| `Enrichment.ReferencedIsCurrentJob` | index.js:123-125 | the lookup yields the stored job whose id `job_id` converts to, reports absence only when no stored job has that id, and fails exactly when the conversion throws |
| `Enrichment.EnrichedListFields` | index.js:121-132 | enrichment keeps length, order and ids; an application whose job exists carries its five fields and keeps all others; one without a job is unchanged |
| `Scenarios.JobsByOwnerExample` | index.js:88-93 | jobs owned by A, A, B: filtering by A gives the first two, by B the third, with no email all three |
| `Scenarios.ListingShowsCurrentTitle` | index.js:121-130 | for any title the referenced job holds when the request runs, the listed application shows that title (the join is computed at read time) |

## Left out

- Express wiring, CORS, JSON and cookie parsing, `app.listen` and the liveness route `GET /` (index.js:10-17, 189-194): framework plumbing.
- The MongoDB connection and ping (index.js:38-56): network I/O. The collections are the `Store`'s two tables.
- Signing tokens on `POST /jwt`, the signature check and the one-hour expiry (index.js:65-69, 27): cryptography and wall-clock time. `verify` is an oracle fixed when the store is created.
- Setting and clearing the cookie on `/jwt` and `/logout` (index.js:70-84): response side effects that only echo `{success: true}`.
- Concurrency: handlers do not interleave, so the lost update on `applicationsCount` and the shared implicit global `newCount` are not modelled.
- The exact shapes of `insertOne` and `updateOne` results beyond the inserted id and the matched and modified counts, and `console.log` output.
- The `ObjectId` constructor's parsing rules: abstracted as the `parseId` parser.
- Document values are flat scalars: nested objects, arrays, fractional numbers and `NaN` are not modelled. Numbers are unbounded integers, not IEEE doubles.
- A client-supplied `_id` in a request body: the store always assigns a fresh identifier.
- Query parameters that the query parser turns into arrays or objects: `email` is a string or absent.
- Whether the process survives a thrown handler depends on the Express and Node versions, which are not known. A throw is modelled as `Fault`: the handler sends no response and keeps whatever it had already written.
