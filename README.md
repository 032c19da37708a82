# AI Compass assessment engine, in Dafny

AI Compass lets a sponsor create a time-bounded assessment of a company's AI
maturity. The sponsor hands it to a respondent through an invite token and
scores the answers against a benchmark catalog (Pillar → Metric → Question).
This project models the engine's core and proves properties of it.

- **Scoring** (`Scoring`, `Sorting`): weight normalisation, pillar and
  composite scores over the selected metrics, and the maturity band.
- **Selection resolver** (`Qualify`, `GuidedQuestions`, `ModulePicker`): the
  qualification answers recommend pillars; "Continue" expands them into one
  selection per catalog metric; the module picker toggles whole pillars and
  opens the first selected metric.
- **Progress and response store** (`ResponseStore`, `SliderAssessment`):
  - per-question response vectors;
  - the mean score;
  - the `completed` flag set on "Next";
  - the rounded, capped progress percentage sent by autosave;
  - the older slider page's score and note edits.
- **Lifecycle** in both backends:
  - the TypeScript (Hono) server, in `HonoApi` and `AuthCookie`;
  - the Python (FastAPI) server, in `PyModels` and `PyRoutes`.

  Each covers listing, creation, the owner's GET/PATCH, and the invite
  GET/PATCH with their owner and expiry/status guards. For each, the model
  states exactly which fields a partial update writes.
- **Benchmark editor** (`BenchmarkEditor`): id-addressed edits of the draft
  Pillar → Metric tree, plus save and reset.

Shared pieces:

- `Wrappers` (Option/Result);
- `Json`, the untyped request body and the JavaScript coercions the handlers use;
- `Text` (`trim`, `split`);
- `Catalog` (the benchmark tree and its flattening into entries).

**How the model is written.**

- Pure logic is written as functions with lemmas about them.
- A React page or a server that changes state is a class:
  - its fields are the state the source updates;
  - its methods are the handlers;
  - each method is specified by the functions above.
- The server collections are sequences in insertion order, so MongoDB's
  `find_one`/`findOne` returns the first match.
- Clocks, random tokens, fresh ids, the caller's identity and the `inviteToken`
  kept in session storage are parameters.
- Times are integer milliseconds.
- Scores and weights are `real`; the progress percentage is an integer.

## Model

| member | source | states |
|---|---|---|
| Scoring.BandForScore | src/utils/scoring.ts:16-21 | each band holds exactly its score range; 80, 60 and 40 belong to the higher band |
| Scoring.BandMonotone | src/utils/scoring.ts:16-21 | a higher score never lands in a lower band |
| Scoring.NormalizeWeights | src/utils/scoring.ts:23-26 | same length; every output is 0 when the total is 0, otherwise each output is its weight divided by the total |
| Scoring.NormalizedSumIsOne | src/utils/scoring.ts:23-26 | normalised weights sum to 1 whenever the total is not 0 |
| Scoring.NormalizedNonNegative | src/utils/scoring.ts:23-26 | normalising non-negative weights keeps every weight non-negative |
| Scoring.NormalizedMeanBounds | src/utils/scoring.ts:50-54 | a weighted sum with normalised non-negative weights of values in [0, hi] stays in [0, hi] |
| Scoring.DotZeroWeights | src/utils/scoring.ts:51-54 | the `reduce` weighted sum over all-zero weights is 0 |
| Scoring.SelectedMetricIds | src/utils/scoring.ts:33-35 | exactly the metric ids of the selected entries: each selected entry's id is in the set, and each id in the set comes from a selected entry |
| Scoring.ScoreMap | src/utils/scoring.ts:37-39 | the map's keys are exactly the scored metric ids and its values come from the score entries |
| Scoring.ScoreMapLastWins | src/utils/scoring.ts:37-39 | a metric scored several times maps to its last entry's score |
| Scoring.SelectedMetrics | src/utils/scoring.ts:42-44 | the filter keeps exactly the pillar's metrics whose id is selected |
| Scoring.Positive | src/utils/scoring.ts:63-65 | exactly the pillars scoring above 0, as a subsequence in catalog order |
| Scoring.PillarWeight | src/utils/scoring.ts:69-72 | an unknown pillar id weighs 1; otherwise the weight is that of the first pillar with the id, wherever it stands in the catalog |
| Scoring.PillarWeightNonNegative | src/utils/scoring.ts:69-72 | a catalog with non-negative pillar weights gives every lookup a non-negative weight |
| Scoring.CalculateScores | src/utils/scoring.ts:28-85 | a catalog pillar score is listed exactly when it is above 0; the list is those scores in catalog order; the composite is the weighted mean of the listed pillars; the band is the composite's band |
| Scoring.PillarValue | src/utils/scoring.ts:41-60 | a pillar with no selected metric scores 0; a pillar whose single metric is selected with a non-zero weight scores 20 times that metric's score, or 0 when it is unscored |
| Scoring.SingleWeightMean | src/utils/scoring.ts:50-54 | with one value and a non-zero weight, the normalised weighted sum is that value |
| Scoring.AllPillarScores | src/utils/scoring.ts:41-61 | one entry per catalog pillar, in catalog order, carrying its id, its name and its pillar score |
| Scoring.Composite | src/utils/scoring.ts:67-78 | the composite over no listed pillar is 0 |
| Scoring.CompositeOfOne | src/utils/scoring.ts:67-78 | a single listed pillar of non-zero weight is itself the composite, whatever its weight |
| Scoring.ZeroWeightPillarScoresZero | src/utils/scoring.ts:50-60 | a pillar whose selected metrics weigh 0 in total scores 0, whatever its scores |
| Scoring.MissingScoreCountsAsZero | src/utils/scoring.ts:52 | an unscored selected metric counts exactly as a recorded 0 would (it is not skipped) |
| Scoring.PillarScoreBounds | src/utils/scoring.ts:46-60 | non-negative weights and scores in [0, 5] give a pillar score in [0, 100] |
| Scoring.CompositeBounds | src/utils/scoring.ts:63-78 | non-negative weights and scores in [0, 5] give a composite in [0, 100] |
| Scoring.NothingEvaluatedIsEmerging | src/utils/scoring.ts:63-83 | when no pillar scores above 0 the composite is 0, no pillar is listed and the band is Emerging |
| Scoring.NoSelectionIsEmerging | src/utils/scoring.ts:33-48 | with nothing selected the composite is 0 and the band is Emerging |
| Scoring.DotZeroValues | src/utils/scoring.ts:51-54 | the `reduce` weighted sum of all-zero values is 0, whatever the weights |
| Scoring.NoScoresIsEmerging | src/utils/scoring.ts:41-83 | with no score recorded, whatever is selected, no pillar is listed, the composite is 0 and the band is Emerging |
| Scoring.ZeroPillarWeightsGiveZeroComposite | src/utils/scoring.ts:67-78 | when every pillar weighs 0 the composite is 0: there is no equal-split fallback |
| Scoring.CompositeOfZeroWeights | src/utils/scoring.ts:67-78 | a composite over pillars that all weigh 0 is 0 |
| Scoring.ZeroWeightEverywhere | src/utils/scoring.ts:69-72 | with all pillar weights 0, looking up any catalog pillar's weight gives 0 |
| Scoring.WeightedPillarExample | src/utils/scoring.ts:50-60 | metric weights 1 and 3 with scores 3 and 5 give the pillar score 90 |
| Scoring.MissingScoreExample | src/utils/scoring.ts:50-60 | the same pillar with the second metric unscored scores 15 |
| Sorting.SortDesc | backend/src/index.ts:117-121 | the result is in descending key order and is a permutation of the input |
| Sorting.Insert | backend/src/index.ts:117-121 | inserting into a descending list keeps it descending and adds exactly the one element |
| Text.TrimIsSlice | backend/src/index.ts:27 | `trim()` returns a contiguous slice of its input |
| Text.TrimCutsOnlySpace | backend/src/index.ts:130-133 | everything `trim()` removes, before and after the kept slice, is white space |
| Text.TrimEmptyIff | backend/src/index.ts:130 | a string trims to empty exactly when it is all white space |
| Text.TrimNoop | backend/src/index.ts:27 | a string with no white space at either end trims to itself |
| Text.Trim | backend/src/index.ts:130 | the result is never longer than the input, and a non-empty result neither starts nor ends with white space |
| Text.Split | backend/src/index.ts:27 | the pieces contain no separator and joined with it give back the input |
| Text.SplitFirst | backend/src/index.ts:29 | the first piece is the text before the first separator, and the rest split the remainder |
| Catalog.EntriesMembers | frontend/src/routes/Qualify.tsx:34-40 | the pillar-major flattening lists every catalog metric, once per position, and nothing else |
| Catalog.EntriesAppend | frontend/src/routes/Qualify.tsx:34-40 | flattening a concatenation concatenates the flattenings |
| AuthCookie.CookieParts | backend/src/index.ts:27 | one trimmed part per `;`-separated piece of the header |
| AuthCookie.FirstPrefixed | backend/src/index.ts:28 | the first part starting with `auth=`, or -1 exactly when none does |
| AuthCookie.GetAuthCookie | backend/src/index.ts:25-30 | a missing or empty header gives null |
| AuthCookie.GetAuthCookieValue | backend/src/index.ts:25-30 | a value is found iff some trimmed part starts with `auth=`; it is the text after the first such part's `auth=` up to the next `=` or the end |
| AuthCookie.SetThenGet | backend/src/index.ts:25-34 | the pair kept from `setAuthCookie(token)` reads back as `token` for a token without `;`, `=` or trailing white space |
| AuthCookie.GetAfterOtherCookie | backend/src/index.ts:25-30 | the auth value is still found after another cookie in the same header |
| AuthCookie.Authenticate | backend/src/index.ts:40-50 | a caller is identified exactly when the cookie holds a non-empty token the session verifier knows, and is that token's subject |
| AuthCookie.ClearedCookieIsAnonymous | backend/src/index.ts:36-42 | the pair kept from `clearAuthCookie()` reads as the empty value and identifies no one |
| AuthCookie.AllowOrigin | backend/src/index.ts:12-17 | the origin is echoed exactly when it is non-empty and equals the configured origin (any origin when none is configured) |
| AuthCookie.SetAuthCookie | backend/src/index.ts:32-34 | the header starts with `auth=<token>;` and ends with the one-week `Max-Age=604800` |
| AuthCookie.ClearAuthCookie | backend/src/index.ts:36-38 | the header starts with the empty pair `auth=;` and ends with `Max-Age=0` |
| HonoApi.MakeDate | backend/src/index.ts:138 | a time value in the `Date` range is kept, anything else is an Invalid Date |
| HonoApi.ExpiryAfterDays | backend/src/index.ts:138 | an in-range expiry `days` ahead is already past exactly when `days` is negative |
| HonoApi.NumberOfString | backend/src/index.ts:131 | `Number` of an integer, or of its decimal string, gives that integer back |
| HonoApi.SetFields | backend/src/index.ts:197-199 | `$set` replaces exactly the named fields, keeps every other field and stamps `updatedAt` |
| HonoApi.StringIfTruthy | backend/src/index.ts:246-248 | a value is produced exactly when the field is truthy, and it is `String(field)` |
| HonoApi.IfTruthy | backend/src/index.ts:256-259 | the field itself when truthy, else nothing |
| HonoApi.IfString | backend/src/index.ts:185-193 | a value exactly when the field is a string, and then that string |
| HonoApi.IndexOfId | backend/src/index.ts:160-162 | the first record with the id, or -1 exactly when none has it |
| HonoApi.IndexOfToken | backend/src/index.ts:205-207 | the first record with the token, or -1 exactly when none has it |
| HonoApi.InviteGuard | backend/src/index.ts:208-212 | checks in order: missing 404, not active 403 "Assessment cancelled.", expired 403 "Invite expired."; passes exactly when found, active and not expired |
| HonoApi.OwnerGuard | backend/src/index.ts:163-166 | 404 before 403; passes exactly when found and owned by the caller |
| HonoApi.OwnedBy | backend/src/index.ts:117-119 | exactly the caller's records |
| HonoApi.Listing | backend/src/index.ts:117-121 | a rearrangement of exactly the caller's records, newest created first |
| HonoApi.Snapshot | backend/src/index.ts:213-225 | the invite reply copies the id, status, company fields, profile and answer data of the record |
| HonoApi.ListingSpec | backend/src/index.ts:111-123 | the list holds the caller's records, as often as stored, and nothing else, newest created first |
| HonoApi.ExpiryIsStrict | backend/src/index.ts:210 | an invite is open at the millisecond it expires and closed one millisecond later |
| HonoApi.NewAssessmentSpec | backend/src/index.ts:129-149 | an empty trimmed company name gives 400; otherwise the record is active, created and updated now, owned by the caller, with the trimmed company name, industry and size, no profile, no selections, scores, responses or progress, and a 30-day default expiry |
| HonoApi.NewAssessment | backend/src/index.ts:129-149 | the only refusal is 400 "Company name required."; a new record carries the given id, owner and token, a non-empty company name, status "active" and no profile |
| HonoApi.NewAssessmentExpiry | backend/src/index.ts:131-138 | the expiry is `Number(inviteDays ?? 30)` days after now |
| HonoApi.FreshInviteUsable | backend/src/index.ts:131-138 | a new invite is usable at once exactly when `inviteDays` is not negative |
| HonoApi.RespondentOnlyCompletes | backend/src/index.ts:245 | the respondent can only move an active record to "completed", and does so exactly when the body says "completed" |
| HonoApi.InviteUpdatesSpec | backend/src/index.ts:241-263 | status becomes "completed" exactly when asked, else is kept; each company field takes `String(field)` when truthy and is kept otherwise; the profile is kept when absent, else rebuilt with each of name, title and email taken from a string or "" when missing; selections, scores, responses and progress are each replaced wholesale when truthy and kept otherwise; `updatedAt` is now; identity, owner, token and expiry are kept |
| HonoApi.InviteUpdates | backend/src/index.ts:241-259 | the status can only become "completed", the expiry is never written, and `updatedAt` is now |
| HonoApi.CompletedInviteIsClosed | backend/src/index.ts:209-245 | after the respondent completes, every later invite request gets 403 "Assessment cancelled." |
| HonoApi.OwnerUpdatesSpec | backend/src/index.ts:184-195 | status and each company field take the body's value exactly when it is a string (an empty one included) and are kept otherwise; a numeric `inviteDays` moves the expiry, otherwise it is kept; `updatedAt` is now; profile, selections, scores, responses, progress, identity, owner, token and creation time are kept |
| HonoApi.OwnerUpdates | backend/src/index.ts:184-195 | status is written exactly when the body's status is a string, the expiry exactly when `inviteDays` is a number; profile and answer data are never written; `updatedAt` is now |
| HonoApi.OwnerCanReopen | backend/src/index.ts:185-209 | an owner's status "active" re-opens a completed invite until it expires |
| HonoApi.BuildOwnerUpdates | backend/src/index.ts:184-195 | the field-by-field construction equals the owner update |
| HonoApi.BuildInviteUpdates | backend/src/index.ts:241-259 | the field-by-field construction equals the respondent update |
| HonoApi.SetInviteAnswers | backend/src/index.ts:256-259 | selections, scores, responses and progress are each set exactly when truthy |
| HonoApi.HonoServer.ListAssessments | backend/src/index.ts:111-123 | 401 without a session; otherwise the caller's records newest first |
| HonoApi.HonoServer.CreateAssessment | backend/src/index.ts:125-154 | 401 or 400 leave the records unchanged; otherwise exactly the new record is appended and its id and token returned |
| HonoApi.HonoServer.GetAssessment | backend/src/index.ts:156-168 | 401 without a session, then 500 "Internal Server Error" for an id that is not 24 hexadecimal digits, then 404, then 403; otherwise the stored record |
| HonoApi.HonoServer.PatchAssessment | backend/src/index.ts:170-201 | 401, then 500 for a malformed id, then 404, then 403, each leaving the records unchanged; otherwise only the addressed record changes, by the owner update |
| HonoApi.HonoServer.GetInvite | backend/src/index.ts:203-227 | the guard's error, or the snapshot without owner, token or timestamps |
| HonoApi.HonoServer.PatchInvite | backend/src/index.ts:229-266 | on any refusal nothing changes; otherwise only the record found by token changes, by the respondent update |
| PyModels.KeyNameInjective | backend/app/db/models.py:31-41 | distinct fields have distinct dictionary keys, so a map over fields is a dictionary over their names |
| PyModels.OptStr | backend/app/db/models.py:28-35 | an `Optional[str]` is stored as `None` exactly when absent, and as its string otherwise |
| PyModels.AssessmentDocument | backend/app/db/models.py:21-41 | exactly the nine fields; status "active"; owner, company, token and expiry copied; both timestamps now; absent optional fields stored as `None` |
| PyModels.ExecProfileDocument | backend/app/db/models.py:44-51 | exactly name, title and email, copied verbatim |
| PyModels.ProgressDocument | backend/app/db/models.py:54-67 | exactly the four fields, copied; `updated_at` is the given time, or now when none is given |
| PyModels.SetValueEffect | backend/app/db/models.py:74-76 | `set(k, None)` leaves the payload unchanged; any other value overwrites `k`; no other key moves |
| PyModels.SetValue | backend/app/db/models.py:74-76 | `None` leaves the payload as it was; any other value is stored under the key |
| PyModels.SetAll | backend/app/db/models.py:74-76 | a run of `set`s never removes a key, and an empty run leaves the payload as it was |
| PyModels.SetLaterWins | backend/app/db/models.py:74-76 | a later non-`None` `set` of the same key wins over an earlier one |
| PyModels.SetsCommute | backend/app/db/models.py:74-76 | `set`s on different keys commute |
| PyModels.SetAllUntouched | backend/app/db/models.py:74-76 | a run of `set`s leaves a key no call names as it was |
| PyModels.SetAllAt | backend/app/db/models.py:74-76 | with distinct keys, a `set` with a value leaves exactly that value, and a `None` `set` leaves the key as it was |
| PyModels.SetAllKeys | backend/app/db/models.py:74-76 | a run of `set`s adds only keys that some call names |
| PyModels.Stamped | backend/app/db/models.py:78-80 | the payload plus `updated_at` = now, every other key unchanged |
| PyModels.ApplySet | backend/app/db/models.py:78-80 | `$set` replaces exactly the named top-level fields and keeps every other field |
| PyModels.StampedUpdateEffect | backend/app/db/models.py:78-80 | fields never `set` keep their stored values, `set` ones take the payload's, and `updated_at` is now |
| PyModels.AssessmentUpdate.Set | backend/app/db/models.py:74-76 | the payload becomes the `set` of the key, which the lemmas above characterise |
| PyModels.AssessmentUpdate.ToUpdate | backend/app/db/models.py:78-80 | the payload is stamped in place and returned under `$set` |
| PyRoutes.Get | backend/app/routes/assessments.py:34-35 | `dict.get` gives the stored value of a present key and `None` for a missing one |
| PyRoutes.GetDefault | backend/app/routes/assessments.py:38 | `dict.get(key, default)` gives the default exactly for a missing key |
| ObjectIds.ParseObjectId | backend/app/routes/assessments.py:82 | `ObjectId(s)`, like `new ObjectId(s)` in the TypeScript server, accepts exactly 24 hexadecimal digits in either case and keeps them in lower case |
| ObjectIds.ParseObjectIdCanonical | backend/app/routes/assessments.py:82-89 | the id string a reply carries parses back to the same id |
| PyRoutes.AddDays | backend/app/routes/assessments.py:52 | `utcnow() + timedelta(days)` is now plus that many days, and fails exactly outside the `timedelta` and `datetime` ranges |
| PyRoutes.AddDaysPassed | backend/app/routes/assessments.py:52-141 | a datetime `days` ahead is already past exactly when `days` is negative |
| PyRoutes.IndexWhere | backend/app/routes/assessments.py:82-134 | the first document whose field equals the value, or -1 exactly when none does |
| PyRoutes.OwnerGuard | backend/app/routes/assessments.py:83-86 | 404 for nothing or an empty document, then 403 when the owner differs; passes exactly otherwise |
| PyRoutes.InviteGuard | backend/app/routes/assessments.py:134-144 | 404, then 403 "Assessment cancelled" for any status but "active", then 403 "Invite expired" when the expiry is before now (500 when it is not a datetime); passes exactly when active and not expired |
| PyRoutes.Project | backend/app/routes/assessments.py:31-40 | a reply exactly when the four required fields are present; status defaults to "active" |
| PyRoutes.ProjectAll | backend/app/routes/assessments.py:30-42 | one reply per document, in order, or a failure when any document lacks a required field |
| PyRoutes.Snapshot | backend/app/routes/assessments.py:146-156 | a snapshot exactly when the company name is present |
| PyRoutes.SnapshotHidesOwnerAndToken | backend/app/routes/assessments.py:146-156 | documents that differ only in owner and token give the same snapshot |
| PyRoutes.OwnedBy | backend/app/routes/assessments.py:28 | exactly the caller's documents |
| PyRoutes.ListingSpec | backend/app/routes/assessments.py:27-29 | each of the caller's documents, as often as stored, and nothing else, newest created first |
| PyRoutes.Listing | backend/app/routes/assessments.py:27-29 | a rearrangement of exactly the caller's documents, newest created first |
| PyRoutes.MissingStatusListedActiveButClosed | backend/app/routes/assessments.py:38-137 | a document without a status is listed as "active" yet its invite is refused as cancelled |
| PyRoutes.CreatedMatchesStored | backend/app/routes/assessments.py:54-73 | the create reply (status "active", no progress) is what reading the stored document back gives |
| PyRoutes.FreshInviteUsable | backend/app/routes/assessments.py:51-141 | a new invite is usable at once exactly when `invite_days` is not negative, and is expired otherwise |
| PyRoutes.ExpiryIsStrict | backend/app/routes/assessments.py:141 | an invite is open at the millisecond it expires and closed one millisecond later |
| PyRoutes.OwnerSetFields | backend/app/routes/assessments.py:113-126 | only status, company fields and expiry are written, each exactly when given; each holds the request's value, and the expiry the computed time |
| PyRoutes.OwnerCanReopen | backend/app/routes/assessments.py:114-137 | an owner's status "active" with a future expiry re-opens the invite |
| PyRoutes.ProgressDict | backend/app/routes/assessments.py:200-208 | progress is stored as exactly its four keys, each holding the request's value |
| PyRoutes.InviteSetFieldsUnrolled | backend/app/routes/assessments.py:175-208 | the nine `set` calls in a row equal the same calls grouped as the handler's front and answer parts |
| PyRoutes.InviteSetFields | backend/app/routes/assessments.py:175-208 | the respondent update writes no key but status, company fields, profile, selections, scores, responses and progress |
| PyRoutes.InviteSetStatus | backend/app/routes/assessments.py:176-177 | status is written only as "completed" and exactly when the request asks for it; no field outside the request model is written |
| PyRoutes.InviteSetCompany | backend/app/routes/assessments.py:178-183 | each company field is written exactly when present, an empty string included, with the request's value |
| PyRoutes.InviteSetProfileAndProgress | backend/app/routes/assessments.py:184-208 | the profile is rebuilt from its three fields and progress stored as its four fields, each exactly when present |
| PyRoutes.InviteSetAnswers | backend/app/routes/assessments.py:193-198 | selections, scores and responses are replaced wholesale exactly when not null |
| PyRoutes.ExecProfileValue | backend/app/routes/assessments.py:184-192 | no profile value exactly when the request has none |
| PyRoutes.AnyValue | backend/app/routes/assessments.py:193-198 | a null request field is not written |
| PyRoutes.ProgressValue | backend/app/routes/assessments.py:199-208 | no progress value exactly when the request has none |
| PyRoutes.RespondentOnlyCompletes | backend/app/routes/assessments.py:163-177 | an open record stays "active" or becomes "completed", the latter exactly when asked |
| PyRoutes.EmptyCompanyNameApplied | backend/app/routes/assessments.py:178-179 | an empty company name from the respondent is stored (unlike the TypeScript backend) |
| PyRoutes.PyServer.ListAssessments | backend/app/routes/assessments.py:22-42 | the caller's documents newest first, projected, or 500 when one lacks a required field |
| PyRoutes.PyServer.CreateAssessment | backend/app/routes/assessments.py:45-73 | exactly the new document is appended and the create reply returned; an out-of-range expiry fails with nothing stored |
| PyRoutes.PyServer.GetAssessment | backend/app/routes/assessments.py:76-97 | a malformed id fails, then 404, then 403; otherwise the projected document |
| PyRoutes.PyServer.UpdateAssessment | backend/app/routes/assessments.py:100-129 | on any refusal nothing changes; otherwise only the addressed document changes, by the stamped owner fields |
| PyRoutes.PyServer.GetInvite | backend/app/routes/assessments.py:132-156 | the guard's error, or the snapshot |
| PyRoutes.PyServer.UpdateInvite | backend/app/routes/assessments.py:159-211 | on any refusal nothing changes; a found record without `_id` gives 500; otherwise only the document with the found record's `_id` changes, by the stamped respondent fields |
| PyRoutes.BuildOwnerUpdate | backend/app/routes/assessments.py:113-121 | the `set` calls for status and company fields build exactly those fields that are given |
| PyRoutes.BuildInviteUpdate | backend/app/routes/assessments.py:175-208 | the handler's `set` calls build exactly the respondent fields characterised above |
| PyRoutes.SetAnswers | backend/app/routes/assessments.py:193-208 | the answer `set` calls add selections, scores, responses and progress each when present |
| ResponseStore.SelectedPillars | frontend/src/routes/Assessment.tsx:20-26 | exactly the catalog pillars with a selected entry, in catalog order |
| ResponseStore.SelectedEntriesMembers | frontend/src/routes/Assessment.tsx:20-32 | a catalog metric is listed exactly when its pillar has a selected entry |
| ResponseStore.CurrentEntry | frontend/src/routes/Assessment.tsx:34-39 | none exactly when nothing is listed; otherwise a listed entry, and the one the route names whenever some entry matches it |
| ResponseStore.MetricIndex | frontend/src/routes/Assessment.tsx:34-36 | the first listed entry matching the route's pillar and metric, or -1 exactly when none matches |
| ResponseStore.UnknownRouteFallsBack | frontend/src/routes/Assessment.tsx:34-39 | a route naming no listed metric falls back to index 0 and the first listed metric |
| ResponseStore.NextRoute | frontend/src/routes/Assessment.tsx:155-218 | "Next" leads to the results exactly from the last metric, otherwise to the following metric |
| ResponseStore.BackRoute | frontend/src/routes/Assessment.tsx:154-227 | "Back" leads to the module picker exactly from the first metric, otherwise to the previous metric |
| ResponseStore.CappedPercent | frontend/src/routes/Assessment.tsx:57-59 | the percentage is at most 100, and 0 when there is nothing to count |
| ResponseStore.CappedPercentIsRounded | frontend/src/routes/Assessment.tsx:57-59 | the percentage is the nearest integer to 100 * part / whole, halves rounding up |
| ResponseStore.CappedPercentEnds | frontend/src/routes/Assessment.tsx:57-59 | every metric answered gives exactly 100, none answered gives 0 |
| ResponseStore.CappedPercentMonotone | frontend/src/routes/Assessment.tsx:57-59 | more answered metrics never lower the percentage |
| ResponseStore.AutosaveProgress | frontend/src/routes/Assessment.tsx:55-77 | the progress counts the score entries over the listed metrics, with a percentage of at most 100 |
| ResponseStore.StepPercent | frontend/src/routes/Assessment.tsx:159-163 | the side-bar figure is at most 100 |
| ResponseStore.MeanBounds | frontend/src/routes/Assessment.tsx:101-102 | the mean of answers on the 1-5 slider lies in [1, 5] |
| ResponseStore.DefaultsMeanOne | frontend/src/routes/Assessment.tsx:180-186 | a vector of default answers has mean 1 |
| ResponseStore.Find | frontend/src/routes/Assessment.tsx:95 | the earliest entry for the metric, or none exactly when no entry has it |
| ResponseStore.PaddedResponses | frontend/src/routes/Assessment.tsx:96-98 | the padded vector has one entry per question |
| ResponseStore.RecordResponse | frontend/src/routes/Assessment.tsx:95-123 | an entry is appended exactly when the metric had none; existing entries keep their metric and completion; an appended entry is for the metric and not completed |
| ResponseStore.RecordResponseVector | frontend/src/routes/Assessment.tsx:95-107 | the answered metric's vector has `totalQuestions` entries, the new value at the answered index, the previous answer or 1 elsewhere, and its score is their mean |
| ResponseStore.RecordResponseKeepsOthers | frontend/src/routes/Assessment.tsx:104-110 | answering a metric that has an entry changes only that metric's entries, in place, keeping pillar and completion |
| ResponseStore.RecordResponseAppends | frontend/src/routes/Assessment.tsx:113-123 | answering a metric without an entry appends exactly one, for the given pillar, not completed |
| ResponseStore.RecordResponseLastWins | frontend/src/routes/Assessment.tsx:95-123 | answering the same question twice equals answering it once with the second value |
| ResponseStore.DefaultScore | frontend/src/routes/Assessment.tsx:180-194 | the default entry is for the current metric and pillar, not completed, with one answer per question |
| ResponseStore.EnsureScore | frontend/src/routes/Assessment.tsx:176-198 | the returned entry is for the current metric |
| ResponseStore.EnsureScoreSpec | frontend/src/routes/Assessment.tsx:176-198 | an existing entry is returned and nothing changes; otherwise an all-1 entry with score 1, not completed, is appended and returned |
| ResponseStore.MarkComplete | frontend/src/routes/Assessment.tsx:203-210 | the list keeps its length |
| ResponseStore.AfterNext | frontend/src/routes/Assessment.tsx:200-210 | an entry is created exactly when the metric had none, and every entry of the metric ends up completed |
| ResponseStore.NextStoresStaleScores | frontend/src/routes/Assessment.tsx:47-50 | when the current metric was not yet completed, the scores after "Next" complete it and differ from the scores before the press, which are what the store receives |
| ResponseStore.AfterNextSpec | frontend/src/routes/Assessment.tsx:200-210 | "Next" completes exactly the current metric's entries (creating one if needed); responses, scores and all other entries stay as they were |
| ResponseStore.AssessmentPage.HandleResponseChange | frontend/src/routes/Assessment.tsx:85-127 | the scores become the recorded response, the stored scores are untouched, and the autosave (only with an invite) sends progress for the new scores |
| ResponseStore.AssessmentPage.HandleNext | frontend/src/routes/Assessment.tsx:200-219 | the page's scores become those after "Next" but the store receives the scores from before the press; the page navigates to the next route, and the autosave sends progress for the new scores |
| ResponseStore.AssessmentPage.HandleNextPersisted | frontend/src/routes/Assessment.tsx:200-219 | as "Next", except that the store receives the scores after the press, in which the current metric is completed |
| ResponseStore.AssessmentPage.HandleBack | frontend/src/routes/Assessment.tsx:221-227 | the scores stay as they are, the store receives them, and the page goes to the back route |
| SliderAssessment.Toggle | src/routes/Assessment.tsx:34-40 | the list keeps its length |
| SliderAssessment.ToggleSpec | src/routes/Assessment.tsx:34-40 | length, order and every entry's ids are kept, `selected` flips exactly on the named metric's entries, and toggling twice restores the list |
| SliderAssessment.FindScore | src/routes/Assessment.tsx:44-56 | the earliest entry for the metric, or none exactly when no entry has it |
| SliderAssessment.ScoreChange | src/routes/Assessment.tsx:42-52 | an entry is appended exactly when the metric had none; existing entries keep their metric and notes; every entry of the metric has the new score |
| SliderAssessment.NoteChange | src/routes/Assessment.tsx:54-64 | an entry is appended exactly when the metric had none; existing entries keep their metric and score; every entry of the metric has the new notes |
| SliderAssessment.ScoreChangeExisting | src/routes/Assessment.tsx:44-48 | on a metric with an entry only the score of that metric's entries changes; notes, ids, positions and other entries are kept |
| SliderAssessment.ScoreChangeAbsent | src/routes/Assessment.tsx:50 | on a metric without an entry exactly one entry with empty notes is appended |
| SliderAssessment.NoteChangeExisting | src/routes/Assessment.tsx:54-61 | on a metric with an entry only the notes of that metric's entries change |
| SliderAssessment.NoteChangeAbsent | src/routes/Assessment.tsx:62 | on a metric without an entry exactly one entry with the default score 3 is appended |
| SliderAssessment.ScoreThenNotes | src/routes/Assessment.tsx:42-64 | a score change then a notes change on one metric leave both on every entry of that metric |
| SliderAssessment.FilterEntries | src/routes/Assessment.tsx:27-30 | the entries kept are exactly those whose metric id is selected |
| SliderAssessment.SelectedMetrics | src/routes/Assessment.tsx:23-32 | every listed entry pairs a catalog pillar with one of its own metrics whose id is selected |
| SliderAssessment.SelectedMetricsInCatalogOrder | src/routes/Assessment.tsx:23-32 | the page lists exactly the catalog metrics whose id has a selected entry, in catalog order |
| SliderAssessment.CanContinueIff | src/routes/Assessment.tsx:174 | continuing is enabled exactly when some catalog metric has a selected entry |
| SliderAssessment.SliderPage.HandleToggle | src/routes/Assessment.tsx:34-40 | the local selections are toggled; scores and the store are untouched |
| SliderAssessment.SliderPage.HandleScoreChange | src/routes/Assessment.tsx:42-52 | the scores get the score change; selections and the store are untouched |
| SliderAssessment.SliderPage.HandleNoteChange | src/routes/Assessment.tsx:54-64 | the scores get the notes change; selections and the store are untouched |
| SliderAssessment.SliderPage.HandleContinue | src/routes/Assessment.tsx:66-70 | the store receives the local selections and scores, and the page goes to the results |
| Qualify.FindOption | frontend/src/routes/Qualify.tsx:27 | the option found has the answered value and is one of the question's options; none exactly when no option has that value |
| Qualify.Recommended | frontend/src/routes/Qualify.tsx:23-31 | no questions recommend nothing, and every question's chosen option adds all its pillars |
| Qualify.RecommendedIff | frontend/src/routes/Qualify.tsx:23-31 | a pillar is recommended exactly when some question's chosen option lists it |
| Qualify.NoAnswersNoRecommendations | frontend/src/routes/Qualify.tsx:23-31 | with no answers the recommendation set is empty |
| Qualify.AnsweringOnlyAdds | frontend/src/routes/Qualify.tsx:23-31 | answering a question not yet answered never removes a recommendation |
| Qualify.PillarRecommendations | frontend/src/routes/Qualify.tsx:23-31 | the loop over questions and their pillars builds exactly the recommended set |
| Qualify.ExpandSelections | frontend/src/routes/Qualify.tsx:34-40 | one selection per catalog metric, each selected exactly when its pillar is recommended |
| Qualify.ExpandMatchesCatalog | frontend/src/routes/Qualify.tsx:34-40 | one selection per catalog metric, in catalog order, carrying the metric's and pillar's ids, selected exactly when its pillar is recommended |
| Qualify.SamePillarSameFlag | frontend/src/routes/Qualify.tsx:34-40 | two selections of the same pillar always carry the same flag |
| Qualify.NoAnswersSelectsNothing | frontend/src/routes/Qualify.tsx:21-44 | before any answer, "Continue" selects no metric |
| Qualify.QualifyPage.constructor | frontend/src/routes/Qualify.tsx:20-21 | the page starts with no answers and the store's selections untouched |
| Qualify.QualifyPage.Choose | frontend/src/routes/Qualify.tsx:63-65 | the chosen value is recorded under the question's id, replacing an earlier answer; the store is untouched |
| Qualify.QualifyPage.HandleNext | frontend/src/routes/Qualify.tsx:33-44 | the store receives the selections derived from the answers and the page moves to the module picker |
| GuidedQuestions.EditProfile | src/routes/Questions.tsx:59-100 | each editor replaces exactly its own profile field |
| GuidedQuestions.QuestionsPage.constructor | src/routes/Questions.tsx:17-18 | no answers; the draft profile starts as the stored one |
| GuidedQuestions.QuestionsPage.Choose | src/routes/Questions.tsx:115-117 | the chosen value is recorded under the question's id; the profile and the store are untouched |
| GuidedQuestions.QuestionsPage.UpdateProfile | src/routes/Questions.tsx:59-100 | the draft profile takes the edit; answers and the store are untouched |
| GuidedQuestions.QuestionsPage.HandleNext | src/routes/Questions.tsx:20-42 | the store receives the draft profile and the selections derived from the answers (same derivation as the qualification page) and the page moves to the assessment |
| ModulePicker.SelectedCount | frontend/src/routes/Modules.tsx:22-24 | the selected count never exceeds the pillar's metric count |
| ModulePicker.SelectedCountFull | frontend/src/routes/Modules.tsx:22-25 | the count equals the metric count exactly when every metric's id is selected |
| ModulePicker.CheckedIff | frontend/src/routes/Modules.tsx:16-28 | a pillar's box is checked exactly when all its metrics have a selected entry; a pillar without metrics is checked |
| ModulePicker.PillarToggle | frontend/src/routes/Modules.tsx:30-36 | the selection list keeps its length |
| ModulePicker.PillarToggleSpec | frontend/src/routes/Modules.tsx:30-36 | ids and order are kept, only the named pillar's entries take the new flag, and applying the same toggle twice changes nothing more |
| ModulePicker.CheckedAfterTick | frontend/src/routes/Modules.tsx:16-36 | ticking a pillar whose metrics all have entries leaves its box checked |
| ModulePicker.FirstSelected | frontend/src/routes/Modules.tsx:47-51 | the pillar found is in the catalog and has a selected entry; none exactly when no pillar has one |
| ModulePicker.ContinueRoute | frontend/src/routes/Modules.tsx:47-59 | with nothing selected, or when the first selected pillar has no metrics (even if a later selected one has), the target is `none/none`; any other target is the first metric of a selected pillar |
| ModulePicker.FirstSelectedHeadsList | frontend/src/routes/Modules.tsx:47-51 | the pillar "Continue" picks is the first pillar the assessment page lists |
| ModulePicker.ContinueOpensFirstListed | frontend/src/routes/Modules.tsx:47-56 | "Continue" opens exactly the first metric the assessment page will walk through |
| ModulePicker.ModulesPage.constructor | frontend/src/routes/Modules.tsx:14 | the local selections start as the stored ones |
| ModulePicker.ModulesPage.HandlePillarToggle | frontend/src/routes/Modules.tsx:30-36 | the local selections take the toggle; the store is untouched |
| ModulePicker.ModulesPage.HandleContinue | frontend/src/routes/Modules.tsx:38-60 | the store receives the local selections, they are sent to the invite only when invited, and the target is the continue route |
| BenchmarkEditor.PatchIdempotent | src/routes/BenchmarkEditor.tsx:14-41 | spreading the same partial update twice equals spreading it once; an empty update changes nothing |
| BenchmarkEditor.UpdatePillar | src/routes/BenchmarkEditor.tsx:14-21 | the benchmark's name, version and number of pillars are kept |
| BenchmarkEditor.UpdatePillarSpec | src/routes/BenchmarkEditor.tsx:14-21 | pillars with another id are untouched; those with the id take each field the update names (id, name, description, weight, metrics) and keep every other |
| BenchmarkEditor.PatchMetrics | src/routes/BenchmarkEditor.tsx:34-36 | the metric list keeps its length |
| BenchmarkEditor.UpdateMetric | src/routes/BenchmarkEditor.tsx:23-41 | the benchmark's name, version and number of pillars are kept |
| BenchmarkEditor.UpdateMetricSpec | src/routes/BenchmarkEditor.tsx:23-41 | outside the addressed pillar nothing changes; inside it only metrics with the id are patched, every other field of the pillar is kept, and the total metric count is unchanged |
| BenchmarkEditor.SameShapeSameCount | src/routes/BenchmarkEditor.tsx:23-41 | pillar lists that pairwise hold as many metrics hold as many metrics in total |
| BenchmarkEditor.MetricCountAppend | src/routes/BenchmarkEditor.tsx:43-66 | the metric count of two pillar lists joined is the sum of their counts |
| BenchmarkEditor.AddPillar | src/routes/BenchmarkEditor.tsx:43-66 | the benchmark's name and version are kept |
| BenchmarkEditor.AddPillarSpec | src/routes/BenchmarkEditor.tsx:43-66 | every pillar is kept in place and one pillar of weight 1 is appended holding one new metric of weight 1 with the five default captions; the metric count grows by one |
| BenchmarkEditor.AddMetric | src/routes/BenchmarkEditor.tsx:68-89 | the benchmark's name, version and number of pillars are kept |
| BenchmarkEditor.AddMetricSpec | src/routes/BenchmarkEditor.tsx:68-89 | only pillars with the id change, and they keep their metrics and gain the new metric at the end |
| BenchmarkEditor.WithoutPillar | src/routes/BenchmarkEditor.tsx:94 | the filtered list holds exactly the pillars whose id differs, and is no longer |
| BenchmarkEditor.WithoutMetric | src/routes/BenchmarkEditor.tsx:105 | the filtered list holds exactly the metrics whose id differs, and is no longer |
| BenchmarkEditor.WithoutPillarAppend | src/routes/BenchmarkEditor.tsx:94 | filtering pillars distributes over concatenation, so kept pillars keep their order |
| BenchmarkEditor.WithoutMetricAppend | src/routes/BenchmarkEditor.tsx:105 | filtering metrics distributes over concatenation, so kept metrics keep their order |
| BenchmarkEditor.WithoutAbsentPillar | src/routes/BenchmarkEditor.tsx:94 | filtering out an id no pillar has leaves the list unchanged |
| BenchmarkEditor.WithoutAbsentMetric | src/routes/BenchmarkEditor.tsx:105 | filtering out an id no metric has leaves the list unchanged |
| BenchmarkEditor.RemovePillar | src/routes/BenchmarkEditor.tsx:91-96 | the benchmark's name and version are kept |
| BenchmarkEditor.RemovePillarSpec | src/routes/BenchmarkEditor.tsx:91-96 | exactly the pillars with the id disappear and the others stay in order around each position |
| BenchmarkEditor.RemoveAddedPillar | src/routes/BenchmarkEditor.tsx:43-96 | removing a freshly added pillar whose id was not already taken restores the benchmark |
| BenchmarkEditor.RemoveMetric | src/routes/BenchmarkEditor.tsx:98-110 | the benchmark's name, version and number of pillars are kept |
| BenchmarkEditor.RemoveMetricSpec | src/routes/BenchmarkEditor.tsx:98-110 | outside the addressed pillar nothing changes; inside it exactly the metrics with the id disappear and the pillar's other fields are kept |
| BenchmarkEditor.RemoveAddedMetric | src/routes/BenchmarkEditor.tsx:68-110 | removing a freshly added metric whose id was not already taken in its pillar restores the benchmark |
| BenchmarkEditor.EditLabelSpec | src/routes/BenchmarkEditor.tsx:239-248 | the edited caption takes the new text, every other caption is kept and the caption count is unchanged |
| BenchmarkEditor.Editor.constructor | src/routes/BenchmarkEditor.tsx:11-12 | the draft starts as the saved benchmark |
| BenchmarkEditor.Editor.HandleUpdatePillar | src/routes/BenchmarkEditor.tsx:14-21 | the draft takes the pillar update; the saved benchmark is untouched |
| BenchmarkEditor.Editor.HandleUpdateMetric | src/routes/BenchmarkEditor.tsx:23-41 | the draft takes the metric update; the saved benchmark is untouched |
| BenchmarkEditor.Editor.HandleAddPillar | src/routes/BenchmarkEditor.tsx:43-66 | the draft gains the new pillar; the saved benchmark is untouched |
| BenchmarkEditor.Editor.HandleAddMetric | src/routes/BenchmarkEditor.tsx:68-89 | the draft gains the new metric; the saved benchmark is untouched |
| BenchmarkEditor.Editor.HandleRemovePillar | src/routes/BenchmarkEditor.tsx:91-96 | the draft loses the pillar; the saved benchmark is untouched |
| BenchmarkEditor.Editor.HandleRemoveMetric | src/routes/BenchmarkEditor.tsx:98-110 | the draft loses the metric; the saved benchmark is untouched |
| BenchmarkEditor.Editor.HandleLabelChange | src/routes/BenchmarkEditor.tsx:243-249 | the draft takes the caption edit as a labels update; the saved benchmark is untouched |
| BenchmarkEditor.Editor.HandleSave | src/routes/BenchmarkEditor.tsx:112-114 | the draft becomes the saved benchmark |
| BenchmarkEditor.Editor.HandleReset | src/routes/BenchmarkEditor.tsx:116-118 | the draft returns to the saved benchmark |
| Json.Field | backend/src/index.ts:130-133 | a property read gives the object's value when present, and `undefined` otherwise |
| Json.OrElse | backend/src/index.ts:130-131 | `??` keeps any value other than `null`/`undefined` and falls back to the default only for them |
| Json.NatToString | backend/src/index.ts:130 | the decimal text of a natural number is non-empty and all digits, one digit exactly below 10 |
| Json.ToJsString | backend/src/index.ts:246-253 | `String` keeps a string as it is and renders booleans as `true`/`false` |
| Json.IntToString | backend/src/index.ts:130-131 | `String(n)` is non-empty and starts with a minus sign exactly when `n` is negative |
| HonoApi.NaturalRoundTrip | backend/src/index.ts:131 | the decimal text of a natural number reads back as that number |
| HonoApi.NegativeRoundTrip | backend/src/index.ts:131 | the text of a negative integer reads back as that integer |
| HonoApi.HonoServer.constructor | backend/src/index.ts:111-266 | the collection starts with the given records |
| PyRoutes.PyServer.constructor | backend/app/routes/assessments.py:22-211 | the collection starts with the given documents |
| ResponseStore.AssessmentPage.constructor | frontend/src/routes/Assessment.tsx:17 | the page's scores and the stored scores both start as the given stored ones |
| SliderAssessment.SliderPage.constructor | src/routes/Assessment.tsx:18-21 | the local selections and scores start as the stored ones |

## Left out

- Storage, sessions and tokens:
  - HTTP, MongoDB drivers and JWT signing are not modelled;
  - the cookie session's verified subject is a map from token to user id;
  - the clock, `randomUUID`/`secrets.token_urlsafe` tokens and new ObjectIds are parameters.
- Each handler's clock readings are modelled as one instant, `now`. Several handlers read the clock more than once:
  - Python `create`: backend/app/routes/assessments.py:52, then backend/app/db/models.py:39-40;
  - Python `update_assessment` and `update_invite`: their own reading (assessments.py:125 and 170), then `to_update`;
  - the TypeScript owner PATCH (backend/src/index.ts:188 and 195) and invite PATCH (index.ts:237 and 242).
- Microsecond precision is not modelled: times are integer milliseconds.
- Floating point is not modelled:
  - scores and weights are exact `real`s, so NaN and `Infinity` do not arise;
  - `toFixed` display formatting is left out;
  - `Math.round` of the progress percentage is modelled exactly on integers.
- React's update scheduling (batched `setState`, StrictMode double calls) is not modelled: each handler runs to completion on the current state.
- ResponseStore.AssessmentPage.HandleNext, ResponseStore.AssessmentPage.HandleResponseChange: the source assigns `nextScores` inside the updater passed to `updateScores` and reads it right after the call (frontend/src/routes/Assessment.tsx:93-125 and 201-212). The model runs the updater at once, so its autosave always sends progress for the new scores. React runs an updater at once only when no update is pending. In "Next" on a metric without an entry, `ensureMetricScore` has already queued one (Assessment.tsx:196), so the autosave may send the empty list it started with, which the invite PATCH then stores wholesale. That deferred case is not modelled.
- A request body that is JSON `null` (where `body.x` would throw) is not modelled; bodies are objects or other JSON values whose property reads give `undefined`.
- Json.Json: request numbers are integers (`JNum(n: int)`). A fractional `inviteDays`, which the owner PATCH (backend/src/index.ts:186-189) and create (backend/src/index.ts:131-138) would turn into a fractional number of days, is not modelled.
- `Number()` on strings is modelled for optionally signed decimal integers with surrounding white space. Fractions, exponents, hexadecimal and `Infinity` count as not-a-number.
- HonoApi.MakeDate: a day count that pushes the expiry outside the JavaScript date range gives an Invalid Date. The model carries it as `InvalidDate`, which never counts as expired, and does not model how MongoDB would store it.
- Sorting.SortDesc: MongoDB's order among records with equal `createdAt` is unspecified; the model uses an insertion sort and proves its result sorted and a permutation, without fixing the order of ties.
- Text.Trim: ASCII white space, U+00A0 and U+FEFF are trimmed; the other Unicode spaces JavaScript's `trim` removes (U+1680, U+2000 to U+200A, U+2028, U+2029, U+202F, U+205F and U+3000) are not.
- ResponseStore.DefaultScore: requires the metric to have at least one question. The source divides by zero there and stores NaN.
- ResponseStore.EnsureScore: requires at least one question, for the same reason.
- ResponseStore.AfterNext: requires at least one question, for the same reason.
- ResponseStore.AssessmentPage.HandleNext: requires at least one question, for the same reason.
- ResponseStore.AssessmentPage.HandleResponseChange: requires `questionIndex < totalQuestions`. The page only renders inputs for existing questions; a write beyond the end of a JavaScript array is not modelled.
- ObjectIds.ParseObjectId: only a string of 24 hexadecimal digits is modelled. Python's `ObjectId()` also takes 12 raw bytes (a `bytes` value, never a `str`), and older releases of the JavaScript driver took a 12-character string as raw bytes; neither form is modelled.
- Request validation by pydantic, including `EmailStr`, is not modelled; the handlers receive already-validated optional fields.
- The respondent account routes (register, login, me) and password hashing are not modelled; the caller's identity is a parameter.
- AuthCookie.AllowOrigin: only the `Access-Control-Allow-Origin` value is modelled; the other CORS headers and the preflight response are not.
- PyRoutes.BuildInviteUpdate builds the invite update in two parts, the scalar fields and then the answers (`SetAnswers`), purely to keep proofs small. HonoApi.BuildInviteUpdates splits the same way (`SetInviteAnswers`). The result is the same single `$set`.
- `frontend/src/utils/scoring.ts` is not part of this model; the scoring modelled is `src/utils/scoring.ts`.
- BenchmarkEditor.NewMetric: a metric the editor adds has no `questions` property in the source (src/routes/BenchmarkEditor.tsx:54-61 and 77-83). The model gives it an empty question list; code reading `questions` of such a metric in the source sees `undefined`.
- The static catalogs and question lists (`data/benchmark`, `data/questions`) are inputs, not modelled content.
- PyModels.Key: dictionary keys are an enumeration whose spellings are proved distinct (`KeyNameInjective`). Keys the backend never uses are not modelled.

## Where the code and the design differ

The model follows the code in each of these places.

- `normalizeWeights` has no equal-split fallback: when every weight is 0, every normalised weight is 0. Scoring.ZeroPillarWeightsGiveZeroComposite proves what that means for the composite.
- The autosaved `completedMetrics` counts every score entry, not only those marked completed or selected (ResponseStore.AutosaveProgress).
- The owner PATCH of both servers stores any `status` string, including "active" on a completed or cancelled record (HonoApi.OwnerCanReopen, PyRoutes.OwnerCanReopen). The "terminal" states of the design are not enforced.
- In the Python backend a record without a `status` field is listed as "active", yet its invite is refused as cancelled (PyRoutes.MissingStatusListedActiveButClosed).

## Findings

| source | as written | input that shows it | evidently intended | confidence | as-written member | corrected member |
|---|---|---|---|---|---|---|
| frontend/src/routes/Assessment.tsx:47-50 | `persistAndNavigate` stores the `scores` captured at render, so "Next" stores the scores from before the press | "Next" (or "View Results") on a metric whose entry is missing or not yet completed: the store keeps it incomplete or absent, and the results page computes from those stored scores | the store receives the scores after "Next", with the current metric completed | not executed | ResponseStore.AssessmentPage.HandleNext (exhibited by ResponseStore.NextStoresStaleScores) | ResponseStore.AssessmentPage.HandleNextPersisted |
