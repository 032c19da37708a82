/**
 * The Python (FastAPI) backend's assessment routes: the owner's list,
 * create, read and update, and the respondent's invite read and update.
 * The `assessments` collection is a sequence of documents in insertion
 * order, so `find_one` is the first match; each request runs atomically.
 * The caller's id (from `require_auth`), the clock (`utcnow`), the invite
 * token (`generate_token`) and the inserted ObjectId are parameters.
 * An exception the handlers do not catch (`KeyError`, `TypeError`,
 * `OverflowError`, bson's `InvalidId`) becomes a 500 reply.
 */
module PyRoutes {
  import opened Wrappers
  import opened Sorting
  import opened Json
  import opened PyModels
  import opened ObjectIds

  /** Milliseconds per day (`timedelta(days=1)`). */
  const DayMillis: int := 86_400_000

  /** `datetime.min` (0001-01-01) and `datetime.max` (9999-12-31 23:59:59.999), in milliseconds from the epoch. */
  const MinMillis: int := -62_135_596_800_000
  const MaxMillis: int := 253_402_300_799_999

  /** The largest `days` a `timedelta` accepts. */
  const MaxDeltaDays: int := 999_999_999

  const ServerError: string := "Internal Server Error"

  datatype Reply<T> = Ok(value: T) | Error(code: int, detail: string)

  // ---------------------------------------------------------------------
  // Request and response bodies
  // ---------------------------------------------------------------------

  datatype AssessmentCreateIn = AssessmentCreateIn(
    companyName: string,
    companyIndustry: Option<string>,
    companySize: Option<string>,
    inviteDays: int)

  datatype AssessmentUpdateIn = AssessmentUpdateIn(
    status: Option<string>,
    inviteDays: Option<int>,
    companyName: Option<string>,
    companyIndustry: Option<string>,
    companySize: Option<string>)

  datatype ExecProfileIn = ExecProfileIn(name: string, title: string, email: string)

  datatype ProgressIn = ProgressIn(completedMetrics: int, totalMetrics: int, percent: int, updatedAt: int)

  /** The respondent's update; an `Any` field that is absent or null is `JNull`. */
  datatype InviteUpdateIn = InviteUpdateIn(
    status: Option<string>,
    companyName: Option<string>,
    companyIndustry: Option<string>,
    companySize: Option<string>,
    execProfile: Option<ExecProfileIn>,
    selections: Json,
    scores: Json,
    responses: Json,
    progress: Option<ProgressIn>)

  /** `AssessmentResponse`, before its fields are validated. */
  datatype AssessmentResponse = AssessmentResponse(
    id: Value,
    companyName: Value,
    companyIndustry: Value,
    companySize: Value,
    inviteToken: Value,
    inviteExpiresAt: Value,
    status: Value,
    progress: Value)

  /** `InviteSnapshot`: what the respondent sees, without owner or token. */
  datatype InviteSnapshot = InviteSnapshot(
    companyName: Value,
    companyIndustry: Value,
    companySize: Value,
    execProfile: Value,
    selections: Value,
    scores: Value,
    responses: Value,
    progress: Value,
    status: Value)

  // ---------------------------------------------------------------------
  // Documents, ids and dates
  // ---------------------------------------------------------------------

  /** `d.get(key)`. */
  function Get(d: Doc, key: Key): (v: Value)
    ensures key !in d ==> v.VNone?
    ensures key in d ==> v == d[key]
  {
    if key in d then d[key] else VNone
  }

  /** `d.get(key, default)`. */
  function GetDefault(d: Doc, key: Key, default: Value): (v: Value)
    ensures key !in d ==> v == default
    ensures key in d ==> v == Get(d, key)
  {
    if key in d then d[key] else default
  }

  /** `now + timedelta(days=days)`; `None` is the `OverflowError` of a too large `timedelta` or a result outside the datetime range. */
  function AddDays(now: int, days: int): (r: Option<int>)
    ensures r.Some? <==> -MaxDeltaDays <= days <= MaxDeltaDays && MinMillis <= now + days * DayMillis <= MaxMillis
    ensures r.Some? ==> r.value == now + days * DayMillis
  {
    if -MaxDeltaDays <= days <= MaxDeltaDays && MinMillis <= now + days * DayMillis <= MaxMillis then
      Some(now + days * DayMillis)
    else None
  }

  /** A datetime `days` ahead has passed exactly when `days` is negative. */
  lemma AddDaysPassed(now: int, days: int)
    requires AddDays(now, days).Some?
    ensures AddDays(now, days).value < now <==> days < 0
  {
    assert days < 0 <==> days * DayMillis < 0;
  }

  // ---------------------------------------------------------------------
  // Lookups, guards and projections
  // ---------------------------------------------------------------------

  /** `find_one({key: v})`: the index of the first document whose `key` equals `v`, or -1. */
  function IndexWhere(docs: seq<Doc>, key: Key, v: Value): (i: int)
    ensures -1 <= i < |docs|
    ensures i == -1 <==> forall k :: 0 <= k < |docs| ==> Get(docs[k], key) != v
    ensures i >= 0 ==> Get(docs[i], key) == v && forall k :: 0 <= k < i ==> Get(docs[k], key) != v
  {
    if |docs| == 0 then -1
    else if Get(docs[0], key) == v then 0
    else
      var k := IndexWhere(docs[1..], key, v);
      if k == -1 then -1 else k + 1
  }

  function At(docs: seq<Doc>, i: int): Option<Doc>
    requires -1 <= i < |docs|
  {
    if i >= 0 then Some(docs[i]) else None
  }

  /** `if not assessment`: nothing was found, or the document is empty. */
  predicate Missing(found: Option<Doc>)
  {
    found.None? || |found.value| == 0
  }

  /** The owner routes' checks, in order: missing, then someone else's. */
  function OwnerGuard(found: Option<Doc>, userId: string): (e: Option<(int, string)>)
    ensures Missing(found) ==> e == Some((404, "Not found"))
    ensures !Missing(found) && Get(found.value, OwnerId) != VStr(userId) ==> e == Some((403, "Forbidden"))
    ensures e.None? <==> !Missing(found) && Get(found.value, OwnerId) == VStr(userId)
  {
    if Missing(found) then Some((404, "Not found"))
    else if Get(found.value, OwnerId) != VStr(userId) then Some((403, "Forbidden"))
    else None
  }

  /** The respondent routes' checks, in order: missing, not active, expired; comparing anything but a datetime with now raises `TypeError`. */
  function InviteGuard(found: Option<Doc>, now: int): (e: Option<(int, string)>)
    ensures Missing(found) ==> e == Some((404, "Not found"))
    ensures !Missing(found) && Get(found.value, Status) != VStr("active") ==>
      e == Some((403, "Assessment cancelled"))
    ensures !Missing(found) && Get(found.value, Status) == VStr("active") ==>
      var expires := Get(found.value, InviteExpiresAt);
      && (!expires.VTime? ==> e == Some((500, ServerError)))
      && (expires.VTime? && expires.ms < now ==> e == Some((403, "Invite expired")))
    ensures e.None? <==>
      && !Missing(found)
      && Get(found.value, Status) == VStr("active")
      && Get(found.value, InviteExpiresAt).VTime?
      && Get(found.value, InviteExpiresAt).ms >= now
  {
    if Missing(found) then Some((404, "Not found"))
    else if Get(found.value, Status) != VStr("active") then Some((403, "Assessment cancelled"))
    else
      var expires := Get(found.value, InviteExpiresAt);
      if !expires.VTime? then Some((500, ServerError))
      else if expires.ms < now then Some((403, "Invite expired"))
      else None
  }

  /** The `AssessmentResponse` built from a document; `None` is the `KeyError` of a missing required field. */
  function Project(d: Doc): (r: Option<AssessmentResponse>)
    ensures r.Some? <==> Id in d && CompanyName in d && InviteToken in d && InviteExpiresAt in d
    ensures r.Some? ==> r.value.status == GetDefault(d, Status, VStr("active"))
  {
    if Id in d && CompanyName in d && InviteToken in d && InviteExpiresAt in d then
      Some(AssessmentResponse(d[Id], d[CompanyName], Get(d, CompanyIndustry), Get(d, CompanySize),
        d[InviteToken], d[InviteExpiresAt], GetDefault(d, Status, VStr("active")), Get(d, Progress)))
    else None
  }

  /** The list comprehension over `Project`; one missing field fails the whole reply. */
  function ProjectAll(items: seq<Doc>): (r: Option<seq<AssessmentResponse>>)
    ensures r.Some? <==> forall k :: 0 <= k < |items| ==> Project(items[k]).Some?
    ensures r.Some? ==> |r.value| == |items| && forall k :: 0 <= k < |items| ==> r.value[k] == Project(items[k]).value
  {
    if |items| == 0 then Some([])
    else
      var head := Project(items[0]);
      var tail := ProjectAll(items[1..]);
      if head.Some? && tail.Some? then Some([head.value] + tail.value)
      else None
  }

  /** The `InviteSnapshot` built from a document; `None` is the `KeyError` of a missing company name. */
  function Snapshot(d: Doc): (r: Option<InviteSnapshot>)
    ensures r.Some? <==> CompanyName in d
  {
    if CompanyName in d then
      Some(InviteSnapshot(d[CompanyName], Get(d, CompanyIndustry), Get(d, CompanySize),
        Get(d, ExecProfile), Get(d, Selections), Get(d, Scores), Get(d, Responses),
        Get(d, Progress), GetDefault(d, Status, VStr("active"))))
    else None
  }

  /** The snapshot never depends on the owner or the invite token: documents that differ only there look the same. */
  lemma SnapshotHidesOwnerAndToken(d1: Doc, d2: Doc)
    requires forall k :: k != OwnerId && k != InviteToken ==> (k in d1 <==> k in d2)
    requires forall k :: k in d1 && k in d2 && k != OwnerId && k != InviteToken ==> d1[k] == d2[k]
    ensures Snapshot(d1) == Snapshot(d2)
  {
    assert CompanyName in d1 <==> CompanyName in d2;
  }

  /** The caller's documents (`find({"owner_id": user_id})`), in collection order. */
  function OwnedBy(docs: seq<Doc>, userId: string): (r: seq<Doc>)
    ensures forall d :: d in r <==> d in docs && Get(d, OwnerId) == VStr(userId)
  {
    if |docs| == 0 then []
    else if Get(docs[0], OwnerId) == VStr(userId) then [docs[0]] + OwnedBy(docs[1..], userId)
    else OwnedBy(docs[1..], userId)
  }

  /** The `created_at` sort key; a document without a datetime there sorts after every dated one. */
  function CreatedKey(d: Doc): int
  {
    var c := Get(d, CreatedAt);
    if c.VTime? && c.ms >= MinMillis then c.ms else MinMillis - 1
  }

  /** `.sort("created_at", -1)` over the caller's documents. */
  function Listing(docs: seq<Doc>, userId: string): (r: seq<Doc>)
    ensures SortedDesc(r, CreatedKey)
    ensures multiset(r) == multiset(OwnedBy(docs, userId))
  {
    SortDesc(OwnedBy(docs, userId), CreatedKey)
  }

  /** The list holds each of the caller's documents, as often as stored, and nothing else, newest created first. */
  lemma ListingSpec(docs: seq<Doc>, userId: string)
    ensures var r := Listing(docs, userId);
      && SortedDesc(r, CreatedKey)
      && multiset(r) == multiset(OwnedBy(docs, userId))
      && forall d :: d in r <==> d in docs && Get(d, OwnerId) == VStr(userId)
  {
    var r := Listing(docs, userId);
    forall d ensures d in r <==> d in OwnedBy(docs, userId) {
      assert d in r <==> d in multiset(r);
      assert d in OwnedBy(docs, userId) <==> d in multiset(OwnedBy(docs, userId));
    }
  }

  /** A listed document without a `status` field is shown as "active", yet its invite is refused as cancelled. */
  lemma MissingStatusListedActiveButClosed(d: Doc, now: int)
    requires Project(d).Some? && Status !in d
    ensures Project(d).value.status == VStr("active")
    ensures InviteGuard(Some(d), now) == Some((403, "Assessment cancelled"))
  {
    assert |d| > 0 by {
      assert Id in d;
    }
  }

  // ---------------------------------------------------------------------
  // Creating
  // ---------------------------------------------------------------------

  /** The document `insert_one` stores: the new record plus the `_id` it adds. */
  function NewDocument(payload: AssessmentCreateIn, userId: string, token: string, id: string,
                       expiresAt: int, now: int): Doc
  {
    AssessmentDocument(userId, payload.companyName, token, expiresAt, payload.companyIndustry, payload.companySize, now)[Id := VId(id)]
  }

  /** The create reply: status "active" and no progress. */
  function CreatedResponse(payload: AssessmentCreateIn, token: string, id: string, expiresAt: int): AssessmentResponse
  {
    AssessmentResponse(VId(id), VStr(payload.companyName), OptStr(payload.companyIndustry), OptStr(payload.companySize),
      VStr(token), VTime(expiresAt), VStr("active"), VNone)
  }

  /** The create reply is exactly what reading the stored document back gives. */
  lemma CreatedMatchesStored(payload: AssessmentCreateIn, userId: string, token: string, id: string, expiresAt: int, now: int)
    ensures Project(NewDocument(payload, userId, token, id, expiresAt, now)) == Some(CreatedResponse(payload, token, id, expiresAt))
  {
    var d := NewDocument(payload, userId, token, id, expiresAt, now);
    assert Id in d && CompanyName in d && InviteToken in d && InviteExpiresAt in d;
    assert Progress !in d;
  }

  /** A new invite opened for a non-negative number of days can be used at once; a negative one is already expired. */
  lemma FreshInviteUsable(payload: AssessmentCreateIn, userId: string, token: string, id: string, now: int)
    requires AddDays(now, payload.inviteDays).Some?
    ensures var d := NewDocument(payload, userId, token, id, AddDays(now, payload.inviteDays).value, now);
      && (InviteGuard(Some(d), now).None? <==> payload.inviteDays >= 0)
      && (payload.inviteDays < 0 ==> InviteGuard(Some(d), now) == Some((403, "Invite expired")))
  {
    var expiresAt := AddDays(now, payload.inviteDays).value;
    var d := NewDocument(payload, userId, token, id, expiresAt, now);
    AddDaysPassed(now, payload.inviteDays);
    assert Get(d, Status) == VStr("active") && Get(d, InviteExpiresAt) == VTime(expiresAt);
    assert |d| > 0 by {
      assert Id in d;
    }
  }

  /** Expiry is strict: an invite is still open at the very millisecond it expires, and closed one millisecond later. */
  lemma ExpiryIsStrict(d: Doc, t: int)
    requires Get(d, Status) == VStr("active") && Get(d, InviteExpiresAt) == VTime(t)
    ensures InviteGuard(Some(d), t).None?
    ensures InviteGuard(Some(d), t + 1) == Some((403, "Invite expired"))
  {
    assert |d| > 0 by {
      assert Status in d;
    }
  }

  // ---------------------------------------------------------------------
  // Updates
  // ---------------------------------------------------------------------

  /** The owner's `$set` fields before stamping: each non-`None` field, and the new expiry when `invite_days` is given. */
  function OwnerSetFields(p: AssessmentUpdateIn, expiresAt: int): (r: Doc)
    ensures r.Keys <= {Status, CompanyName, CompanyIndustry, CompanySize, InviteExpiresAt}
    ensures Status in r <==> p.status.Some?
    ensures CompanyName in r <==> p.companyName.Some?
    ensures CompanyIndustry in r <==> p.companyIndustry.Some?
    ensures CompanySize in r <==> p.companySize.Some?
    ensures InviteExpiresAt in r <==> p.inviteDays.Some?
    ensures p.status.Some? ==> r[Status] == VStr(p.status.value)
    ensures p.companyName.Some? ==> r[CompanyName] == VStr(p.companyName.value)
    ensures p.companyIndustry.Some? ==> r[CompanyIndustry] == VStr(p.companyIndustry.value)
    ensures p.companySize.Some? ==> r[CompanySize] == VStr(p.companySize.value)
    ensures p.inviteDays.Some? ==> r[InviteExpiresAt] == VTime(expiresAt)
  {
    SetValue(OwnerTextSets(p), InviteExpiresAt, if p.inviteDays.Some? then VTime(expiresAt) else VNone)
  }

  /** The owner's first four `set`s, of the status and the company fields, on an empty payload. */
  function OwnerTextSets(p: AssessmentUpdateIn): Doc
  {
    SetValue(SetValue(SetValue(SetValue(map[],
      Status, OptStr(p.status)),
      CompanyName, OptStr(p.companyName)),
      CompanyIndustry, OptStr(p.companyIndustry)),
      CompanySize, OptStr(p.companySize))
  }

  /** The owner can set any status, so a completed or cancelled invite can be made active again. */
  lemma OwnerCanReopen(d: Doc, p: AssessmentUpdateIn, expiresAt: int, now: int)
    requires p.status == Some("active") && p.inviteDays.Some? && expiresAt >= now
    ensures InviteGuard(Some(ApplySet(d, Stamped(OwnerSetFields(p, expiresAt), now))), now).None?
  {
    var r := ApplySet(d, Stamped(OwnerSetFields(p, expiresAt), now));
    assert Get(r, Status) == VStr("active");
    assert Get(r, InviteExpiresAt) == VTime(expiresAt);
  }

  /** The dictionary stored for a respondent's progress: exactly the four fields, copied. */
  function ProgressDict(pr: ProgressIn): (d: Doc)
    ensures d.Keys == {CompletedMetrics, TotalMetrics, Percent, UpdatedAt}
    ensures d[CompletedMetrics] == VInt(pr.completedMetrics) && d[TotalMetrics] == VInt(pr.totalMetrics)
    ensures d[Percent] == VInt(pr.percent) && d[UpdatedAt] == VTime(pr.updatedAt)
  {
    map[
      CompletedMetrics := VInt(pr.completedMetrics),
      TotalMetrics := VInt(pr.totalMetrics),
      Percent := VInt(pr.percent),
      UpdatedAt := VTime(pr.updatedAt)]
  }

  /** The respondent's `set` calls in order: the key and the value each one passes (`None` when the request leaves the field out). */
  function InviteSets(p: InviteUpdateIn): (sets: seq<(Key, Value)>)
    ensures |sets| == 9
  {
    [(Status, if p.status == Some("completed") then VStr("completed") else VNone),
     (CompanyName, OptStr(p.companyName)),
     (CompanyIndustry, OptStr(p.companyIndustry)),
     (CompanySize, OptStr(p.companySize)),
     (ExecProfile, ExecProfileValue(p.execProfile)),
     (Selections, AnyValue(p.selections)),
     (Scores, AnyValue(p.scores)),
     (Responses, AnyValue(p.responses)),
     (Progress, ProgressValue(p.progress))]
  }

  /** The eight `set`s after the status one, applied to `d`. */
  function InviteSetsFrom(p: InviteUpdateIn, d: Doc): Doc
  {
    AnswerSetsFrom(p, ProfileSetsFrom(p, d))
  }

  /** The four `set`s of the company fields and the executive profile, applied to `d`. */
  function ProfileSetsFrom(p: InviteUpdateIn, d: Doc): Doc
  {
    SetValue(SetValue(SetValue(SetValue(d,
      CompanyName, OptStr(p.companyName)),
      CompanyIndustry, OptStr(p.companyIndustry)),
      CompanySize, OptStr(p.companySize)),
      ExecProfile, ExecProfileValue(p.execProfile))
  }

  /** The last four `set`s, of the answers and the progress, applied to `d`. */
  function AnswerSetsFrom(p: InviteUpdateIn, d: Doc): Doc
  {
    SetValue(SetValue(SetValue(SetValue(d,
      Selections, AnyValue(p.selections)),
      Scores, AnyValue(p.scores)),
      Responses, AnyValue(p.responses)),
      Progress, ProgressValue(p.progress))
  }

  /** The fold over the request's `set`s, written out call by call. */
  lemma InviteSetFieldsUnrolled(p: InviteUpdateIn)
    ensures InviteSetFields(p) ==
      InviteSetsFrom(p, SetValue(map[], Status, if p.status == Some("completed") then VStr("completed") else VNone))
  {
    var sets := InviteSets(p);
    InviteFrontUnrolled(p);
    SetAllStep(map[], sets, 9);
    SetAllStep(map[], sets, 8);
    SetAllStep(map[], sets, 7);
    SetAllStep(map[], sets, 6);
    assert sets[..9] == sets;
  }

  /** The first five `set`s of the fold, written out. */
  lemma InviteFrontUnrolled(p: InviteUpdateIn)
    ensures SetAll(map[], InviteSets(p)[..5]) ==
      ProfileSetsFrom(p, SetValue(map[], Status, if p.status == Some("completed") then VStr("completed") else VNone))
  {
    var sets := InviteSets(p);
    var d1 := SetValue(map[], Status, if p.status == Some("completed") then VStr("completed") else VNone);
    assert SetAll(map[], sets[..1]) == d1 by {
      SetAllStep(map[], sets, 1);
      assert sets[..0] == [];
    }
    var d2 := SetValue(d1, CompanyName, OptStr(p.companyName));
    assert SetAll(map[], sets[..2]) == d2 by {
      SetAllStep(map[], sets, 2);
    }
    var d3 := SetValue(d2, CompanyIndustry, OptStr(p.companyIndustry));
    assert SetAll(map[], sets[..3]) == d3 by {
      SetAllStep(map[], sets, 3);
    }
    var d4 := SetValue(d3, CompanySize, OptStr(p.companySize));
    assert SetAll(map[], sets[..4]) == d4 by {
      SetAllStep(map[], sets, 4);
    }
    assert SetAll(map[], sets[..5]) == SetValue(d4, ExecProfile, ExecProfileValue(p.execProfile)) by {
      SetAllStep(map[], sets, 5);
    }
  }

  lemma InviteSetsDistinct(p: InviteUpdateIn)
    ensures DistinctKeys(InviteSets(p))
  {
  }

  /** The respondent's `$set` fields before stamping, `set` by `set` on an empty payload. */
  function InviteSetFields(p: InviteUpdateIn): (r: Doc)
    ensures r.Keys <= {Status, CompanyName, CompanyIndustry, CompanySize, ExecProfile, Selections, Scores, Responses, Progress}
  {
    var sets := InviteSets(p);
    SetAllKeys(map[], sets);
    assert forall i :: 0 <= i < |sets| ==>
      sets[i].0 in {Status, CompanyName, CompanyIndustry, CompanySize, ExecProfile, Selections, Scores, Responses, Progress};
    SetAll(map[], sets)
  }

  /** The status is written only as "completed", and only when the request asks for exactly that; no field outside the request model is written. */
  lemma InviteSetStatus(p: InviteUpdateIn)
    ensures var r := InviteSetFields(p);
      && r.Keys <= {Status, CompanyName, CompanyIndustry, CompanySize, ExecProfile, Selections, Scores, Responses, Progress}
      && (Status in r <==> p.status == Some("completed"))
      && (Status in r ==> r[Status] == VStr("completed"))
  {
    var sets := InviteSets(p);
    InviteSetsDistinct(p);
    SetAllAt(map[], sets, 0);
    SetAllKeys(map[], sets);
    assert forall i :: 0 <= i < |sets| ==>
      sets[i].0 in {Status, CompanyName, CompanyIndustry, CompanySize, ExecProfile, Selections, Scores, Responses, Progress};
  }

  /** A company field is written exactly when the request carries it (an empty string included), with the request's value. */
  lemma InviteSetCompany(p: InviteUpdateIn)
    ensures var r := InviteSetFields(p);
      && (CompanyName in r <==> p.companyName.Some?)
      && (p.companyName.Some? ==> r[CompanyName] == VStr(p.companyName.value))
      && (CompanyIndustry in r <==> p.companyIndustry.Some?)
      && (p.companyIndustry.Some? ==> r[CompanyIndustry] == VStr(p.companyIndustry.value))
      && (CompanySize in r <==> p.companySize.Some?)
      && (p.companySize.Some? ==> r[CompanySize] == VStr(p.companySize.value))
  {
    var sets := InviteSets(p);
    InviteSetsDistinct(p);
    SetAllAt(map[], sets, 1);
    SetAllAt(map[], sets, 2);
    SetAllAt(map[], sets, 3);
  }

  /** The executive profile is rebuilt from its three fields; progress is stored as exactly its four fields. */
  lemma InviteSetProfileAndProgress(p: InviteUpdateIn)
    ensures var r := InviteSetFields(p);
      && (ExecProfile in r <==> p.execProfile.Some?)
      && (p.execProfile.Some? ==>
            r[ExecProfile] == VDoc(ExecProfileDocument(p.execProfile.value.name, p.execProfile.value.title, p.execProfile.value.email)))
      && (Progress in r <==> p.progress.Some?)
      && (p.progress.Some? ==> r[Progress] == VDoc(ProgressDict(p.progress.value)))
      && (p.progress.Some? ==> r[Progress].fields.Keys == {CompletedMetrics, TotalMetrics, Percent, UpdatedAt})
  {
    var sets := InviteSets(p);
    InviteSetsDistinct(p);
    SetAllAt(map[], sets, 4);
    SetAllAt(map[], sets, 8);
  }

  /** Selections, scores and responses are replaced wholesale whenever they are not null. */
  lemma InviteSetAnswers(p: InviteUpdateIn)
    ensures var r := InviteSetFields(p);
      && (Selections in r <==> !p.selections.JNull?)
      && (!p.selections.JNull? ==> r[Selections] == VJson(p.selections))
      && (Scores in r <==> !p.scores.JNull?)
      && (!p.scores.JNull? ==> r[Scores] == VJson(p.scores))
      && (Responses in r <==> !p.responses.JNull?)
      && (!p.responses.JNull? ==> r[Responses] == VJson(p.responses))
  {
    var sets := InviteSets(p);
    InviteSetsDistinct(p);
    SetAllAt(map[], sets, 5);
    SetAllAt(map[], sets, 6);
    SetAllAt(map[], sets, 7);
  }

  function ExecProfileValue(e: Option<ExecProfileIn>): (v: Value)
    ensures v.VNone? <==> e.None?
  {
    if e.Some? then VDoc(ExecProfileDocument(e.value.name, e.value.title, e.value.email)) else VNone
  }

  /** An `Any` request field as stored: null is `None`. */
  function AnyValue(j: Json): (v: Value)
    ensures v.VNone? <==> j.JNull?
  {
    if j.JNull? then VNone else VJson(j)
  }

  function ProgressValue(pr: Option<ProgressIn>): (v: Value)
    ensures v.VNone? <==> pr.None?
  {
    if pr.Some? then VDoc(ProgressDict(pr.value)) else VNone
  }

  /** The respondent can never set a status other than "completed": an open record stays "active" or becomes "completed". */
  lemma RespondentOnlyCompletes(d: Doc, p: InviteUpdateIn, now: int)
    requires InviteGuard(Some(d), now).None?
    ensures var r := ApplySet(d, Stamped(InviteSetFields(p), now));
      && (Get(r, Status) == VStr("completed") || Get(r, Status) == VStr("active"))
      && (Get(r, Status) == VStr("completed") <==> p.status == Some("completed"))
  {
    InviteSetStatus(p);
  }

  /** Unlike the TypeScript backend, an empty string from the respondent is stored. */
  lemma EmptyCompanyNameApplied(d: Doc, p: InviteUpdateIn, now: int)
    requires p.companyName == Some("")
    ensures Get(ApplySet(d, Stamped(InviteSetFields(p), now)), CompanyName) == VStr("")
  {
    InviteSetCompany(p);
  }

  // ---------------------------------------------------------------------
  // The server
  // ---------------------------------------------------------------------

  /** The backend's `assessments` collection. */
  class PyServer {
    var docs: seq<Doc>

    constructor (initial: seq<Doc>)
      ensures docs == initial
    {
      docs := initial;
    }

    /** `GET /api/assessments`. */
    method ListAssessments(userId: string) returns (r: Reply<seq<AssessmentResponse>>)
      ensures var items := ProjectAll(Listing(docs, userId));
        r == if items.Some? then Ok(items.value) else Error(500, ServerError)
    {
      var assessments := SortDesc(OwnedBy(docs, userId), CreatedKey);
      var items := ProjectAll(assessments);
      if items.None? {
        return Error(500, ServerError);
      }
      r := Ok(items.value);
    }

    /** `POST /api/assessments`; `token` is `generate_token()`'s and `id` the inserted ObjectId's hex. */
    method CreateAssessment(payload: AssessmentCreateIn, userId: string, token: string, id: string, now: int)
      returns (r: Reply<AssessmentResponse>)
      modifies this
      ensures var expiresAt := AddDays(now, payload.inviteDays);
        if expiresAt.None? then r == Error(500, ServerError) && docs == old(docs)
        else
          && r == Ok(CreatedResponse(payload, token, id, expiresAt.value))
          && docs == old(docs) + [NewDocument(payload, userId, token, id, expiresAt.value, now)]
    {
      var expiresAt := AddDays(now, payload.inviteDays);
      if expiresAt.None? {
        return Error(500, ServerError);
      }
      var document := AssessmentDocument(userId, payload.companyName, token, expiresAt.value,
        payload.companyIndustry, payload.companySize, now);
      document := document[Id := VId(id)];
      docs := docs + [document];
      r := Ok(AssessmentResponse(VId(id), VStr(payload.companyName), OptStr(payload.companyIndustry),
        OptStr(payload.companySize), VStr(token), VTime(expiresAt.value), VStr("active"), VNone));
    }

    /** `GET /api/assessments/{assessment_id}`. */
    method GetAssessment(assessmentId: string, userId: string) returns (r: Reply<AssessmentResponse>)
      ensures var oid := ParseObjectId(assessmentId);
        if oid.None? then r == Error(500, ServerError)
        else
          var i := IndexWhere(docs, Id, VId(oid.value));
          var e := OwnerGuard(At(docs, i), userId);
          if e.Some? then r == Error(e.value.0, e.value.1)
          else r == if Project(docs[i]).Some? then Ok(Project(docs[i]).value) else Error(500, ServerError)
    {
      var oid := ParseObjectId(assessmentId);
      if oid.None? {
        return Error(500, ServerError);
      }
      var i := IndexWhere(docs, Id, VId(oid.value));
      var e := OwnerGuard(At(docs, i), userId);
      if e.Some? {
        return Error(e.value.0, e.value.1);
      }
      var response := Project(docs[i]);
      if response.None? {
        return Error(500, ServerError);
      }
      r := Ok(response.value);
    }

    /** `PATCH /api/assessments/{assessment_id}`: the update accumulates field by field, then is written through the record's `_id`. */
    method UpdateAssessment(assessmentId: string, payload: AssessmentUpdateIn, userId: string, now: int)
      returns (r: Reply<bool>)
      modifies this
      ensures var oid := ParseObjectId(assessmentId);
        if oid.None? then r == Error(500, ServerError) && docs == old(docs)
        else
          var i := IndexWhere(old(docs), Id, VId(oid.value));
          var e := OwnerGuard(At(old(docs), i), userId);
          if e.Some? then r == Error(e.value.0, e.value.1) && docs == old(docs)
          else
            var expiresAt := if payload.inviteDays.Some? then AddDays(now, payload.inviteDays.value) else Some(0);
            if expiresAt.None? then r == Error(500, ServerError) && docs == old(docs)
            else
              && r == Ok(true)
              && docs == old(docs)[i := ApplySet(old(docs)[i], Stamped(OwnerSetFields(payload, expiresAt.value), now))]
    {
      var oid := ParseObjectId(assessmentId);
      if oid.None? {
        return Error(500, ServerError);
      }
      var i := IndexWhere(docs, Id, VId(oid.value));
      var e := OwnerGuard(At(docs, i), userId);
      if e.Some? {
        return Error(e.value.0, e.value.1);
      }
      var assessment := docs[i];
      var update := BuildOwnerUpdate(payload);
      var expiresAt := 0;
      if payload.inviteDays.Some? {
        var later := AddDays(now, payload.inviteDays.value);
        if later.None? {
          return Error(500, ServerError);
        }
        expiresAt := later.value;
        update.Set(InviteExpiresAt, VTime(expiresAt));
      }
      assert update.payload == OwnerSetFields(payload, expiresAt);
      var u := update.ToUpdate(now);
      assert Get(assessment, Id) == VId(oid.value);
      var j := IndexWhere(docs, Id, assessment[Id]);
      assert j == i;
      docs := docs[j := ApplySet(docs[j], u["$set"].fields)];
      r := Ok(true);
    }

    /** `GET /api/invite/{token}`. */
    method GetInvite(token: string, now: int) returns (r: Reply<InviteSnapshot>)
      ensures var i := IndexWhere(docs, InviteToken, VStr(token));
        var e := InviteGuard(At(docs, i), now);
        if e.Some? then r == Error(e.value.0, e.value.1)
        else r == if Snapshot(docs[i]).Some? then Ok(Snapshot(docs[i]).value) else Error(500, ServerError)
    {
      var i := IndexWhere(docs, InviteToken, VStr(token));
      var e := InviteGuard(At(docs, i), now);
      if e.Some? {
        return Error(e.value.0, e.value.1);
      }
      var snapshot := Snapshot(docs[i]);
      if snapshot.None? {
        return Error(500, ServerError);
      }
      r := Ok(snapshot.value);
    }

    /** `PATCH /api/invite/{token}`: the record found by token is written through its `_id`; a record without `_id` makes `assessment["_id"]` raise, which FastAPI answers with 500. */
    method UpdateInvite(token: string, payload: InviteUpdateIn, now: int) returns (r: Reply<bool>)
      modifies this
      ensures var i := IndexWhere(old(docs), InviteToken, VStr(token));
        var e := InviteGuard(At(old(docs), i), now);
        if e.Some? then r == Error(e.value.0, e.value.1) && docs == old(docs)
        else if Id !in old(docs)[i] then r == Error(500, ServerError) && docs == old(docs)
        else
          var j := IndexWhere(old(docs), Id, Get(old(docs)[i], Id));
          && r == Ok(true)
          && (j == -1 ==> docs == old(docs))
          && (j >= 0 ==> docs == old(docs)[j := ApplySet(old(docs)[j], Stamped(InviteSetFields(payload), now))])
    {
      var i := IndexWhere(docs, InviteToken, VStr(token));
      var e := InviteGuard(At(docs, i), now);
      if e.Some? {
        return Error(e.value.0, e.value.1);
      }
      var assessment := docs[i];
      if Id !in assessment {
        return Error(500, ServerError);
      }
      var update := BuildInviteUpdate(payload);
      var u := update.ToUpdate(now);
      var j := IndexWhere(docs, Id, Get(assessment, Id));
      if j >= 0 {
        docs := docs[j := ApplySet(docs[j], u["$set"].fields)];
      }
      r := Ok(true);
    }
  }

  /** The first half of the owner's update: status and company fields, each when present. */
  method BuildOwnerUpdate(payload: AssessmentUpdateIn) returns (update: AssessmentUpdate)
    ensures fresh(update)
    ensures update.payload == OwnerTextSets(payload)
  {
    update := new AssessmentUpdate(map[]);
    if payload.status.Some? {
      update.Set(Status, VStr(payload.status.value));
    }
    if payload.companyName.Some? {
      update.Set(CompanyName, VStr(payload.companyName.value));
    }
    if payload.companyIndustry.Some? {
      update.Set(CompanyIndustry, VStr(payload.companyIndustry.value));
    }
    if payload.companySize.Some? {
      update.Set(CompanySize, VStr(payload.companySize.value));
    }
  }

  /** The respondent's `AssessmentUpdate`, accumulated `set` by `set`. */
  method BuildInviteUpdate(payload: InviteUpdateIn) returns (update: AssessmentUpdate)
    ensures fresh(update)
    ensures update.payload == InviteSetFields(payload)
  {
    update := new AssessmentUpdate(map[]);
    if payload.status == Some("completed") {
      update.Set(Status, VStr("completed"));
    }
    if payload.companyName.Some? {
      update.Set(CompanyName, VStr(payload.companyName.value));
    }
    if payload.companyIndustry.Some? {
      update.Set(CompanyIndustry, VStr(payload.companyIndustry.value));
    }
    if payload.companySize.Some? {
      update.Set(CompanySize, VStr(payload.companySize.value));
    }
    if payload.execProfile.Some? {
      var profile := payload.execProfile.value;
      update.Set(ExecProfile, VDoc(ExecProfileDocument(profile.name, profile.title, profile.email)));
    }
    SetAnswers(update, payload);
    InviteSetFieldsUnrolled(payload);
  }

  /** The tail of the respondent's update: selections, scores, responses and progress, each when present. */
  method SetAnswers(update: AssessmentUpdate, payload: InviteUpdateIn)
    modifies update
    ensures update.payload == AnswerSetsFrom(payload, old(update.payload))
  {
    if !payload.selections.JNull? {
      update.Set(Selections, VJson(payload.selections));
    }
    if !payload.scores.JNull? {
      update.Set(Scores, VJson(payload.scores));
    }
    if !payload.responses.JNull? {
      update.Set(Responses, VJson(payload.responses));
    }
    if payload.progress.Some? {
      update.Set(Progress, VDoc(ProgressDict(payload.progress.value)));
    }
  }
}
