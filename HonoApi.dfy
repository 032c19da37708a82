/**
 * The TypeScript (Hono) backend's assessment routes: the owner's list,
 * create, read and update, and the respondent's invite read and update.
 * The `assessments` collection is a sequence of records in insertion order,
 * so `findOne` is the first match; each request runs atomically.
 */
module HonoApi {
  import opened Wrappers
  import opened Json
  import opened Text
  import opened Sorting
  import opened AuthCookie
  import opened ObjectIds

  /** Milliseconds per day (`24 * 60 * 60 * 1000`). */
  const DayMillis: int := 86_400_000

  /** The largest time value a JavaScript `Date` can hold (section 21.4.1.1 of ECMA-262). */
  const MaxTime: int := 8_640_000_000_000_000

  /** A JavaScript `Date`: a time value in milliseconds, or an Invalid Date. */
  datatype Date = Date(ms: int) | InvalidDate

  /** `new Date(ms)`: out-of-range (or NaN) time values give an Invalid Date. */
  function MakeDate(ms: Option<int>): (d: Date)
    ensures d.Date? <==> ms.Some? && -MaxTime <= ms.value <= MaxTime
    ensures d.Date? ==> d.ms == ms.value
  {
    if ms.Some? && -MaxTime <= ms.value <= MaxTime then Date(ms.value) else InvalidDate
  }

  /** `new Date(now + days * 24 * 60 * 60 * 1000)` for a `Number(...)` result (`None` is NaN). */
  function ExpiryAfter(days: Option<int>, now: int): Date
  {
    MakeDate(if days.Some? then Some(now + days.value * DayMillis) else None)
  }

  /** An in-range expiry `days` ahead has passed exactly when `days` is negative. */
  lemma ExpiryAfterDays(days: int, now: int)
    requires -MaxTime <= now + days * DayMillis <= MaxTime
    ensures ExpiryAfter(Some(days), now) == Date(now + days * DayMillis)
    ensures Expired(ExpiryAfter(Some(days), now), now) <==> days < 0
  {
    assert days < 0 <==> days * DayMillis < 0;
  }

  /** `expiresAt < now`; an Invalid Date compares false, as NaN does. */
  predicate Expired(expiresAt: Date, now: int)
  {
    expiresAt.Date? && expiresAt.ms < now
  }

  datatype ExecProfile = ExecProfile(name: string, title: string, email: string)

  /** A stored assessment; `JNull` marks a field that was never written. */
  datatype Assessment = Assessment(
    id: string,
    ownerId: string,
    companyName: string,
    companyIndustry: string,
    companySize: string,
    inviteToken: string,
    inviteExpiresAt: Date,
    status: string,
    execProfile: Option<ExecProfile>,
    selections: Json,
    scores: Json,
    responses: Json,
    progress: Json,
    createdAt: int,
    updatedAt: int)

  /** The `Partial<Assessment>` a handler builds and applies with `$set`. */
  datatype Updates = Updates(
    status: Option<string>,
    inviteExpiresAt: Option<Date>,
    companyName: Option<string>,
    companyIndustry: Option<string>,
    companySize: Option<string>,
    execProfile: Option<ExecProfile>,
    selections: Option<Json>,
    scores: Option<Json>,
    responses: Option<Json>,
    progress: Option<Json>,
    updatedAt: int)

  /** An update that sets nothing but the timestamp. */
  function Stamp(now: int): Updates
  {
    Updates(None, None, None, None, None, None, None, None, None, None, now)
  }

  /** `{ $set: updates }`: every named field is replaced, every other field kept. */
  function SetFields(a: Assessment, u: Updates): (r: Assessment)
    ensures r.id == a.id && r.ownerId == a.ownerId && r.inviteToken == a.inviteToken
    ensures r.createdAt == a.createdAt && r.updatedAt == u.updatedAt
    ensures r.status == u.status.GetOr(a.status)
    ensures r.inviteExpiresAt == u.inviteExpiresAt.GetOr(a.inviteExpiresAt)
    ensures r.companyName == u.companyName.GetOr(a.companyName)
    ensures r.companyIndustry == u.companyIndustry.GetOr(a.companyIndustry)
    ensures r.companySize == u.companySize.GetOr(a.companySize)
    ensures r.execProfile == (if u.execProfile.Some? then u.execProfile else a.execProfile)
    ensures r.selections == u.selections.GetOr(a.selections)
    ensures r.scores == u.scores.GetOr(a.scores)
    ensures r.responses == u.responses.GetOr(a.responses)
    ensures r.progress == u.progress.GetOr(a.progress)
  {
    a.(status := u.status.GetOr(a.status),
       inviteExpiresAt := u.inviteExpiresAt.GetOr(a.inviteExpiresAt),
       companyName := u.companyName.GetOr(a.companyName),
       companyIndustry := u.companyIndustry.GetOr(a.companyIndustry),
       companySize := u.companySize.GetOr(a.companySize),
       execProfile := if u.execProfile.Some? then u.execProfile else a.execProfile,
       selections := u.selections.GetOr(a.selections),
       scores := u.scores.GetOr(a.scores),
       responses := u.responses.GetOr(a.responses),
       progress := u.progress.GetOr(a.progress),
       updatedAt := u.updatedAt)
  }

  /** A handler's answer: a body, or an error status with its message. */
  datatype Reply<T> = Ok(value: T) | Error(code: int, message: string)

  datatype Created = Created(id: string, inviteToken: string)

  /** What the respondent may read: no owner, no token, no timestamps. */
  datatype InviteSnapshot = InviteSnapshot(
    id: string,
    companyName: string,
    companyIndustry: string,
    companySize: string,
    execProfile: Option<ExecProfile>,
    selections: Json,
    scores: Json,
    responses: Json,
    progress: Json,
    status: string)

  /** The invite read's projection: the record's id, company fields, answers and status. */
  function Snapshot(a: Assessment): (r: InviteSnapshot)
    ensures r.id == a.id && r.status == a.status
    ensures r.companyName == a.companyName && r.companyIndustry == a.companyIndustry && r.companySize == a.companySize
    ensures r.execProfile == a.execProfile
    ensures r.selections == a.selections && r.scores == a.scores && r.responses == a.responses && r.progress == a.progress
  {
    InviteSnapshot(a.id, a.companyName, a.companyIndustry, a.companySize, a.execProfile,
      a.selections, a.scores, a.responses, a.progress, a.status)
  }

  // ---------------------------------------------------------------------
  // Numbers from JSON
  // ---------------------------------------------------------------------

  predicate AllDigits(s: string)
  {
    forall k :: 0 <= k < |s| ==> '0' <= s[k] <= '9'
  }

  /** The value of a decimal digit string, most significant digit first. */
  function DigitsValue(s: string): nat
    requires AllDigits(s)
  {
    if |s| == 0 then 0 else DigitsValue(s[..|s| - 1]) * 10 + ((s[|s| - 1] as int) - ('0' as int))
  }

  /** `Number(s)` for integer strings (`None` is NaN): white space is trimmed, the empty string is 0. */
  function StringToNumber(s: string): Option<int>
  {
    TrimmedToNumber(Trim(s))
  }

  /** `Number` on a string whose surrounding white space is already gone. */
  function TrimmedToNumber(t: string): Option<int>
  {
    if t == "" then Some(0)
    else if t[0] == '-' && |t| > 1 && AllDigits(t[1..]) then Some(-(DigitsValue(t[1..]) as int))
    else if t[0] == '+' && |t| > 1 && AllDigits(t[1..]) then Some(DigitsValue(t[1..]))
    else if AllDigits(t) then Some(DigitsValue(t))
    else None
  }

  /** `Number(j)` (`None` is NaN); `JNull` here is `null`, which converts to 0. */
  function ToNumber(j: Json): Option<int>
  {
    match j
    case JNull => Some(0)
    case JBool(b) => Some(if b then 1 else 0)
    case JNum(n) => Some(n)
    case JStr(s) => StringToNumber(s)
    case JArr(items) =>
      if |items| == 0 then Some(0)
      else if |items| == 1 then StringToNumber(if items[0] == JNull then "" else ToJsString(items[0]))
      else None
    case JObj(_) => None
  }

  lemma {:induction false} DigitsOfNat(n: nat)
    ensures AllDigits(NatToString(n))
    ensures DigitsValue(NatToString(n)) == n
  {
    var s := NatToString(n);
    if n >= 10 {
      var init := NatToString(n / 10);
      DigitsOfNat(n / 10);
      assert s == init + [Digit(n % 10)];
      assert s[..|s| - 1] == init;
      assert (s[|s| - 1] as int) - ('0' as int) == n % 10;
      assert DigitsValue(s) == (n / 10) * 10 + n % 10;
    }
  }

  /** `Number(String(n))` gives back `n`: a number sent as a decimal string is read exactly. */
  lemma NumberOfString(n: int)
    ensures ToNumber(JStr(IntToString(n))) == Some(n)
    ensures ToNumber(JNum(n)) == Some(n)
  {
    if n < 0 {
      NegativeRoundTrip(-n);
    } else {
      NaturalRoundTrip(n);
    }
  }

  lemma NaturalRoundTrip(m: nat)
    ensures StringToNumber(IntToString(m)) == Some(m)
  {
    var d := NatToString(m);
    assert IntToString(m) == d;
    assert AllDigits(d) && DigitsValue(d) == m by {
      DigitsOfNat(m);
    }
    assert Trim(d) == d by {
      assert !IsSpace(d[0]) && !IsSpace(d[|d| - 1]);
      TrimNoop(d);
    }
    assert d[0] != '-' && d[0] != '+';
  }

  lemma NegativeRoundTrip(m: nat)
    requires m > 0
    ensures StringToNumber(IntToString(-(m as int))) == Some(-(m as int))
  {
    var d := NatToString(m);
    var s := "-" + d;
    assert IntToString(-(m as int)) == s;
    assert AllDigits(d) && DigitsValue(d) == m by {
      DigitsOfNat(m);
    }
    assert s[1..] == d;
    SignedDigitsUntrimmed(d);
  }

  /** A minus sign followed by digits has no white space to trim. */
  lemma SignedDigitsUntrimmed(d: string)
    requires |d| > 0 && AllDigits(d)
    ensures Trim("-" + d) == "-" + d
  {
    var s := "-" + d;
    assert s[|s| - 1] == d[|d| - 1];
    TrimNoop(s);
  }

  // ---------------------------------------------------------------------
  // Request bodies to updates
  // ---------------------------------------------------------------------

  /** `String(j)` when `j` is truthy, else nothing. */
  function StringIfTruthy(j: Json): (r: Option<string>)
    ensures r.Some? <==> Truthy(j)
    ensures r.Some? ==> r.value == ToJsString(j)
  {
    if Truthy(j) then Some(ToJsString(j)) else None
  }

  /** `j` itself when truthy, else nothing. */
  function IfTruthy(j: Json): (r: Option<Json>)
    ensures r.Some? <==> Truthy(j)
    ensures r.Some? ==> r.value == j
  {
    if Truthy(j) then Some(j) else None
  }

  /** `String(x ?? '')`. */
  function StringOrEmpty(j: Json): string
  {
    ToJsString(OrElse(j, JStr("")))
  }

  /** The respondent's `updates` for a PATCH body. */
  function InviteUpdates(body: Json, now: int): (u: Updates)
    ensures u.status.Some? ==> u.status.value == "completed"
    ensures u.inviteExpiresAt.None?
    ensures u.updatedAt == now
  {
    var profile := Field(body, "execProfile");
    Updates(
      if Field(body, "status") == JStr("completed") then Some("completed") else None,
      None,
      StringIfTruthy(Field(body, "companyName")),
      StringIfTruthy(Field(body, "companyIndustry")),
      StringIfTruthy(Field(body, "companySize")),
      if Truthy(profile) then
        Some(ExecProfile(StringOrEmpty(Field(profile, "name")), StringOrEmpty(Field(profile, "title")),
          StringOrEmpty(Field(profile, "email"))))
      else None,
      IfTruthy(Field(body, "selections")),
      IfTruthy(Field(body, "scores")),
      IfTruthy(Field(body, "responses")),
      IfTruthy(Field(body, "progress")),
      now)
  }

  /** The string a JSON value holds, if it is a string (`typeof x === 'string'`). */
  function IfString(j: Json): (r: Option<string>)
    ensures r.Some? <==> j.JStr?
    ensures r.Some? ==> r.value == j.s
  {
    if j.JStr? then Some(j.s) else None
  }

  /** The owner's `updates` for a PATCH body. */
  function OwnerUpdates(body: Json, now: int): (u: Updates)
    ensures u.status.Some? <==> Field(body, "status").JStr?
    ensures u.inviteExpiresAt.Some? <==> Field(body, "inviteDays").JNum?
    ensures u.execProfile.None? && u.selections.None? && u.scores.None? && u.responses.None? && u.progress.None?
    ensures u.updatedAt == now
  {
    var days := Field(body, "inviteDays");
    Updates(
      IfString(Field(body, "status")),
      if days.JNum? then Some(MakeDate(Some(now + days.n * DayMillis))) else None,
      IfString(Field(body, "companyName")),
      IfString(Field(body, "companyIndustry")),
      IfString(Field(body, "companySize")),
      None, None, None, None, None,
      now)
  }

  /** The record a create request inserts, or its 400 reply. */
  function NewAssessment(body: Json, ownerId: string, id: string, token: string, now: int): (r: Reply<Assessment>)
    ensures r.Error? ==> r == Error(400, "Company name required.")
    ensures r.Ok? ==> r.value.id == id && r.value.ownerId == ownerId && r.value.inviteToken == token
    ensures r.Ok? ==> r.value.companyName != "" && r.value.status == "active" && r.value.execProfile.None?
  {
    var companyName := Trim(StringOrEmpty(Field(body, "companyName")));
    var inviteDays := ToNumber(OrElse(Field(body, "inviteDays"), JNum(30)));
    var companyIndustry := Trim(StringOrEmpty(Field(body, "companyIndustry")));
    var companySize := Trim(StringOrEmpty(Field(body, "companySize")));
    if companyName == "" then Error(400, "Company name required.")
    else
      Ok(Assessment(id, ownerId, companyName, companyIndustry, companySize, token,
        ExpiryAfter(inviteDays, now), "active",
        None, JNull, JNull, JNull, JNull, now, now))
  }

  // ---------------------------------------------------------------------
  // Lookups and guards
  // ---------------------------------------------------------------------

  /** `findOne({ _id: id })`: the index of the first record with the id, or -1. */
  function IndexOfId(records: seq<Assessment>, id: string): (i: int)
    ensures -1 <= i < |records|
    ensures i == -1 <==> forall k :: 0 <= k < |records| ==> records[k].id != id
    ensures i >= 0 ==> records[i].id == id && forall k :: 0 <= k < i ==> records[k].id != id
  {
    if |records| == 0 then -1
    else if records[0].id == id then 0
    else
      var k := IndexOfId(records[1..], id);
      if k == -1 then -1 else k + 1
  }

  /** `findOne({ inviteToken: token })`: the index of the first record with the token, or -1. */
  function IndexOfToken(records: seq<Assessment>, token: string): (i: int)
    ensures -1 <= i < |records|
    ensures i == -1 <==> forall k :: 0 <= k < |records| ==> records[k].inviteToken != token
    ensures i >= 0 ==> records[i].inviteToken == token && forall k :: 0 <= k < i ==> records[k].inviteToken != token
  {
    if |records| == 0 then -1
    else if records[0].inviteToken == token then 0
    else
      var k := IndexOfToken(records[1..], token);
      if k == -1 then -1 else k + 1
  }

  /** The respondent routes' checks, in order: missing, not active, expired. */
  function InviteGuard(found: Option<Assessment>, now: int): (e: Option<(int, string)>)
    ensures found.None? ==> e == Some((404, "Not found."))
    ensures found.Some? && found.value.status != "active" ==> e == Some((403, "Assessment cancelled."))
    ensures found.Some? && found.value.status == "active" && Expired(found.value.inviteExpiresAt, now) ==>
      e == Some((403, "Invite expired."))
    ensures e.None? <==> found.Some? && found.value.status == "active" && !Expired(found.value.inviteExpiresAt, now)
  {
    if found.None? then Some((404, "Not found."))
    else if found.value.status != "active" then Some((403, "Assessment cancelled."))
    else if Expired(found.value.inviteExpiresAt, now) then Some((403, "Invite expired."))
    else None
  }

  /** The owner routes' checks after authentication, in order: missing, then someone else's. */
  function OwnerGuard(found: Option<Assessment>, userId: string): (e: Option<(int, string)>)
    ensures found.None? ==> e == Some((404, "Not found."))
    ensures found.Some? && found.value.ownerId != userId ==> e == Some((403, "Forbidden."))
    ensures e.None? <==> found.Some? && found.value.ownerId == userId
  {
    if found.None? then Some((404, "Not found."))
    else if found.value.ownerId != userId then Some((403, "Forbidden."))
    else None
  }

  function At(records: seq<Assessment>, i: int): Option<Assessment>
    requires -1 <= i < |records|
  {
    if i >= 0 then Some(records[i]) else None
  }

  /** The caller's records (`find({ ownerId })`), in collection order. */
  function OwnedBy(records: seq<Assessment>, userId: string): (r: seq<Assessment>)
    ensures forall a :: a in r <==> a in records && a.ownerId == userId
  {
    if |records| == 0 then []
    else if records[0].ownerId == userId then [records[0]] + OwnedBy(records[1..], userId)
    else OwnedBy(records[1..], userId)
  }

  function CreatedAt(a: Assessment): int
  {
    a.createdAt
  }

  /** The list reply: the caller's records, newest first. */
  function Listing(records: seq<Assessment>, userId: string): (r: seq<Assessment>)
    ensures SortedDesc(r, CreatedAt)
    ensures multiset(r) == multiset(OwnedBy(records, userId))
  {
    SortDesc(OwnedBy(records, userId), CreatedAt)
  }

  // ---------------------------------------------------------------------
  // Properties
  // ---------------------------------------------------------------------

  /** The list holds each of the caller's records, as often as stored, and nothing else, newest created first. */
  lemma ListingSpec(records: seq<Assessment>, userId: string)
    ensures var r := Listing(records, userId);
      && SortedDesc(r, CreatedAt)
      && multiset(r) == multiset(OwnedBy(records, userId))
      && forall a :: a in r <==> a in records && a.ownerId == userId
  {
    var r := Listing(records, userId);
    forall a ensures a in r <==> a in OwnedBy(records, userId) {
      assert a in r <==> a in multiset(r);
      assert a in OwnedBy(records, userId) <==> a in multiset(OwnedBy(records, userId));
    }
  }

  /** Expiry is strict: an invite is still open at the very millisecond it expires, and closed one millisecond later. */
  lemma ExpiryIsStrict(a: Assessment, t: int)
    requires a.status == "active" && a.inviteExpiresAt == Date(t)
    ensures InviteGuard(Some(a), t).None?
    ensures InviteGuard(Some(a), t + 1) == Some((403, "Invite expired."))
  {
  }

  /** A created record: trimmed company fields, status active, both timestamps now, expiry `inviteDays` (default 30) days ahead; an empty trimmed name is refused. */
  lemma NewAssessmentSpec(body: Json, ownerId: string, id: string, token: string, now: int)
    ensures var r := NewAssessment(body, ownerId, id, token, now);
      && (r.Error? <==> Trim(StringOrEmpty(Field(body, "companyName"))) == "")
      && (r.Error? ==> r == Error(400, "Company name required."))
      && (r.Ok? ==>
            && r.value.status == "active" && r.value.createdAt == now && r.value.updatedAt == now
            && r.value.ownerId == ownerId && r.value.id == id && r.value.inviteToken == token
            && r.value.companyName == Trim(StringOrEmpty(Field(body, "companyName")))
            && r.value.companyIndustry == Trim(StringOrEmpty(Field(body, "companyIndustry")))
            && r.value.companySize == Trim(StringOrEmpty(Field(body, "companySize")))
            && r.value.execProfile.None?
            && r.value.selections == JNull && r.value.scores == JNull && r.value.responses == JNull
            && r.value.progress == JNull
            && (Field(body, "inviteDays") == JNull ==>
                  r.value.inviteExpiresAt == ExpiryAfter(Some(30), now)))
  {
    var name := Trim(StringOrEmpty(Field(body, "companyName")));
    var days := ToNumber(OrElse(Field(body, "inviteDays"), JNum(30)));
    var r := NewAssessment(body, ownerId, id, token, now);
    if name != "" {
      assert r.value == Assessment(id, ownerId, name, Trim(StringOrEmpty(Field(body, "companyIndustry"))),
        Trim(StringOrEmpty(Field(body, "companySize"))), token, ExpiryAfter(days, now), "active",
        None, JNull, JNull, JNull, JNull, now, now);
      if Field(body, "inviteDays") == JNull {
        assert days == Some(30);
      }
    }
  }

  /** The expiry of a created record comes from `Number(inviteDays ?? 30)`. */
  lemma NewAssessmentExpiry(body: Json, ownerId: string, id: string, token: string, now: int)
    requires NewAssessment(body, ownerId, id, token, now).Ok?
    ensures NewAssessment(body, ownerId, id, token, now).value.status == "active"
    ensures NewAssessment(body, ownerId, id, token, now).value.inviteExpiresAt
      == ExpiryAfter(ToNumber(OrElse(Field(body, "inviteDays"), JNum(30))), now)
  {
  }

  /** A new invite opened with a non-negative `inviteDays` can be used at once; a negative one is already expired. */
  lemma FreshInviteUsable(body: Json, ownerId: string, id: string, token: string, now: int, days: int)
    requires NewAssessment(body, ownerId, id, token, now).Ok?
    requires Field(body, "inviteDays") == JNum(days)
    requires -MaxTime <= now + days * DayMillis <= MaxTime
    ensures var a := NewAssessment(body, ownerId, id, token, now).value;
      InviteGuard(Some(a), now).None? <==> days >= 0
  {
    var a := NewAssessment(body, ownerId, id, token, now).value;
    var n := ToNumber(OrElse(Field(body, "inviteDays"), JNum(30)));
    NewAssessmentExpiry(body, ownerId, id, token, now);
    assert n == Some(days);
    assert a.inviteExpiresAt == ExpiryAfter(n, now);
    ExpiryAfterDays(days, now);
  }

  /** The respondent can never set a status other than "completed", so the record stays active or becomes completed. */
  lemma RespondentOnlyCompletes(a: Assessment, body: Json, now: int)
    requires InviteGuard(Some(a), now).None?
    ensures SetFields(a, InviteUpdates(body, now)).status in {"active", "completed"}
    ensures SetFields(a, InviteUpdates(body, now)).status == "completed" <==> Field(body, "status") == JStr("completed")
  {
  }

  /** The respondent's patch applies company fields only when truthy (empty strings are ignored), defaults missing profile fields to '', replaces answer data wholesale, always stamps the time, and never touches identity, owner, token or expiry. */
  lemma InviteUpdatesSpec(a: Assessment, body: Json, now: int)
    ensures var r := SetFields(a, InviteUpdates(body, now));
      && r.status == (if Field(body, "status") == JStr("completed") then "completed" else a.status)
      && r.companyName == (if Truthy(Field(body, "companyName")) then ToJsString(Field(body, "companyName")) else a.companyName)
      && r.companyIndustry == (if Truthy(Field(body, "companyIndustry")) then ToJsString(Field(body, "companyIndustry")) else a.companyIndustry)
      && r.companySize == (if Truthy(Field(body, "companySize")) then ToJsString(Field(body, "companySize")) else a.companySize)
      && (Field(body, "companyName") == JStr("") ==> r.companyName == a.companyName)
      && r.selections == (if Truthy(Field(body, "selections")) then Field(body, "selections") else a.selections)
      && r.scores == (if Truthy(Field(body, "scores")) then Field(body, "scores") else a.scores)
      && r.responses == (if Truthy(Field(body, "responses")) then Field(body, "responses") else a.responses)
      && r.progress == (if Truthy(Field(body, "progress")) then Field(body, "progress") else a.progress)
      && (!Truthy(Field(body, "execProfile")) ==> r.execProfile == a.execProfile)
      && (Truthy(Field(body, "execProfile")) ==> r.execProfile.Some?)
      && (Truthy(Field(body, "execProfile")) && Field(Field(body, "execProfile"), "name") == JNull ==>
            r.execProfile.Some? && r.execProfile.value.name == "")
      && (Truthy(Field(body, "execProfile")) && Field(Field(body, "execProfile"), "title") == JNull ==>
            r.execProfile.Some? && r.execProfile.value.title == "")
      && (Truthy(Field(body, "execProfile")) && Field(Field(body, "execProfile"), "email") == JNull ==>
            r.execProfile.Some? && r.execProfile.value.email == "")
      && (Truthy(Field(body, "execProfile")) && Field(Field(body, "execProfile"), "name").JStr? ==>
            r.execProfile.Some? && r.execProfile.value.name == Field(Field(body, "execProfile"), "name").s)
      && (Truthy(Field(body, "execProfile")) && Field(Field(body, "execProfile"), "title").JStr? ==>
            r.execProfile.Some? && r.execProfile.value.title == Field(Field(body, "execProfile"), "title").s)
      && (Truthy(Field(body, "execProfile")) && Field(Field(body, "execProfile"), "email").JStr? ==>
            r.execProfile.Some? && r.execProfile.value.email == Field(Field(body, "execProfile"), "email").s)
      && r.updatedAt == now
      && r.id == a.id && r.ownerId == a.ownerId && r.inviteToken == a.inviteToken
      && r.inviteExpiresAt == a.inviteExpiresAt && r.createdAt == a.createdAt
  {
  }

  /** Once the respondent completes an invite, every later invite request is refused as cancelled. */
  lemma CompletedInviteIsClosed(a: Assessment, body: Json, now: int, later: int)
    requires Field(body, "status") == JStr("completed")
    ensures InviteGuard(Some(SetFields(a, InviteUpdates(body, now))), later) == Some((403, "Assessment cancelled."))
  {
  }

  /** The owner's patch takes any string status (so a cancelled or completed invite can be re-opened), applies string company fields even when empty, and moves the expiry to `inviteDays` days from now. */
  lemma OwnerUpdatesSpec(a: Assessment, body: Json, now: int)
    ensures var r := SetFields(a, OwnerUpdates(body, now));
      && (Field(body, "status").JStr? ==> r.status == Field(body, "status").s)
      && (!Field(body, "status").JStr? ==> r.status == a.status)
      && (Field(body, "companyName") == JStr("") ==> r.companyName == "")
      && (Field(body, "companyName").JStr? ==> r.companyName == Field(body, "companyName").s)
      && (!Field(body, "companyName").JStr? ==> r.companyName == a.companyName)
      && (Field(body, "companyIndustry").JStr? ==> r.companyIndustry == Field(body, "companyIndustry").s)
      && (!Field(body, "companyIndustry").JStr? ==> r.companyIndustry == a.companyIndustry)
      && (Field(body, "companySize").JStr? ==> r.companySize == Field(body, "companySize").s)
      && (!Field(body, "companySize").JStr? ==> r.companySize == a.companySize)
      && (Field(body, "inviteDays").JNum? ==>
            r.inviteExpiresAt == MakeDate(Some(now + Field(body, "inviteDays").n * DayMillis)))
      && (!Field(body, "inviteDays").JNum? ==> r.inviteExpiresAt == a.inviteExpiresAt)
      && r.updatedAt == now && r.execProfile == a.execProfile && r.scores == a.scores
      && r.selections == a.selections && r.responses == a.responses && r.progress == a.progress
      && r.id == a.id && r.ownerId == a.ownerId && r.inviteToken == a.inviteToken && r.createdAt == a.createdAt
  {
  }

  /** An owner can re-open a completed assessment, after which the invite works again until it expires. */
  lemma OwnerCanReopen(a: Assessment, now: int, later: int)
    requires a.status == "completed" && !Expired(a.inviteExpiresAt, later)
    ensures var body := JObj(map["status" := JStr("active")]);
      InviteGuard(Some(SetFields(a, OwnerUpdates(body, now))), later).None?
  {
    var body := JObj(map["status" := JStr("active")]);
    assert Field(body, "status") == JStr("active");
    assert Field(body, "inviteDays") == JNull;
  }

  /** The owner PATCH handler's field-by-field construction of `updates`. */
  method BuildOwnerUpdates(body: Json, now: int) returns (updates: Updates)
    ensures updates == OwnerUpdates(body, now)
  {
    updates := Stamp(now);
    var status := Field(body, "status");
    if status.JStr? {
      updates := updates.(status := Some(status.s));
    }
    var days := Field(body, "inviteDays");
    if days.JNum? {
      updates := updates.(inviteExpiresAt := Some(MakeDate(Some(now + days.n * DayMillis))));
    }
    var name := Field(body, "companyName");
    if name.JStr? {
      updates := updates.(companyName := Some(name.s));
    }
    var industry := Field(body, "companyIndustry");
    if industry.JStr? {
      updates := updates.(companyIndustry := Some(industry.s));
    }
    var size := Field(body, "companySize");
    if size.JStr? {
      updates := updates.(companySize := Some(size.s));
    }
  }

  /** The respondent PATCH handler's field-by-field construction of `updates`. */
  method BuildInviteUpdates(body: Json, now: int) returns (updates: Updates)
    ensures updates == InviteUpdates(body, now)
  {
    updates := Stamp(now);
    if Field(body, "status") == JStr("completed") {
      updates := updates.(status := Some("completed"));
    }
    if Truthy(Field(body, "companyName")) {
      updates := updates.(companyName := Some(ToJsString(Field(body, "companyName"))));
    }
    if Truthy(Field(body, "companyIndustry")) {
      updates := updates.(companyIndustry := Some(ToJsString(Field(body, "companyIndustry"))));
    }
    if Truthy(Field(body, "companySize")) {
      updates := updates.(companySize := Some(ToJsString(Field(body, "companySize"))));
    }
    var profile := Field(body, "execProfile");
    if Truthy(profile) {
      updates := updates.(execProfile := Some(ExecProfile(
        StringOrEmpty(Field(profile, "name")),
        StringOrEmpty(Field(profile, "title")),
        StringOrEmpty(Field(profile, "email")))));
    }
    updates := SetInviteAnswers(body, updates);
  }

  /** The tail of the respondent's `updates`: selections, scores, responses and progress, each when truthy. */
  method SetInviteAnswers(body: Json, prefix: Updates) returns (updates: Updates)
    requires prefix.selections.None? && prefix.scores.None? && prefix.responses.None? && prefix.progress.None?
    ensures updates == prefix.(selections := IfTruthy(Field(body, "selections")), scores := IfTruthy(Field(body, "scores")),
                               responses := IfTruthy(Field(body, "responses")), progress := IfTruthy(Field(body, "progress")))
  {
    updates := prefix;
    if Truthy(Field(body, "selections")) {
      updates := updates.(selections := Some(Field(body, "selections")));
    }
    if Truthy(Field(body, "scores")) {
      updates := updates.(scores := Some(Field(body, "scores")));
    }
    if Truthy(Field(body, "responses")) {
      updates := updates.(responses := Some(Field(body, "responses")));
    }
    if Truthy(Field(body, "progress")) {
      updates := updates.(progress := Some(Field(body, "progress")));
    }
  }

  // ---------------------------------------------------------------------
  // The server
  // ---------------------------------------------------------------------

  /** The backend's `assessments` collection. */
  class HonoServer {
    var records: seq<Assessment>

    constructor (initial: seq<Assessment>)
      ensures records == initial
    {
      records := initial;
    }

    /** `GET /api/assessments`. */
    method ListAssessments(cookie: Option<string>, sessions: map<string, string>)
      returns (r: Reply<seq<Assessment>>)
      ensures Authenticate(cookie, sessions).None? ==> r == Error(401, "Unauthorized")
      ensures Authenticate(cookie, sessions).Some? ==> r == Ok(Listing(records, Authenticate(cookie, sessions).value))
    {
      var userId := Authenticate(cookie, sessions);
      if userId.None? {
        return Error(401, "Unauthorized");
      }
      var assessments := SortDesc(OwnedBy(records, userId.value), CreatedAt);
      r := Ok(assessments);
    }

    /** `POST /api/assessments`; `id` and `token` are the identifiers the database and `randomUUID` supply. */
    method CreateAssessment(cookie: Option<string>, sessions: map<string, string>, body: Json,
                            id: string, token: string, now: int) returns (r: Reply<Created>)
      modifies this
      ensures Authenticate(cookie, sessions).None? ==>
        r == Error(401, "Unauthorized") && records == old(records)
      ensures Authenticate(cookie, sessions).Some? ==>
        var created := NewAssessment(body, Authenticate(cookie, sessions).value, id, token, now);
        if created.Error? then r == Error(created.code, created.message) && records == old(records)
        else r == Ok(Created(id, token)) && records == old(records) + [created.value]
    {
      var userId := Authenticate(cookie, sessions);
      if userId.None? {
        return Error(401, "Unauthorized");
      }
      var companyName := Trim(StringOrEmpty(Field(body, "companyName")));
      var inviteDays := ToNumber(OrElse(Field(body, "inviteDays"), JNum(30)));
      var companyIndustry := Trim(StringOrEmpty(Field(body, "companyIndustry")));
      var companySize := Trim(StringOrEmpty(Field(body, "companySize")));
      if companyName == "" {
        return Error(400, "Company name required.");
      }
      var expiresAt := ExpiryAfter(inviteDays, now);
      var assessment := Assessment(id, userId.value, companyName, companyIndustry, companySize, token,
        expiresAt, "active", None, JNull, JNull, JNull, JNull, now, now);
      records := records + [assessment];
      r := Ok(Created(id, token));
    }

    /** `GET /api/assessments/:id`; an id that is not an ObjectId makes `new ObjectId` throw, which Hono answers with 500. */
    method GetAssessment(cookie: Option<string>, sessions: map<string, string>, id: string)
      returns (r: Reply<Assessment>)
      ensures Authenticate(cookie, sessions).None? ==> r == Error(401, "Unauthorized")
      ensures Authenticate(cookie, sessions).Some? && ParseObjectId(id).None? ==>
        r == Error(500, "Internal Server Error")
      ensures Authenticate(cookie, sessions).Some? && ParseObjectId(id).Some? ==>
        var i := IndexOfId(records, ParseObjectId(id).value);
        var e := OwnerGuard(At(records, i), Authenticate(cookie, sessions).value);
        if e.Some? then r == Error(e.value.0, e.value.1) else r == Ok(records[i])
    {
      var userId := Authenticate(cookie, sessions);
      if userId.None? {
        return Error(401, "Unauthorized");
      }
      var oid := ParseObjectId(id);
      if oid.None? {
        return Error(500, "Internal Server Error");
      }
      var i := IndexOfId(records, oid.value);
      if i < 0 {
        return Error(404, "Not found.");
      }
      if records[i].ownerId != userId.value {
        return Error(403, "Forbidden.");
      }
      r := Ok(records[i]);
    }

    /** `PATCH /api/assessments/:id`; as for the read, an id that is not an ObjectId gives 500 and changes nothing. */
    method PatchAssessment(cookie: Option<string>, sessions: map<string, string>, id: string,
                           body: Json, now: int) returns (r: Reply<bool>)
      modifies this
      ensures Authenticate(cookie, sessions).None? ==>
        r == Error(401, "Unauthorized") && records == old(records)
      ensures Authenticate(cookie, sessions).Some? && ParseObjectId(id).None? ==>
        r == Error(500, "Internal Server Error") && records == old(records)
      ensures Authenticate(cookie, sessions).Some? && ParseObjectId(id).Some? ==>
        var i := IndexOfId(old(records), ParseObjectId(id).value);
        var e := OwnerGuard(At(old(records), i), Authenticate(cookie, sessions).value);
        if e.Some? then r == Error(e.value.0, e.value.1) && records == old(records)
        else r == Ok(true) && records == old(records)[i := SetFields(old(records)[i], OwnerUpdates(body, now))]
    {
      var userId := Authenticate(cookie, sessions);
      if userId.None? {
        return Error(401, "Unauthorized");
      }
      var oid := ParseObjectId(id);
      if oid.None? {
        return Error(500, "Internal Server Error");
      }
      var i := IndexOfId(records, oid.value);
      if i < 0 {
        return Error(404, "Not found.");
      }
      if records[i].ownerId != userId.value {
        return Error(403, "Forbidden.");
      }
      var updates := BuildOwnerUpdates(body, now);
      records := records[i := SetFields(records[i], updates)];
      r := Ok(true);
    }

    /** `GET /api/invite/:token`. */
    method GetInvite(token: string, now: int) returns (r: Reply<InviteSnapshot>)
      ensures var i := IndexOfToken(records, token);
        var e := InviteGuard(At(records, i), now);
        if e.Some? then r == Error(e.value.0, e.value.1) else r == Ok(Snapshot(records[i]))
    {
      var i := IndexOfToken(records, token);
      if i < 0 {
        return Error(404, "Not found.");
      }
      var assessment := records[i];
      if assessment.status != "active" {
        return Error(403, "Assessment cancelled.");
      }
      if Expired(assessment.inviteExpiresAt, now) {
        return Error(403, "Invite expired.");
      }
      r := Ok(Snapshot(assessment));
    }

    /** `PATCH /api/invite/:token`: the record found by token is updated through its id. */
    method PatchInvite(token: string, body: Json, now: int) returns (r: Reply<bool>)
      modifies this
      ensures var i := IndexOfToken(old(records), token);
        var e := InviteGuard(At(old(records), i), now);
        if e.Some? then r == Error(e.value.0, e.value.1) && records == old(records)
        else
          var j := IndexOfId(old(records), old(records)[i].id);
          && r == Ok(true)
          && records == old(records)[j := SetFields(old(records)[j], InviteUpdates(body, now))]
    {
      var i := IndexOfToken(records, token);
      if i < 0 {
        return Error(404, "Not found.");
      }
      var assessment := records[i];
      if assessment.status != "active" {
        return Error(403, "Assessment cancelled.");
      }
      if Expired(assessment.inviteExpiresAt, now) {
        return Error(403, "Invite expired.");
      }
      var updates := BuildInviteUpdates(body, now);
      var j := IndexOfId(records, assessment.id);
      records := records[j := SetFields(records[j], updates)];
      r := Ok(true);
    }
  }
}
