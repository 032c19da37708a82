/**
 * The Python (FastAPI) backend's document helpers: the dictionaries it
 * stores in MongoDB and the sparse `$set` update it accumulates before a
 * write. A stored document is a map from field name to value; a Python
 * `None` is the value `VNone`.
 */
module PyModels {
  import opened Wrappers
  import opened Json

  /** The field names the backend reads and writes; `KeyName` gives each one's spelling in the dictionaries. */
  datatype Key =
    | Id | OwnerId | CompanyName | CompanyIndustry | CompanySize | InviteToken | InviteExpiresAt
    | Status | CreatedAt | UpdatedAt | ExecProfile | Selections | Scores | Responses | Progress
    | Name | Title | Email | CompletedMetrics | TotalMetrics | Percent

  function KeyName(k: Key): string
  {
    match k
    case Id => "_id"
    case OwnerId => "owner_id"
    case CompanyName => "company_name"
    case CompanyIndustry => "company_industry"
    case CompanySize => "company_size"
    case InviteToken => "invite_token"
    case InviteExpiresAt => "invite_expires_at"
    case Status => "status"
    case CreatedAt => "created_at"
    case UpdatedAt => "updated_at"
    case ExecProfile => "exec_profile"
    case Selections => "selections"
    case Scores => "scores"
    case Responses => "responses"
    case Progress => "progress"
    case Name => "name"
    case Title => "title"
    case Email => "email"
    case CompletedMetrics => "completed_metrics"
    case TotalMetrics => "total_metrics"
    case Percent => "percent"
  }

  /** Distinct keys are distinct dictionary keys, so a map over `Key` is a dictionary over their names. */
  lemma KeyNameInjective(a: Key, b: Key)
    ensures KeyName(a) == KeyName(b) ==> a == b
  {
    if KeyName(a) == KeyName(b) {
      assert |KeyName(a)| == |KeyName(b)| && KeyName(a)[0] == KeyName(b)[0];
      assert KeyName(a)[|KeyName(a)| - 1] == KeyName(b)[|KeyName(b)| - 1];
    }
  }

  /**
   * A stored Python value: `None`, an int, a str, a datetime (milliseconds
   * from the epoch), an ObjectId (lower-case hex), a dictionary the backend
   * builds, or a client-supplied `Any` value as JSON (never `JNull`, which
   * the request model turns into `None`).
   */
  datatype Value =
    | VNone
    | VInt(i: int)
    | VStr(s: string)
    | VTime(ms: int)
    | VId(hex: string)
    | VDoc(fields: map<Key, Value>)
    | VJson(json: Json)

  /** A stored document or a dictionary built for one. */
  type Doc = map<Key, Value>

  /** An `Optional[str]` as a stored value. */
  function OptStr(s: Option<string>): (v: Value)
    ensures v.VNone? <==> s.None?
    ensures s.Some? ==> v == VStr(s.value)
  {
    if s.Some? then VStr(s.value) else VNone
  }

  /** `AssessmentDocument.create`: the new record, status "active", both timestamps `now`; optional company fields are stored even when `None`. */
  function AssessmentDocument(ownerId: string, companyName: string, inviteToken: string, inviteExpiresAt: int,
                              companyIndustry: Option<string>, companySize: Option<string>, now: int): (d: Doc)
    ensures d.Keys == {OwnerId, CompanyName, CompanyIndustry, CompanySize, InviteToken,
                       InviteExpiresAt, Status, CreatedAt, UpdatedAt}
    ensures d[Status] == VStr("active")
    ensures d[CreatedAt] == d[UpdatedAt] == VTime(now)
    ensures d[OwnerId] == VStr(ownerId) && d[CompanyName] == VStr(companyName)
    ensures d[InviteToken] == VStr(inviteToken) && d[InviteExpiresAt] == VTime(inviteExpiresAt)
    ensures d[CompanyIndustry] == OptStr(companyIndustry) && d[CompanySize] == OptStr(companySize)
  {
    map[
      OwnerId := VStr(ownerId),
      CompanyName := VStr(companyName),
      CompanyIndustry := OptStr(companyIndustry),
      CompanySize := OptStr(companySize),
      InviteToken := VStr(inviteToken),
      InviteExpiresAt := VTime(inviteExpiresAt),
      Status := VStr("active"),
      CreatedAt := VTime(now),
      UpdatedAt := VTime(now)]
  }

  /** `ExecProfileDocument.create`: the three fields copied verbatim. */
  function ExecProfileDocument(name: string, title: string, email: string): (d: Doc)
    ensures d.Keys == {Name, Title, Email}
    ensures d[Name] == VStr(name) && d[Title] == VStr(title) && d[Email] == VStr(email)
  {
    map[Name := VStr(name), Title := VStr(title), Email := VStr(email)]
  }

  /** `ProgressDocument.create`: `updated_at or now()`; a datetime is always truthy, so only `None` falls back to now. */
  function ProgressDocument(completedMetrics: int, totalMetrics: int, percent: int, updatedAt: Option<int>, now: int): (d: Doc)
    ensures d.Keys == {CompletedMetrics, TotalMetrics, Percent, UpdatedAt}
    ensures d[CompletedMetrics] == VInt(completedMetrics) && d[TotalMetrics] == VInt(totalMetrics)
    ensures d[Percent] == VInt(percent)
    ensures d[UpdatedAt] == VTime(updatedAt.GetOr(now))
  {
    map[
      CompletedMetrics := VInt(completedMetrics),
      TotalMetrics := VInt(totalMetrics),
      Percent := VInt(percent),
      UpdatedAt := if updatedAt.Some? then VTime(updatedAt.value) else VTime(now)]
  }

  /** The payload after `AssessmentUpdate.set(key, value)`. */
  function SetValue(payload: Doc, key: Key, value: Value): (r: Doc)
    ensures value.VNone? ==> r == payload
    ensures !value.VNone? ==> key in r && r[key] == value
  {
    if !value.VNone? then payload[key := value] else payload
  }

  /** `set` skips `None`; anything else overwrites `key`; no other key moves. */
  lemma SetValueEffect(payload: Doc, key: Key, value: Value)
    ensures var r := SetValue(payload, key, value);
      && (value.VNone? ==> r == payload)
      && (!value.VNone? ==> key in r && r[key] == value)
      && r.Keys == (if value.VNone? then payload.Keys else payload.Keys + {key})
      && forall k :: k in payload && k != key ==> r[k] == payload[k]
  {
  }

  /** A later `set` of the same key wins over an earlier one, whatever the earlier one did. */
  lemma SetLaterWins(payload: Doc, key: Key, first: Value, second: Value)
    requires !second.VNone?
    ensures SetValue(SetValue(payload, key, first), key, second) == SetValue(payload, key, second)
  {
  }

  /** Sets on different keys commute. */
  lemma SetsCommute(payload: Doc, k1: Key, v1: Value, k2: Key, v2: Value)
    requires k1 != k2
    ensures SetValue(SetValue(payload, k1, v1), k2, v2) == SetValue(SetValue(payload, k2, v2), k1, v1)
  {
  }

  /** The payload after `set`ting each (key, value) pair in turn, first pair first. */
  function SetAll(payload: Doc, sets: seq<(Key, Value)>): (r: Doc)
    ensures payload.Keys <= r.Keys
    ensures sets == [] ==> r == payload
    decreases |sets|
  {
    if sets == [] then payload
    else
      var last := sets[|sets| - 1];
      SetValue(SetAll(payload, sets[..|sets| - 1]), last.0, last.1)
  }

  /** No key is `set` twice. */
  predicate DistinctKeys(sets: seq<(Key, Value)>)
  {
    forall i, j :: 0 <= i < j < |sets| ==> sets[i].0 != sets[j].0
  }

  /** One more `set` after a run of them. */
  lemma SetAllStep(payload: Doc, sets: seq<(Key, Value)>, n: nat)
    requires 0 < n <= |sets|
    ensures SetAll(payload, sets[..n]) == SetValue(SetAll(payload, sets[..n - 1]), sets[n - 1].0, sets[n - 1].1)
  {
    assert sets[..n][..n - 1] == sets[..n - 1];
  }

  /** A key no pair names keeps its stored value, or stays absent. */
  lemma {:induction false} SetAllUntouched(payload: Doc, sets: seq<(Key, Value)>, k: Key)
    requires forall i :: 0 <= i < |sets| ==> sets[i].0 != k
    ensures var r := SetAll(payload, sets);
      (k in r <==> k in payload) && (k in payload ==> r[k] == payload[k])
  {
    if sets != [] {
      SetAllUntouched(payload, sets[..|sets| - 1], k);
    }
  }

  /** With distinct keys, a pair with a value leaves exactly that value, and a `None` pair leaves the key as it was. */
  lemma {:induction false} SetAllAt(payload: Doc, sets: seq<(Key, Value)>, i: nat)
    requires DistinctKeys(sets) && i < |sets|
    ensures var r := SetAll(payload, sets);
      var k, v := sets[i].0, sets[i].1;
      && (!v.VNone? ==> k in r && r[k] == v)
      && (v.VNone? ==> (k in r <==> k in payload) && (k in payload ==> r[k] == payload[k]))
  {
    var n := |sets| - 1;
    var front := sets[..n];
    if i == n {
      SetAllUntouched(payload, front, sets[i].0);
    } else {
      assert DistinctKeys(front) && front[i] == sets[i];
      SetAllAt(payload, front, i);
    }
  }

  /** A run of `set`s adds only keys that some pair names. */
  lemma {:induction false} SetAllKeys(payload: Doc, sets: seq<(Key, Value)>)
    ensures forall k :: k in SetAll(payload, sets) ==>
      k in payload || exists i :: 0 <= i < |sets| && sets[i].0 == k
  {
    if sets != [] {
      var n := |sets| - 1;
      SetAllKeys(payload, sets[..n]);
      forall k | k in SetAll(payload, sets)
        ensures k in payload || exists i :: 0 <= i < |sets| && sets[i].0 == k
      {
        if k != sets[n].0 && k !in payload {
          var i :| 0 <= i < n && sets[..n][i].0 == k;
          assert sets[i].0 == k;
        }
      }
    }
  }

  /** What `to_update` leaves in the payload: `updated_at` is always stamped. */
  function Stamped(payload: Doc, now: int): (r: Doc)
    ensures r.Keys == payload.Keys + {UpdatedAt}
    ensures r[UpdatedAt] == VTime(now)
    ensures forall k :: k in payload && k != UpdatedAt ==> r[k] == payload[k]
  {
    payload[UpdatedAt := VTime(now)]
  }

  /** MongoDB's `$set` of top-level fields: the named fields take the new values, every other field is kept. */
  function ApplySet(record: Doc, fields: Doc): (r: Doc)
    ensures r.Keys == record.Keys + fields.Keys
    ensures forall k :: k in fields ==> r[k] == fields[k]
    ensures forall k :: k in record && k !in fields ==> r[k] == record[k]
  {
    record + fields
  }

  /** Applying a stamped payload: the fields never set keep their stored values, the set ones take the payload's, and `updated_at` is now. */
  lemma StampedUpdateEffect(record: Doc, payload: Doc, now: int)
    ensures var r := ApplySet(record, Stamped(payload, now));
      && r[UpdatedAt] == VTime(now)
      && (forall k :: k in payload && k != UpdatedAt ==> r[k] == payload[k])
      && (forall k :: k in record && k !in payload && k != UpdatedAt ==> r[k] == record[k])
      && r.Keys == record.Keys + payload.Keys + {UpdatedAt}
  {
  }

  /** The update builder: a payload dictionary changed in place by `set` and `to_update`. */
  class AssessmentUpdate {
    var payload: Doc

    constructor (payload: Doc)
      ensures this.payload == payload
    {
      this.payload := payload;
    }

    method Set(key: Key, value: Value)
      modifies this
      ensures payload == SetValue(old(payload), key, value)
    {
      if !value.VNone? {
        payload := payload[key := value];
      }
    }

    /** Stamps `updated_at` into the payload and returns `{"$set": payload}`. */
    method ToUpdate(now: int) returns (update: map<string, Value>)
      modifies this
      ensures payload == Stamped(old(payload), now)
      ensures update == map["$set" := VDoc(payload)]
    {
      payload := payload[UpdatedAt := VTime(now)];
      update := map["$set" := VDoc(payload)];
    }
  }
}
