/** The tracking route: validate a playback event and apply it to the store. */
module Track {
  import opened Types
  import opened Db
  import Upload

  /** A field of the parsed request body: any JSON value, or absent. */
  datatype Json =
    | Absent
    | Null
    | Bool(b: bool)
    | Number(x: real)
    | Str(s: string)
    | Composite   // an array or an object

  /** JavaScript truthiness of a field, as `!id` tests it: a missing field,
      `null`, `false`, `0` and the empty string are the falsy values. */
  function Truthy(j: Json): (b: bool)
    ensures !b <==> j == Absent || j == Null || j == Bool(false) || j == Number(0.0) || j == Str("")
  {
    match j
    case Absent => false
    case Null => false
    case Bool(b) => b
    case Number(x) => x != 0.0
    case Str(s) => s != ""
    case Composite => true
  }

  /** The body `{ id, type, value }`; `type` is called `eventType` here. */
  datatype Request = Request(id: Json, eventType: Json, value: Json)

  const MissingFields: string := "Missing fields"
  const ValueRequired: string := "Value required for completion"
  const InvalidType: string := "Invalid type"

  /** What the route decides to do with a request. */
  datatype Action =
    | Reject(message: string)
    | RecordView(target: Json)
    | RecordCompletion(target: Json, percentage: real)

  /** The validation cascade. Missing fields are checked before the type is looked
      at; a completion needs a numeric value, passed on without any clamp. */
  function Decide(req: Request): (a: Action)
    ensures !Truthy(req.id) || !Truthy(req.eventType) ==> a == Reject(MissingFields)
    ensures a.RecordView? <==> Truthy(req.id) && req.eventType == Str("view")
    ensures a.RecordCompletion? <==>
      Truthy(req.id) && req.eventType == Str("completion") && req.value.Number?
    ensures a == Reject(ValueRequired) <==>
      Truthy(req.id) && req.eventType == Str("completion") && !req.value.Number?
    ensures a == Reject(InvalidType) <==>
      Truthy(req.id) && Truthy(req.eventType)
      && req.eventType != Str("view") && req.eventType != Str("completion")
    ensures !a.Reject? ==> a.target == req.id
    ensures a.RecordCompletion? ==> a.percentage == req.value.x
  {
    if !Truthy(req.id) || !Truthy(req.eventType) then Reject(MissingFields)
    else if req.eventType == Str("view") then RecordView(req.id)
    else if req.eventType == Str("completion") then
      if req.value.Number? then RecordCompletion(req.id, req.value.x)
      else Reject(ValueRequired)
    else Reject(InvalidType)
  }

  datatype Body = Success | Error(message: string)
  datatype Response = Response(status: nat, body: Body)

  /** The JSON response for a decision: 400 with the message, or 200 `{ success: true }`. */
  function Respond(a: Action): (r: Response)
    ensures r.status == 400 <==> a.Reject?
    ensures r.status == 200 <==> !a.Reject?
    ensures a.Reject? ==> r.body == Error(a.message)
    ensures !a.Reject? ==> r.body == Success
  {
    match a
    case Reject(m) => Response(400, Error(m))
    case _ => Response(200, Success)
  }

  /** The store after the decision is carried out: a rejection changes nothing, a
      view or a completion is the store update of that name. Stored ids are strings
      and the lookup compares with `===`, so a target that is not a string matches
      no record and changes nothing. */
  function Effect(s: seq<Video>, a: Action): (r: seq<Video>)
    ensures a.Reject? ==> r == s
    ensures !a.Reject? && !a.target.Str? ==> r == s
    ensures a.RecordView? && a.target.Str? ==> r == ApplyView(s, a.target.s)
    ensures a.RecordCompletion? && a.target.Str? ==> r == ApplyCompletion(s, a.target.s, a.percentage)
  {
    match a
    case Reject(_) => s
    case RecordView(t) => if t.Str? then ApplyView(s, t.s) else s
    case RecordCompletion(t, p) => if t.Str? then ApplyCompletion(s, t.s, p) else s
  }

  /** `POST /api/track`: decide, then apply the chosen update to the store. */
  method Post(store: VideoStore, req: Request) returns (resp: Response)
    modifies store
    ensures resp == Respond(Decide(req))
    ensures store.videos == Effect(old(store.videos), Decide(req))
  {
    var a := Decide(req);
    match a {
      case Reject(m) =>
        return Response(400, Error(m));
      case RecordView(t) =>
        if t.Str? {
          store.IncrementViews(t.s);
        }
      case RecordCompletion(t, p) =>
        if t.Str? {
          store.UpdateCompletion(t.s, p);
        }
    }
    resp := Response(200, Success);
  }

  /** Whether a request passes validation. */
  predicate WellFormed(req: Request)
  {
    && Truthy(req.id)
    && (req.eventType == Str("view") || (req.eventType == Str("completion") && req.value.Number?))
  }

  /** Exactly the well-formed requests succeed; every other request is a 400 with
      one of the three messages and leaves the store as it was. */
  lemma OutcomeOfPost(s: seq<Video>, req: Request)
    ensures Respond(Decide(req)) == Response(200, Success) <==> WellFormed(req)
    ensures !WellFormed(req) ==>
      && Respond(Decide(req)).status == 400
      && Respond(Decide(req)).body.Error?
      && Respond(Decide(req)).body.message in {MissingFields, ValueRequired, InvalidType}
      && Effect(s, Decide(req)) == s
  {
  }

  /** A well-formed request on an id that no record carries still succeeds, and the
      store is left as it was. */
  lemma UnknownIdIsSilentSuccess(s: seq<Video>, req: Request)
    requires WellFormed(req)
    requires forall j :: 0 <= j < |s| ==> Str(s[j].id) != req.id
    ensures Respond(Decide(req)) == Response(200, Success)
    ensures Effect(s, Decide(req)) == s
  {
    if req.id.Str? {
      assert forall j :: 0 <= j < |s| ==> s[j].id != req.id.s;
    }
  }

  /** Tracking keeps the record invariants: no record is added or removed, ids,
      creation times and file names never change, the counters never decrease,
      and at most one record changes at all. */
  lemma PostKeepsRecordInvariants(s: seq<Video>, req: Request)
    ensures var t := Effect(s, Decide(req));
      && |t| == |s|
      && (forall j :: 0 <= j < |s| ==>
            && t[j].id == s[j].id && t[j].createdAt == s[j].createdAt && t[j].filename == s[j].filename
            && t[j].views >= s[j].views && t[j].totalWatches >= s[j].totalWatches)
      && (forall j, k :: 0 <= j < k < |s| ==> t[j] == s[j] || t[k] == s[k])
  {
  }

  /** With percentages in range, tracking keeps every stored rate a percentage. */
  lemma PostKeepsPercentages(s: seq<Video>, req: Request)
    requires RatesArePercentages(s)
    requires req.value.Number? ==> 0.0 <= req.value.x <= 100.0
    ensures RatesArePercentages(Effect(s, Decide(req)))
  {
    var a := Decide(req);
    if a.RecordView? && a.target.Str? {
      UpdatesKeepPercentages(s, a.target.s, 0.0);
    } else if a.RecordCompletion? && a.target.Str? {
      UpdatesKeepPercentages(s, a.target.s, a.percentage);
    }
  }

  /** A session as the watch page drives it: upload, two completions, one view. */
  method ExampleSession()
  {
    var store := new VideoStore();
    store.CreateVideo(Upload.InitialRecord("a1", "2024-01-01T00:00:00.000Z", "a1.webm"));
    assert store.videos == [Video("a1", "2024-01-01T00:00:00.000Z", 0, 0.0, 0, "a1.webm")];
    var r1 := Post(store, Request(Str("a1"), Str("completion"), Number(80.0)));
    assert WeightedMean(0.0, 0, 80.0) == 80.0;
    assert store.videos == [Video("a1", "2024-01-01T00:00:00.000Z", 0, 80.0, 1, "a1.webm")];
    var r2 := Post(store, Request(Str("a1"), Str("completion"), Number(40.0)));
    assert WeightedMean(80.0, 1, 40.0) == 60.0;
    assert store.videos == [Video("a1", "2024-01-01T00:00:00.000Z", 0, 60.0, 2, "a1.webm")];
    var r3 := Post(store, Request(Str("a1"), Str("view"), Absent));
    assert store.videos == [Video("a1", "2024-01-01T00:00:00.000Z", 1, 60.0, 2, "a1.webm")];
    var r4 := Post(store, Request(Str("a1"), Str("completion"), Str("80")));
    var r5 := Post(store, Request(Str(""), Str("view"), Absent));
    assert r1 == r2 == r3 == Response(200, Success);
    assert r4 == Response(400, Error(ValueRequired));
    assert r5 == Response(400, Error(MissingFields));
    var v := store.GetVideo("a1");
    assert v == Some(Video("a1", "2024-01-01T00:00:00.000Z", 1, 60.0, 2, "a1.webm"));
  }
}
