/**
 * The request-body schemas of server/src/validators/session.validators.ts as
 * validity predicates over a parsed JSON body.
 */
module SessionValidators {

  /** A JSON value as the request body parser yields it; numbers are exact reals. */
  datatype Json =
    | Null
    | Bool(b: bool)
    | Num(x: real)
    | Str(s: string)
    | Arr(elems: seq<Json>)
    | Obj(fields: map<string, Json>)

  /** `sessionStatus`. */
  const SessionStatuses: set<string> := {"DRAFT", "PLANNED", "IN_PROGRESS", "FINISHED", "CANCELLED"}

  /** `invitationStatus`. */
  const InvitationStatuses: set<string> := {"PENDING", "ACCEPTED", "DECLINED"}

  /** The statuses a participant may answer with. */
  const ResponseStatuses: set<string> := {"ACCEPTED", "DECLINED"}

  /** The keys `createSessionSchema` knows; any other key is stripped, not rejected. */
  const SessionFields: set<string> := {"title", "startDatetime", "location", "status", "games", "participants"}

  /** The keys `createSessionSchema` requires. */
  const RequiredSessionFields: set<string> := {"title", "startDatetime", "location"}

  predicate IsInt(x: real) {
    x.Floor as real == x
  }

  /** `z.number().int()`. */
  predicate Integer(v: Json) {
    v.Num? && IsInt(v.x)
  }

  /** `z.number().int().positive()`. */
  predicate PositiveInt(v: Json) {
    Integer(v) && v.x > 0.0
  }

  /** `z.number().int().min(1)`. */
  predicate IntAtLeastOne(v: Json) {
    Integer(v) && v.x >= 1.0
  }

  /** `z.string().min(lo).max(hi)`. */
  predicate StringWithin(v: Json, lo: nat, hi: nat) {
    v.Str? && lo <= |v.s| <= hi
  }

  /** `z.enum([...])`. */
  predicate OneOf(v: Json, options: set<string>) {
    v.Str? && v.s in options
  }

  /** One entry of `games`: `{gameId: int > 0, order: int >= 1}`. */
  predicate GameEntryOk(v: Json) {
    && v.Obj?
    && "gameId" in v.fields && PositiveInt(v.fields["gameId"])
    && "order" in v.fields && IntAtLeastOne(v.fields["order"])
  }

  /** One entry of `participants`: `{userId: int > 0, statusInvitation?: invitationStatus}`. */
  predicate ParticipantOk(v: Json) {
    && v.Obj?
    && "userId" in v.fields && PositiveInt(v.fields["userId"])
    && ("statusInvitation" in v.fields ==> OneOf(v.fields["statusInvitation"], InvitationStatuses))
  }

  /** The rule `createSessionSchema` applies to the value of key `k` when that key is present. */
  predicate SessionFieldOk(k: string, v: Json) {
    if k == "title" then StringWithin(v, 3, 255)
    else if k == "startDatetime" then v.Str? && |v.s| >= 1
    else if k == "location" then StringWithin(v, 1, 255)
    else if k == "status" then OneOf(v, SessionStatuses)
    else if k == "games" then v.Arr? && forall i :: 0 <= i < |v.elems| ==> GameEntryOk(v.elems[i])
    else if k == "participants" then v.Arr? && forall i :: 0 <= i < |v.elems| ==> ParticipantOk(v.elems[i])
    else true
  }

  /** `createSessionSchema`: an object with the required keys, every present key valid. */
  predicate CreateSessionOk(body: Json) {
    && body.Obj?
    && RequiredSessionFields <= body.fields.Keys
    && forall k :: k in body.fields ==> SessionFieldOk(k, body.fields[k])
  }

  /** `updateSessionSchema = createSessionSchema.partial()`: every present key valid, none required. */
  predicate UpdateSessionOk(body: Json) {
    && body.Obj?
    && forall k :: k in body.fields ==> SessionFieldOk(k, body.fields[k])
  }

  /** One entry of `results`: `{userId: int > 0, score: int, playerRank: int >= 1}`. */
  predicate ResultEntryOk(v: Json) {
    && v.Obj?
    && "userId" in v.fields && PositiveInt(v.fields["userId"])
    && "score" in v.fields && Integer(v.fields["score"])
    && "playerRank" in v.fields && IntAtLeastOne(v.fields["playerRank"])
  }

  /** `recordResultsSchema`. */
  predicate RecordResultsOk(body: Json) {
    && body.Obj?
    && "sessionGameId" in body.fields && PositiveInt(body.fields["sessionGameId"])
    && "results" in body.fields && body.fields["results"].Arr?
    && forall i :: 0 <= i < |body.fields["results"].elems| ==> ResultEntryOk(body.fields["results"].elems[i])
  }

  /** `respondParticipationSchema`. */
  predicate RespondParticipationOk(body: Json) {
    && body.Obj?
    && "status" in body.fields && OneOf(body.fields["status"], ResponseStatuses)
  }

  // ---------------------------------------------------------------------
  // Properties of the schemas

  /** What a valid creation body guarantees about its text fields and its status. */
  lemma CreateSessionFields(f: map<string, Json>)
    requires CreateSessionOk(Obj(f))
    ensures f["title"].Str? && 3 <= |f["title"].s| <= 255
    ensures f["location"].Str? && 1 <= |f["location"].s| <= 255
    ensures f["startDatetime"].Str? && f["startDatetime"].s != ""
    ensures "status" in f ==> f["status"].Str? && f["status"].s in SessionStatuses
  {
    assert "title" in RequiredSessionFields && "location" in RequiredSessionFields && "startDatetime" in RequiredSessionFields;
  }

  /** A title is accepted exactly when it has 3 to 255 characters, a location exactly when it has 1 to 255. */
  lemma TextFieldBounds(t: string)
    ensures SessionFieldOk("title", Str(t)) <==> 3 <= |t| <= 255
    ensures SessionFieldOk("location", Str(t)) <==> 1 <= |t| <= 255
    ensures SessionFieldOk("startDatetime", Str(t)) <==> t != ""
  {
  }

  /** A games entry needs integer `gameId` and `order`, both at least 1; the list itself may be absent or empty. */
  lemma GameEntryRule(g: real, o: real)
    ensures GameEntryOk(Obj(map["gameId" := Num(g), "order" := Num(o)])) <==> IsInt(g) && g >= 1.0 && IsInt(o) && o >= 1.0
    ensures SessionFieldOk("games", Arr([]))
  {
  }

  /** A participant's invitation status, when present, must be PENDING, ACCEPTED or DECLINED. */
  lemma ParticipantRule(u: real, status: string)
    ensures ParticipantOk(Obj(map["userId" := Num(u)])) <==> IsInt(u) && u > 0.0
    ensures ParticipantOk(Obj(map["userId" := Num(u), "statusInvitation" := Str(status)])) <==>
      IsInt(u) && u > 0.0 && status in {"PENDING", "ACCEPTED", "DECLINED"}
  {
  }

  /** Every valid creation body is a valid update body, and so is the empty object. */
  lemma UpdateAcceptsCreateAndEmpty(body: Json)
    ensures CreateSessionOk(body) ==> UpdateSessionOk(body)
    ensures UpdateSessionOk(Obj(map[]))
  {
  }

  /**
   * `partial()` exactly: a patch is a valid update precisely when laying it
   * over any valid creation body gives a valid creation body.
   */
  lemma UpdateIsPartialCreate(base: map<string, Json>, patch: map<string, Json>)
    requires CreateSessionOk(Obj(base))
    ensures UpdateSessionOk(Obj(patch)) <==> CreateSessionOk(Obj(base + patch))
  {
    var merged := base + patch;
    if UpdateSessionOk(Obj(patch)) {
      forall k | k in merged ensures SessionFieldOk(k, merged[k]) {
        if k in patch {
          assert merged[k] == patch[k];
        } else {
          assert merged[k] == base[k];
        }
      }
    }
    if CreateSessionOk(Obj(merged)) {
      forall k | k in patch ensures SessionFieldOk(k, patch[k]) {
        assert merged[k] == patch[k];
      }
    }
  }

  /** A result needs a positive integer user, any integer score (negative too) and a rank of at least 1. */
  lemma ResultEntryRule(u: real, score: real, rank: real)
    ensures ResultEntryOk(Obj(map["userId" := Num(u), "score" := Num(score), "playerRank" := Num(rank)])) <==>
      IsInt(u) && u > 0.0 && IsInt(score) && IsInt(rank) && rank >= 1.0
    ensures ResultEntryOk(Obj(map["userId" := Num(1.0), "score" := Num(-3.0), "playerRank" := Num(1.0)]))
  {
    assert IsInt(1.0) && IsInt(-3.0);
  }

  /** An empty results list is accepted; the session-game id must be a positive integer. */
  lemma RecordResultsRule(id: real)
    ensures RecordResultsOk(Obj(map["sessionGameId" := Num(id), "results" := Arr([])])) <==> IsInt(id) && id > 0.0
    ensures !RecordResultsOk(Obj(map["sessionGameId" := Num(1.0)]))
  {
  }

  /** A participant may answer ACCEPTED or DECLINED, but not PENDING. */
  lemma RespondRule(status: string)
    ensures RespondParticipationOk(Obj(map["status" := Str(status)])) <==> status == "ACCEPTED" || status == "DECLINED"
    ensures !RespondParticipationOk(Obj(map["status" := Str("PENDING")]))
  {
  }
}
