/** The HTTP layer's modelled part: the validation rules for a feedback
    submission, the request-to-data defaulting, and the outcome (status code
    and body) of each feedback route. Store failures are parameters. */
module Server {
  import opened Sentiment
  import opened Feedback

  /** A body field as the validator sees it: absent, a string, an integer
      number, or any other JSON value. */
  datatype Field = Absent | Str(s: string) | Int(n: int) | OtherValue

  /** The body of POST /api/feedback. */
  datatype FeedbackRequest = FeedbackRequest(
    comment: Field,
    rating: Field,
    emotion: Field,
    timestamp: Option<nat>,
    eventId: Option<string>)

  /** The three validation rules, in the order they are declared. */
  datatype Rule = CommentRule | RatingRule | EmotionRule

  /** What a route answers. */
  datatype Response<T> =
    | Ok200(body: T)
    | Created201(body: T)
    | BadRequest400(errors: seq<Rule>)
    | NotFound404
    | ServerError500

  const MinCommentLength: nat := 1
  const MaxCommentLength: nat := 500
  const AcceptedEmotions: seq<string> := [Happy, NeutralTag, Unhappy, HappyEmoji, NeutralEmoji, UnhappyEmoji]

  // ---------------------------------------------------------------------
  // Validation

  /** The two variation selectors (text and emoji presentation), which the
      length rule does not count. */
  predicate IsPresentationSelector(c: char) {
    c == '\U{FE0E}' || c == '\U{FE0F}'
  }

  /** The length the comment rule measures (validator.js isLength): code
      points, so a surrogate pair counts once, leaving out the presentation
      selectors. */
  function MeasuredLength(s: string): (n: nat)
    ensures n <= |s|
    ensures (forall i :: 0 <= i < |s| ==> !IsPresentationSelector(s[i])) ==> n == |s|
  {
    if s == [] then 0
    else MeasuredLength(s[..|s| - 1]) + (if IsPresentationSelector(s[|s| - 1]) then 0 else 1)
  }

  /** The measured length of a concatenation is the sum of the parts'. */
  lemma {:induction false} MeasuredLengthAppend(a: string, b: string)
    ensures MeasuredLength(a + b) == MeasuredLength(a) + MeasuredLength(b)
  {
    if b == [] {
      assert a + b == a;
    } else {
      assert (a + b)[..|a + b| - 1] == a + b[..|b| - 1];
      MeasuredLengthAppend(a, b[..|b| - 1]);
    }
  }

  /** A heart with its emoji selector measures one character; a lone
      selector measures none and is not a valid comment. */
  lemma SelectorExamples()
    ensures MeasuredLength("\U{2764}\U{FE0F}") == 1
    ensures !CommentOk(Str("\U{FE0F}"))
    ensures CommentOk(Str("\U{2764}\U{FE0F}"))
  {
    assert "\U{2764}\U{FE0F}"[..1] == "\U{2764}";
    assert "\U{2764}"[..0] == "";
  }

  /** The comment is a string of 1 to 500 characters, as measured above. */
  predicate CommentOk(f: Field) {
    f.Str? && MinCommentLength <= MeasuredLength(f.s) <= MaxCommentLength
  }

  /** The rating is an integer from 1 to 5. */
  predicate RatingOk(f: Field) {
    f.Int? && MinRating <= f.n <= MaxRating
  }

  /** The emotion is one of the three tags or their three emoji. */
  predicate EmotionOk(f: Field) {
    f.Str? && f.s in AcceptedEmotions
  }

  function RuleIndex(r: Rule): nat {
    match r
    case CommentRule => 0
    case RatingRule => 1
    case EmotionRule => 2
  }

  /** The rules a request breaks, in declaration order. */
  function ValidationErrors(req: FeedbackRequest): (errors: seq<Rule>)
    ensures CommentRule in errors <==> !CommentOk(req.comment)
    ensures RatingRule in errors <==> !RatingOk(req.rating)
    ensures EmotionRule in errors <==> !EmotionOk(req.emotion)
    ensures forall i, j :: 0 <= i < j < |errors| ==> RuleIndex(errors[i]) < RuleIndex(errors[j])
  {
    (if CommentOk(req.comment) then [] else [CommentRule])
    + (if RatingOk(req.rating) then [] else [RatingRule])
    + (if EmotionOk(req.emotion) then [] else [EmotionRule])
  }

  predicate Accepted(req: FeedbackRequest) {
    ValidationErrors(req) == []
  }

  /** A request is accepted exactly when all three rules hold. */
  lemma AcceptedIff(req: FeedbackRequest)
    ensures Accepted(req) <==> CommentOk(req.comment) && RatingOk(req.rating) && EmotionOk(req.emotion)
  {
    if !Accepted(req) {
      assert ValidationErrors(req)[0] in ValidationErrors(req);
    }
  }

  /** Every accepted emotion normalises to a canonical tag and so reaches a
      branch of the classifier by its own meaning, never by falling through. */
  lemma AcceptedEmotionNormalizes(f: Field)
    requires EmotionOk(f)
    ensures IsCanonical(Normalize(f.s))
    ensures |f.s| <= MaxEmotionLength
    ensures NulFree(f.s)
  {
  }

  // ---------------------------------------------------------------------
  // Defaulting

  /** eventId || 'default-event': a missing or empty id becomes the default. */
  function RequestEventId(req: FeedbackRequest): (e: string)
    ensures e != ""
    ensures req.eventId.Some? && req.eventId.value != "" ==> e == req.eventId.value
    ensures req.eventId.None? || req.eventId == Some("") ==> e == DefaultEventId
  {
    match req.eventId
    case Some(id) => if id == "" then DefaultEventId else id
    case None => DefaultEventId
  }

  /** The data passed to CreateFeedback: comment, rating and emotion as
      submitted; the event id and the timestamp always present. */
  function ToFeedbackData(req: FeedbackRequest, now: nat): (data: FeedbackData)
    requires Accepted(req)
    ensures data.comment == req.comment.s && data.rating == req.rating.n && data.emotion == req.emotion.s
    ensures data.eventId == Some(RequestEventId(req))
    ensures data.timestamp == Some(if req.timestamp.Some? then req.timestamp.value else now)
  {
    AcceptedIff(req);
    FeedbackData(req.comment.s, req.rating.n, req.emotion.s,
                 Some(RequestEventId(req)),
                 Some(if req.timestamp.Some? then req.timestamp.value else now))
  }

  /** An accepted request fails the insert only by an event id over the
      column width or a U+0000 in the comment or the event id: rating and
      emotion always fit. */
  lemma AcceptedInsertable(req: FeedbackRequest, now: nat)
    requires Accepted(req)
    ensures Insertable(ToFeedbackData(req, now)) <==>
              |RequestEventId(req)| <= MaxEventIdLength
              && NulFree(req.comment.s) && NulFree(RequestEventId(req))
  {
    AcceptedIff(req);
    AcceptedEmotionNormalizes(req.emotion);
  }

  /** The label an accepted request receives, by rating. */
  lemma AcceptedClassification(req: FeedbackRequest)
    requires Accepted(req)
    ensures var l := Categorize(req.rating.n, req.emotion.s);
            var tag := Normalize(req.emotion.s);
            && (req.rating.n >= 4 ==> l == Positive)
            && (req.rating.n <= 2 ==> l == (if tag == Happy then Positive else Negative))
            && (req.rating.n == 3 ==> l == (if tag == Happy then Positive
                                            else if tag == Unhappy then Negative
                                            else Neutral))
  {
    AcceptedIff(req);
  }

  // ---------------------------------------------------------------------
  // Routes

  /** POST /api/feedback: 400 with the broken rules and no store access when
      validation fails; otherwise the defaulted data is stored, answering 201
      with the stored row, or 500 when the store fails. */
  method HandlePostFeedback(store: FeedbackStore, req: FeedbackRequest, now: nat, fault: Fault)
    returns (resp: Response<Record>)
    requires store.Valid()
    modifies store
    ensures store.Valid()
    ensures !Accepted(req) ==>
              && resp == BadRequest400(ValidationErrors(req))
              && store.records == old(store.records)
              && store.nextId == old(store.nextId)
              && store.snapshot == old(store.snapshot)
    ensures Accepted(req) ==>
              var data := ToFeedbackData(req, now);
              var inserted := fault != InsertFails && old(store.nextId) <= MaxInteger && Insertable(data);
              && (resp.Created201? <==> inserted && fault == NoFault)
              && (!resp.Created201? ==> resp == ServerError500)
              && (inserted ==>
                    && store.records == old(store.records) + [NewRecord(data, old(store.nextId), now)]
                    && store.nextId == old(store.nextId) + 1)
              && (!inserted ==>
                    && store.records == old(store.records)
                    && store.nextId == old(store.nextId)
                    && store.snapshot == old(store.snapshot))
              && (resp.Created201? ==>
                    && resp.body == NewRecord(data, old(store.nextId), now)
                    && store.snapshot == Recompute(store.records, now))
              && (inserted && resp.ServerError500? ==> store.snapshot == old(store.snapshot))
  {
    var errors := ValidationErrors(req);
    if errors != [] {
      return BadRequest400(errors);
    }
    var data := ToFeedbackData(req, now);
    var created := store.CreateFeedback(data, now, fault);
    match created
    case Ok(rec) => resp := Created201(rec);
    case Err(_) => resp := ServerError500;
  }

  /** GET /api/feedback: 200 with every record newest first, or 500. */
  method HandleGetFeedback(store: FeedbackStore, fail: bool) returns (resp: Response<seq<Record>>)
    ensures resp.Ok200? || resp.ServerError500?
    ensures resp.ServerError500? <==> fail
    ensures resp.Ok200? ==> NewestFirst(resp.body) && multiset(resp.body) == multiset(store.records)
  {
    var all := store.GetAllFeedback(fail);
    match all
    case Ok(rs) => resp := Ok200(rs);
    case Err(_) => resp := ServerError500;
  }

  /** GET /api/feedback/:id: 200 with the record, 404 when no record has the
      id, or 500 when the query fails, also for an id outside INTEGER. */
  method HandleGetFeedbackById(store: FeedbackStore, id: int, fail: bool) returns (resp: Response<Record>)
    ensures resp.Ok200? || resp.NotFound404? || resp.ServerError500?
    ensures resp.ServerError500? <==> fail || !FitsInteger(id)
    ensures resp.NotFound404? <==>
              !fail && FitsInteger(id) && forall i :: 0 <= i < |store.records| ==> store.records[i].id != id
    ensures resp.Ok200? ==> resp.body in store.records && resp.body.id == id
  {
    var found := store.GetFeedbackById(id, fail);
    match found
    case Ok(Some(rec)) => resp := Ok200(rec);
    case Ok(None) => resp := NotFound404;
    case Err(_) => resp := ServerError500;
  }

  /** GET /api/analytics: 200 with the stored snapshot and the derived
      breakdown and average, or 500. */
  method HandleGetAnalytics(store: FeedbackStore, fail: bool) returns (resp: Response<Analytics>)
    ensures resp.Ok200? || resp.ServerError500?
    ensures resp.ServerError500? <==> fail
    ensures resp.Ok200? ==>
              && resp.body.positive == store.snapshot.positive
              && resp.body.neutral == store.snapshot.neutral
              && resp.body.negative == store.snapshot.negative
              && resp.body.total == store.snapshot.total
              && resp.body.lastUpdated == store.snapshot.lastUpdated
              && resp.body.averageTenths == AverageTenths(store.records)
              && (forall k :: k in resp.body.emotionBreakdown <==>
                    IsCanonical(k) || (EmotionCount(store.records, k) > 0 && k != ProtoKey))
              && forall k :: k in resp.body.emotionBreakdown ==> resp.body.emotionBreakdown[k] == EmotionCount(store.records, k)
  {
    var analytics := store.GetAnalytics(fail);
    match analytics
    case Ok(a) => resp := Ok200(a);
    case Err(_) => resp := ServerError500;
  }
}
