/** The feedback store: records, the single analytics snapshot derived from
    them, and the read views over both. The SQL aggregates (GROUP BY / COUNT,
    AVG, ORDER BY) are folds over the record sequence. */
module Feedback {
  import opened Sentiment

  datatype Option<T> = None | Some(value: T)

  /** Why a store operation failed: the database could not be reached or a
      statement failed, a row broke a column constraint of the schema or
      held a value its text columns cannot store, or a value did not fit
      the 32-bit INTEGER type of the id column. */
  datatype StoreError = Unavailable | ConstraintViolation | OutOfRange

  datatype Result<T> = Ok(value: T) | Err(error: StoreError)

  /** Where, if anywhere, the database fails during one create call. */
  datatype Fault = NoFault | InsertFails | AnalyticsFails

  const DefaultEventId: string := "default-event"

  // Column limits of the feedback table (rating CHECK, emotion and event_id VARCHAR widths).
  const MinRating: int := 1
  const MaxRating: int := 5
  const MaxEmotionLength: nat := 10
  const MaxEventIdLength: nat := 50

  // The range of PostgreSQL's INTEGER, the type of the SERIAL id column;
  // the id sequence ends at MaxInteger.
  const MinInteger: int := -2147483648
  const MaxInteger: int := 2147483647

  predicate FitsInteger(x: int) {
    MinInteger <= x <= MaxInteger
  }

  // The seeded snapshot, also the fallback when there are no records.
  const SeedPositive: int := 65
  const SeedNeutral: int := 25
  const SeedNegative: int := 10

  /** What a caller hands to CreateFeedback; absent fields take defaults. */
  datatype FeedbackData = FeedbackData(
    comment: string,
    rating: int,
    emotion: string,
    eventId: Option<string>,
    timestamp: Option<nat>)

  /** One stored row of the feedback table. */
  datatype Record = Record(
    id: nat,
    comment: string,
    rating: int,
    emotion: string,
    sentiment: Label,
    eventId: string,
    timestamp: nat)

  /** The single row of the analytics table. */
  datatype Snapshot = Snapshot(
    positive: int,
    neutral: int,
    negative: int,
    total: nat,
    lastUpdated: nat)

  /** What the analytics view returns; the average rating is in tenths. */
  datatype Analytics = Analytics(
    positive: int,
    neutral: int,
    negative: int,
    total: nat,
    averageTenths: int,
    emotionBreakdown: map<string, nat>,
    lastUpdated: nat)

  function SeedSnapshot(now: nat): Snapshot {
    Snapshot(SeedPositive, SeedNeutral, SeedNegative, 0, now)
  }

  // ---------------------------------------------------------------------
  // Creating a record

  function EventIdOf(data: FeedbackData): string {
    match data.eventId
    case Some(e) => e
    case None => DefaultEventId
  }

  function TimestampOf(data: FeedbackData, now: nat): nat {
    match data.timestamp
    case Some(t) => t
    case None => now
  }

  /** PostgreSQL's TEXT and VARCHAR cannot hold the character U+0000. */
  predicate NulFree(s: string) {
    '\U{0000}' !in s
  }

  /** The schema's column constraints on a row built from data, and the
      text columns' refusal of U+0000. */
  predicate Insertable(data: FeedbackData) {
    MinRating <= data.rating <= MaxRating
    && |data.emotion| <= MaxEmotionLength
    && |EventIdOf(data)| <= MaxEventIdLength
    && NulFree(data.comment) && NulFree(data.emotion) && NulFree(EventIdOf(data))
  }

  /** The row inserted for data under the given id, at time now. */
  function NewRecord(data: FeedbackData, id: nat, now: nat): (rec: Record)
    ensures rec.id == id && rec.comment == data.comment && rec.rating == data.rating
    ensures rec.emotion == data.emotion
    ensures rec.sentiment == Categorize(data.rating, data.emotion)
    ensures data.eventId.None? ==> rec.eventId == DefaultEventId
    ensures data.eventId.Some? ==> rec.eventId == data.eventId.value
    ensures data.timestamp.None? ==> rec.timestamp == now
    ensures data.timestamp.Some? ==> rec.timestamp == data.timestamp.value
  {
    Record(id, data.comment, data.rating, data.emotion,
           Categorize(data.rating, data.emotion), EventIdOf(data), TimestampOf(data, now))
  }

  /** What every stored row satisfies: its label is the classifier's verdict
      on its own rating and emotion, and it meets the column constraints. */
  predicate WellFormed(rec: Record) {
    rec.sentiment == Categorize(rec.rating, rec.emotion)
    && MinRating <= rec.rating <= MaxRating
    && |rec.emotion| <= MaxEmotionLength
    && |rec.eventId| <= MaxEventIdLength
    && NulFree(rec.comment) && NulFree(rec.emotion) && NulFree(rec.eventId)
  }

  lemma NewRecordWellFormed(data: FeedbackData, id: nat, now: nat)
    requires Insertable(data)
    ensures WellFormed(NewRecord(data, id, now))
  {
  }

  // ---------------------------------------------------------------------
  // Counting by sentiment (SELECT sentiment, COUNT(*) ... GROUP BY sentiment)

  /** The number of records whose stored label is l. */
  function CountLabel(rs: seq<Record>, l: Label): (n: nat)
    ensures n <= |rs|
  {
    if rs == [] then 0
    else CountLabel(rs[..|rs| - 1], l) + (if rs[|rs| - 1].sentiment == l then 1 else 0)
  }

  /** Every record has exactly one of the three labels. */
  lemma {:induction false} CountsPartition(rs: seq<Record>)
    ensures CountLabel(rs, Positive) + CountLabel(rs, Neutral) + CountLabel(rs, Negative) == |rs|
  {
    if rs != [] {
      CountsPartition(rs[..|rs| - 1]);
    }
  }

  /** No two grouped rows share a key. */
  predicate DistinctKeys<K(==)>(rows: seq<(K, nat)>) {
    forall i, j :: 0 <= i < j < |rows| ==> rows[i].0 != rows[j].0
  }

  /** rows is a result of the GROUP BY query over rs, in any row order: one row
      per label that occurs, carrying that label's count. */
  ghost predicate IsGrouping(rows: seq<(Label, nat)>, rs: seq<Record>) {
    && DistinctKeys(rows)
    && (forall i :: 0 <= i < |rows| ==> rows[i].1 == CountLabel(rs, rows[i].0) > 0)
    && (forall l: Label :: CountLabel(rs, l) > 0 ==> exists i :: 0 <= i < |rows| && rows[i].0 == l)
  }

  /** The grouped rows the model's database returns. */
  function SentimentRows(rs: seq<Record>): (rows: seq<(Label, nat)>)
    ensures IsGrouping(rows, rs)
  {
    var p, n, g := CountLabel(rs, Positive), CountLabel(rs, Neutral), CountLabel(rs, Negative);
    var rows := (if p > 0 then [(Positive, p)] else [])
              + (if n > 0 then [(Neutral, n)] else [])
              + (if g > 0 then [(Negative, g)] else []);
    LabelRowsGroup(rows, rs, p, n, g);
    rows
  }

  /** One row per label with a positive count, in label order, is a grouping. */
  lemma LabelRowsGroup(rows: seq<(Label, nat)>, rs: seq<Record>, p: nat, n: nat, g: nat)
    requires p == CountLabel(rs, Positive) && n == CountLabel(rs, Neutral) && g == CountLabel(rs, Negative)
    requires rows == (if p > 0 then [(Positive, p)] else [])
                   + (if n > 0 then [(Neutral, n)] else [])
                   + (if g > 0 then [(Negative, g)] else [])
    ensures IsGrouping(rows, rs)
  {
    forall l: Label | CountLabel(rs, l) > 0
      ensures exists i :: 0 <= i < |rows| && rows[i].0 == l
    {
      var k := if l == Positive then 0
               else if l == Neutral then (if p > 0 then 1 else 0)
               else (if p > 0 then 1 else 0) + (if n > 0 then 1 else 0);
      assert rows[k].0 == l;
    }
  }

  /** The sum of the counts of grouped rows (the loop's running total). */
  function RowsTotal<K>(rows: seq<(K, nat)>): nat {
    if rows == [] then 0 else RowsTotal(rows[..|rows| - 1]) + rows[|rows| - 1].1
  }

  /** The count the loop leaves in the variable for l: that of the last row
      labelled l, or 0 when there is none. */
  function LastCount(rows: seq<(Label, nat)>, l: Label): nat {
    if rows == [] then 0
    else if rows[|rows| - 1].0 == l then rows[|rows| - 1].1
    else LastCount(rows[..|rows| - 1], l)
  }

  lemma {:induction false} LastCountAbsent(rows: seq<(Label, nat)>, l: Label)
    requires forall i :: 0 <= i < |rows| ==> rows[i].0 != l
    ensures LastCount(rows, l) == 0
  {
    if rows != [] {
      LastCountAbsent(rows[..|rows| - 1], l);
    }
  }

  lemma {:induction false} LastCountAt(rows: seq<(Label, nat)>, i: nat)
    requires DistinctKeys(rows) && i < |rows|
    ensures LastCount(rows, rows[i].0) == rows[i].1
  {
    if i < |rows| - 1 {
      LastCountAt(rows[..|rows| - 1], i);
    }
  }

  lemma {:induction false} RowsTotalByLabel(rows: seq<(Label, nat)>)
    requires DistinctKeys(rows)
    ensures RowsTotal(rows) == LastCount(rows, Positive) + LastCount(rows, Neutral) + LastCount(rows, Negative)
  {
    if rows != [] {
      var front := rows[..|rows| - 1];
      RowsTotalByLabel(front);
      LastCountAbsent(front, rows[|rows| - 1].0);
    }
  }

  /** Whatever the row order, the loop's variables end up holding the
      per-label counts and their sum, the number of records. */
  lemma GroupingCounts(rows: seq<(Label, nat)>, rs: seq<Record>)
    requires IsGrouping(rows, rs)
    ensures forall l: Label :: LastCount(rows, l) == CountLabel(rs, l)
    ensures RowsTotal(rows) == |rs|
  {
    forall l: Label ensures LastCount(rows, l) == CountLabel(rs, l) {
      if i :| 0 <= i < |rows| && rows[i].0 == l {
        LastCountAt(rows, i);
      } else {
        LastCountAbsent(rows, l);
      }
    }
    RowsTotalByLabel(rows);
    CountsPartition(rs);
  }

  /** The forEach over the grouped rows: a running total of every row's count,
      and, per label, the count of the row carrying that label. */
  method TallyRows(rows: seq<(Label, nat)>) returns (positive: nat, neutral: nat, negative: nat, total: nat)
    ensures total == RowsTotal(rows)
    ensures positive == LastCount(rows, Positive)
    ensures neutral == LastCount(rows, Neutral)
    ensures negative == LastCount(rows, Negative)
  {
    positive, neutral, negative, total := 0, 0, 0, 0;
    var i := 0;
    while i < |rows|
      invariant 0 <= i <= |rows|
      invariant total == RowsTotal(rows[..i])
      invariant positive == LastCount(rows[..i], Positive)
      invariant neutral == LastCount(rows[..i], Neutral)
      invariant negative == LastCount(rows[..i], Negative)
    {
      assert rows[..i + 1][..i] == rows[..i];
      var sentiment, count := rows[i].0, rows[i].1;
      total := total + count;
      if sentiment == Positive {
        positive := count;
      } else if sentiment == Neutral {
        neutral := count;
      } else if sentiment == Negative {
        negative := count;
      }
      i := i + 1;
    }
    assert rows[..i] == rows;
  }

  // ---------------------------------------------------------------------
  // Percentages and the recomputed snapshot

  /** p is 100 * count / total rounded to the nearest integer, halves up. */
  ghost predicate RoundedPercent(p: int, count: nat, total: nat) {
    2 * (p * total) <= 200 * count + total < 2 * (p * total) + 2 * total
  }

  lemma MulMonotone(a: int, b: int, t: nat)
    requires a <= b
    ensures a * t <= b * t
  {
  }

  lemma MulDistributes(a: int, b: int, c: int, t: int)
    ensures (a + b + c) * t == a * t + b * t + c * t
  {
  }

  /** Math.round((count / total) * 100) computed exactly. */
  function Percent(count: nat, total: nat): (p: nat)
    requires total > 0
    ensures RoundedPercent(p, count, total)
    ensures count <= total ==> p <= 100
  {
    var q := (200 * count + total) / (2 * total);
    PercentBounds(count, total, q);
    q
  }

  lemma PercentBounds(count: nat, total: nat, q: int)
    requires total > 0 && q == (200 * count + total) / (2 * total)
    ensures RoundedPercent(q, count, total)
    ensures count <= total ==> q <= 100
  {
    var x, m := 200 * count + total, 2 * total;
    assert m * q <= x < m * q + m;
    assert m * q == 2 * (q * total);
    if count <= total && q > 100 {
      MulMonotone(101, q, total);
      assert false;
    }
  }

  ghost predicate InRange(s: Snapshot) {
    0 <= s.positive <= 100 && 0 <= s.neutral <= 100 && 0 <= s.negative <= 100
  }

  /** Three independently rounded shares of a whole sum to 99, 100 or 101. */
  lemma RoundingDrift(p1: int, p2: int, p3: int, c1: nat, c2: nat, c3: nat, t: nat)
    requires t > 0 && c1 + c2 + c3 == t
    requires RoundedPercent(p1, c1, t) && RoundedPercent(p2, c2, t) && RoundedPercent(p3, c3, t)
    ensures 99 <= p1 + p2 + p3 <= 101
  {
    var s := p1 + p2 + p3;
    MulDistributes(p1, p2, p3, t);
    assert 2 * (s * t) <= 203 * t < 2 * (s * t) + 6 * t;
    if s > 101 {
      MulMonotone(102, s, t);
      assert false;
    }
    if s < 99 {
      MulMonotone(s, 98, t);
      assert false;
    }
  }

  /** The snapshot updateAnalytics writes for records rs at time now: the
      seeded 65/25/10 with total 0 when there are none, otherwise each label's
      rounded share and the record count. */
  function Recompute(rs: seq<Record>, now: nat): (s: Snapshot)
    ensures s.total == |rs| == CountLabel(rs, Positive) + CountLabel(rs, Neutral) + CountLabel(rs, Negative)
    ensures s.lastUpdated == now
    ensures InRange(s)
    ensures rs == [] ==> s == SeedSnapshot(now)
    ensures rs != [] ==>
              && RoundedPercent(s.positive, CountLabel(rs, Positive), |rs|)
              && RoundedPercent(s.neutral, CountLabel(rs, Neutral), |rs|)
              && RoundedPercent(s.negative, CountLabel(rs, Negative), |rs|)
    ensures rs != [] ==> 99 <= s.positive + s.neutral + s.negative <= 101
  {
    CountsPartition(rs);
    var n := |rs|;
    if n == 0 then SeedSnapshot(now)
    else
      var p, u, g := CountLabel(rs, Positive), CountLabel(rs, Neutral), CountLabel(rs, Negative);
      RoundingDrift(Percent(p, n), Percent(u, n), Percent(g, n), p, u, g, n);
      Snapshot(Percent(p, n), Percent(u, n), Percent(g, n), n, now)
  }

  // ---------------------------------------------------------------------
  // Average rating (SELECT AVG(rating) ...), in tenths

  function RatingSum(rs: seq<Record>): int {
    if rs == [] then 0 else RatingSum(rs[..|rs| - 1]) + rs[|rs| - 1].rating
  }

  /** The mean rating in tenths, rounded half up; 0 when there are no records. */
  function AverageTenths(rs: seq<Record>): (a: int)
    ensures rs == [] ==> a == 0
    ensures rs != [] ==> 2 * (a * |rs|) <= 20 * RatingSum(rs) + |rs| < 2 * (a * |rs|) + 2 * |rs|
  {
    if rs == [] then 0
    else
      var q := (20 * RatingSum(rs) + |rs|) / (2 * |rs|);
      TenthsBounds(RatingSum(rs), |rs|, q);
      q
  }

  lemma TenthsBounds(sum: int, n: nat, q: int)
    requires n > 0 && q == (20 * sum + n) / (2 * n)
    ensures 2 * (q * n) <= 20 * sum + n < 2 * (q * n) + 2 * n
  {
    var x, m := 20 * sum + n, 2 * n;
    assert m * q <= x < m * q + m;
    assert m * q == 2 * (q * n);
  }

  lemma {:induction false} RatingSumBounds(rs: seq<Record>)
    requires forall i :: 0 <= i < |rs| ==> WellFormed(rs[i])
    ensures MinRating * |rs| <= RatingSum(rs) <= MaxRating * |rs|
  {
    if rs != [] {
      RatingSumBounds(rs[..|rs| - 1]);
    }
  }

  /** With every rating in 1..5, the average lies between 1.0 and 5.0. */
  lemma AverageInRange(rs: seq<Record>)
    requires rs != []
    requires forall i :: 0 <= i < |rs| ==> WellFormed(rs[i])
    ensures 10 <= AverageTenths(rs) <= 50
  {
    RatingSumBounds(rs);
    var a, n := AverageTenths(rs), |rs|;
    if a > 50 {
      MulMonotone(51, a, n);
      assert false;
    }
    if a < 10 {
      MulMonotone(a, 9, n);
      assert false;
    }
  }

  // ---------------------------------------------------------------------
  // Emotion breakdown (GROUP BY over normalised emotion)

  /** The number of records whose emotion normalises to tag. */
  function EmotionCount(rs: seq<Record>, tag: string): (n: nat)
    ensures n <= |rs|
  {
    if rs == [] then 0
    else EmotionCount(rs[..|rs| - 1], tag) + (if Normalize(rs[|rs| - 1].emotion) == tag then 1 else 0)
  }

  /** The number of records whose stored emotion is exactly e. */
  function RawCount(rs: seq<Record>, e: string): nat {
    if rs == [] then 0
    else RawCount(rs[..|rs| - 1], e) + (if rs[|rs| - 1].emotion == e then 1 else 0)
  }

  /** The CASE merges each emoji into its tag: a canonical tag counts its own
      records and its emoji's, an emoji is never a category of its own, and
      any other emotion counts only itself. */
  lemma {:induction false} EmotionCountAliases(rs: seq<Record>, k: string)
    ensures EmotionCount(rs, Happy) == RawCount(rs, Happy) + RawCount(rs, HappyEmoji)
    ensures EmotionCount(rs, NeutralTag) == RawCount(rs, NeutralTag) + RawCount(rs, NeutralEmoji)
    ensures EmotionCount(rs, Unhappy) == RawCount(rs, Unhappy) + RawCount(rs, UnhappyEmoji)
    ensures IsAlias(k) ==> EmotionCount(rs, k) == 0
    ensures !IsCanonical(k) && !IsAlias(k) ==> EmotionCount(rs, k) == RawCount(rs, k)
  {
    if rs != [] {
      EmotionCountAliases(rs[..|rs| - 1], k);
    }
  }

  /** The distinct normalised emotions that occur in rs. */
  function Categories(rs: seq<Record>): (cats: seq<string>)
    ensures forall t :: t in cats <==> EmotionCount(rs, t) > 0
    ensures forall i, j :: 0 <= i < j < |cats| ==> cats[i] != cats[j]
  {
    if rs == [] then []
    else
      var front := Categories(rs[..|rs| - 1]);
      var tag := Normalize(rs[|rs| - 1].emotion);
      if tag in front then front else front + [tag]
  }

  /** rows is a result of the emotion GROUP BY query over rs, in any row
      order: one row per normalised emotion that occurs, carrying its count. */
  ghost predicate IsEmotionGrouping(rows: seq<(string, nat)>, rs: seq<Record>) {
    && DistinctKeys(rows)
    && (forall i :: 0 <= i < |rows| ==> rows[i].1 == EmotionCount(rs, rows[i].0) > 0)
    && (forall t :: EmotionCount(rs, t) > 0 ==> exists i :: 0 <= i < |rows| && rows[i].0 == t)
  }

  /** The rows of the emotion GROUP BY query; every record falls in exactly
      one of them, so their counts add up to the number of records. */
  function EmotionRows(rs: seq<Record>): (rows: seq<(string, nat)>)
    ensures IsEmotionGrouping(rows, rs)
    ensures RowsTotal(rows) == |rs|
  {
    var cats := Categories(rs);
    var rows := seq(|cats|, i requires 0 <= i < |cats| => (cats[i], EmotionCount(rs, cats[i])));
    CategoryRowsGroup(rows, rs, cats);
    rows
  }

  /** One row per category, with its count, is a grouping of the records
      whose counts add up to their number. */
  lemma CategoryRowsGroup(rows: seq<(string, nat)>, rs: seq<Record>, cats: seq<string>)
    requires cats == Categories(rs)
    requires |rows| == |cats|
    requires forall i :: 0 <= i < |rows| ==> rows[i] == (cats[i], EmotionCount(rs, cats[i]))
    ensures IsEmotionGrouping(rows, rs)
    ensures RowsTotal(rows) == |rs|
  {
    forall t | EmotionCount(rs, t) > 0
      ensures exists i :: 0 <= i < |rows| && rows[i].0 == t
    {
      var i :| 0 <= i < |cats| && cats[i] == t;
      assert rows[i].0 == t;
    }
    RowsTotalOfCounts(rows, rs, cats);
    CategoriesPartition(rs);
  }

  /** The summed counts of the given tags. */
  function CountsOver(rs: seq<Record>, tags: seq<string>): nat {
    if tags == [] then 0 else CountsOver(rs, tags[..|tags| - 1]) + EmotionCount(rs, tags[|tags| - 1])
  }

  /** Over distinct tags, the last record adds one to the sum exactly when
      its normalised emotion is among them. */
  lemma {:induction false} CountsOverLast(rs: seq<Record>, tags: seq<string>)
    requires rs != []
    requires forall i, j :: 0 <= i < j < |tags| ==> tags[i] != tags[j]
    ensures CountsOver(rs, tags)
            == CountsOver(rs[..|rs| - 1], tags) + (if Normalize(rs[|rs| - 1].emotion) in tags then 1 else 0)
  {
    if tags != [] {
      var front := tags[..|tags| - 1];
      CountsOverLast(rs, front);
      assert tags == front + [tags[|tags| - 1]];
    }
  }

  /** The categories partition the records. */
  lemma {:induction false} CategoriesPartition(rs: seq<Record>)
    ensures CountsOver(rs, Categories(rs)) == |rs|
  {
    if rs != [] {
      var front := rs[..|rs| - 1];
      var cats := Categories(front);
      var tag := Normalize(rs[|rs| - 1].emotion);
      CategoriesPartition(front);
      CountsOverLast(rs, cats);
      if tag !in cats {
        var all := cats + [tag];
        assert all[..|cats|] == cats;
        assert CountsOver(rs, all) == CountsOver(rs, cats) + EmotionCount(rs, tag);
      }
    }
  }

  lemma {:induction false} RowsTotalOfCounts(rows: seq<(string, nat)>, rs: seq<Record>, tags: seq<string>)
    requires |rows| == |tags|
    requires forall i :: 0 <= i < |rows| ==> rows[i] == (tags[i], EmotionCount(rs, tags[i]))
    ensures RowsTotal(rows) == CountsOver(rs, tags)
  {
    if rows != [] {
      RowsTotalOfCounts(rows[..|rows| - 1], rs, tags[..|tags| - 1]);
    }
  }

  /** The one key assignment cannot add to a plain JavaScript object: its
      setter changes the prototype and ignores a number. */
  const ProtoKey: string := "__proto__"

  // ---------------------------------------------------------------------
  // Ordering and lookup

  /** Timestamps never increase along rs. */
  predicate NewestFirst(rs: seq<Record>) {
    forall i, j :: 0 <= i < j < |rs| ==> rs[i].timestamp >= rs[j].timestamp
  }

  /** Walks past the records newer than x and puts x in front of the rest. */
  function InsertByTime(x: Record, s: seq<Record>): (r: seq<Record>)
    ensures |r| == |s| + 1 && (r[0] == x || (s != [] && r[0] == s[0]))
  {
    if s == [] then [x]
    else if x.timestamp >= s[0].timestamp then [x] + s
    else [s[0]] + InsertByTime(x, s[1..])
  }

  /** Inserting into a newest-first sequence keeps it newest first. */
  lemma {:induction false} InsertByTimeSorted(x: Record, s: seq<Record>)
    requires NewestFirst(s)
    ensures NewestFirst(InsertByTime(x, s))
  {
    if s != [] && x.timestamp < s[0].timestamp {
      var tail := s[1..];
      assert NewestFirst(tail) by {
        forall i, j | 0 <= i < j < |tail| ensures tail[i].timestamp >= tail[j].timestamp {
          assert tail[i] == s[i + 1] && tail[j] == s[j + 1];
        }
      }
      InsertByTimeSorted(x, tail);
      var rest := InsertByTime(x, tail);
      if tail != [] {
        assert tail[0] == s[1];
      }
      ConsNewestFirst(s[0], rest);
    } else if s != [] {
      ConsNewestFirst(x, s);
    }
  }

  /** Inserting adds exactly x to the multiset of records. */
  lemma {:induction false} InsertByTimePermutes(x: Record, s: seq<Record>)
    ensures multiset(InsertByTime(x, s)) == multiset(s) + multiset{x}
  {
    if s != [] && x.timestamp < s[0].timestamp {
      InsertByTimePermutes(x, s[1..]);
      assert s == [s[0]] + s[1..];
    }
  }

  /** A record no older than the head of a newest-first sequence can go in front. */
  lemma ConsNewestFirst(y: Record, rest: seq<Record>)
    requires NewestFirst(rest)
    requires rest != [] ==> y.timestamp >= rest[0].timestamp
    ensures NewestFirst([y] + rest)
  {
  }

  /** ORDER BY timestamp DESC; rows with equal timestamps come in some order. */
  function SortNewestFirst(s: seq<Record>): (r: seq<Record>)
    ensures NewestFirst(r)
    ensures multiset(r) == multiset(s)
  {
    if s == [] then []
    else
      var sorted := SortNewestFirst(s[1..]);
      InsertByTimeSorted(s[0], sorted);
      InsertByTimePermutes(s[0], sorted);
      assert s == [s[0]] + s[1..];
      InsertByTime(s[0], sorted)
  }

  /** SELECT ... WHERE id = $1: the first row with that id, if any. */
  function Lookup(rs: seq<Record>, id: int): (found: Option<Record>)
    ensures found.Some? ==> found.value in rs && found.value.id == id
    ensures found.None? <==> forall i :: 0 <= i < |rs| ==> rs[i].id != id
  {
    if rs == [] then None
    else if rs[0].id == id then Some(rs[0])
    else Lookup(rs[1..], id)
  }

  /** After appending a row with a fresh id, looking that id up finds the row,
      and every other id finds what it found before. */
  lemma {:induction false} LookupAppend(rs: seq<Record>, rec: Record, id: int)
    requires forall i :: 0 <= i < |rs| ==> rs[i].id != rec.id
    ensures Lookup(rs + [rec], id) == if id == rec.id then Some(rec) else Lookup(rs, id)
  {
    if rs != [] {
      assert (rs + [rec])[1..] == rs[1..] + [rec];
      LookupAppend(rs[1..], rec, id);
    }
  }

  /** With strictly increasing ids, an id names at most one position. */
  lemma IdsIdentify(rs: seq<Record>, i: nat, j: nat)
    requires forall a, b :: 0 <= a < b < |rs| ==> rs[a].id < rs[b].id
    requires i < |rs| && j < |rs| && rs[i].id == rs[j].id
    ensures i == j
  {
  }

  // ---------------------------------------------------------------------
  // The store

  /** The feedback table, the id sequence behind it, and the analytics row. */
  class FeedbackStore {
    var records: seq<Record>
    var nextId: nat
    var snapshot: Snapshot

    /** Ids are positive, increase strictly in insertion order and stay below
        the next id, which is at most one past the end of the id sequence;
        every row is well formed; the percentages lie in 0..100. */
    ghost predicate Valid()
      reads this
    {
      && 1 <= nextId <= MaxInteger + 1
      && (forall i :: 0 <= i < |records| ==> 1 <= records[i].id < nextId)
      && (forall i, j :: 0 <= i < j < |records| ==> records[i].id < records[j].id)
      && (forall i :: 0 <= i < |records| ==> WellFormed(records[i]))
      && InRange(snapshot)
    }

    /** An empty table and the seeded snapshot. */
    constructor (now: nat)
      ensures Valid()
      ensures records == [] && nextId == 1 && snapshot == SeedSnapshot(now)
    {
      records := [];
      nextId := 1;
      snapshot := SeedSnapshot(now);
    }

    /** Rescans every record, counts them by stored label and overwrites the
        snapshot; on a database failure nothing changes. */
    method UpdateAnalytics(now: nat, fail: bool) returns (ok: bool)
      requires Valid()
      modifies this
      ensures Valid()
      ensures records == old(records) && nextId == old(nextId)
      ensures ok == !fail
      ensures ok ==> snapshot == Recompute(records, now)
      ensures !ok ==> snapshot == old(snapshot)
    {
      if fail {
        return false;
      }
      var rows := SentimentRows(records);
      var positive, neutral, negative, total := TallyRows(rows);
      GroupingCounts(rows, records);
      var positivePercent := if total > 0 then Percent(positive, total) else SeedPositive;
      var neutralPercent := if total > 0 then Percent(neutral, total) else SeedNeutral;
      var negativePercent := if total > 0 then Percent(negative, total) else SeedNegative;
      snapshot := Snapshot(positivePercent, neutralPercent, negativePercent, total, now);
      ok := true;
    }

    /** Classifies data once, inserts one row under the next id with the
        defaults filled in, then recomputes the snapshot. A failed insert
        (the database fails, the id sequence is used up, or a column
        constraint is broken) changes nothing; a failed recompute keeps the
        new row and the old snapshot and still reports failure. */
    method CreateFeedback(data: FeedbackData, now: nat, fault: Fault) returns (r: Result<Record>)
      requires Valid()
      modifies this
      ensures Valid()
      ensures fault == InsertFails ==>
                r == Err(Unavailable) && records == old(records)
                && nextId == old(nextId) && snapshot == old(snapshot)
      ensures fault != InsertFails && old(nextId) > MaxInteger ==>
                r == Err(OutOfRange) && records == old(records)
                && nextId == old(nextId) && snapshot == old(snapshot)
      ensures fault != InsertFails && old(nextId) <= MaxInteger && !Insertable(data) ==>
                r == Err(ConstraintViolation) && records == old(records)
                && nextId == old(nextId) && snapshot == old(snapshot)
      ensures fault != InsertFails && old(nextId) <= MaxInteger && Insertable(data) ==>
                records == old(records) + [NewRecord(data, old(nextId), now)]
                && nextId == old(nextId) + 1
      ensures fault == AnalyticsFails && old(nextId) <= MaxInteger && Insertable(data) ==>
                r == Err(Unavailable) && snapshot == old(snapshot)
      ensures fault == NoFault && old(nextId) <= MaxInteger && Insertable(data) ==>
                r == Ok(NewRecord(data, old(nextId), now)) && snapshot == Recompute(records, now)
    {
      var rec := NewRecord(data, nextId, now);
      if fault == InsertFails {
        return Err(Unavailable);
      }
      if nextId > MaxInteger {
        return Err(OutOfRange);
      }
      if !Insertable(data) {
        return Err(ConstraintViolation);
      }
      NewRecordWellFormed(data, nextId, now);
      records := records + [rec];
      nextId := nextId + 1;
      var ok := UpdateAnalytics(now, fault == AnalyticsFails);
      if !ok {
        return Err(Unavailable);
      }
      r := Ok(rec);
    }

    /** Every record, newest first. */
    method GetAllFeedback(fail: bool) returns (r: Result<seq<Record>>)
      ensures fail ==> r == Err(Unavailable)
      ensures !fail ==> r.Ok? && NewestFirst(r.value) && multiset(r.value) == multiset(records)
    {
      if fail {
        return Err(Unavailable);
      }
      r := Ok(SortNewestFirst(records));
    }

    /** The record with the given id, or None when there is none; an id
        outside the INTEGER range makes the query itself fail. */
    method GetFeedbackById(id: int, fail: bool) returns (r: Result<Option<Record>>)
      ensures fail ==> r == Err(Unavailable)
      ensures !fail && !FitsInteger(id) ==> r == Err(OutOfRange)
      ensures r.Ok? <==> !fail && FitsInteger(id)
      ensures r.Ok? && r.value.Some? ==> r.value.value in records && r.value.value.id == id
      ensures r.Ok? && r.value.None? <==>
                !fail && FitsInteger(id) && forall i :: 0 <= i < |records| ==> records[i].id != id
      ensures Valid() && r.Ok? && r.value.Some? ==>
                forall i :: 0 <= i < |records| && records[i].id == id ==> records[i] == r.value.value
    {
      if fail {
        return Err(Unavailable);
      }
      if !FitsInteger(id) {
        return Err(OutOfRange);
      }
      var found := Lookup(records, id);
      if Valid() && found.Some? {
        forall i | 0 <= i < |records| && records[i].id == id
          ensures records[i] == found.value
        {
          var j :| 0 <= j < |records| && records[j] == found.value;
          IdsIdentify(records, i, j);
        }
      }
      r := Ok(found);
    }

    /** The stored snapshot (never recomputed here), the emotion breakdown
        over normalised tags, and the average rating. The breakdown starts
        from the three canonical tags at 0 and assigns each grouped row;
        a row for ProtoKey is lost to the object's prototype setter. */
    method GetAnalytics(fail: bool) returns (r: Result<Analytics>)
      ensures fail ==> r == Err(Unavailable)
      ensures !fail ==> r.Ok?
      ensures r.Ok? ==>
                && r.value.positive == snapshot.positive
                && r.value.neutral == snapshot.neutral
                && r.value.negative == snapshot.negative
                && r.value.total == snapshot.total
                && r.value.lastUpdated == snapshot.lastUpdated
      ensures r.Ok? ==> forall k :: k in r.value.emotionBreakdown <==>
                IsCanonical(k) || (EmotionCount(records, k) > 0 && k != ProtoKey)
      ensures r.Ok? ==> forall k :: k in r.value.emotionBreakdown ==> r.value.emotionBreakdown[k] == EmotionCount(records, k)
      ensures r.Ok? ==> r.value.averageTenths == AverageTenths(records)
    {
      if fail {
        return Err(Unavailable);
      }
      var row := snapshot;
      var emotions := Breakdown(EmotionRows(records), records);
      var averageRating := AverageTenths(records);
      r := Ok(Analytics(row.positive, row.neutral, row.negative, row.total,
                        averageRating, emotions, row.lastUpdated));
    }
  }

  /** The breakdown object of the analytics view: the three canonical tags at
      0, then each grouped row assigned in turn; a row for ProtoKey is lost
      to the object's prototype setter. */
  method Breakdown(rows: seq<(string, nat)>, ghost rs: seq<Record>) returns (emotions: map<string, nat>)
    requires IsEmotionGrouping(rows, rs)
    ensures forall k :: k in emotions <==> IsCanonical(k) || (EmotionCount(rs, k) > 0 && k != ProtoKey)
    ensures forall k :: k in emotions ==> emotions[k] == EmotionCount(rs, k)
  {
    emotions := map[Happy := 0, NeutralTag := 0, Unhappy := 0];
    ghost var seen: set<string> := {};
    var i := 0;
    while i < |rows|
      invariant 0 <= i <= |rows|
      invariant forall j :: 0 <= j < i ==> rows[j].0 in seen
      invariant forall k :: k in seen ==> EmotionCount(rs, k) > 0
      invariant forall k :: k in emotions <==> IsCanonical(k) || (k in seen && k != ProtoKey)
      invariant forall k :: k in emotions ==> emotions[k] == if k in seen then EmotionCount(rs, k) else 0
    {
      var category, count := rows[i].0, rows[i].1;
      if category != ProtoKey {
        emotions := emotions[category := count];
      }
      seen := seen + {category};
      i := i + 1;
    }
  }

  /** Inserting and then fetching by the new id returns the inserted row. */
  method CreateThenFetch(store: FeedbackStore, data: FeedbackData, now: nat)
    returns (created: Result<Record>, fetched: Result<Option<Record>>)
    requires store.Valid()
    modifies store
    ensures store.Valid()
    ensures created.Ok? ==>
              fetched == Ok(Some(created.value))
              && created.value.sentiment == Categorize(data.rating, data.emotion)
  {
    ghost var before := store.records;
    created := store.CreateFeedback(data, now, NoFault);
    fetched := store.GetFeedbackById(if created.Ok? then created.value.id else 0, false);
    if created.Ok? {
      LookupAppend(before, created.value, created.value.id);
    }
  }

  /** The aggregates over an unhappy rating-1 record and a neutral rating-3 one. */
  lemma ScenarioCounts(rs: seq<Record>, now: nat)
    requires |rs| == 2
    requires rs[0].rating == 1 && rs[0].emotion == Unhappy && rs[0].sentiment == Negative
    requires rs[1].rating == 3 && rs[1].emotion == NeutralTag && rs[1].sentiment == Neutral
    ensures Recompute(rs, now) == Snapshot(0, 50, 50, 2, now)
    ensures AverageTenths(rs) == 20
    ensures EmotionCount(rs, Happy) == 0 && EmotionCount(rs, NeutralTag) == 1 && EmotionCount(rs, Unhappy) == 1
    ensures Categories(rs) == [Unhappy, NeutralTag]
  {
    var front := rs[..1];
    assert front[..0] == [];
    assert RatingSum(front) == 1;
    assert CountLabel(front, Negative) == 1 && CountLabel(front, Neutral) == 0 && CountLabel(front, Positive) == 0;
    assert CountLabel(rs, Positive) == 0 && CountLabel(rs, Neutral) == 1 && CountLabel(rs, Negative) == 1;
    assert RatingSum(rs) == 4;
    assert Categories(front) == [Unhappy];
  }

  lemma ScenarioBreakdown(bd: map<string, nat>, rs: seq<Record>, now: nat)
    requires EmotionCount(rs, Happy) == 0 && EmotionCount(rs, NeutralTag) == 1 && EmotionCount(rs, Unhappy) == 1
    requires Categories(rs) == [Unhappy, NeutralTag]
    requires forall k :: k in bd <==> IsCanonical(k) || (EmotionCount(rs, k) > 0 && k != ProtoKey)
    requires forall k :: k in bd ==> bd[k] == EmotionCount(rs, k)
    ensures bd == map[Happy := 0, NeutralTag := 1, Unhappy := 1]
  {
    forall k | EmotionCount(rs, k) > 0 ensures IsCanonical(k) {
      assert k in Categories(rs);
    }
    assert bd.Keys == {Happy, NeutralTag, Unhappy};
  }

  /** The two scenario submissions meet the column constraints. */
  lemma ScenarioInsertable(bad: FeedbackData, fine: FeedbackData)
    requires bad == FeedbackData("Bad audio", 1, Unhappy, None, None)
    requires fine == FeedbackData("Fine I guess", 3, NeutralTag, None, None)
    ensures Insertable(bad) && Insertable(fine)
  {
  }

  /** Creates an unhappy rating-1 and a neutral rating-3 record in a fresh
      store; both are stored. */
  method SubmitTwo(now: nat) returns (store: FeedbackStore)
    ensures fresh(store) && store.Valid()
    ensures |store.records| == 2
    ensures store.records[0].rating == 1 && store.records[0].emotion == Unhappy
    ensures store.records[0].sentiment == Negative
    ensures store.records[1].rating == 3 && store.records[1].emotion == NeutralTag
    ensures store.records[1].sentiment == Neutral
    ensures store.snapshot == Recompute(store.records, now)
  {
    store := new FeedbackStore(now);
    var bad := FeedbackData("Bad audio", 1, Unhappy, None, None);
    var fine := FeedbackData("Fine I guess", 3, NeutralTag, None, None);
    ScenarioInsertable(bad, fine);
    var first := store.CreateFeedback(bad, now, NoFault);
    var second := store.CreateFeedback(fine, now, NoFault);
  }

  /** Recording an unhappy rating-1 and a neutral rating-3 submission in a
      fresh store gives 0% positive, 50% neutral, 50% negative out of 2, an
      average of 2.0 and one vote each for neutral and unhappy. */
  method TwoSubmissionScenario(now: nat) returns (r: Result<Analytics>)
    ensures r == Ok(Analytics(0, 50, 50, 2, 20, map[Happy := 0, NeutralTag := 1, Unhappy := 1], now))
  {
    var store := SubmitTwo(now);
    ScenarioCounts(store.records, now);
    r := store.GetAnalytics(false);
    ScenarioBreakdown(r.value.emotionBreakdown, store.records, now);
  }
}
