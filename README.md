# Sentiment Monitor Dashboard: feedback model in Dafny

This project models the server side of an event-feedback dashboard.
Attendees submit a comment, a rating from 1 to 5 and an emotion (`happy`, `neutral`, `unhappy` or one of the emoji 😀 😐 😡).
The server validates the submission. It labels it positive, neutral or negative with a first-match-wins rule, stores it, and rescans every stored record to overwrite the single analytics row.
That row holds three integer percentages and a total.
Read views return all records newest first, one record by id, and the analytics with an emotion histogram and the average rating.

Three modules, one file each:

- `Sentiment` (`Sentiment.dfy`): the alias normalisation `Normalize` and the classifier `Categorize`, as pure functions, with the classifier's precedence, alias-equivalence and monotonicity lemmas.
- `Feedback` (`Feedback.dfy`): the stored records, the per-label counts, the percentages, the average and the emotion breakdown. The SQL `GROUP BY`/`COUNT`, `AVG`, `ORDER BY` and `WHERE id =` are folds over the record sequence. The class `FeedbackStore` holds the feedback table (`records`), the id counter behind the `SERIAL` column (`nextId`) and the analytics row (`snapshot`). It is created with the seeded 65/25/10/total 0 row. Its methods are `UpdateAnalytics`, `CreateFeedback` and the three read views.
- `Server` (`Server.dfy`): the three validation rules, the request-to-data defaulting, and one method per feedback route. Each route returns a `Response` that carries the status code (200, 201, 400, 404, 500) and the body.

How the environment enters:

- The current time (`new Date()`, `NOW()`) is a parameter `now: nat`. Timestamps are naturals.
- A database failure is a parameter: `Fault` for a create call (no fault, insert fails, analytics update fails) and `fail: bool` for every read and for `UpdateAnalytics`.
- `CreateFeedback` with `AnalyticsFails` keeps the new row and the old snapshot and still reports an error. This matches the source, where the insert is not rolled back when `updateAnalytics` throws.
- The column constraints of the feedback table are `Insertable`: rating between 1 and 5, emotion at most 10 characters, event id at most 50, and no U+0000 in the comment, the emotion or the event id, which PostgreSQL's text types cannot store. An insert that breaks one fails with `ConstraintViolation` and changes nothing, and the POST route answers 500.
- The `SERIAL` id is a PostgreSQL `INTEGER`. Once the id sequence has handed out 2147483647, every further insert fails with `OutOfRange` and changes nothing. A lookup by an id outside the `INTEGER` range fails the query (`OutOfRange`), which the route answers with 500.
- The comment length rule counts as validator.js's `isLength` does: code points, leaving out the variation selectors U+FE0E and U+FE0F (`MeasuredLength`).

Behaviours a reader might not expect, which the model follows:

- The emotion breakdown keeps every normalised category that occurs, not only the three canonical ones. The code assigns `emotions[row.emotion_category]` for every grouped row. `GetAnalytics` states that the keys are the three canonical tags plus every tag some record normalises to, except `__proto__`: assigning a number to that key of a plain object goes to the prototype setter, which ignores it, so such a category never shows.
- A stored record keeps its emotion as submitted. It is not normalised, so fetching it back returns the raw emoji when one was sent.
- `createFeedback`'s own default event id applies only when the field is absent. The HTTP handler's `eventId || 'default-event'` also replaces an empty string. `EventIdOf` and `RequestEventId` keep the two rules apart.

## Model

| member | source | states |
|---|---|---|
| `Sentiment.Normalize` | Sentiment-Monitor-Dashboard/server/models/feedback.js:6-10 | 😀, 😐 and 😡 map to happy, neutral and unhappy; every other value comes back unchanged |
| `Sentiment.NormalizeIdempotent` | Sentiment-Monitor-Dashboard/server/models/feedback.js:6-10 | normalising an already normalised emotion changes nothing |
| `Sentiment.Categorize` | Sentiment-Monitor-Dashboard/server/models/feedback.js:4-20 | a rating of 4 or more, or a happy emotion, is positive whatever the other input; negative exactly when neither holds and the rating is at most 2 or the emotion unhappy; neutral exactly at rating 3 with an emotion neither happy nor unhappy |
| `Sentiment.AliasEquivalence` | Sentiment-Monitor-Dashboard/server/models/feedback.js:6-19 | at every rating, 😀, 😐 and 😡 classify exactly like happy, neutral and unhappy |
| `Sentiment.OtherEmotionsActNeutral` | Sentiment-Monitor-Dashboard/server/models/feedback.js:10-19 | an emotion that is neither happy nor unhappy after normalisation, recognised or not, classifies like neutral |
| `Sentiment.MonotoneInRating` | Sentiment-Monitor-Dashboard/server/models/feedback.js:13-19 | raising the rating never makes the label worse |
| `Sentiment.MonotoneInEmotion` | Sentiment-Monitor-Dashboard/server/models/feedback.js:13-19 | at a fixed rating, unhappy is no better than neutral and neutral no better than happy |
| `Sentiment.PrecedenceExamples` | Sentiment-Monitor-Dashboard/server/models/feedback.js:13-19 | (5, unhappy) and (2, happy) are positive, (3, unhappy) is negative, (3, neutral) is neutral |
| `Feedback.NewRecord` | Sentiment-Monitor-Dashboard/server/models/feedback.js:51-61 | the inserted row carries the given id, the comment, rating and emotion as submitted, the label the classifier gives, the default event id when none is given and the current time when no timestamp is given |
| `Feedback.NewRecordWellFormed` | Sentiment-Monitor-Dashboard/server/db/index.js:25-33 | a row built from data that meets the column constraints is well formed: its label agrees with its own rating and emotion |
| `Feedback.CountLabel` | Sentiment-Monitor-Dashboard/server/models/feedback.js:78-84 | a label's count never exceeds the number of records |
| `Feedback.CountsPartition` | Sentiment-Monitor-Dashboard/server/models/feedback.js:78-84 | the three label counts add up to the number of records |
| `Feedback.SentimentRows` | Sentiment-Monitor-Dashboard/server/models/feedback.js:78-84 | the grouped rows have distinct labels, each carries its label's positive count, and every label that occurs has a row |
| `Feedback.LabelRowsGroup` | Sentiment-Monitor-Dashboard/server/models/feedback.js:78-84 | one row per label with a positive count is a grouping of the records in the GROUP BY sense |
| `Feedback.GroupingCounts` | Sentiment-Monitor-Dashboard/server/models/feedback.js:86-101 | for any grouping in any row order, the loop's counters end as the per-label counts and its total as the number of records |
| `Feedback.TallyRows` | Sentiment-Monitor-Dashboard/server/models/feedback.js:92-101 | the forEach leaves in total the sum of all row counts and in each label's counter the count of that label's row, or 0 |
| `Feedback.Percent` | Sentiment-Monitor-Dashboard/server/models/feedback.js:104-106 | the result is 100·count/total rounded to the nearest integer with halves up, and it is at most 100 when count ≤ total |
| `Feedback.RoundingDrift` | Sentiment-Monitor-Dashboard/server/models/feedback.js:104-106 | three independently rounded shares of the same total add up to 99, 100 or 101 |
| `Feedback.Recompute` | Sentiment-Monitor-Dashboard/server/models/feedback.js:87-118 | total is the record count and the sum of the label counts; every percentage lies in 0..100; no records gives 65/25/10 with total 0; otherwise each percentage is its label's rounded share and the three sum to 99..101 |
| `Feedback.AverageTenths` | Sentiment-Monitor-Dashboard/server/models/feedback.js:152-155 | 0 with no records; otherwise the mean rating in tenths, rounded to nearest with halves up |
| `Feedback.AverageInRange` | Sentiment-Monitor-Dashboard/server/models/feedback.js:152-155 | with every stored rating in 1..5, the average lies between 1.0 and 5.0 |
| `Feedback.RatingSumBounds` | Sentiment-Monitor-Dashboard/server/models/feedback.js:152 | with every rating in 1..5, the rating sum lies between the record count and five times it |
| `Feedback.EmotionCount` | Sentiment-Monitor-Dashboard/server/models/feedback.js:132-143 | the number of records whose emotion normalises to a tag never exceeds the record count |
| `Feedback.EmotionCountAliases` | Sentiment-Monitor-Dashboard/server/models/feedback.js:132-143 | each canonical tag counts the records stored with it or with its emoji; an emoji is never a category of its own; any other emotion counts exactly the records stored with it |
| `Feedback.Categories` | Sentiment-Monitor-Dashboard/server/models/feedback.js:132-143 | the grouped emotion categories are distinct and are exactly the tags at least one record normalises to |
| `Feedback.EmotionRows` | Sentiment-Monitor-Dashboard/server/models/feedback.js:132-143 | the grouped rows have distinct categories, each carries its category's positive count, every category that occurs has a row, and the counts add up to the number of records |
| `Feedback.CategoriesPartition` | Sentiment-Monitor-Dashboard/server/models/feedback.js:132-143 | the counts of the distinct categories add up to the number of records: each record falls in exactly one |
| `Feedback.CategoryRowsGroup` | Sentiment-Monitor-Dashboard/server/models/feedback.js:132-143 | one row per category with its count is a grouping in the GROUP BY sense whose counts total the record count |
| `Feedback.Breakdown` | Sentiment-Monitor-Dashboard/server/models/feedback.js:146-149 | from any grouping, the object's keys are the three canonical tags and every occurring category except `__proto__`, each mapped to its record count |
| `Feedback.InsertByTime` | Sentiment-Monitor-Dashboard/server/models/feedback.js:26 | one record longer, headed by the inserted record or by the old head |
| `Feedback.InsertByTimeSorted` | Sentiment-Monitor-Dashboard/server/models/feedback.js:26 | inserting into a newest-first sequence keeps it newest first |
| `Feedback.InsertByTimePermutes` | Sentiment-Monitor-Dashboard/server/models/feedback.js:26 | inserting adds exactly that record, as a multiset |
| `Feedback.SortNewestFirst` | Sentiment-Monitor-Dashboard/server/models/feedback.js:26 | the result has non-increasing timestamps and is a permutation of the input |
| `Feedback.Lookup` | Sentiment-Monitor-Dashboard/server/models/feedback.js:38-42 | a found record is in the table and has the id; nothing is found exactly when no record has the id |
| `Feedback.LookupAppend` | Sentiment-Monitor-Dashboard/server/models/feedback.js:38-61 | after appending a row with a fresh id, that id finds the row and every other id finds what it found before |
| `Feedback.IdsIdentify` | Sentiment-Monitor-Dashboard/server/db/index.js:26 | with strictly increasing ids, two positions with the same id are the same position |
| `Feedback.FeedbackStore.constructor` | Sentiment-Monitor-Dashboard/server/db/index.js:49-55 | an empty table, the first id 1 and the seeded snapshot 65/25/10 with total 0 |
| `Feedback.FeedbackStore.UpdateAnalytics` | Sentiment-Monitor-Dashboard/server/models/feedback.js:75-124 | records and id counter are untouched; on success the snapshot becomes Recompute of the records at the given time; on failure it is unchanged |
| `Feedback.FeedbackStore.CreateFeedback` | Sentiment-Monitor-Dashboard/server/models/feedback.js:50-72 | a failed insert, a used-up id sequence, a broken column constraint or a U+0000 in a text value changes nothing and reports its own error; otherwise exactly one row, NewRecord under the next id, is appended and the earlier rows stay as they were; then the snapshot is recomputed and the row returned, or on an analytics failure the row stays, the snapshot is unchanged and an error is returned |
| `Feedback.FeedbackStore.GetAllFeedback` | Sentiment-Monitor-Dashboard/server/models/feedback.js:23-33 | every record exactly once, with non-increasing timestamps; an error on a database failure |
| `Feedback.FeedbackStore.GetFeedbackById` | Sentiment-Monitor-Dashboard/server/models/feedback.js:36-47 | the record with the id, which is the only one with that id; nothing exactly when the id fits INTEGER and no record has it; an error on a database failure or an id outside INTEGER |
| `Feedback.FeedbackStore.GetAnalytics` | Sentiment-Monitor-Dashboard/server/models/feedback.js:127-171 | the stored percentages, total and update time, not recomputed; breakdown keys are the three canonical tags plus every normalised tag that occurs other than `__proto__`, each mapped to its record count, canonical ones defaulting to 0; the average is AverageTenths of the records |
| `Feedback.CreateThenFetch` | Sentiment-Monitor-Dashboard/server/models/feedback.js:36-72 | a created record fetched back by its id is returned identical, with the label computed at insertion |
| `Server.MeasuredLength` | Sentiment-Monitor-Dashboard/server/server.js:27 | the measured length never exceeds the code-point count and equals it when no presentation selector occurs |
| `Server.MeasuredLengthAppend` | Sentiment-Monitor-Dashboard/server/server.js:27 | the measured length of a concatenation is the sum of the parts' |
| `Server.SelectorExamples` | Sentiment-Monitor-Dashboard/server/server.js:25-28 | a heart emoji with its selector measures 1 and is a valid comment; a lone selector measures 0 and is not |
| `Server.ValidationErrors` | Sentiment-Monitor-Dashboard/server/server.js:24-35 | each rule is reported exactly when it fails, in declaration order |
| `Server.AcceptedIff` | Sentiment-Monitor-Dashboard/server/server.js:24-35 | a request is accepted iff the comment is a string of 1..500 measured characters, the rating an integer in 1..5 and the emotion one of the six accepted values |
| `Server.AcceptedEmotionNormalizes` | Sentiment-Monitor-Dashboard/server/server.js:32-34 | every accepted emotion normalises to a canonical tag and fits the emotion column |
| `Server.RequestEventId` | Sentiment-Monitor-Dashboard/server/server.js:107 | the event id is never empty; a non-empty submitted one is kept; a missing or empty one becomes 'default-event' |
| `Server.ToFeedbackData` | Sentiment-Monitor-Dashboard/server/server.js:99-108 | comment, rating and emotion pass through unchanged; a missing timestamp becomes the current time; the event id is always present |
| `Server.AcceptedInsertable` | Sentiment-Monitor-Dashboard/server/server.js:99-111 | an accepted request fails the insert exactly when its event id is over 50 characters or its comment or event id holds U+0000 |
| `Server.AcceptedClassification` | Sentiment-Monitor-Dashboard/server/server.js:29-34 | on accepted input: ratings 4 and 5 are positive, 1 and 2 negative unless happy, 3 follows the emotion |
| `Server.HandlePostFeedback` | Sentiment-Monitor-Dashboard/server/server.js:90-128 | a failing rule gives 400 with the broken rules and leaves the store untouched; otherwise 201 with the stored row exactly when the store does not fail, the id sequence is not used up and the row fits the schema, 500 in every other case; the row is appended under the next id exactly when the insert succeeds, and a 500 after a successful insert leaves the old snapshot; a failed insert leaves the store as it was |
| `Server.HandleGetFeedback` | Sentiment-Monitor-Dashboard/server/server.js:57-68 | 200 with every record newest first, 500 exactly on a database failure |
| `Server.HandleGetFeedbackById` | Sentiment-Monitor-Dashboard/server/server.js:71-87 | 404 exactly when the id fits INTEGER and no record has it, 500 exactly on a database failure or an id outside INTEGER, otherwise 200 with a record carrying the id |
| `Server.HandleGetAnalytics` | Sentiment-Monitor-Dashboard/server/server.js:43-54 | 200 with the stored snapshot, the average, and a breakdown whose keys are the three canonical tags and every other occurring category except `__proto__`, each with its record count; 500 exactly on a database failure |
| `Feedback.ScenarioCounts` | Sentiment-Monitor-Dashboard/server/models/feedback.js:87-155 | an unhappy rating-1 record and a neutral rating-3 one give 0/50/50 with total 2 and an average of 2.0 |
| `Feedback.ScenarioBreakdown` | Sentiment-Monitor-Dashboard/server/models/feedback.js:146-149 | with those two records the breakdown is exactly happy 0, neutral 1, unhappy 1 |
| `Feedback.SubmitTwo` | Sentiment-Monitor-Dashboard/server/models/feedback.js:50-72 | two creations in a fresh store are both stored, labelled negative and neutral, and the snapshot is recomputed over both |
| `Feedback.TwoSubmissionScenario` | Sentiment-Monitor-Dashboard/server/models/feedback.js:127-171 | the analytics view then returns 0/50/50, total 2, average 2.0 and the breakdown happy 0, neutral 1, unhappy 1 |

## Left out

- Server.ValidationErrors: a field is one JSON value taken from the body. express-validator also checks each element of an array value with `isLength`, `isInt` and `isIn`, and `check()` also reads the query string, route parameters, headers and cookies; array values and those other locations are not represented.
- Server.AcceptedIff: states acceptance for single body values only; array values and fields from the query string, route parameters, headers or cookies are not represented.
- Server.HandlePostFeedback: its outcomes cover single body values only; a request the source accepts through an array value or another location, and the 201 or 500 that follows, is not represented.
- Server.MeasuredLength: follows `isLength` of current validator.js (code points minus U+FE0E/U+FE0F); the library's version is not part of this model.

- Express setup, CORS, body parsing, logging and the health route: wiring with no logic.
- The React front end, chart rendering, the mock data and its timer-driven fake updates, the `fetch` wrappers and the process launcher: presentation and tooling.
- The connection pool and the schema bootstrap: only the seeded analytics row and the column constraints are modelled.
- Concurrency: each create call is atomic in the model. The source leaves a window between the insert and the recompute.
- Error messages and logs: a response carries the status code and the body only. `BadRequest400` lists the broken rules, not the message texts or the per-validator split of express-validator.
- Feedback.AverageTenths: models `toFixed(1)` as exact rounding of the mean to tenths with halves up. The source rounds the binary floating-point value, which differs when a mean such as 1.15 is stored slightly below the half.
- Feedback.Percent: models `Math.round((p/total)*100)` as exact rounding with halves up. Floating-point error at exact halves is not modelled.
- Server.RatingOk: takes the rating as a JSON integer. A numeric string such as "3", which express-validator's `isInt` also accepts, is not represented.
- Server.HandleGetFeedbackById: takes the path id as an integer. A path id that is not an integer literal, which the database rejects (500), is not represented; an integer outside INTEGER is.
- Server.ToFeedbackData: timestamps are naturals. A present but empty timestamp string, which `||` replaces by the current time, is not represented, and neither is a timestamp string the database cannot parse.
- Feedback.Insertable: PostgreSQL truncates an over-long `VARCHAR` value when the excess is all spaces. The model rejects it instead.
- Feedback.FeedbackStore.CreateFeedback: a rejected insert does not advance the id counter. PostgreSQL may consume a sequence value in that case; ids stay unique and increasing either way.
- A grouped sentiment row whose label is not one of the three, such as a NULL sentiment, counts in the source's `total` but in no label's counter. The model's closed `Label` type and stored rows that always carry a label exclude such rows.
- Row order of the grouped queries and of records with equal timestamps is unspecified in SQL. The contracts hold for any grouping (`GroupingCounts`) and state only the timestamp order for listings.
