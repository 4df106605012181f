// The request handlers of src/api.py that are sequential logic once HTTP
// is taken away: the poll cache key, the shaping of the `/api/validate`
// response, and the batch-creation endpoint's guards, in-order loop with
// fail-fast stop, and tallies. Each poll creation's outcome (the call to
// the remote service) is an input, one per request.

module Api {
  import opened Common
  import opened Text
  import opened Uuids
  import opened SurveyModels
  import opened SurveyValidation
  import opened ValidationReport
  import opened LeanixConfig

  // ---------------------------------------------------------------------------
  // make_cache_key
  // ---------------------------------------------------------------------------

  /** `f"{workspace_id}:{poll_id}"`. */
  function MakeCacheKey(workspaceId: Uuid, pollId: Uuid): (key: string)
    ensures |key| == 73 && key[36] == ':'
    ensures key[..36] == UuidText(workspaceId) && key[37..] == UuidText(pollId)
  {
    UuidText(workspaceId) + ":" + UuidText(pollId)
  }

  /** Splits a cache key back into its workspace and poll ids. */
  function ParseCacheKey(key: string): (r: Option<(Uuid, Uuid)>)
    ensures r.Some? ==> |key| == 73 && key[36] == ':'
  {
    if |key| != 73 || key[36] != ':' then None
    else
      var w := ParseUuidText(key[..36]);
      var p := ParseUuidText(key[37..]);
      if w.Some? && p.Some? then Some((w.value, p.value)) else None
  }

  /** The key names its pair of ids and nothing else. */
  lemma CacheKeyRoundTrip(workspaceId: Uuid, pollId: Uuid)
    ensures ParseCacheKey(MakeCacheKey(workspaceId, pollId)) == Some((workspaceId, pollId))
  {
    UuidTextRoundTrip(workspaceId);
    UuidTextRoundTrip(pollId);
  }

  /** Different (workspace, poll) pairs never share a cache entry. */
  lemma CacheKeyInjective(w1: Uuid, p1: Uuid, w2: Uuid, p2: Uuid)
    requires MakeCacheKey(w1, p1) == MakeCacheKey(w2, p2)
    ensures w1 == w2 && p1 == p2
  {
    CacheKeyRoundTrip(w1, p1);
    CacheKeyRoundTrip(w2, p2);
  }

  // ---------------------------------------------------------------------------
  // POST /api/validate
  // ---------------------------------------------------------------------------

  /** The `details` summary of an accepted survey. */
  datatype Details = Details(title: string, questionCount: nat, hasUserQuery: bool, hasFactSheetQuery: bool)

  datatype ValidateResponse = ValidateResponse(
    valid: bool,
    message: string,
    surveyInput: Option<SurveyInput>,
    error: Option<string>,
    details: Option<Details>)

  const ValidMessage := "Survey definition is valid"
  const InvalidJsonMessage := "Invalid JSON"
  const FailedMessage := "Validation failed"

  /**
   * The handler's response. `describe` is `str(exc)` of whatever exception
   * building the survey raised (the library's rendering of a validation
   * error, or the error for a document that is not an object); it is used
   * only on that path. The handler never raises.
   */
  function ValidateEndpoint(d: Decoded, describe: string): (r: ValidateResponse)
    ensures r.valid <==> d.Object? && ValidateSurvey(d.data).Valid?
    ensures r.valid <==> r.surveyInput.Some? && r.details.Some?
    ensures r.valid <==> r.error.None?
    ensures r.valid ==> r.message == ValidMessage && r.surveyInput == Some(ValidateSurvey(d.data).value)
    ensures r.valid ==> var s := r.surveyInput.value;
      r.details == Some(Details(s.title, |s.questionnaire.questions|, s.extra.userQuery.Some?, s.extra.factSheetQuery.Some?))
    ensures d.Malformed? ==> r == ValidateResponse(false, InvalidJsonMessage, None, Some("Invalid JSON: " + d.detail), None)
    ensures !r.valid && !d.Malformed? ==> r.message == FailedMessage
    ensures d.Fault? ==> r.error == Some(d.detail)
    ensures d.NotObject? || (d.Object? && ValidateSurvey(d.data).Invalid?) ==> r.error == Some(describe)
  {
    match d
    case Malformed(detail) =>
      ValidateResponse(false, InvalidJsonMessage, None, Some("Invalid JSON: " + detail), None)
    case Fault(detail) =>
      ValidateResponse(false, FailedMessage, None, Some(detail), None)
    case NotObject =>
      ValidateResponse(false, FailedMessage, None, Some(describe), None)
    case Object(data) =>
      var v := ValidateSurvey(data);
      if v.Invalid? then ValidateResponse(false, FailedMessage, None, Some(describe), None)
      else
        var s := v.value;
        ValidateResponse(true, ValidMessage, Some(s), None,
          Some(Details(s.title, |s.questionnaire.questions|, s.extra.userQuery.Some?, s.extra.factSheetQuery.Some?)))
  }

  /**
   * The endpoint and the command-line validator agree: they accept the same
   * documents, return the same survey, and report malformed JSON with the
   * same text.
   */
  lemma EndpointAgreesWithClassify(d: Decoded, describe: string)
    ensures ValidateEndpoint(d, describe).valid == Classify(d).isValid
    ensures ValidateEndpoint(d, describe).surveyInput == Classify(d).survey
    ensures d.Malformed? ==> ValidateEndpoint(d, describe).error == Some(Classify(d).errorMessage)
  {
  }

  // ---------------------------------------------------------------------------
  // POST /api/surveys/create-batch
  // ---------------------------------------------------------------------------

  datatype SurveyCreateRequest = SurveyCreateRequest(
    surveyInput: SurveyInput, language: string, factSheetType: string, dueDate: Option<Date>)

  datatype BatchRequest = BatchRequest(requests: seq<SurveyCreateRequest>, failFast: bool)

  /** A create request as sent, before the default `language` is filled in. */
  datatype RawSurveyCreateRequest = RawSurveyCreateRequest(
    surveyInput: SurveyInput, language: Option<string>, factSheetType: string, dueDate: Option<Date>)

  /** A batch request as sent, before the default `fail_fast` is filled in. */
  datatype RawBatchRequest = RawBatchRequest(requests: seq<RawSurveyCreateRequest>, failFast: Option<bool>)

  const DefaultLanguage := "en"

  /** The request model's defaults: a left-out `language` is English. */
  function DecodeCreateRequest(raw: RawSurveyCreateRequest): (q: SurveyCreateRequest)
    ensures q.surveyInput == raw.surveyInput && q.factSheetType == raw.factSheetType && q.dueDate == raw.dueDate
    ensures raw.language.Some? ==> q.language == raw.language.value
    ensures raw.language.None? ==> q.language == DefaultLanguage
  {
    SurveyCreateRequest(raw.surveyInput, if raw.language.Some? then raw.language.value else DefaultLanguage,
                        raw.factSheetType, raw.dueDate)
  }

  /** The batch model's defaults: each request decoded, and a left-out `fail_fast` means fail-fast. */
  function DecodeBatchRequest(raw: RawBatchRequest): (b: BatchRequest)
    ensures |b.requests| == |raw.requests|
    ensures forall i | 0 <= i < |raw.requests| :: b.requests[i] == DecodeCreateRequest(raw.requests[i])
    ensures b.failFast <==> raw.failFast != Some(false)
  {
    BatchRequest(DecodedRequests(raw.requests), raw.failFast != Some(false))
  }

  function DecodedRequests(rs: seq<RawSurveyCreateRequest>): (r: seq<SurveyCreateRequest>)
    ensures |r| == |rs| && forall i | 0 <= i < |rs| :: r[i] == DecodeCreateRequest(rs[i])
  {
    seq(|rs|, i requires 0 <= i < |rs| => DecodeCreateRequest(rs[i]))
  }

  /**
   * What happened when one poll was sent: created (with the id the service
   * returned, if any), an HTTP exception with its detail, or any other
   * exception with its text.
   */
  datatype ItemOutcome = Created(pollId: Option<string>) | HttpFailure(detail: string) | Unexpected(detail: string)

  datatype ItemResult = ItemResult(index: nat, success: bool, pollId: Option<string>, message: string,
                                   errors: Option<seq<string>>)

  datatype BatchResponse = BatchResponse(success: bool, succeeded: nat, failed: nat, results: seq<ItemResult>,
                                         message: string)

  /** An HTTP error raised by the handler, with its status code and detail. */
  datatype HttpException = HttpException(statusCode: nat, detail: string)

  /** `MAX_BATCH_SIZE` when the environment does not set it. */
  const DefaultMaxBatchSize := 25

  const EmptyBatchDetail := "Batch requests cannot be empty"
  const CreatedMessage := "Survey created successfully"
  const FailedCreateMessage := "Failed to create survey"
  const UnexpectedMessage := "Unexpected error during survey creation"

  function IntToString(n: int): string {
    if n < 0 then "-" + NatToString(-n) else NatToString(n)
  }

  function BatchTooLargeDetail(maxBatchSize: int): (r: string)
    ensures StartsWith(r, "Batch size exceeds maximum of ")
    ensures maxBatchSize >= 0 ==> r[30..] == NatToString(maxBatchSize)
  {
    "Batch size exceeds maximum of " + IntToString(maxBatchSize)
  }

  /** Python's `repr` of a list of strings that hold no quote or backslash. */
  function ListRepr(xs: seq<string>): (r: string)
    ensures |r| >= 2 && r[0] == '[' && r[|r| - 1] == ']'
    ensures xs == [] ==> r == "[]"
    ensures |xs| == 1 ==> r == "['" + xs[0] + "']"
  {
    "[" + Join(seq(|xs|, i requires 0 <= i < |xs| => "'" + xs[i] + "'"), ", ") + "]"
  }

  function InvalidConfigDetail(errors: seq<string>): (r: string)
    ensures StartsWith(r, "Invalid configuration: ") && r[23..] == ListRepr(errors)
  {
    "Invalid configuration: " + ListRepr(errors)
  }

  function SummaryMessage(succeeded: nat, failed: nat): (r: string)
    ensures StartsWith(r, "Batch completed: ") && EndsWith(r, " failed")
  {
    "Batch completed: " + NatToString(succeeded) + " succeeded, " + NatToString(failed) + " failed"
  }

  /** Two digit runs set in the summary line's text can be read back from it. */
  lemma SummaryPartsUnique(a1: string, b1: string, a2: string, b2: string)
    requires forall i | 0 <= i < |a1| :: IsDigit(a1[i])
    requires forall i | 0 <= i < |a2| :: IsDigit(a2[i])
    requires forall i | 0 <= i < |b1| :: IsDigit(b1[i])
    requires forall i | 0 <= i < |b2| :: IsDigit(b2[i])
    requires "Batch completed: " + a1 + " succeeded, " + b1 + " failed"
          == "Batch completed: " + a2 + " succeeded, " + b2 + " failed"
    ensures a1 == a2 && b1 == b2
  {
    var p, q, t := "Batch completed: ", " succeeded, ", " failed";
    var r1, r2 := q + b1 + t, q + b2 + t;
    assert p + a1 + q + b1 + t == p + (a1 + r1);
    assert p + a2 + q + b2 + t == p + (a2 + r2);
    PrefixCancel(p, a1 + r1, a2 + r2);
    assert r1[0] == ' ' && r2[0] == ' ';
    DigitPrefixUnique(a1, r1, a2, r2);
    assert r1 == q + (b1 + t) && r2 == q + (b2 + t);
    PrefixCancel(q, b1 + t, b2 + t);
    DigitPrefixUnique(b1, t, b2, t);
  }

  /** The summary line names both counts: different tallies give different lines. */
  lemma SummaryMessageInjective(s1: nat, f1: nat, s2: nat, f2: nat)
    ensures SummaryMessage(s1, f1) == SummaryMessage(s2, f2) <==> s1 == s2 && f1 == f2
  {
    if SummaryMessage(s1, f1) == SummaryMessage(s2, f2) {
      SummaryPartsUnique(NatToString(s1), NatToString(f1), NatToString(s2), NatToString(f2));
      NatToStringInjective(s1, s2);
      NatToStringInjective(f1, f2);
    }
  }

  /** The result recorded for the item at `index`. */
  function ItemResultFor(index: nat, o: ItemOutcome): (r: ItemResult)
    ensures r.index == index
    ensures r.success <==> o.Created?
    ensures r.success <==> r.errors.None?
    ensures r.pollId == (if o.Created? then o.pollId else None)
  {
    match o
    case Created(pollId) => ItemResult(index, true, pollId, CreatedMessage, None)
    case HttpFailure(detail) => ItemResult(index, false, None, FailedCreateMessage, Some([detail]))
    case Unexpected(detail) => ItemResult(index, false, None, UnexpectedMessage, Some([detail]))
  }

  /** The results of the first `n` items, in order. */
  function ResultsUpTo(outcomes: seq<ItemOutcome>, n: nat): (r: seq<ItemResult>)
    requires n <= |outcomes|
    ensures |r| == n
    ensures forall i | 0 <= i < n :: r[i] == ItemResultFor(i, outcomes[i])
  {
    seq(n, i requires 0 <= i < n => ItemResultFor(i, outcomes[i]))
  }

  /** How many items a fail-fast run handles: up to and including the first failure. */
  function FailFastCount(outcomes: seq<ItemOutcome>): (n: nat)
    ensures n <= |outcomes|
    ensures n == 0 <==> outcomes == []
  {
    if outcomes == [] then 0
    else if !outcomes[0].Created? then 1
    else 1 + FailFastCount(outcomes[1..])
  }

  /** Under fail-fast, every item before the last one handled succeeded. */
  lemma {:induction false} FailFastPrefixSucceeded(outcomes: seq<ItemOutcome>)
    ensures forall i | 0 <= i < FailFastCount(outcomes) - 1 :: outcomes[i].Created?
    ensures FailFastCount(outcomes) < |outcomes| ==> !outcomes[FailFastCount(outcomes) - 1].Created?
  {
    if outcomes != [] && outcomes[0].Created? {
      var rest := outcomes[1..];
      FailFastPrefixSucceeded(rest);
      assert forall i | 1 <= i < |outcomes| :: outcomes[i] == rest[i - 1];
    }
  }

  /** A failure right after a run of successes ends a fail-fast run. */
  lemma {:induction false} FailFastStopsAt(outcomes: seq<ItemOutcome>, k: nat)
    requires k < |outcomes| && !outcomes[k].Created?
    requires forall i | 0 <= i < k :: outcomes[i].Created?
    ensures FailFastCount(outcomes) == k + 1
  {
    if k > 0 {
      var rest := outcomes[1..];
      assert forall i | 0 <= i < k - 1 :: rest[i] == outcomes[i + 1];
      FailFastStopsAt(rest, k - 1);
    }
  }

  /** With no failure at all, a fail-fast run handles every item. */
  lemma {:induction false} FailFastAllCreated(outcomes: seq<ItemOutcome>)
    requires forall i | 0 <= i < |outcomes| :: outcomes[i].Created?
    ensures FailFastCount(outcomes) == |outcomes|
  {
    if outcomes != [] {
      var rest := outcomes[1..];
      assert forall i | 0 <= i < |rest| :: rest[i] == outcomes[i + 1];
      FailFastAllCreated(rest);
    }
  }

  /** The results a batch produces: every item, or under fail-fast up to the first failure. */
  function BatchResults(outcomes: seq<ItemOutcome>, failFast: bool): (r: seq<ItemResult>)
    ensures |r| <= |outcomes|
    ensures forall i | 0 <= i < |r| :: r[i] == ItemResultFor(i, outcomes[i])
  {
    ResultsUpTo(outcomes, if failFast then FailFastCount(outcomes) else |outcomes|)
  }

  /** Each handled item has exactly one result, in input order, carrying its position. */
  lemma ResultsInOrder(outcomes: seq<ItemOutcome>, failFast: bool)
    ensures forall i | 0 <= i < |BatchResults(outcomes, failFast)| ::
      BatchResults(outcomes, failFast)[i].index == i
      && (BatchResults(outcomes, failFast)[i].success <==> outcomes[i].Created?)
  {
  }

  /** Without fail-fast every request gets a result. */
  lemma NoFailFastHandlesAll(outcomes: seq<ItemOutcome>)
    ensures |BatchResults(outcomes, false)| == |outcomes|
  {
  }

  /**
   * With fail-fast at most one result is a failure and it is the last one;
   * processing stops only at a failure.
   */
  lemma FailFastAtMostOneFailure(outcomes: seq<ItemOutcome>)
    ensures var r := BatchResults(outcomes, true);
      (forall i | 0 <= i < |r| - 1 :: r[i].success)
      && (|r| < |outcomes| ==> !r[|r| - 1].success)
  {
    FailFastPrefixSucceeded(outcomes);
  }

  /**
   * A batch sent without `fail_fast` stops at its first failure: every
   * result but the last succeeded, and an early stop is a failure.
   */
  lemma OmittedFailFastStopsAtFirstFailure(raw: RawBatchRequest, outcomes: seq<ItemOutcome>)
    requires raw.failFast.None?
    ensures DecodeBatchRequest(raw).failFast
    ensures var r := BatchResults(outcomes, DecodeBatchRequest(raw).failFast);
      (forall i | 0 <= i < |r| - 1 :: r[i].success)
      && (|r| < |outcomes| ==> !r[|r| - 1].success)
  {
    FailFastAtMostOneFailure(outcomes);
  }

  /** How many results succeeded. */
  function Succeeded(results: seq<ItemResult>): (n: nat)
    ensures n <= |results|
    ensures n == 0 <==> forall i | 0 <= i < |results| :: !results[i].success
  {
    if results == [] then 0
    else
      var init := results[..|results| - 1];
      assert forall i | 0 <= i < |init| :: init[i] == results[i];
      Succeeded(init) + (if results[|results| - 1].success then 1 else 0)
  }

  /** How many results failed. */
  function Failed(results: seq<ItemResult>): (n: nat)
    ensures n <= |results|
    ensures n == |results| <==> forall i | 0 <= i < |results| :: !results[i].success
  {
    if results == [] then 0
    else
      var init := results[..|results| - 1];
      assert forall i | 0 <= i < |init| :: init[i] == results[i];
      Failed(init) + (if results[|results| - 1].success then 0 else 1)
  }

  /** Every result is counted exactly once, and no failure means every result succeeded. */
  lemma {:induction false} TallyAddsUp(results: seq<ItemResult>)
    ensures Succeeded(results) + Failed(results) == |results|
    ensures Failed(results) == 0 <==> forall i | 0 <= i < |results| :: results[i].success
  {
    if results != [] {
      var init := results[..|results| - 1];
      TallyAddsUp(init);
      assert forall i | 0 <= i < |init| :: init[i] == results[i];
    }
  }

  /**
   * `sum(1 for r in results if r.success)` and its complement, one counting
   * pass each.
   */
  method CountOutcomes(results: seq<ItemResult>) returns (succeeded: nat, failed: nat)
    ensures succeeded == Succeeded(results) && failed == Failed(results)
    ensures succeeded + failed == |results|
  {
    succeeded := 0;
    var k := 0;
    while k < |results|
      invariant 0 <= k <= |results|
      invariant succeeded == Succeeded(results[..k])
    {
      assert results[..k + 1][..k] == results[..k];
      if results[k].success {
        succeeded := succeeded + 1;
      }
      k := k + 1;
    }
    failed := 0;
    k := 0;
    while k < |results|
      invariant 0 <= k <= |results|
      invariant failed == Failed(results[..k])
    {
      assert results[..k + 1][..k] == results[..k];
      if !results[k].success {
        failed := failed + 1;
      }
      k := k + 1;
    }
    assert results[..|results|] == results;
    TallyAddsUp(results);
  }

  /**
   * The loop over the requests: one result per handled item, in order,
   * breaking after the first failure when `failFast` is set.
   */
  method ProcessItems(batch: BatchRequest, outcomes: seq<ItemOutcome>) returns (results: seq<ItemResult>)
    requires |outcomes| == |batch.requests|
    ensures results == BatchResults(outcomes, batch.failFast)
  {
    results := [];
    var index := 0;
    while index < |batch.requests|
      invariant 0 <= index <= |batch.requests|
      invariant results == ResultsUpTo(outcomes, index)
      invariant batch.failFast ==> forall i | 0 <= i < index :: outcomes[i].Created?
    {
      var outcome := outcomes[index];
      match outcome {
        case Created(pollId) =>
          results := results + [ItemResult(index, true, pollId, CreatedMessage, None)];
        case HttpFailure(detail) =>
          results := results + [ItemResult(index, false, None, FailedCreateMessage, Some([detail]))];
        case Unexpected(detail) =>
          results := results + [ItemResult(index, false, None, UnexpectedMessage, Some([detail]))];
      }
      assert results == ResultsUpTo(outcomes, index + 1);
      if batch.failFast && !outcome.Created? {
        FailFastStopsAt(outcomes, index);
        break;
      }
      index := index + 1;
    }
    if batch.failFast && index == |batch.requests| {
      FailFastAllCreated(outcomes);
    }
  }

  /**
   * `create_survey_batch`. An empty batch is rejected with 400 and one over
   * `maxBatchSize` with 422, both before the configuration is checked or any
   * item is sent; an invalid configuration is rejected with 422 and its
   * error list. Otherwise the items are handled in order, stopping after the
   * first failure under fail-fast, and the response tallies the results.
   * `outcomes[i]` is what sending request `i` would give.
   */
  method CreateSurveyBatch(batch: BatchRequest, leanixUrl: string, apiToken: string, workspaceId: Uuid,
                           urlparse: string -> UrlParse, maxBatchSize: int, outcomes: seq<ItemOutcome>)
    returns (response: Result<BatchResponse, HttpException>)
    requires |outcomes| == |batch.requests|
    ensures |batch.requests| == 0 ==> response == Err(HttpException(400, EmptyBatchDetail))
    ensures |batch.requests| > 0 && |batch.requests| > maxBatchSize ==>
      response == Err(HttpException(422, BatchTooLargeDetail(maxBatchSize)))
    ensures 0 < |batch.requests| <= maxBatchSize && ConfigErrors(leanixUrl, apiToken, urlparse(leanixUrl)) != [] ==>
      response == Err(HttpException(422, InvalidConfigDetail(ConfigErrors(leanixUrl, apiToken, urlparse(leanixUrl)))))
    ensures response.Ok? <==> 0 < |batch.requests| <= maxBatchSize && ConfigErrors(leanixUrl, apiToken, urlparse(leanixUrl)) == []
    ensures response.Ok? ==>
      var b := response.value;
      var results := BatchResults(outcomes, batch.failFast);
      b == BatchResponse(Failed(results) == 0, Succeeded(results), Failed(results), results,
                         SummaryMessage(Succeeded(results), Failed(results)))
  {
    if |batch.requests| == 0 {
      return Err(HttpException(400, EmptyBatchDetail));
    }
    if |batch.requests| > maxBatchSize {
      return Err(HttpException(422, BatchTooLargeDetail(maxBatchSize)));
    }
    var config := LeanIXConfig(leanixUrl, apiToken, workspaceId);
    var isValid, errors := config.ValidateConfig(urlparse);
    if !isValid {
      return Err(HttpException(422, InvalidConfigDetail(errors)));
    }

    var results := ProcessItems(batch, outcomes);
    var succeeded, failed := CountOutcomes(results);
    var success := failed == 0;
    var message := SummaryMessage(succeeded, failed);
    return Ok(BatchResponse(success, succeeded, failed, results, message));
  }

  // ---------------------------------------------------------------------------
  // The item conversion as written
  // ---------------------------------------------------------------------------

  /**
   * The loop converts each request with `from_survey_input(...,
   * transform_ids_to_uuid=True)`, a keyword that method does not declare, so
   * the call raises `TypeError` before anything is sent; the generic handler
   * records it as an unexpected error. This is that exception's text.
   */
  const UnexpectedKeywordText := "PollCreate.from_survey_input() got an unexpected keyword argument 'transform_ids_to_uuid'"

  /** The outcome of every item as the loop is written: the conversion raises. */
  function AsWrittenOutcomes(batch: BatchRequest): (r: seq<ItemOutcome>)
    ensures |r| == |batch.requests|
    ensures forall i | 0 <= i < |r| :: r[i] == Unexpected(UnexpectedKeywordText)
  {
    seq(|batch.requests|, i requires 0 <= i < |batch.requests| => Unexpected(UnexpectedKeywordText))
  }

  /** A sequence of failed results has no success among them. */
  lemma {:induction false} NoneSucceeded(results: seq<ItemResult>)
    requires forall i | 0 <= i < |results| :: !results[i].success
    ensures Succeeded(results) == 0 && Failed(results) == |results|
  {
    if results != [] {
      var init := results[..|results| - 1];
      assert forall i | 0 <= i < |init| :: init[i] == results[i];
      NoneSucceeded(init);
    }
  }

  /**
   * As written, no non-empty batch ever creates a survey: every handled item
   * fails, and under fail-fast only the first one is handled.
   */
  lemma AsWrittenBatchNeverSucceeds(batch: BatchRequest)
    requires |batch.requests| > 0
    ensures var r := BatchResults(AsWrittenOutcomes(batch), batch.failFast);
      Succeeded(r) == 0 && Failed(r) == (if batch.failFast then 1 else |batch.requests|)
  {
    var outcomes := AsWrittenOutcomes(batch);
    var r := BatchResults(outcomes, batch.failFast);
    if batch.failFast {
      FailFastStopsAt(outcomes, 0);
    }
    NoneSucceeded(r);
  }

  /**
   * With the conversion working, what a batch reports follows the outcomes of
   * its items: when every item is created, every item is handled and counted
   * as a success, whether or not fail-fast is set.
   */
  lemma AllCreatedBatchSucceeds(outcomes: seq<ItemOutcome>, failFast: bool)
    requires forall i | 0 <= i < |outcomes| :: outcomes[i].Created?
    ensures var r := BatchResults(outcomes, failFast);
      |r| == |outcomes| && Succeeded(r) == |outcomes| && Failed(r) == 0
  {
    FailFastAllCreated(outcomes);
    var r := BatchResults(outcomes, failFast);
    TallyAddsUp(r);
  }
}
