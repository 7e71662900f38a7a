/** Structured model responses: validation, printing, and the bounded retry. */
module ModelResponses {
  import opened Wrappers
  import opened JsonValue
  import opened Text
  import Utf8

  const REQUIRED_FIELDS := {"status", "round", "code"}
  const LAYER_FIELDS := {"changes", "evidence", "hypotheses", "predictions"}
  const RAW_FIELD := "raw_optional_content"
  const LEGACY_V2_FIELDS := {"status", "round", "optimization_summary", "expected_effect", "assumptions", "code"}
  const LEGACY_V1_FIELDS := {"status", "round", "change_summary", "expected_effect", "assumptions", "code"}
  const MAXIMUM_CODE_BYTES := 262_144
  const MAXIMUM_ITEMS := 32

  /** The three explanation lists of texts of the two historical schemas. */
  datatype LegacyIntent = LegacyIntent(
    summaryField: string, summary: seq<Json>, expectedEffect: seq<Json>, assumptions: seq<Json>)

  datatype ModelResponse = ModelResponse(
    status: string, round: int,
    changes: seq<Json>, evidence: seq<Json>, hypotheses: seq<Json>, predictions: seq<Json>,
    code: string, rawOptionalContent: Option<map<string, Json>>, legacy: Option<LegacyIntent>)
  {
    function ToDict(): map<string, Json> {
      if legacy.Some? then
        map["status" := Str(status), "round" := Int(round),
            legacy.value.summaryField := Arr(legacy.value.summary),
            "expected_effect" := Arr(legacy.value.expectedEffect),
            "assumptions" := Arr(legacy.value.assumptions),
            "code" := Str(code)]
      else
        var result := map["status" := Str(status), "round" := Int(round),
                          "changes" := Arr(changes), "evidence" := Arr(evidence),
                          "hypotheses" := Arr(hypotheses), "predictions" := Arr(predictions),
                          "code" := Str(code)];
        if rawOptionalContent.Some? && rawOptionalContent.value != map[]
        then result[RAW_FIELD := Obj(rawOptionalContent.value)] else result
    }
  }

  datatype ResponseError =
    | NotAnObject | MissingFields(names: set<string>)
    | BadStatus | BadRound | WrongRound
    | EmptyCode | CodeTooLong | CodeHasNul | FencedCode
    | NotStrings(field: string) | TooManyItems(field: string) | ItemHasNul(field: string)
    | Truncated | AbnormalCompletion
    // These are other exceptions, and no response errors: the JSON parser gives
    // up, a list or object is looked up in a set, a text has no encoding.
    | ParserRaised | UnhashableStatus | Unencodable
  {
    predicate Escapes() {
      ParserRaised? || UnhashableStatus? || Unencodable?
    }
  }

  // ---------- text checks ----------

  const FENCE := "```"

  function CheckCode(value: Json): (verdict: Result<string, ResponseError>)
    ensures verdict.Ok? ==> value == Str(verdict.value)
  {
    // A surrogate is no white space, so such a text is not blank.
    if value.IllFormed? then Err(Unencodable)
    else if !value.Str? || StripLeft(value.text) == "" then Err(EmptyCode)
    else if |Utf8.Encode(value.text)| > MAXIMUM_CODE_BYTES then Err(CodeTooLong)
    else if NUL in value.text then Err(CodeHasNul)
    else if StartsWith(StripLeft(value.text), FENCE) || EndsWith(StripRight(value.text), FENCE) then Err(FencedCode)
    else Ok(value.text)
  }

  function CheckRound(value: Json, expectedRound: Option<int>): Result<int, ResponseError> {
    if !value.Int? || value.number < 1 then Err(BadRound)
    else if expectedRound.Some? && value.number != expectedRound.value then Err(WrongRound)
    else Ok(value.number)
  }

  function CheckStatus(value: Json): Result<string, ResponseError> {
    if value.Arr? || value.Obj? then Err(UnhashableStatus)
    else if value == Str("candidate") || value == Str("no_change") then Ok(value.text)
    else Err(BadStatus)
  }

  // ---------- lists ----------

  predicate HasNul(text: Json) {
    (text.Str? && NUL in text.text) || (text.IllFormed? && 0 in text.codePoints)
  }

  function StringList(value: Json, field: string): Result<seq<Json>, ResponseError> {
    if !value.Arr? || exists v :: v in value.items && !v.IsText() then Err(NotStrings(field))
    else if |value.items| > MAXIMUM_ITEMS then Err(TooManyItems(field))
    else if exists v :: v in value.items && HasNul(v) then Err(ItemHasNul(field))
    else Ok(value.items)
  }

  function OptionalList(fields: map<string, Json>, name: string): seq<Json> {
    if name in fields && fields[name].Arr? then fields[name].items else []
  }

  // ---------- validation ----------

  function SummaryField(fields: map<string, Json>, allowLegacy: bool): Option<string> {
    if allowLegacy && fields.Keys == LEGACY_V2_FIELDS then Some("optimization_summary")
    else if allowLegacy && fields.Keys == LEGACY_V1_FIELDS then Some("change_summary")
    else None
  }

  /** The fields that must be present, given the historical schema that applies. */
  function ExpectedFields(summaryField: Option<string>): (fields: set<string>)
    ensures REQUIRED_FIELDS <= fields
    ensures summaryField.None? ==> fields == REQUIRED_FIELDS
  {
    if summaryField == Some("optimization_summary") then LEGACY_V2_FIELDS
    else if summaryField == Some("change_summary") then LEGACY_V1_FIELDS
    else REQUIRED_FIELDS
  }

  /** Content the caller already kept apart, under its own field. */
  function PreservedContent(fields: map<string, Json>): map<string, Json> {
    if RAW_FIELD !in fields then map[]
    else if fields[RAW_FIELD].Obj? then fields[RAW_FIELD].fields
    else map[RAW_FIELD := fields[RAW_FIELD]]
  }

  /** Top-level fields that no response field holds. */
  predicate IsExtra(fields: map<string, Json>, field: string) {
    && field in fields && field !in REQUIRED_FIELDS && field != RAW_FIELD
    && !(field in LAYER_FIELDS && fields[field].Arr?)
  }

  function RawContent(fields: map<string, Json>): map<string, Json> {
    PreservedContent(fields) + map k | k in fields && IsExtra(fields, k) :: fields[k]
  }

  function NonEmpty(content: map<string, Json>): Option<map<string, Json>> {
    if content == map[] then None else Some(content)
  }

  function CheckLegacy(fields: map<string, Json>, summaryField: string): Result<LegacyIntent, ResponseError>
    requires {summaryField, "expected_effect", "assumptions"} <= fields.Keys
  {
    var summary :- StringList(fields[summaryField], summaryField);
    var expectedEffect :- StringList(fields["expected_effect"], "expected_effect");
    var assumptions :- StringList(fields["assumptions"], "assumptions");
    Ok(LegacyIntent(summaryField, summary, expectedEffect, assumptions))
  }

  function ValidateFields(fields: map<string, Json>, expectedRound: Option<int>, allowLegacy: bool)
    : Result<ModelResponse, ResponseError>
  {
    if !(REQUIRED_FIELDS <= fields.Keys) then Err(MissingFields(REQUIRED_FIELDS - fields.Keys))
    else
      var status :- CheckStatus(fields["status"]);
      var round :- CheckRound(fields["round"], expectedRound);
      var code :- CheckCode(fields["code"]);
      var summaryField := SummaryField(fields, allowLegacy);
      if summaryField.Some? then
        var legacy :- CheckLegacy(fields, summaryField.value);
        Ok(ModelResponse(status, round, [], [], [], [], code, None, Some(legacy)))
      else
        Ok(ModelResponse(status, round,
                         OptionalList(fields, "changes"), OptionalList(fields, "evidence"),
                         OptionalList(fields, "hypotheses"), OptionalList(fields, "predictions"),
                         code, NonEmpty(RawContent(fields)), None))
  }

  function Validate(value: Json, expectedRound: Option<int>, allowLegacy: bool): Result<ModelResponse, ResponseError> {
    if !value.Obj? then Err(NotAnObject) else ValidateFields(value.fields, expectedRound, allowLegacy)
  }

  lemma NothingMissing(expected: set<string>, present: set<string>)
    requires expected - present == {} && REQUIRED_FIELDS <= expected
    ensures expected <= present && "status" in present && "round" in present && "code" in present
  {
    forall f | f in expected ensures f in present {
      assert f !in expected - present;
    }
    assert "status" in REQUIRED_FIELDS && "round" in REQUIRED_FIELDS && "code" in REQUIRED_FIELDS;
  }

  /** The loop that sets aside what the response fields do not hold. */
  method CollectRawContent(fields: map<string, Json>, isLegacy: bool) returns (content: map<string, Json>)
    ensures isLegacy ==> content == PreservedContent(fields)
    ensures !isLegacy ==> content == RawContent(fields)
  {
    content := PreservedContent(fields);
    if !isLegacy {
      var todo := fields.Keys;
      while todo != {}
        invariant todo <= fields.Keys
        invariant content == PreservedContent(fields)
                             + map k | k in fields && k !in todo && IsExtra(fields, k) :: fields[k]
      {
        var field :| field in todo;
        todo := todo - {field};
        if IsExtra(fields, field) {
          content := content[field := fields[field]];
        }
      }
    }
  }

  /** `validate_model_response` in the order the source works. */
  method ValidateModelResponse(value: Json, expectedRound: Option<int>, allowLegacy: bool)
    returns (verdict: Result<ModelResponse, ResponseError>)
    ensures verdict == Validate(value, expectedRound, allowLegacy)
  {
    hide CheckStatus, CheckRound, CheckCode, StringList;
    if !value.Obj? {
      return Err(NotAnObject);
    }
    var fields := value.fields;
    var summaryField := SummaryField(fields, allowLegacy);
    var expected := ExpectedFields(summaryField);
    if expected - fields.Keys != {} {
      return Err(MissingFields(expected - fields.Keys));
    }
    NothingMissing(expected, fields.Keys);
    var status :- CheckStatus(fields["status"]);
    var round :- CheckRound(fields["round"], expectedRound);
    var code :- CheckCode(fields["code"]);
    var legacy := None;
    if summaryField.Some? {
      var intent :- CheckLegacy(fields, summaryField.value);
      legacy := Some(intent);
    }
    var content := CollectRawContent(fields, legacy.Some?);
    assert legacy.Some? ==> RAW_FIELD !in fields.Keys;
    verdict := Ok(if legacy.Some?
      then ModelResponse(status, round, [], [], [], [], code, NonEmpty(content), legacy)
      else ModelResponse(status, round,
                         OptionalList(fields, "changes"), OptionalList(fields, "evidence"),
                         OptionalList(fields, "hypotheses"), OptionalList(fields, "predictions"),
                         code, NonEmpty(content), None));
  }

  // ---------- printing and parsing undo each other ----------

  lemma FieldNamesDiffer()
    ensures "status" != "round" && "status" != "code" && "round" != "code"
    ensures "status" !in LAYER_FIELDS && "round" !in LAYER_FIELDS && "code" !in LAYER_FIELDS
    ensures RAW_FIELD !in LAYER_FIELDS && RAW_FIELD !in REQUIRED_FIELDS
    ensures "changes" != "evidence" && "changes" != "hypotheses" && "changes" != "predictions"
    ensures "evidence" != "hypotheses" && "evidence" != "predictions" && "hypotheses" != "predictions"
  {
    assert "code"[0] != "status"[0];
  }

  /** What the printed form of a current response holds, field by field. */
  lemma PrintedFields(r: ModelResponse)
    requires r.legacy.None?
    ensures var printed := r.ToDict();
            && {"status", "round", "code", "changes", "evidence", "hypotheses", "predictions"} <= printed.Keys
            && printed["status"] == Str(r.status) && printed["round"] == Int(r.round)
            && printed["code"] == Str(r.code)
            && printed["changes"] == Arr(r.changes) && printed["evidence"] == Arr(r.evidence)
            && printed["hypotheses"] == Arr(r.hypotheses) && printed["predictions"] == Arr(r.predictions)
    ensures var printed := r.ToDict();
            && (RAW_FIELD in printed <==> r.rawOptionalContent.Some? && r.rawOptionalContent.value != map[])
            && (RAW_FIELD in printed ==> printed[RAW_FIELD] == Obj(r.rawOptionalContent.value))
            && forall k | k in printed :: k in REQUIRED_FIELDS || k == RAW_FIELD || (k in LAYER_FIELDS && printed[k].Arr?)
  {
    FieldNamesDiffer();
  }

  /** A historical document is printed back exactly as it was. */
  lemma LegacyPrintsOriginal(fields: map<string, Json>, expectedRound: Option<int>, r: ModelResponse)
    requires ValidateFields(fields, expectedRound, true) == Ok(r) && r.legacy.Some?
    ensures r.ToDict() == fields
  {
    hide CheckCode;
    FieldNamesDiffer();
    assert "change_summary" in LEGACY_V1_FIELDS && "change_summary" !in LEGACY_V2_FIELDS;
    assert r.ToDict().Keys == fields.Keys;
  }

  lemma CurrentPrintValidates(fields: map<string, Json>, expectedRound: Option<int>, allowLegacy: bool,
                              r: ModelResponse, later: bool)
    requires ValidateFields(fields, expectedRound, allowLegacy) == Ok(r) && r.legacy.None?
    ensures ValidateFields(r.ToDict(), expectedRound, later) == Ok(r)
  {
    hide CheckCode, StringList, ModelResponse.ToDict;
    var printed := r.ToDict();
    PrintedFields(r);
    assert "changes" in printed.Keys && "changes" !in LEGACY_V2_FIELDS && "changes" !in LEGACY_V1_FIELDS;
    assert SummaryField(printed, later) == None;
    assert forall k | k in printed :: !IsExtra(printed, k);
    assert RawContent(printed) == PreservedContent(printed);
  }

  /** For every accepted response, in either mode: validating what it prints
      gives it back; a response of the current schema needs no legacy mode. */
  lemma ResponseRoundTrip(value: Json, expectedRound: Option<int>, allowLegacy: bool)
    ensures var verdict := Validate(value, expectedRound, allowLegacy);
            verdict.Ok? ==>
              && Validate(Obj(verdict.value.ToDict()), expectedRound, true) == verdict
              && (verdict.value.legacy.None? ==>
                    Validate(Obj(verdict.value.ToDict()), expectedRound, false) == verdict)
  {
    hide ValidateFields;
    var verdict := Validate(value, expectedRound, allowLegacy);
    if verdict.Ok? {
      if verdict.value.legacy.Some? {
        LegacyNeedsPermission(value.fields, expectedRound, allowLegacy);
        LegacyPrintsOriginal(value.fields, expectedRound, verdict.value);
      } else {
        CurrentPrintValidates(value.fields, expectedRound, allowLegacy, verdict.value, true);
        CurrentPrintValidates(value.fields, expectedRound, allowLegacy, verdict.value, false);
      }
    }
  }

  lemma LegacyNeedsPermission(fields: map<string, Json>, expectedRound: Option<int>, allowLegacy: bool)
    ensures var verdict := ValidateFields(fields, expectedRound, allowLegacy);
            verdict.Ok? && verdict.value.legacy.Some? ==> allowLegacy
  {
    hide CheckCode, CheckLegacy;
  }

  /** Two responses that were accepted in the same way and print alike are equal. */
  lemma PrintingIsInjective(v: Json, w: Json, expectedRound: Option<int>, allowLegacy: bool)
    ensures var a, b := Validate(v, expectedRound, allowLegacy), Validate(w, expectedRound, allowLegacy);
            a.Ok? && b.Ok? && a.value.ToDict() == b.value.ToDict() ==> a == b
  {
    ResponseRoundTrip(v, expectedRound, allowLegacy);
    ResponseRoundTrip(w, expectedRound, allowLegacy);
  }

  /** Where a top-level field of the original is found in the printed response. */
  predicate Keeps(printed: map<string, Json>, field: string, value: Json) {
    || (field in printed && printed[field] == value)
    || (RAW_FIELD in printed && printed[RAW_FIELD].Obj?
        && field in printed[RAW_FIELD].fields && printed[RAW_FIELD].fields[field] == value)
  }

  /** Nothing is lost: every top-level field survives, on its own or inside the
      set-aside content.  Only content that arrived already set aside can lose
      an entry, and it does so exactly when a stray top-level field of the same
      name carries another value. */
  lemma NoFieldIsLost(value: Json, expectedRound: Option<int>, allowLegacy: bool)
    ensures var verdict := Validate(value, expectedRound, allowLegacy);
            verdict.Ok? ==>
              var printed := verdict.value.ToDict();
              && (forall k | k in value.fields && k != RAW_FIELD :: Keeps(printed, k, value.fields[k]))
              && (forall k | k in PreservedContent(value.fields) ::
                    (RAW_FIELD in printed && printed[RAW_FIELD].Obj? && k in printed[RAW_FIELD].fields
                     && printed[RAW_FIELD].fields[k] == PreservedContent(value.fields)[k])
                    <==> (IsExtra(value.fields, k) ==> value.fields[k] == PreservedContent(value.fields)[k]))
  {
    var verdict := Validate(value, expectedRound, allowLegacy);
    if verdict.Ok? {
      var fields, r := value.fields, verdict.value;
      if r.legacy.Some? {
        LegacyNeedsPermission(fields, expectedRound, allowLegacy);
        LegacyPrintsOriginal(fields, expectedRound, r);
        assert RAW_FIELD !in fields.Keys;
      } else {
        CurrentKeepsFields(fields, expectedRound, allowLegacy, r);
      }
    }
  }

  lemma CurrentKeepsFields(fields: map<string, Json>, expectedRound: Option<int>, allowLegacy: bool, r: ModelResponse)
    requires ValidateFields(fields, expectedRound, allowLegacy) == Ok(r) && r.legacy.None?
    ensures forall k | k in fields && k != RAW_FIELD :: Keeps(r.ToDict(), k, fields[k])
    ensures RawContent(fields) != map[] ==>
              RAW_FIELD in r.ToDict() && r.ToDict()[RAW_FIELD] == Obj(RawContent(fields))
    ensures RawContent(fields) == map[] ==> RAW_FIELD !in r.ToDict()
  {
    hide CheckCode, StringList;
    PrintedFields(r);
    FieldNamesDiffer();
    forall k | k in fields && k != RAW_FIELD
      ensures Keeps(r.ToDict(), k, fields[k])
    {
      if IsExtra(fields, k) {
        assert RawContent(fields)[k] == fields[k];
      }
    }
  }

  // ---------- bounded format repair ----------

  /** The text of a reply, as far as the JSON parser gets with it. */
  datatype Content = NoJson | ParserError | Document(value: Json)

  /** A provider reply: its text, and the raw envelope kept for the record. */
  datatype Completion = Completion(finishReason: Option<string>, content: Content, raw: Json)

  /** The original prompt, or a request to repair the reply just rejected. */
  datatype Request = Original | FormatRepair(attempt: nat, error: ResponseError, rejected: Completion)

  const TRUNCATED_REASONS := {"length", "max_tokens", "max_output_tokens", "token_limit"}
  const SUCCESS_REASONS := {"stop", "end_turn", "success", "completed"}

  function Lower(s: string): string {
    if s == "" then ""
    else [if 'A' <= s[0] <= 'Z' then (s[0] as int + 32) as char else s[0]] + Lower(s[1..])
  }

  function Reason(c: Completion): string {
    if c.finishReason.Some? then Lower(c.finishReason.value) else ""
  }

  function ValidateCompletion(c: Completion, expectedRound: Option<int>): Result<ModelResponse, ResponseError> {
    if Reason(c) in TRUNCATED_REASONS then Err(Truncated)
    else if Reason(c) !in SUCCESS_REASONS then Err(AbnormalCompletion)
    else
      match c.content
      case NoJson => Err(NotAnObject)
      case ParserError => Err(ParserRaised)
      case Document(value) => Validate(value, expectedRound, false)
  }

  // ---------- replies that escape the format repair ----------

  /** A document with the required fields whose first failing check looks up an
      unhashable status or encodes a code that has no encoding. */
  predicate DocumentEscapes(value: Json, expectedRound: Option<int>) {
    && value.Obj? && REQUIRED_FIELDS <= value.fields.Keys
    && var status, round, code := value.fields["status"], value.fields["round"], value.fields["code"];
       || status.Arr? || status.Obj?
       || (&& (status == Str("candidate") || status == Str("no_change"))
           && round.Int? && round.number >= 1 && (expectedRound.Some? ==> round.number == expectedRound.value)
           && code.IllFormed?)
  }

  predicate ReplyEscapes(c: Completion, expectedRound: Option<int>) {
    && Reason(c) !in TRUNCATED_REASONS && Reason(c) in SUCCESS_REASONS
    && (c.content.ParserError? || (c.content.Document? && DocumentEscapes(c.content.value, expectedRound)))
  }

  /** Exactly these replies raise something that is no response error. */
  lemma EscapeIsExact(c: Completion, expectedRound: Option<int>)
    ensures ReplyEscapes(c, expectedRound)
            <==> ValidateCompletion(c, expectedRound).Err? && ValidateCompletion(c, expectedRound).error.Escapes()
  {
    hide Lower;
    if c.content.Document? && c.content.value.Obj? {
      FieldsEscape(c.content.value.fields, expectedRound);
    }
  }

  lemma FieldsEscape(fields: map<string, Json>, expectedRound: Option<int>)
    ensures DocumentEscapes(Obj(fields), expectedRound)
            <==> ValidateFields(fields, expectedRound, false).Err?
                 && ValidateFields(fields, expectedRound, false).error.Escapes()
  {
    hide StripLeft, StripRight, Utf8.Encode;
    if REQUIRED_FIELDS <= fields.Keys {
      assert "status" in REQUIRED_FIELDS && "round" in REQUIRED_FIELDS && "code" in REQUIRED_FIELDS;
    }
  }

  /** Such replies: a status that is a list or an object, a code with a lone
      surrogate, and a text the parser gives up on.  A gateway that gives any one
      of them escapes at the first attempt. */
  lemma EscapingReplies()
    ensures exists c :: ReplyEscapes(c, Some(1)) && c.content.Document? && c.content.value.Obj?
                        && "status" in c.content.value.fields && c.content.value.fields["status"] == Arr([])
    ensures exists c :: ReplyEscapes(c, Some(1)) && c.content.Document? && c.content.value.Obj?
                        && "code" in c.content.value.fields && c.content.value.fields["code"] == IllFormed([0xD800])
    ensures exists c :: ReplyEscapes(c, Some(1)) && c.content.Document? && c.content.value.Obj?
                        && "status" in c.content.value.fields && c.content.value.fields["status"] == Obj(map[])
    ensures exists c :: ReplyEscapes(c, Some(1)) && c.content.ParserError?
    ensures forall c :: ReplyEscapes(c, Some(1)) ==> EscapesAt(_ => Some(c), Some(1), 0)
  {
    FieldNamesDiffer();
    SuccessfulStop();
    var unhashable := map["status" := Arr([]), "round" := Int(1), "code" := Str("pass")];
    assert REQUIRED_FIELDS <= unhashable.Keys && unhashable["status"] == Arr([]);
    assert ReplyEscapes(Completion(Some("stop"), Document(Obj(unhashable)), Null), Some(1));
    var nested := map["status" := Obj(map[]), "round" := Int(1), "code" := Str("pass")];
    assert REQUIRED_FIELDS <= nested.Keys && nested["status"] == Obj(map[]);
    assert ReplyEscapes(Completion(Some("stop"), Document(Obj(nested)), Null), Some(1));
    assert ReplyEscapes(Completion(Some("stop"), ParserError, Null), Some(1));
    var unencodable := map["status" := Str("candidate"), "round" := Int(1), "code" := IllFormed([0xD800])];
    assert REQUIRED_FIELDS <= unencodable.Keys && unencodable["status"] == Str("candidate");
    assert unencodable["round"] == Int(1) && unencodable["code"] == IllFormed([0xD800]);
    assert ReplyEscapes(Completion(Some("stop"), Document(Obj(unencodable)), Null), Some(1));
  }

  lemma SuccessfulStop()
    ensures Lower("stop") == "stop" && "stop" in SUCCESS_REASONS && "stop" !in TRUNCATED_REASONS
  {
    assert Lower("stop"[1..]) == "top" by {
      assert "stop"[1..] == "top" && "top"[1..] == "op" && "op"[1..] == "p" && "p"[1..] == "";
      assert Lower("p") == "p" && Lower("op") == "op";
    }
    assert "token_limit"[0] == 't' && "length"[0] == 'l' && "max_tokens"[0] == 'm' && "max_output_tokens"[0] == 'm';
  }

  // ---------- asking ----------

  /** A gateway answers a request, or fails to reach the provider. */
  type Gateway = Request -> Option<Completion>

  /** The request of each attempt is fixed by the replies before it. */
  function RequestAt(gateway: Gateway, expectedRound: Option<int>, attempt: nat): Request {
    if attempt == 0 then Original
    else
      var reply := gateway(RequestAt(gateway, expectedRound, attempt - 1));
      if reply.None? then Original
      else
        var verdict := ValidateCompletion(reply.value, expectedRound);
        if verdict.Ok? then Original else FormatRepair(attempt, verdict.error, reply.value)
  }

  function ReplyAt(gateway: Gateway, expectedRound: Option<int>, attempt: nat): Option<Completion> {
    gateway(RequestAt(gateway, expectedRound, attempt))
  }

  /** The attempt was answered, with a reply that only fails validation. */
  predicate IsRejected(gateway: Gateway, expectedRound: Option<int>, attempt: nat) {
    var reply := ReplyAt(gateway, expectedRound, attempt);
    reply.Some? &&
    var verdict := ValidateCompletion(reply.value, expectedRound);
    verdict.Err? && !verdict.error.Escapes()
  }

  ghost predicate AllRejectedBefore(gateway: Gateway, expectedRound: Option<int>, attempt: nat) {
    forall j | 0 <= j < attempt :: IsRejected(gateway, expectedRound, j)
  }

  /** Every reply before this one was rejected, and this one escapes. */
  ghost predicate EscapesAt(gateway: Gateway, expectedRound: Option<int>, attempt: nat) {
    && AllRejectedBefore(gateway, expectedRound, attempt)
    && ReplyAt(gateway, expectedRound, attempt).Some?
    && ReplyEscapes(ReplyAt(gateway, expectedRound, attempt).value, expectedRound)
  }

  /** Every reply before this request was rejected, and it is not answered. */
  ghost predicate UnansweredAt(gateway: Gateway, expectedRound: Option<int>, attempt: nat) {
    AllRejectedBefore(gateway, expectedRound, attempt) && ReplyAt(gateway, expectedRound, attempt).None?
  }

  datatype CompletionOutcome =
    | Validated(response: ModelResponse, repairAttempts: nat, completions: seq<Completion>)
    | AttemptsExhausted(error: ResponseError, completions: seq<Completion>)
    | NegativeRetries | GatewayFailed | Escaped

  /** Asks once, and again after each rejected reply, at most `maximumRetries`
      further times.  The first valid reply wins; nothing is asked after it.  The
      repair loop is left by another exception exactly at an escaping reply. */
  method CompleteModelResponse(gateway: Gateway, expectedRound: Option<int>, maximumRetries: int)
    returns (outcome: CompletionOutcome)
    ensures outcome.NegativeRetries? <==> maximumRetries < 0
    ensures outcome.Validated? ==>
              var last := outcome.repairAttempts;
              && last <= maximumRetries && |outcome.completions| == last + 1
              && (forall k | 0 <= k <= last :: ReplyAt(gateway, expectedRound, k) == Some(outcome.completions[k]))
              && AllRejectedBefore(gateway, expectedRound, last)
              && ValidateCompletion(outcome.completions[last], expectedRound) == Ok(outcome.response)
    ensures outcome.AttemptsExhausted? ==>
              && |outcome.completions| == maximumRetries + 1
              && (forall k | 0 <= k <= maximumRetries ::
                    ReplyAt(gateway, expectedRound, k) == Some(outcome.completions[k]))
    ensures outcome.AttemptsExhausted? <==>
              maximumRetries >= 0 && AllRejectedBefore(gateway, expectedRound, maximumRetries + 1)
    ensures outcome.Escaped? <==> exists k :: 0 <= k <= maximumRetries && EscapesAt(gateway, expectedRound, k)
    ensures outcome.GatewayFailed? <==> exists k :: 0 <= k <= maximumRetries && UnansweredAt(gateway, expectedRound, k)
  {
    hide ValidateCompletion, ReplyEscapes;
    if maximumRetries < 0 {
      return NegativeRetries;
    }
    var request, completions := Original, [];
    var attempt := 0;
    while true
      invariant 0 <= attempt <= maximumRetries && |completions| == attempt
      invariant request == RequestAt(gateway, expectedRound, attempt)
      invariant forall k | 0 <= k < attempt :: ReplyAt(gateway, expectedRound, k) == Some(completions[k])
      invariant AllRejectedBefore(gateway, expectedRound, attempt)
      decreases maximumRetries - attempt
    {
      var reply := gateway(request);
      assert reply == ReplyAt(gateway, expectedRound, attempt);
      OneEnding(gateway, expectedRound, attempt);
      if reply.None? {
        assert UnansweredAt(gateway, expectedRound, attempt);
        return GatewayFailed;
      }
      completions := completions + [reply.value];
      var verdict := ValidateCompletion(reply.value, expectedRound);
      EscapeIsExact(reply.value, expectedRound);
      if verdict.Ok? {
        return Validated(verdict.value, attempt, completions);
      }
      if verdict.error.Escapes() {
        assert EscapesAt(gateway, expectedRound, attempt);
        return Escaped;
      }
      assert IsRejected(gateway, expectedRound, attempt);
      if attempt >= maximumRetries {
        return AttemptsExhausted(verdict.error, completions);
      }
      request := FormatRepair(attempt + 1, verdict.error, reply.value);
      attempt := attempt + 1;
    }
  }

  /** The first reply that is not rejected decides how the asking ends. */
  lemma OneEnding(gateway: Gateway, expectedRound: Option<int>, attempt: nat)
    requires AllRejectedBefore(gateway, expectedRound, attempt)
    ensures forall k: nat | k < attempt ::
              !EscapesAt(gateway, expectedRound, k) && !UnansweredAt(gateway, expectedRound, k)
    ensures !IsRejected(gateway, expectedRound, attempt) ==>
              forall k: nat | k > attempt ::
                && !AllRejectedBefore(gateway, expectedRound, k)
                && !EscapesAt(gateway, expectedRound, k) && !UnansweredAt(gateway, expectedRound, k)
  {
    forall k: nat | k < attempt
      ensures !EscapesAt(gateway, expectedRound, k) && !UnansweredAt(gateway, expectedRound, k)
    {
      assert IsRejected(gateway, expectedRound, k);
      EscapeIsExact(ReplyAt(gateway, expectedRound, k).value, expectedRound);
    }
  }

  /** A response that came from a live completion is never a legacy one. */
  lemma LiveResponsesAreCurrent(c: Completion, expectedRound: Option<int>)
    ensures var verdict := ValidateCompletion(c, expectedRound);
            verdict.Ok? ==>
              && verdict.value.legacy.None?
              && (expectedRound.Some? ==> verdict.value.round == expectedRound.value)
              && Validate(Obj(verdict.value.ToDict()), expectedRound, true) == verdict
  {
    hide CheckCode, Lower;
    var verdict := ValidateCompletion(c, expectedRound);
    if verdict.Ok? {
      LegacyNeedsPermission(c.content.value.fields, expectedRound, false);
      ResponseRoundTrip(c.content.value, expectedRound, false);
    }
  }
}
