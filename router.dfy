/**
 * The LLM router (app/llm/router.py): cutting the JSON object out of the
 * model's reply, and degrading every failure to intent "other".
 *
 * The chat call and `json.loads` + schema validation are outside the model:
 * the call's outcome is an `LlmReply` value and the decoder a parameter.
 */
module LlmRouter {
  import opened Wrappers
  import opened Text
  import opened Dto

  datatype ExtractError = NoJsonObject

  /** `extract_json`: the slice from the first '{' to the last '}', both included. */
  function ExtractJson(text: string): (r: Result<string, ExtractError>)
    ensures r.Ok? <==> exists i, j :: 0 <= i < j < |text| && text[i] == '{' && text[j] == '}'
    ensures r.Ok? ==> |r.value| >= 2 && r.value[0] == '{' && r.value[|r.value| - 1] == '}'
    ensures r.Ok? ==> exists a | 0 <= a <= |text| ::
      OccursAt(text, r.value, a) && '{' !in text[..a] && '}' !in text[a + |r.value|..]
  {
    var start := Find(text, '{');
    var end := RFind(text, '}');
    if start == -1 || end == -1 || end <= start then
      NoPairBeforeStart(text, start, end);
      Err(NoJsonObject)
    else
      var r := text[start..end + 1];
      assert OccursAt(text, r, start);
      assert text[start + |r|..] == text[end + 1..];
      Ok(r)
  }

  lemma NoPairBeforeStart(text: string, start: int, end: int)
    requires start == Find(text, '{') && end == RFind(text, '}')
    requires start == -1 || end == -1 || end <= start
    ensures forall i, j | 0 <= i < j < |text| :: !(text[i] == '{' && text[j] == '}')
  {
  }

  lemma BracedIsFixed(r: string)
    requires |r| >= 2 && r[0] == '{' && r[|r| - 1] == '}'
    ensures ExtractJson(r) == Ok(r)
  {
    assert Find(r, '{') == 0;
    assert RFind(r, '}') == |r| - 1;
    assert r[0..|r|] == r;
  }

  /** Extracting again from an extracted object returns it unchanged. */
  lemma ExtractJsonIdempotent(text: string)
    requires ExtractJson(text).Ok?
    ensures ExtractJson(ExtractJson(text).value) == ExtractJson(text)
  {
    var r := ExtractJson(text).value;
    BracedIsFixed(r);
  }

  /** What the chat call produced: an exception, or the content of the first choice. */
  datatype LlmReply = CallFailed | Reply(raw: string)

  /** `classify_text`; `decode` is `json.loads` followed by schema validation, `None` when either raises. */
  function ClassifyText(reply: LlmReply, decode: string -> Option<RouterResult>): (r: RouterResult)
    ensures reply.CallFailed? ==> r == FallbackResult
    ensures reply.Reply? && ExtractJson(reply.raw).Err? ==> r == FallbackResult
    ensures r != FallbackResult ==>
      reply.Reply? && ExtractJson(reply.raw).Ok? && decode(ExtractJson(reply.raw).value) == Some(r)
  {
    match reply
    case CallFailed => FallbackResult
    case Reply(raw) =>
      match ExtractJson(raw)
      case Err(_) => FallbackResult
      case Ok(json) => decode(json).GetOr(FallbackResult)
  }

  /** Every failure degrades to intent "other" with confidence "low" and nothing else set. */
  lemma FailureDegradesToOther(reply: LlmReply, decode: string -> Option<RouterResult>)
    requires reply.CallFailed? || ExtractJson(reply.raw).Err? || decode(ExtractJson(reply.raw).value).None?
    ensures ClassifyText(reply, decode).intent == Other
    ensures ClassifyText(reply, decode).confidence == Low
    ensures ClassifyText(reply, decode).targetBrand.None? && ClassifyText(reply, decode).userCarBrand.None?
  {
  }
}
