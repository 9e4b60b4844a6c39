/** Recovering a structured record from the free text of the vision model
    (ImageAnalyzer.analyze_prescription and ImageAnalyzer.analyze_diagnostic_image).
    The model is asked for a JSON object; its reply may wrap that object in prose. The
    record is found with the greedy, DOTALL search `\{.*\}` and handed to json.loads.
    The JSON parser is not modelled: it is a parameter `parse`, whose None stands for
    the exception json.loads raises on malformed text. */
module Extraction {
  import opened Common

  /** A parsed JSON value, as json.loads returns it. */
  datatype Json =
    | JNull
    | JBool(b: bool)
    | JNumber(n: real)
    | JString(s: string)
    | JArray(items: seq<Json>)
    | JObject(fields: seq<(string, Json)>)

  /** Python truthiness of a parsed value (`if results:`, `if context:`). */
  predicate Truthy(j: Json) {
    match j
    case JNull => false
    case JBool(b) => b
    case JNumber(n) => n != 0.0
    case JString(s) => s != []
    case JArray(items) => items != []
    case JObject(fields) => fields != []
  }

  /** The position of the first occurrence of c in s. */
  function FirstIndex(s: string, c: char): (r: Option<nat>)
    ensures r.Some? ==> r.value < |s| && s[r.value] == c
    ensures r.Some? ==> forall k :: 0 <= k < r.value ==> s[k] != c
    ensures r.None? ==> forall k :: 0 <= k < |s| ==> s[k] != c
  {
    if s == [] then None
    else if s[0] == c then Some(0)
    else match FirstIndex(s[1..], c)
      case Some(i) => Some(i + 1)
      case None => None
  }

  /** The position of the last occurrence of c in s. */
  function LastIndex(s: string, c: char): (r: Option<nat>)
    ensures r.Some? ==> r.value < |s| && s[r.value] == c
    ensures r.Some? ==> forall k :: r.value < k < |s| ==> s[k] != c
    ensures r.None? ==> forall k :: 0 <= k < |s| ==> s[k] != c
  {
    if s == [] then None
    else if s[|s| - 1] == c then Some(|s| - 1)
    else LastIndex(s[..|s| - 1], c)
  }

  /** What re.search(r"\{.*\}", text, re.DOTALL) matches: the leftmost match starts
      at the first '{' and, the star being greedy and '.' matching newlines too, runs
      to the last '}' of the text. There is a match exactly when some '{' precedes
      some '}'. */
  function BraceSpan(text: string): (r: Option<string>)
    ensures r.Some? <==> exists i, j :: 0 <= i < j < |text| && text[i] == '{' && text[j] == '}'
    ensures r.Some? ==> |r.value| >= 2 && r.value[0] == '{' && r.value[|r.value| - 1] == '}'
    ensures r.Some? ==>
      var i, j := FirstIndex(text, '{').value, LastIndex(text, '}').value;
      r.value == text[i..j + 1]
  {
    match (FirstIndex(text, '{'), LastIndex(text, '}'))
    case (Some(i), Some(j)) =>
      if i < j then Some(text[i..j + 1])
      else
        assert forall a, b :: 0 <= a < b < |text| && text[a] == '{' ==> text[b] != '}' by {
          forall a, b | 0 <= a < b < |text| && text[a] == '{'
            ensures text[b] != '}'
          {
            assert i <= a;
          }
        }
        None
    case _ => None
  }

  /** A record body between prose that has no '{' before it and no '}' after it is
      recovered exactly (the "Sure! {...} Hope that helps!" case). */
  lemma SpanOfWrappedRecord(prefix: string, body: string, suffix: string)
    requires '{' !in prefix && '}' !in suffix
    requires |body| >= 2 && body[0] == '{' && body[|body| - 1] == '}'
    ensures BraceSpan(prefix + body + suffix) == Some(body)
  {
    var text := prefix + body + suffix;
    var i, j := |prefix|, |prefix| + |body| - 1;
    assert text[i] == '{' && text[j] == '}';
    assert forall k :: 0 <= k < i ==> text[k] == prefix[k];
    assert forall k :: j < k < |text| ==> text[k] == suffix[k - |prefix| - |body|];
    assert FirstIndex(text, '{') == Some(i);
    assert LastIndex(text, '}') == Some(j);
    assert text[i..j + 1] == body;
  }

  /** The search followed by json.loads: None when nothing matches or when the
      matched span does not parse. */
  function RecoverRecord(text: string, parse: string -> Option<Json>): (r: Option<Json>)
    ensures BraceSpan(text).None? ==> r.None?
    ensures BraceSpan(text).Some? ==> r == parse(BraceSpan(text).value)
  {
    match BraceSpan(text)
    case None => None
    case Some(span) => parse(span)
  }

  /** One analysis request: the image, base64-encoded by the caller (None when
      encoding raised), is sent with the task's prompt; the reply's record is
      recovered. Every failure yields None and nothing is retried. The prescription and
      the diagnostic task run this same path and differ only in the prompt wording. */
  function AnalyzeImage(encodedImage: Option<string>, reply: Completion, parse: string -> Option<Json>): (r: Option<Json>)
    ensures encodedImage.None? || encodedImage == Some("") ==> r.None?
    ensures reply.Failed? ==> r.None?
    ensures r.Some? ==>
      && reply.Replied?
      && BraceSpan(reply.text).Some?
      && parse(BraceSpan(reply.text).value) == r
    ensures encodedImage.Some? && encodedImage.value != "" && reply.Replied? ==>
      r == RecoverRecord(reply.text, parse)
  {
    if encodedImage.None? || encodedImage.value == "" then None
    else
      match reply
      case Failed => None
      case Replied(text) => RecoverRecord(text, parse)
  }
}
