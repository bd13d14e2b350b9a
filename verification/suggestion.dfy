/**
  How `ai_suggestion` in `WeatherApp.py` digs the suggestion text out of the
  decoded reply of the generative-language service, following Python's rules for
  `dict.get`, truthiness, `len` and indexing on each kind of JSON value.
*/
module Suggestion {

  /** A decoded JSON value. */
  datatype Json =
    | JNull
    | JBool(b: bool)
    | JNum(n: real)
    | JStr(s: string)
    | JArr(items: seq<Json>)
    | JObj(fields: map<string, Json>)

  /** The text returned when the reply holds no suggestion. */
  const NoSuggestion: string := "No fashion suggestions available."

  /**
    What the navigation returns: a JSON value (usually a string), or `Raised`
    when a step raised and the surrounding `except` turns the exception into an
    error message.
  */
  datatype Reply = Reply(value: Json) | Raised

  /** Python's truthiness of a decoded JSON value. */
  predicate Truthy(v: Json) {
    match v
    case JNull => false
    case JBool(b) => b
    case JNum(n) => n != 0.0
    case JStr(s) => |s| > 0
    case JArr(items) => |items| > 0
    case JObj(fields) => |fields| > 0
  }

  /** The result of a lookup step: a value, or an exception. */
  datatype Lookup = Found(v: Json) | Raises

  /** `v.get(key, default)`: only a JSON object has `get`. */
  function Get(v: Json, key: string, default: Json): Lookup
  {
    match v
    case JObj(fields) => Found(FieldOr(fields, key, default))
    case _ => Raises
  }

  /** The value stored under `key`, or `default` when there is none. */
  function FieldOr(fields: map<string, Json>, key: string, default: Json): Json {
    if key in fields then fields[key] else default
  }

  /** The outcome of `if v and len(v) > 0: ... v[0] ...`. */
  datatype First = Skipped | Element(e: Json) | Fails

  /**
    `v[0]` when `v` is truthy and `len(v) > 0`, `Skipped` when the test is
    false. A truthy boolean or number has no `len`; a non-empty JSON object has
    no key `0`; a non-empty string yields its first character.
  */
  function FirstIfAny(v: Json): First
  {
    if !Truthy(v) then Skipped
    else match v
      case JArr(items) => Element(items[0])
      case JStr(s) => Element(JStr([s[0]]))
      case _ => Fails
  }

  /** The response holds `candidates[0].content.parts[0].text` as nested arrays and objects, with value `t`. */
  predicate HasTextPath(resp: Json, t: Json) {
    && resp.JObj? && "candidates" in resp.fields
    && var candidates := resp.fields["candidates"];
    && candidates.JArr? && |candidates.items| > 0
    && var c0 := candidates.items[0];
    && c0.JObj? && "content" in c0.fields
    && var content := c0.fields["content"];
    && content.JObj? && "parts" in content.fields
    && var parts := content.fields["parts"];
    && parts.JArr? && |parts.items| > 0
    && var p0 := parts.items[0];
    && p0.JObj? && "text" in p0.fields
    && p0.fields["text"] == t
  }

  /**
    The reply leads to the fallback text: `candidates` (an empty list when
    absent) is falsy; or its first element is an object whose `content` (an
    empty object when absent) is an object whose `parts` (an empty list when
    absent) is falsy, or is a list whose first element is an object without
    `text`.
  */
  predicate FallbackPath(resp: Json) {
    && resp.JObj?
    && var candidates := FieldOr(resp.fields, "candidates", JArr([]));
    || !Truthy(candidates)
    || (
      && candidates.JArr? && |candidates.items| > 0
      && var c0 := candidates.items[0];
      && c0.JObj?
      && var content := FieldOr(c0.fields, "content", JObj(map[]));
      && content.JObj?
      && var parts := FieldOr(content.fields, "parts", JArr([]));
      || !Truthy(parts)
      || (
        && parts.JArr? && |parts.items| > 0
        && var p0 := parts.items[0];
        && p0.JObj? && "text" !in p0.fields))
  }

  /**
    The navigation of the reply: the text at the end of the path when the path
    is there, the fixed fallback message when a list on the way is empty or
    missing, and `Raised` when a step meets a value of the wrong kind.
  */
  function ExtractSuggestion(resp: Json): (r: Reply)
    ensures forall t :: HasTextPath(resp, t) ==> r == Reply(t)
    ensures r.Reply? ==> r.value == JStr(NoSuggestion) || HasTextPath(resp, r.value)
    ensures !resp.JObj? ==> r == Raised
    ensures resp.JObj? && "candidates" !in resp.fields ==> r == Reply(JStr(NoSuggestion))
    ensures FallbackPath(resp) ==> r == Reply(JStr(NoSuggestion))
    ensures r.Raised? <==> !FallbackPath(resp) && !(exists t :: HasTextPath(resp, t))
  {
    match Get(resp, "candidates", JArr([]))
    case Raises => Raised
    case Found(candidates) =>
      match FirstIfAny(candidates)
      case Skipped => Reply(JStr(NoSuggestion))
      case Fails => Raised
      case Element(c0) =>
        match Get(c0, "content", JObj(map[]))
        case Raises => Raised
        case Found(content) =>
          match Get(content, "parts", JArr([]))
          case Raises => Raised
          case Found(parts) =>
            match FirstIfAny(parts)
            case Skipped => Reply(JStr(NoSuggestion))
            case Fails => Raised
            case Element(p0) =>
              match Get(p0, "text", JStr(NoSuggestion))
              case Raises => Raised
              case Found(t) =>
                assert "text" in p0.fields ==> HasTextPath(resp, t);
                Reply(t)
  }

  /** An empty candidate list yields the fallback message. */
  lemma NoCandidates()
    ensures ExtractSuggestion(JObj(map["candidates" := JArr([])])) == Reply(JStr(NoSuggestion))
  {
  }

  /** A candidate list that is a number has no `len`, so the navigation raises. */
  lemma NumericCandidatesRaise()
    ensures ExtractSuggestion(JObj(map["candidates" := JNum(5.0)])) == Raised
  {
  }

  /** A first part without a `text` key yields the fallback message. */
  lemma PartWithoutText()
    ensures
      var part := JObj(map["inline" := JNull]);
      var candidate := JObj(map["content" := JObj(map["parts" := JArr([part])])]);
      ExtractSuggestion(JObj(map["candidates" := JArr([candidate])])) == Reply(JStr(NoSuggestion))
  {
  }
}
