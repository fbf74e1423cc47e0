/**
 * Custom-parameter helpers (app/utils.py:25-74). The JSON decoder
 * (`json.loads`) is an abstract partial function: `None` stands for
 * `JSONDecodeError`.
 */
module CustomParameters {
  import opened Wrappers
  import Models

  /** A decoded JSON value, as `json.loads` can return it. */
  datatype Json =
    | JNull
    | JBool(b: bool)
    | JNumber(n: real)
    | JString(s: string)
    | JArray(items: seq<Json>)
    | JObject(fields: map<string, Json>)

  /** The empty dictionary `{}`. */
  const Empty := JObject(map[])

  /** Python's `bool(v)` for a decoded value: `None`, `False`, zero and empty containers are false. */
  predicate TruthyJson(v: Json) {
    match v
    case JNull => false
    case JBool(b) => b
    case JNumber(n) => n != 0.0
    case JString(s) => s != ""
    case JArray(items) => items != []
    case JObject(fields) => fields != map[]
  }

  /**
   * `parse_custom_parameters`: the decoded value, or `{}` when the text is
   * `None`, empty or not JSON. It never fails.
   */
  function Parse(text: Option<string>, decode: string -> Option<Json>): (r: Json)
    ensures !Models.TruthyText(text) ==> r == Empty
    ensures Models.TruthyText(text) && decode(text.value).None? ==> r == Empty
    ensures Models.TruthyText(text) && decode(text.value).Some? ==> r == decode(text.value).value
  {
    if !Models.TruthyText(text) then Empty
    else
      match decode(text.value)
      case Some(v) => v
      case None => Empty
  }

  /**
   * `get_custom_parameter`: `params.get(key, default)`. The parameters are
   * whatever `Parse` returned; for a decoded value that is not an object
   * (a list, string, number, boolean or `null`) `.get` raises
   * `AttributeError` (`Err`).
   */
  function Get(params: Json, key: string, default: Json): (r: Result<Json>)
    ensures r.Err? <==> !params.JObject?
    ensures params.JObject? && key in params.fields ==> r == Ok(params.fields[key])
    ensures params.JObject? && key !in params.fields ==> r == Ok(default)
  {
    match params
    case JObject(fields) => Ok(if key in fields then fields[key] else default)
    case _ => Err("AttributeError: get")
  }

  /**
   * `has_custom_parameters`: true exactly when the text is non-empty, decodes,
   * and the decoded value is truthy; an undecodable text counts as absent.
   */
  function Has(text: Option<string>, decode: string -> Option<Json>): (r: bool)
    ensures r <==> Models.TruthyText(text) && decode(text.value).Some? && TruthyJson(decode(text.value).value)
  {
    if !Models.TruthyText(text) then false
    else TruthyJson(Parse(text, decode))
  }

  /** Whatever `Parse` returns, `Has` agrees with its truthiness. */
  lemma HasMatchesParse(text: Option<string>, decode: string -> Option<Json>)
    ensures Has(text, decode) == TruthyJson(Parse(text, decode))
  {
  }

  /**
   * Looking a key up in the parsed parameters: the stored value when the text
   * decodes to an object holding that key; the default when it decodes to an
   * object without it, is empty, or does not decode; and an `AttributeError`
   * when it decodes to a value that is not an object.
   */
  lemma LookupAfterParse(text: Option<string>, decode: string -> Option<Json>, key: string, default: Json)
    ensures
      var decoded := Models.TruthyText(text) && decode(text.value).Some?;
      var r := Get(Parse(text, decode), key, default);
      && (decoded && !decode(text.value).value.JObject? <==> r.Err?)
      && (decoded && decode(text.value).value.JObject? && key in decode(text.value).value.fields ==>
            r == Ok(decode(text.value).value.fields[key]))
      && (decoded && decode(text.value).value.JObject? && key !in decode(text.value).value.fields ==>
            r == Ok(default))
      && (!decoded ==> r == Ok(default))
  {
  }
}
