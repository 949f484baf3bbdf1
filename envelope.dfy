/**
 * The message envelope of the collaboration socket (app/api/ws.py): inbound text is
 * parsed as JSON; text that does not parse is wrapped as {"type": "raw", "data": text}.
 *
 * The JSON parser and serialiser (`json.loads`, `json.dumps`) are not modelled: they are
 * passed in as functions, `loads` partial (None where Python raises) and `dumps` total.
 */
module Envelope {
  import opened Wrappers

  /** A float as Python's json module reads and writes it, including the non-finite literals. */
  datatype Float = Finite(value: real) | NaN | Infinity | NegInfinity

  /**
   * A JSON value as Python's json module produces and consumes it: an object is the
   * list of its members in insertion order (the order `json.dumps` writes them in), and
   * integers and floats are distinct (`1` and `1.0` are dumped differently).
   */
  datatype Json =
    | JNull
    | JBool(b: bool)
    | JInt(i: int)
    | JFloat(f: Float)
    | JStr(s: string)
    | JArray(items: seq<Json>)
    | JObject(fields: seq<(string, Json)>)

  /** The value of the first member named `key`, as a dict lookup finds it. */
  function Lookup(fields: seq<(string, Json)>, key: string): Option<Json>
  {
    if fields == [] then None
    else if fields[0].0 == key then Some(fields[0].1)
    else Lookup(fields[1..], key)
  }

  /** The fallback envelope built around text that does not parse. */
  function RawEnvelope(text: string): (msg: Json)
    ensures msg.JObject? && |msg.fields| == 2
    ensures msg.fields[0].0 == "type" && msg.fields[1].0 == "data"
    ensures Lookup(msg.fields, "type") == Some(JStr("raw"))
    ensures Lookup(msg.fields, "data") == Some(JStr(text))
  {
    JObject([("type", JStr("raw")), ("data", JStr(text))])
  }

  /**
   * Decode one inbound text frame: the parsed value when parsing succeeds, whatever its
   * shape (a bare number or list is passed on as it is), the raw envelope otherwise.
   */
  function Decode(loads: string -> Option<Json>, text: string): (msg: Json)
    ensures loads(text).Some? ==> msg == loads(text).value
    ensures loads(text).None? ==> msg.JObject? && |msg.fields| == 2
    ensures loads(text).None? ==> msg.fields[0].0 == "type" && msg.fields[1].0 == "data"
    ensures loads(text).None? ==>
      Lookup(msg.fields, "type") == Some(JStr("raw")) && Lookup(msg.fields, "data") == Some(JStr(text))
  {
    match loads(text)
    case Some(parsed) => parsed
    case None => RawEnvelope(text)
  }

  /** The text held by a raw envelope, if `msg` is one. */
  function RawText(msg: Json): Option<string>
  {
    if msg.JObject? && |msg.fields| == 2 && msg.fields[0] == ("type", JStr("raw"))
       && msg.fields[1].0 == "data" && msg.fields[1].1.JStr?
    then Some(msg.fields[1].1.s)
    else None
  }

  /**
   * Objects with the same members in a different order are different messages, and so
   * are an integer and the equal float: a serialiser may write each differently.
   */
  lemma OrderAndNumberKindKept()
    ensures JObject([("a", JInt(1)), ("b", JInt(2))]) != JObject([("b", JInt(2)), ("a", JInt(1))])
    ensures JInt(1) != JFloat(Finite(1.0))
  {
  }

  /** The raw text survives a failed parse: it can be read back out of the envelope. */
  lemma FallbackKeepsText(loads: string -> Option<Json>, text: string)
    requires loads(text).None?
    ensures RawText(Decode(loads, text)) == Some(text)
  {
  }

  /**
   * Decode is injective on text that does not parse: two different malformed frames
   * never produce the same message, so nothing of the original text is lost.
   */
  lemma FallbackInjective(loads: string -> Option<Json>, t1: string, t2: string)
    requires loads(t1).None? && loads(t2).None?
    requires Decode(loads, t1) == Decode(loads, t2)
    ensures t1 == t2
  {
  }

  /**
   * A frame that parses to a JSON value other than an object (for instance the text 5)
   * is passed on unchanged; no fallback envelope is built for it.
   */
  lemma NonObjectPassesThrough(loads: string -> Option<Json>, text: string, v: Json)
    requires loads(text) == Some(v) && !v.JObject?
    ensures Decode(loads, text) == v
  {
  }
}
