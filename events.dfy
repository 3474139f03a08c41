/**
 * The behavioural-event endpoint's payload: the event type taken from the
 * request (or "interaction"), and the request data without its `type`, with a
 * server-assigned timestamp.
 */
module Events {
  import opened Wrappers
  import opened Json
  import Infra

  const DefaultEventType := JStr("interaction")

  /**
   * `request.get_json() or {}`. `body` is None when the request carries no
   * JSON body (missing, malformed, or not declared as JSON): `get_json()`
   * then aborts the request with a client error before the handler's try, so
   * None. A falsy JSON body is the empty object; a truthy one that is not an
   * object has no `.get`, so None as well.
   */
  function RequestData(body: Option<JsonValue>): (data: Option<Payload>)
    ensures body.None? ==> data.None?
    ensures body.Some? && !Truthy(body.value) ==> data == Some(map[])
    ensures body.Some? && Truthy(body.value) ==> (data.Some? <==> body.value.JObj?)
    ensures body.Some? && body.value.JObj? ==> data == Some(body.value.fields)
  {
    if body.None? then None
    else if !Truthy(body.value) then Some(map[])
    else if body.value.JObj? then Some(body.value.fields)
    else None
  }

  /** `data.get('type') or 'interaction'`: always a truthy event type. */
  function EventType(data: Payload): (t: JsonValue)
    ensures Truthy(t)
    ensures "type" in data && Truthy(data["type"]) ==> t == data["type"]
    ensures !("type" in data && Truthy(data["type"])) ==> t == DefaultEventType
  {
    if "type" in data && Truthy(data["type"]) then data["type"] else DefaultEventType
  }

  /** The request data minus `type`, plus `ts` (which replaces any client `ts`). */
  function BuildPayload(data: Payload, now: int): (p: Payload)
    ensures p.Keys == (data.Keys - {"type"}) + {"ts"}
    ensures "type" !in p && p["ts"] == JInt(now)
    ensures forall k :: k in data && k != "type" && k != "ts" ==> p[k] == data[k]
  {
    (map k | k in data && k != "type" :: data[k])["ts" := JInt(now)]
  }

  /**
   * The event the endpoint publishes carries the endpoint's event type (the
   * payload has no `type` to override it), the server timestamp, and every
   * other field of the request unchanged.
   */
  lemma PublishedEvent(data: Payload, now: int)
    ensures var e := Infra.Event(EventType(data), BuildPayload(data, now));
      && e.Keys == data.Keys + {"type", "ts"}
      && e["type"] == EventType(data)
      && e["ts"] == JInt(now)
      && forall k :: k in data && k != "type" && k != "ts" ==> e[k] == data[k]
  {
  }
}
