/** What the two sinks share: the effects `handle_logs` has on the outside
    world, how the outside world answers, and what `handle_logs` gives back
    (a bool, or an exception that escapes it). */
module Sinks {

  /** A JSON value as the bulk payload holds it before `json.dumps`: strings,
      and objects whose members keep their insertion order. */
  datatype Json = JString(text: string) | JObject(members: seq<(string, Json)>)

  /** A call into an outside service: the object store's `put_object` or an HTTP POST. */
  datatype Effect =
    | Put(bucket: string, key: string, body: string)
    | Post(url: string, user: string, password: string, payload: seq<Json>)

  /** How the object store answers a `put_object`. */
  datatype Storage = Stored | StorageFailed

  /** `handle_logs` returns a bool, or the object store's exception escapes it. */
  datatype Outcome = Returned(value: bool) | Raised

  /** The effects of one `handle_logs` call, in order, and its outcome. */
  datatype Run = Run(effects: seq<Effect>, outcome: Outcome)

}
