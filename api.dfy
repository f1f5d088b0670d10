/**
 * The payload shapes of pkg/api/api.go: the webhook Message, the Alert list it
 * carries, and the (id, alerts) MessageEntry the history store returns.
 */
module Api {
  import opened Wrappers

  newtype byte = b: int | 0 <= b < 256

  /** An encoded value as the storage engine holds it (JSON text). */
  type Bytes = seq<byte>

  /** Go's uint64, used for the truncated-alerts counter. */
  type uint64 = n: int | 0 <= n < 0x1_0000_0000_0000_0000

  /**
   * A point in time. The model never looks inside a timestamp; only equality
   * matters (a deep-equal comparison of two alerts compares their times).
   */
  datatype Timestamp = Timestamp(unixNanos: int, zoneOffsetSeconds: int)

  /** One alert: exactly the seven fields of the Go struct. */
  datatype Alert = Alert(
    status: string,
    labels: map<string, string>,
    annotations: map<string, string>,
    startsAt: Timestamp,
    endsAt: Timestamp,
    generatorURL: string,
    fingerprint: string)

  /** The webhook request body. */
  datatype Message = Message(
    version: string,
    groupKey: string,
    truncatedAlerts: uint64,
    receiver: string,
    status: string,
    alerts: seq<Alert>,
    groupLabels: map<string, string>,
    commonLabels: map<string, string>,
    commonAnnotations: map<string, string>,
    externalURL: string)

  /** The reply to a successful webhook: the id the alerts were stored under. */
  datatype MessageResponse = MessageResponse(id: string)

  /** One history entry: an id paired with one ordered alert list. */
  datatype MessageEntry = MessageEntry(id: string, alerts: seq<Alert>)

  /**
   * The JSON member names an encoded alert carries, in struct order. The
   * fingerprint is tagged `omitempty`, so it is dropped when empty; the other
   * six members are always written, even when their value is empty or zero.
   */
  function AlertJsonFields(a: Alert): seq<string>
  {
    ["status", "labels", "annotations", "startsAt", "endsAt", "generatorURL"]
    + (if a.fingerprint == "" then [] else ["fingerprint"])
  }

  lemma FingerprintOmittedIffEmpty(a: Alert)
    ensures "fingerprint" in AlertJsonFields(a) <==> a.fingerprint != ""
    ensures AlertJsonFields(a)[..6] == ["status", "labels", "annotations", "startsAt", "endsAt", "generatorURL"]
    ensures |AlertJsonFields(a)| == if a.fingerprint == "" then 6 else 7
  {
    var base := ["status", "labels", "annotations", "startsAt", "endsAt", "generatorURL"];
    assert AlertJsonFields(a)[..6] == base;
    if a.fingerprint == "" {
      assert AlertJsonFields(a) == base;
      assert forall i :: 0 <= i < 6 ==> base[i] != "fingerprint";
    }
  }

  /** Go's `string(b)`: each byte becomes one character of the same code. */
  function BytesToString(b: Bytes): (s: string)
    ensures |s| == |b|
    ensures forall i :: 0 <= i < |b| ==> s[i] as int == b[i] as int
  {
    if b == [] then [] else [b[0] as int as char] + BytesToString(b[1..])
  }

  /**
   * `Message.String`: the JSON encoding when encoding succeeds, otherwise the
   * Go-syntax dump of the value. Both the encoder and the dump are library
   * code, so they are parameters.
   */
  function MessageString(m: Message, marshal: Message -> Result<Bytes, string>,
                         goSyntax: Message -> string): (s: string)
    ensures marshal(m).Success? ==> |s| == |marshal(m).value|
    ensures marshal(m).Success? ==>
      forall i :: 0 <= i < |s| ==> s[i] as int == marshal(m).value[i] as int
    ensures marshal(m).Failure? ==> s == goSyntax(m)
  {
    match marshal(m)
    case Success(b) => BytesToString(b)
    case Failure(_) => goSyntax(m)
  }
}
