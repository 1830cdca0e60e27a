/**
 * The persisted records the core handles, as values: model.Inbound,
 * model.Protocol and xray.ClientTraffic. A Go `*model.Inbound` is an
 * `Option<Inbound>` (None for nil), a Go slice a `seq`.
 */
module Model {

  /** model.Protocol, a named string type. */
  datatype Protocol = Protocol(name: string)

  /** The JSON text the inbound keeps for its settings, stream settings and
      sniffing blocks; SetSettingsString and friends store a string's content
      unchanged and `string(...)` gives it back. */
  datatype RawJson = RawJson(text: string)

  /** xray.ClientTraffic: a client's counters and enable flag. The core only
      reads and writes `id` and `enable`; the rest is carried unchanged. */
  datatype ClientTraffic = ClientTraffic(
    id: int, inboundId: int, enable: bool, email: string,
    up: int, down: int, expiryTime: int, total: int)

  /** model.Inbound, with the fields the controllers and the job copy. */
  datatype Inbound = Inbound(
    id: int,
    userId: int,
    up: int,
    down: int,
    total: int,
    allTime: int,
    remark: string,
    enable: bool,
    expiryTime: int,
    trafficReset: string,
    lastTrafficResetTime: int,
    clientStats: seq<ClientTraffic>,
    listen: string,
    port: int,
    protocol: Protocol,
    tag: string,
    settings: RawJson,
    streamSettings: RawJson,
    sniffing: RawJson)

  /** `model.Inbound{}`: every field at its zero value. */
  function ZeroInbound(): Inbound {
    Inbound(0, 0, 0, 0, 0, 0, "", false, 0, "", 0, [], "", 0, Protocol(""), "",
            RawJson(""), RawJson(""), RawJson(""))
  }
}
