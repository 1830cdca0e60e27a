/**
 * web/controller/inbound_dto.go: the controller's response shape for an
 * inbound, which carries the three JSON blocks as strings.
 */
module InboundDto {
  import opened Wrappers
  import opened Model

  datatype InboundDTO = InboundDTO(
    id: int,
    userId: int,
    up: int,
    down: int,
    total: int,
    allTime: int,
    remark: string,
    enable: bool,
    expiryTime: int,
    trafficReset: string,
    lastTrafficResetTime: int,
    clientStats: seq<ClientTraffic>,
    listen: string,
    port: int,
    protocol: Protocol,
    settings: string,
    streamSettings: string,
    sniffing: string,
    tag: string)

  /** `InboundDTO{}`. */
  function ZeroDTO(): InboundDTO {
    InboundDTO(0, 0, 0, 0, 0, 0, "", false, 0, "", 0, [], "", 0, Protocol(""),
               "", "", "", "")
  }

  /** Reads an inbound back out of its DTO, field by field; the independent
      counterpart against which the projection is checked. */
  function FromDTO(d: InboundDTO): Inbound {
    Inbound(d.id, d.userId, d.up, d.down, d.total, d.allTime, d.remark, d.enable,
            d.expiryTime, d.trafficReset, d.lastTrafficResetTime, d.clientStats,
            d.listen, d.port, d.protocol, d.tag,
            RawJson(d.settings), RawJson(d.streamSettings), RawJson(d.sniffing))
  }

  /** toInboundDTO: every model field lands in the same-named DTO field, the
      JSON blocks as strings with identical content, so nothing is lost. */
  function ToInboundDTO(m: Inbound): (d: InboundDTO)
    ensures FromDTO(d) == m
    ensures d.settings == m.settings.text && d.streamSettings == m.streamSettings.text
    ensures d.sniffing == m.sniffing.text
  {
    InboundDTO(m.id, m.userId, m.up, m.down, m.total, m.allTime, m.remark, m.enable,
               m.expiryTime, m.trafficReset, m.lastTrafficResetTime, m.clientStats,
               m.listen, m.port, m.protocol,
               m.settings.text, m.streamSettings.text, m.sniffing.text, m.tag)
  }

  /** toInboundDTOPtr: nil gives the zero DTO, which is also what the zero
      inbound projects to; otherwise the projection of the pointee. */
  function ToInboundDTOPtr(p: Option<Inbound>): (d: InboundDTO)
    ensures p.None? ==> d == ZeroDTO() && FromDTO(d) == ZeroInbound()
    ensures p.Some? ==> FromDTO(d) == p.value
  {
    match p
    case None => ZeroDTO()
    case Some(m) => ToInboundDTO(m)
  }

  /** Distinct inbounds never share a DTO. */
  lemma ToInboundDTOInjective(m: Inbound, n: Inbound)
    requires ToInboundDTO(m) == ToInboundDTO(n)
    ensures m == n
  {
    assert FromDTO(ToInboundDTO(m)) == FromDTO(ToInboundDTO(n));
  }
}
