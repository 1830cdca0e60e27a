/**
 * web/controller/inbound_add_client.go: adding a client to an inbound.
 */
module InboundAddClient {
  import opened Wrappers
  import opened Model
  import opened Web

  /** AddClientDTO (inbound_add_client.go:12-15). */
  datatype AddClientDTO = AddClientDTO(id: int, settings: string)

  /** addInboundClient (inbound_add_client.go:18-47). A binding error, then
      a non-positive id, then empty or invalid settings are reported, in that
      order, with no service call. Otherwise the service receives an inbound
      carrying only the id and the settings; its error is reported with no
      restart; on success the client-added message is returned and a restart
      is requested exactly when the service asked for one. */
  method AddInboundClient(bound: Result<AddClientDTO, string>, jsonValid: string -> bool,
                          addClientSvc: Inbound -> ClientOutcome)
    returns (resp: Response, events: seq<Event>)
    ensures bound.Failure? ==> resp == Msg(SomethingWentWrong, Some(BindFailed(bound.error))) && events == []
    ensures bound.Success? ==>
      var invalid := CheckClientRequest(bound.value.id, bound.value.settings, jsonValid);
      && (invalid.Some? ==> resp == Msg(SomethingWentWrong, invalid) && events == [])
      && (invalid.None? ==>
            && |events| >= 1 && events[0].AddInboundClientCalled?
            && IsClientCarrier(events[0].inbound, bound.value.id, bound.value.settings)
            && var out := addClientSvc(events[0].inbound);
            && (out.err.Some? ==> resp == Msg(SomethingWentWrong, ServiceError(out.err)) && |events| == 1)
            && (out.err.None? ==>
                  resp == Msg(InboundClientAddSuccess, None)
                  && events[1..] == if out.needRestart then [SetToNeedRestart] else []))
    ensures SetToNeedRestart in events ==>
      |events| == 2 && events[0].AddInboundClientCalled?
      && addClientSvc(events[0].inbound).err.None? && addClientSvc(events[0].inbound).needRestart
  {
    if bound.Failure? {
      return Msg(SomethingWentWrong, Some(BindFailed(bound.error))), [];
    }
    var dto := bound.value;
    if dto.id <= 0 {
      return Msg(SomethingWentWrong, Some(InvalidId)), [];
    }
    if dto.settings == "" || !jsonValid(dto.settings) {
      return Msg(SomethingWentWrong, Some(InvalidSettingsJson)), [];
    }
    var data := ZeroInbound().(id := dto.id);
    data := data.(settings := RawJson(dto.settings));
    events := [AddInboundClientCalled(data)];
    var out := addClientSvc(data);
    if out.err.Some? {
      return Msg(SomethingWentWrong, Some(ServiceFailed(out.err.value))), events;
    }
    resp := Msg(InboundClientAddSuccess, None);
    if out.needRestart {
      events := events + [SetToNeedRestart];
    }
  }
}
