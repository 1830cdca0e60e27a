/**
 * web/controller/inbound_update_client.go: updating one client of an
 * inbound, named by the `clientId` path parameter.
 */
module InboundUpdateClient {
  import opened Wrappers
  import opened Model
  import opened Web

  /** UpdateClientDTO (inbound_update_client.go:12-15). */
  datatype UpdateClientDTO = UpdateClientDTO(id: int, settings: string)

  /** updateInboundClient (inbound_update_client.go:18-49). A binding error,
      then a non-positive id, then empty or invalid settings are reported, in
      that order, with no service call. Otherwise the service receives an
      inbound carrying only the id and the settings, and the path clientId
      unchanged; its error is reported with no restart; on success the
      client-updated message is returned and a restart is requested exactly
      when the service asked for one. */
  method UpdateInboundClient(clientId: string, bound: Result<UpdateClientDTO, string>,
                             jsonValid: string -> bool,
                             updateClientSvc: (Inbound, string) -> ClientOutcome)
    returns (resp: Response, events: seq<Event>)
    ensures bound.Failure? ==> resp == Msg(SomethingWentWrong, Some(BindFailed(bound.error))) && events == []
    ensures bound.Success? ==>
      var invalid := CheckClientRequest(bound.value.id, bound.value.settings, jsonValid);
      && (invalid.Some? ==> resp == Msg(SomethingWentWrong, invalid) && events == [])
      && (invalid.None? ==>
            && |events| >= 1 && events[0].UpdateInboundClientCalled?
            && IsClientCarrier(events[0].inbound, bound.value.id, bound.value.settings)
            && events[0].clientId == clientId
            && var out := updateClientSvc(events[0].inbound, clientId);
            && (out.err.Some? ==> resp == Msg(SomethingWentWrong, ServiceError(out.err)) && |events| == 1)
            && (out.err.None? ==>
                  resp == Msg(InboundClientUpdateSuccess, None)
                  && events[1..] == if out.needRestart then [SetToNeedRestart] else []))
    ensures SetToNeedRestart in events ==>
      |events| == 2 && events[0].UpdateInboundClientCalled?
      && updateClientSvc(events[0].inbound, clientId).err.None?
      && updateClientSvc(events[0].inbound, clientId).needRestart
  {
    if bound.Failure? {
      return Msg(SomethingWentWrong, Some(BindFailed(bound.error))), [];
    }
    var dto := bound.value;
    if dto.id <= 0 {
      return Msg(SomethingWentWrong, Some(InvalidId)), [];
    }
    if dto.settings == "" || !jsonValid(dto.settings) {
      return Msg(SomethingWentWrong, Some(InvalidSettingsJson)), [];
    }
    var inbound := ZeroInbound().(id := dto.id);
    inbound := inbound.(settings := RawJson(dto.settings));
    events := [UpdateInboundClientCalled(inbound, clientId)];
    var out := updateClientSvc(inbound, clientId);
    if out.err.Some? {
      return Msg(SomethingWentWrong, Some(ServiceFailed(out.err.value))), events;
    }
    resp := Msg(InboundClientUpdateSuccess, None);
    if out.needRestart {
      events := events + [SetToNeedRestart];
    }
  }
}
