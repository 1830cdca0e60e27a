/**
 * web/controller/inbound_update.go: updating an inbound. The request is
 * bound by gin's JSON binder or its form binder according to the
 * Content-Type header; what each binder would produce is given as input.
 */
module InboundUpdate {
  import opened Wrappers
  import opened Text
  import opened Model
  import opened InboundDto
  import opened Web

  /** InboundUpdateDTO (inbound_update.go:14-31). */
  datatype InboundUpdateDTO = InboundUpdateDTO(
    up: int,
    down: int,
    total: int,
    remark: string,
    enable: bool,
    expiryTime: int,
    trafficReset: string,
    lastTrafficResetTime: int,
    listen: string,
    port: int,
    protocol: Protocol,
    settings: string,
    streamSettings: string,
    sniffing: string)

  const JsonContentType := "application/json"

  /** The binding used: the JSON binder's when the Content-Type starts with
      "application/json", the form binder's otherwise. */
  function ChosenBinding(contentType: string, jsonBind: Result<InboundUpdateDTO, string>,
                         formBind: Result<InboundUpdateDTO, string>): (r: Result<InboundUpdateDTO, string>)
    ensures HasPrefix(contentType, JsonContentType) ==> r == jsonBind
    ensures !HasPrefix(contentType, JsonContentType) ==> r == formBind
  {
    if HasPrefix(contentType, JsonContentType) then jsonBind else formBind
  }

  /** Any Content-Type that extends "application/json" (a charset, say)
      still selects the JSON binder. */
  lemma JsonContentTypeExtended(suffix: string, jsonBind: Result<InboundUpdateDTO, string>,
                                formBind: Result<InboundUpdateDTO, string>)
    ensures ChosenBinding(JsonContentType + suffix, jsonBind, formBind) == jsonBind
  {
    assert (JsonContentType + suffix)[..|JsonContentType|] == JsonContentType;
  }

  /** Why a bound request is refused: the binding error, else the first
      invalid JSON field. */
  function BindError(bound: Result<InboundUpdateDTO, string>, jsonValid: string -> bool): (r: Option<Error>)
    ensures bound.Failure? ==> r == Some(BindFailed(bound.error))
    ensures bound.Success? ==>
      r == CheckJsonFields(bound.value.settings, bound.value.streamSettings, bound.value.sniffing, jsonValid)
  {
    match bound
    case Failure(e) => Some(BindFailed(e))
    case Success(dto) => CheckJsonFields(dto.settings, dto.streamSettings, dto.sniffing, jsonValid)
  }

  /** The request an inbound record carries: the fields the update DTO
      shares with it. */
  function RequestOf(r: Inbound): InboundUpdateDTO {
    InboundUpdateDTO(r.up, r.down, r.total, r.remark, r.enable, r.expiryTime,
                     r.trafficReset, r.lastTrafficResetTime, r.listen, r.port, r.protocol,
                     r.settings.text, r.streamSettings.text, r.sniffing.text)
  }

  /** The record built for an update (inbound_update.go:58-75): it carries
      the request and the path id; owner, accumulated traffic, tag and client
      stats are left at their zero values. */
  predicate UpdatedFrom(r: Inbound, dto: InboundUpdateDTO, id: int) {
    RequestOf(r) == dto && r.id == id && r.userId == 0 && r.allTime == 0
    && r.tag == "" && r.clientStats == []
  }

  /** The record is fully determined by the request and the id. */
  lemma UpdatedFromUnique(r: Inbound, s: Inbound, dto: InboundUpdateDTO, id: int)
    requires UpdatedFrom(r, dto, id) && UpdatedFrom(s, dto, id)
    ensures r == s
  {
    assert RequestOf(r) == RequestOf(s);
  }

  /** bindInboundUpdate (inbound_update.go:33-78): the chosen binding's error
      or the first invalid JSON field, or else the record built from the
      request for the given id. */
  method BindInboundUpdate(contentType: string, jsonBind: Result<InboundUpdateDTO, string>,
                           formBind: Result<InboundUpdateDTO, string>, id: int, jsonValid: string -> bool)
    returns (r: Result<Inbound, Error>)
    ensures var bound := ChosenBinding(contentType, jsonBind, formBind);
      && (r.Failure? <==> BindError(bound, jsonValid).Some?)
      && (r.Failure? ==> BindError(bound, jsonValid) == Some(r.error))
      && (r.Success? ==> UpdatedFrom(r.value, bound.value, id))
  {
    var dto: InboundUpdateDTO;
    if HasPrefix(contentType, JsonContentType) {
      if jsonBind.Failure? {
        return Failure(BindFailed(jsonBind.error));
      }
      dto := jsonBind.value;
    } else {
      if formBind.Failure? {
        return Failure(BindFailed(formBind.error));
      }
      dto := formBind.value;
    }
    if dto.settings != "" && !jsonValid(dto.settings) {
      return Failure(InvalidSettingsJson);
    }
    if dto.streamSettings != "" && !jsonValid(dto.streamSettings) {
      return Failure(InvalidStreamSettingsJson);
    }
    if dto.sniffing != "" && !jsonValid(dto.sniffing) {
      return Failure(InvalidSniffingJson);
    }
    var inb := Inbound(id, 0, dto.up, dto.down, dto.total, 0, dto.remark, dto.enable,
                       dto.expiryTime, dto.trafficReset, dto.lastTrafficResetTime, [],
                       dto.listen, dto.port, dto.protocol, "",
                       RawJson(""), RawJson(""), RawJson(""));
    inb := inb.(settings := RawJson(dto.settings));
    inb := inb.(streamSettings := RawJson(dto.streamSettings));
    inb := inb.(sniffing := RawJson(dto.sniffing));
    return Success(inb);
  }

  /** updateInbound (inbound_update.go:81-105). A path id that does not
      parse is reported before anything is bound; a binding or validation
      error is reported with no service call; a service error is reported
      with no restart; on success the updated inbound's DTO is returned and a
      restart is requested exactly when the service asked for one. */
  method UpdateInbound(idParam: string, atoi: string -> Option<int>, contentType: string,
                       jsonBind: Result<InboundUpdateDTO, string>, formBind: Result<InboundUpdateDTO, string>,
                       jsonValid: string -> bool, updateSvc: Inbound -> InboundOutcome)
    returns (resp: Response, events: seq<Event>)
    ensures atoi(idParam).None? ==> resp == Msg(SomethingWentWrong, Some(AtoiFailed(idParam))) && events == []
    ensures atoi(idParam).Some? ==>
      var bindError := BindError(ChosenBinding(contentType, jsonBind, formBind), jsonValid);
      && (bindError.Some? ==> resp == Msg(SomethingWentWrong, bindError) && events == [])
      && (bindError.None? ==>
            && |events| >= 1 && events[0].UpdateInboundCalled?
            && UpdatedFrom(events[0].inbound, ChosenBinding(contentType, jsonBind, formBind).value,
                           atoi(idParam).value)
            && var out := updateSvc(events[0].inbound);
            && (out.err.Some? ==> resp == Msg(SomethingWentWrong, ServiceError(out.err)) && |events| == 1)
            && (out.err.None? ==>
                  resp == MsgObj(InboundUpdateSuccess, Dto(ToInboundDTOPtr(out.inbound)), None)
                  && events[1..] == if out.needRestart then [SetToNeedRestart] else []))
    ensures SetToNeedRestart in events ==>
      |events| == 2 && events[0].UpdateInboundCalled?
      && updateSvc(events[0].inbound).err.None? && updateSvc(events[0].inbound).needRestart
  {
    var parsed := atoi(idParam);
    if parsed.None? {
      return Msg(SomethingWentWrong, Some(AtoiFailed(idParam))), [];
    }
    var id := parsed.value;
    var bound := BindInboundUpdate(contentType, jsonBind, formBind, id, jsonValid);
    if bound.Failure? {
      return Msg(SomethingWentWrong, Some(bound.error)), [];
    }
    var inbound := bound.value;
    events := [UpdateInboundCalled(inbound)];
    var out := updateSvc(inbound);
    if out.err.Some? {
      return Msg(SomethingWentWrong, Some(ServiceFailed(out.err.value))), events;
    }
    resp := MsgObj(InboundUpdateSuccess, Dto(ToInboundDTOPtr(out.inbound)), None);
    if out.needRestart {
      events := events + [SetToNeedRestart];
    }
  }
}
