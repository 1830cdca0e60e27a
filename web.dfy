/**
 * What the inbound controller handlers share: the responses they write
 * (jsonMsg, jsonObj, jsonMsgObj), the errors they report, the message keys
 * they pass to I18nWeb, what the services they call return, and the effects
 * they have besides the response (service calls, the restart request, the
 * websocket broadcast), recorded in order as `Event`s.
 */
module Web {
  import opened Wrappers
  import opened Model
  import opened InboundDto

  const SomethingWentWrong := "somethingWentWrong"
  const Obtain := "pages.inbounds.toasts.obtain"
  const InboundCreateSuccess := "pages.inbounds.toasts.inboundCreateSuccess"
  const InboundUpdateSuccess := "pages.inbounds.toasts.inboundUpdateSuccess"
  const InboundClientAddSuccess := "pages.inbounds.toasts.inboundClientAddSuccess"
  const InboundClientUpdateSuccess := "pages.inbounds.toasts.inboundClientUpdateSuccess"
  const ResetAllTrafficSuccess := "pages.inbounds.toasts.resetAllTrafficSuccess"
  const ResetAllClientTrafficSuccess := "pages.inbounds.toasts.resetAllClientTrafficSuccess"
  const InboundDeleteSuccess := "pages.inbounds.toasts.inboundDeleteSuccess"
  const InboundClientDeleteSuccess := "pages.inbounds.toasts.inboundClientDeleteSuccess"
  const ResetInboundClientTrafficSuccess := "pages.inbounds.toasts.resetInboundClientTrafficSuccess"
  const NoIpRecord := "No IP Record"

  /** The errors a handler reports. Errors from gin binding, strconv.Atoi,
      json.Unmarshal and the services carry their text. */
  datatype Error =
    | BindFailed(detail: string)
    | InvalidSettingsJson
    | InvalidStreamSettingsJson
    | InvalidSniffingJson
    | InvalidId
    | AtoiFailed(text: string)
    | UnmarshalFailed(detail: string)
    | ServiceFailed(detail: string)

  /** The `obj` a response carries. */
  datatype Payload =
    | Dto(dto: InboundDTO)
    | DtoList(dtos: seq<InboundDTO>)
    | Record(inbound: Option<Inbound>)
    | InboundId(id: int)
    | Text(text: string)
    | TextList(texts: seq<string>)

  /** jsonMsg, jsonObj and jsonMsgObj. */
  datatype Response =
    | Msg(msgKey: string, err: Option<Error>)
    | Obj(payload: Payload, err: Option<Error>)
    | MsgObj(msgKey: string, payload: Payload, err: Option<Error>)

  /** What InboundService.AddInbound and UpdateInbound return. */
  datatype InboundOutcome = InboundOutcome(inbound: Option<Inbound>, needRestart: bool, err: Option<string>)

  /** What InboundService.AddInboundClient, UpdateInboundClient, DelInbound,
      DelInboundClient, ResetClientTraffic and DelInboundClientByEmail return. */
  datatype ClientOutcome = ClientOutcome(needRestart: bool, err: Option<string>)

  /** A service error as the handler reports it. */
  function ServiceError(err: Option<string>): (r: Option<Error>)
    ensures r.None? <==> err.None?
    ensures err.Some? ==> r == Some(ServiceFailed(err.value))
  {
    match err
    case None => None
    case Some(e) => Some(ServiceFailed(e))
  }

  datatype Event =
    | AddInboundCalled(inbound: Inbound)
    | UpdateInboundCalled(inbound: Inbound)
    | AddInboundClientCalled(inbound: Inbound)
    | UpdateInboundClientCalled(inbound: Inbound, clientId: string)
    | ResetAllTrafficsCalled
    | ResetAllClientTrafficsCalled(id: int)
    | DelInboundCalled(id: int)
    | DelInboundClientCalled(id: int, clientId: string)
    | ResetClientTrafficCalled(id: int, email: string)
    | DelInboundClientByEmailCalled(id: int, email: string)
    | GetInboundsCalled(userId: int)
    | SetToNeedRestart
    | BroadcastInbounds(dtos: seq<InboundDTO>)
    | BroadcastRecords(inbounds: seq<Option<Inbound>>)

  /** A JSON text field passes when it is empty or valid JSON. */
  predicate FieldAccepted(text: string, jsonValid: string -> bool) {
    text == "" || jsonValid(text)
  }

  /** The ordered check of the three JSON text fields shared by inbound
      creation and update: the first field that is non-empty and not valid
      JSON, in the order settings, stream settings, sniffing, is the one
      reported; none is reported when all three pass. */
  function CheckJsonFields(settings: string, streamSettings: string, sniffing: string,
                           jsonValid: string -> bool): (r: Option<Error>)
    ensures r.None? <==>
      FieldAccepted(settings, jsonValid) && FieldAccepted(streamSettings, jsonValid)
      && FieldAccepted(sniffing, jsonValid)
    ensures r == Some(InvalidSettingsJson) <==> !FieldAccepted(settings, jsonValid)
    ensures r == Some(InvalidStreamSettingsJson) <==>
      FieldAccepted(settings, jsonValid) && !FieldAccepted(streamSettings, jsonValid)
    ensures r == Some(InvalidSniffingJson) <==>
      FieldAccepted(settings, jsonValid) && FieldAccepted(streamSettings, jsonValid)
      && !FieldAccepted(sniffing, jsonValid)
  {
    if settings != "" && !jsonValid(settings) then Some(InvalidSettingsJson)
    else if streamSettings != "" && !jsonValid(streamSettings) then Some(InvalidStreamSettingsJson)
    else if sniffing != "" && !jsonValid(sniffing) then Some(InvalidSniffingJson)
    else None
  }

  /** Empty fields always pass, whatever json.Valid says about "". */
  lemma EmptyFieldsAccepted(jsonValid: string -> bool)
    ensures CheckJsonFields("", "", "", jsonValid) == None
  {
  }

  /** The check of a client request shared by adding and updating a client:
      a non-positive id first, then settings that are empty or not valid JSON
      (unlike the inbound fields, empty is rejected). */
  function CheckClientRequest(id: int, settings: string, jsonValid: string -> bool): (r: Option<Error>)
    ensures r.None? <==> id > 0 && settings != "" && jsonValid(settings)
    ensures r == Some(InvalidId) <==> id <= 0
    ensures r == Some(InvalidSettingsJson) <==> id > 0 && !(settings != "" && jsonValid(settings))
  {
    if id <= 0 then Some(InvalidId)
    else if settings == "" || !jsonValid(settings) then Some(InvalidSettingsJson)
    else None
  }

  /** An inbound field that is empty passes the inbound check but not the
      client check: the two differ exactly on empty settings. */
  lemma EmptySettingsTreatedDifferently(id: int, jsonValid: string -> bool)
    requires id > 0
    ensures CheckJsonFields("", "", "", jsonValid) == None
    ensures CheckClientRequest(id, "", jsonValid) == Some(InvalidSettingsJson)
  {
  }

  /** The carrier record the client handlers hand to the service: an inbound
      with only the id and the settings text set, every other field zero. */
  predicate IsClientCarrier(r: Inbound, id: int, settings: string) {
    r.id == id && r.settings == RawJson(settings)
    && r.(id := 0, settings := RawJson("")) == ZeroInbound()
  }

  /** The carrier is determined by the id and the settings. */
  lemma ClientCarrierUnique(r: Inbound, s: Inbound, id: int, settings: string)
    requires IsClientCarrier(r, id, settings) && IsClientCarrier(s, id, settings)
    ensures r == s
  {
    assert r == r.(id := 0, settings := RawJson("")).(id := id, settings := RawJson(settings));
    assert s == s.(id := 0, settings := RawJson("")).(id := id, settings := RawJson(settings));
  }

  /** A restart request in a call, the optional request and what follows
      comes from the optional request alone. */
  lemma RestartOnlyIn(call: Event, restart: seq<Event>, rest: seq<Event>)
    requires call != SetToNeedRestart && SetToNeedRestart !in rest
    ensures SetToNeedRestart in [call] + restart + rest <==> SetToNeedRestart in restart
  {
    var all := [call] + restart + rest;
    assert all[0] == call;
    assert forall k :: 1 <= k <= |restart| ==> all[k] == restart[k - 1];
    assert forall k :: 1 + |restart| <= k < |all| ==> all[k] == rest[k - 1 - |restart|] != SetToNeedRestart;
  }
}
