/**
 * web/controller/inbound_create.go: creating an inbound from a bound
 * request. Also home of the tag rule, which inbound.go repeats for the
 * import handler.
 */
module InboundCreate {
  import opened Wrappers
  import opened Text
  import opened Model
  import opened InboundDto
  import opened Web
  import Slices

  /** InboundCreateDTO (inbound_create.go:15-31). */
  datatype InboundCreateDTO = InboundCreateDTO(
    up: int,
    down: int,
    total: int,
    remark: string,
    enable: bool,
    expiryTime: int,
    trafficReset: string,
    lastTrafficResetTime: int,
    listen: string,
    port: int,
    protocol: Protocol,
    settings: string,
    streamSettings: string,
    sniffing: string)

  /** The listen addresses that mean "every interface". */
  predicate IsWildcardListen(listen: string) {
    listen == "" || listen == "0.0.0.0" || listen == "::" || listen == "::0"
  }

  const TagPrefix := "inbound-"

  /** The tag rule: "inbound-<port>" for a wildcard listen address,
      "inbound-<listen>:<port>" otherwise. A colon appears in the tag exactly
      when the listen address is specific. */
  function TagFor(listen: string, port: int): (r: string)
    ensures HasPrefix(r, TagPrefix)
    ensures ':' in r <==> !IsWildcardListen(listen)
  {
    if IsWildcardListen(listen) then TagPrefix + FormatInt(port)
    else
      var r := TagPrefix + listen + ":" + FormatInt(port);
      assert r[|TagPrefix| + |listen|] == ':';
      r
  }

  /** Every wildcard address gives the same tag for a port. */
  lemma WildcardTagsAgree(listen1: string, listen2: string, port: int)
    requires IsWildcardListen(listen1) && IsWildcardListen(listen2)
    ensures TagFor(listen1, port) == TagFor(listen2, port) == TagPrefix + FormatInt(port)
  {
  }

  /** Two strings split at a separator that the tails do not contain have
      equal heads and tails. */
  lemma SplitAtLastSeparator(a: string, b: string, x: string, y: string, sep: char)
    requires a + [sep] + b == x + [sep] + y
    requires sep !in b && sep !in y
    ensures a == x && b == y
  {
    var s := a + [sep] + b;
    assert forall k :: |s| - |b| <= k < |s| ==> s[k] == b[k - (|s| - |b|)] != sep;
    assert forall k :: |s| - |y| <= k < |s| ==> s[k] == y[k - (|s| - |y|)] != sep;
    assert s[|s| - |b| - 1] == sep == s[|s| - |y| - 1];
    assert |a| == |x|;
    assert a == s[..|a|] == x;
    assert b == s[|a| + 1..] == y;
  }

  /** A tag identifies the endpoint: the port always, and the listen address
      whenever it is specific. */
  lemma TagIdentifiesEndpoint(listen1: string, port1: int, listen2: string, port2: int)
    requires TagFor(listen1, port1) == TagFor(listen2, port2)
    ensures port1 == port2
    ensures IsWildcardListen(listen1) <==> IsWildcardListen(listen2)
    ensures !IsWildcardListen(listen1) ==> listen1 == listen2
  {
    var t := TagFor(listen1, port1);
    assert ':' in t <==> !IsWildcardListen(listen1);
    assert ':' in t <==> !IsWildcardListen(listen2);
    if IsWildcardListen(listen1) {
      assert FormatInt(port1) == t[|TagPrefix|..] == FormatInt(port2);
    } else {
      assert ':' !in FormatInt(port1) && ':' !in FormatInt(port2);
      SplitAtLastSeparator(TagPrefix + listen1, FormatInt(port1), TagPrefix + listen2, FormatInt(port2), ':');
      assert listen1 == (TagPrefix + listen1)[|TagPrefix|..];
      assert listen2 == (TagPrefix + listen2)[|TagPrefix|..];
    }
    FormatIntInjective(port1, port2);
  }

  /** The request an inbound record carries: the fields the create DTO shares
      with it. */
  function RequestOf(r: Inbound): InboundCreateDTO {
    InboundCreateDTO(r.up, r.down, r.total, r.remark, r.enable, r.expiryTime,
                     r.trafficReset, r.lastTrafficResetTime, r.listen, r.port, r.protocol,
                     r.settings.text, r.streamSettings.text, r.sniffing.text)
  }

  /** The record built for a create request (inbound_create.go:59-86): it
      carries the request, belongs to the session user, has no id, no
      accumulated traffic and no client stats yet, and the tag rule's tag. */
  predicate CreatedFrom(r: Inbound, dto: InboundCreateDTO, userId: int) {
    RequestOf(r) == dto && r.id == 0 && r.userId == userId && r.allTime == 0
    && r.clientStats == [] && r.tag == TagFor(dto.listen, dto.port)
  }

  /** The record is fully determined by the request and the user. */
  lemma CreatedFromUnique(r: Inbound, s: Inbound, dto: InboundCreateDTO, userId: int)
    requires CreatedFrom(r, dto, userId) && CreatedFrom(s, dto, userId)
    ensures r == s
  {
    assert RequestOf(r) == RequestOf(s);
  }

  /** The checks that must pass before the service is called. */
  predicate Accepted(bound: Result<InboundCreateDTO, string>, jsonValid: string -> bool) {
    bound.Success?
    && CheckJsonFields(bound.value.settings, bound.value.streamSettings, bound.value.sniffing, jsonValid).None?
  }

  /** Every DTO in the list is the projection of the inbound at its index. */
  predicate ProjectsAll(dtos: seq<InboundDTO>, inbounds: seq<Option<Inbound>>) {
    |dtos| == |inbounds| && forall i :: 0 <= i < |inbounds| ==> dtos[i] == ToInboundDTOPtr(inbounds[i])
  }

  /** Builds the record for an accepted request, step by step. */
  method NewInbound(dto: InboundCreateDTO, userId: int) returns (inbound: Inbound)
    ensures CreatedFrom(inbound, dto, userId)
  {
    inbound := Inbound(0, userId, dto.up, dto.down, dto.total, 0, dto.remark, dto.enable,
                       dto.expiryTime, dto.trafficReset, dto.lastTrafficResetTime, [],
                       dto.listen, dto.port, dto.protocol, "",
                       RawJson(""), RawJson(""), RawJson(""));
    inbound := inbound.(settings := RawJson(dto.settings));
    inbound := inbound.(streamSettings := RawJson(dto.streamSettings));
    inbound := inbound.(sniffing := RawJson(dto.sniffing));
    if inbound.listen == "" || inbound.listen == "0.0.0.0" || inbound.listen == "::" || inbound.listen == "::0" {
      inbound := inbound.(tag := TagPrefix + FormatInt(inbound.port));
    } else {
      inbound := inbound.(tag := TagPrefix + inbound.listen + ":" + FormatInt(inbound.port));
    }
  }

  /** The broadcast that closes a successful creation
      (inbound_create.go:99-102): the user's inbounds are fetched and sent as
      DTOs, mapped in order. */
  method PublishUserInbounds(userId: int, getInbounds: int -> seq<Option<Inbound>>)
    returns (events: seq<Event>)
    ensures |events| == 2 && events[0] == GetInboundsCalled(userId)
    ensures events[1].BroadcastInbounds? && ProjectsAll(events[1].dtos, getInbounds(userId))
    ensures SetToNeedRestart !in events
  {
    var inbounds := getInbounds(userId);
    var dtos := Slices.Map(inbounds, (item: Option<Inbound>, index: int) => ToInboundDTOPtr(item));
    events := [GetInboundsCalled(userId), BroadcastInbounds(dtos)];
  }

  /** The part of addInbound after validation (inbound_create.go:57-102):
      the service receives the record built from the request; its error is
      reported and nothing follows; on success the created inbound's DTO is
      returned, a restart is requested exactly when the service asked for one,
      and the user's inbounds are broadcast. */
  method CreateAccepted(dto: InboundCreateDTO, userId: int, addSvc: Inbound -> InboundOutcome,
                        getInbounds: int -> seq<Option<Inbound>>)
    returns (resp: Response, events: seq<Event>)
    ensures |events| >= 1 && events[0].AddInboundCalled? && CreatedFrom(events[0].inbound, dto, userId)
    ensures addSvc(events[0].inbound).err.Some? ==>
      resp == Msg(SomethingWentWrong, ServiceError(addSvc(events[0].inbound).err)) && |events| == 1
    ensures addSvc(events[0].inbound).err.None? ==>
      var out := addSvc(events[0].inbound);
      resp == MsgObj(InboundCreateSuccess, Dto(ToInboundDTOPtr(out.inbound)), None)
      && events[1..] == (if out.needRestart then [SetToNeedRestart] else [])
                        + [GetInboundsCalled(userId), events[|events| - 1]]
      && events[|events| - 1].BroadcastInbounds?
      && ProjectsAll(events[|events| - 1].dtos, getInbounds(userId))
    ensures SetToNeedRestart in events <==>
      addSvc(events[0].inbound).err.None? && addSvc(events[0].inbound).needRestart
  {
    var inbound := NewInbound(dto, userId);
    var call := AddInboundCalled(inbound);
    var out := addSvc(inbound);
    if out.err.Some? {
      return Msg(SomethingWentWrong, Some(ServiceFailed(out.err.value))), [call];
    }
    resp := MsgObj(InboundCreateSuccess, Dto(ToInboundDTOPtr(out.inbound)), None);
    var restart := if out.needRestart then [SetToNeedRestart] else [];
    var published := PublishUserInbounds(userId, getInbounds);
    assert published == [GetInboundsCalled(userId), published[1]];
    events := [call] + restart + published;
    assert events[1..] == restart + published;
    assert events[|events| - 1] == published[1];
    RestartOnlyIn(call, restart, published);
  }

  /** addInbound (inbound_create.go:34-103). A binding error or the first
      invalid JSON field is reported and nothing else happens; otherwise the
      request goes on as CreateAccepted says. */
  method AddInbound(bound: Result<InboundCreateDTO, string>, userId: int, jsonValid: string -> bool,
                    addSvc: Inbound -> InboundOutcome, getInbounds: int -> seq<Option<Inbound>>)
    returns (resp: Response, events: seq<Event>)
    ensures bound.Failure? ==> resp == Msg(SomethingWentWrong, Some(BindFailed(bound.error))) && events == []
    ensures bound.Success? && !Accepted(bound, jsonValid) ==>
      resp == Msg(SomethingWentWrong,
                  CheckJsonFields(bound.value.settings, bound.value.streamSettings, bound.value.sniffing, jsonValid))
      && events == []
    ensures Accepted(bound, jsonValid) ==>
      |events| >= 1 && events[0].AddInboundCalled? && CreatedFrom(events[0].inbound, bound.value, userId)
    ensures Accepted(bound, jsonValid) && addSvc(events[0].inbound).err.Some? ==>
      resp == Msg(SomethingWentWrong, ServiceError(addSvc(events[0].inbound).err)) && |events| == 1
    ensures Accepted(bound, jsonValid) && addSvc(events[0].inbound).err.None? ==>
      var out := addSvc(events[0].inbound);
      resp == MsgObj(InboundCreateSuccess, Dto(ToInboundDTOPtr(out.inbound)), None)
      && events[1..] == (if out.needRestart then [SetToNeedRestart] else [])
                        + [GetInboundsCalled(userId), events[|events| - 1]]
      && events[|events| - 1].BroadcastInbounds?
      && ProjectsAll(events[|events| - 1].dtos, getInbounds(userId))
    ensures SetToNeedRestart in events <==>
      Accepted(bound, jsonValid) && addSvc(events[0].inbound).err.None? && addSvc(events[0].inbound).needRestart
  {
    if bound.Failure? {
      return Msg(SomethingWentWrong, Some(BindFailed(bound.error))), [];
    }
    var dto := bound.value;
    var invalid := CheckJsonFields(dto.settings, dto.streamSettings, dto.sniffing, jsonValid);
    if invalid.Some? {
      return Msg(SomethingWentWrong, invalid), [];
    }
    resp, events := CreateAccepted(dto, userId, addSvc, getInbounds);
  }
}
