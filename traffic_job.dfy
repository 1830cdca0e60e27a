/**
 * web/job/xray_traffic_job.go: one run of the periodic traffic job.
 *
 * The services the job calls (Xray, inbound, outbound, settings) are outside
 * this model: what each call returns in a run is given up front as
 * `CycleOutcomes`, and what the job does is recorded, in order, as a sequence
 * of `Event`s: the accounting calls, the external inform call, the restart
 * request, warnings logged, and the websocket broadcasts.
 */
module TrafficJob {
  import opened Wrappers
  import opened Model

  /** The job's own response shape (xray_traffic_job.go:15-37): no UserId,
      and the protocol as a plain string. */
  datatype InboundDTO = InboundDTO(
    id: int,
    up: int,
    down: int,
    total: int,
    allTime: int,
    remark: string,
    enable: bool,
    expiryTime: int,
    trafficReset: string,
    lastTrafficResetTime: int,
    clientStats: seq<ClientTraffic>,
    listen: string,
    port: int,
    protocol: string,
    tag: string,
    settings: string,
    streamSettings: string,
    sniffing: string)

  function ZeroDTO(): InboundDTO {
    InboundDTO(0, 0, 0, 0, 0, "", false, 0, "", 0, [], "", 0, "", "", "", "", "")
  }

  /** Rebuilds an inbound from a job DTO and the owner it does not carry. */
  function FromDTO(d: InboundDTO, userId: int): Inbound {
    Inbound(d.id, userId, d.up, d.down, d.total, d.allTime, d.remark, d.enable,
            d.expiryTime, d.trafficReset, d.lastTrafficResetTime, d.clientStats,
            d.listen, d.port, Protocol(d.protocol), d.tag,
            RawJson(d.settings), RawJson(d.streamSettings), RawJson(d.sniffing))
  }

  /** toInboundDTO (xray_traffic_job.go:39-62): every field but the owner is
      kept, the protocol and the JSON blocks as strings with the same content. */
  function ToInboundDTO(m: Inbound): (d: InboundDTO)
    ensures FromDTO(d, m.userId) == m
    ensures d.protocol == m.protocol.name
  {
    InboundDTO(m.id, m.up, m.down, m.total, m.allTime, m.remark, m.enable,
               m.expiryTime, m.trafficReset, m.lastTrafficResetTime, m.clientStats,
               m.listen, m.port, m.protocol.name, m.tag,
               m.settings.text, m.streamSettings.text, m.sniffing.text)
  }

  /** toInboundDTOPtr (xray_traffic_job.go:64-69). */
  function ToInboundDTOPtr(p: Option<Inbound>): (d: InboundDTO)
    ensures p.None? ==> d == ZeroDTO() && FromDTO(d, 0) == ZeroInbound()
    ensures p.Some? ==> FromDTO(d, p.value.userId) == p.value
  {
    match p
    case None => ZeroDTO()
    case Some(m) => ToInboundDTO(m)
  }

  /** Two inbounds of the same owner share a job DTO only if they are equal. */
  lemma ToInboundDTOInjective(m: Inbound, n: Inbound)
    requires m.userId == n.userId && ToInboundDTO(m) == ToInboundDTO(n)
    ensures m == n
  {
    assert FromDTO(ToInboundDTO(m), m.userId) == FromDTO(ToInboundDTO(n), n.userId);
  }

  /** xray.Traffic, passed through unchanged. */
  datatype Traffic = Traffic(isInbound: bool, isOutbound: bool, tag: string, up: int, down: int)

  /** model.OutboundTraffics, passed through unchanged. */
  datatype OutboundTraffic = OutboundTraffic(id: int, tag: string, up: int, down: int, total: int)

  /** What GetXrayTraffic returns. */
  datatype TrafficBatch = TrafficBatch(traffics: seq<Traffic>, clientTraffics: seq<ClientTraffic>)

  /** A service call's value and whether it also returned an error. */
  datatype Read<T> = Read(value: T, failed: bool)

  /** What an AddTraffic call returns: an error or not, and needRestart. */
  datatype AddTrafficOutcome = AddTrafficOutcome(failed: bool, needRestart: bool)

  /** What each service call returns during one run. A list that is
      `None` is a nil slice, independently of the error. */
  datatype CycleOutcomes = CycleOutcomes(
    xrayRunning: bool,
    traffic: Read<TrafficBatch>,
    inboundAdd: AddTrafficOutcome,
    outboundAdd: AddTrafficOutcome,
    informEnable: Read<bool>,
    onlineClients: seq<string>,
    lastOnline: Read<map<string, int>>,
    allInbounds: Read<Option<seq<Option<Inbound>>>>,
    outbounds: Read<Option<seq<OutboundTraffic>>>)

  datatype Warning =
    | AddInboundTrafficFailed
    | AddOutboundTrafficFailed
    | InformSettingFailed
    | LastOnlineFailed
    | AllInboundsFailed
    | OutboundsFailed

  /** The payload of the traffic broadcast. */
  datatype TrafficUpdate = TrafficUpdate(
    traffics: seq<Traffic>, clientTraffics: seq<ClientTraffic>,
    onlineClients: seq<string>, lastOnlineMap: map<string, int>)

  datatype Event =
    | AddInboundTraffic(batch: TrafficBatch)
    | AddOutboundTraffic(batch: TrafficBatch)
    | InformExternal(batch: TrafficBatch)
    | SetToNeedRestart
    | Warn(warning: Warning)
    | BroadcastTraffic(update: TrafficUpdate)
    | BroadcastInbounds(inbounds: seq<Option<Inbound>>)
    | BroadcastOutbounds(outbounds: seq<OutboundTraffic>)

  predicate IsBroadcast(e: Event) {
    e.BroadcastTraffic? || e.BroadcastInbounds? || e.BroadcastOutbounds?
  }

  /** Events that account for, act on or forward the collected traffic. */
  predicate IsReconciliation(e: Event) {
    e.AddInboundTraffic? || e.AddOutboundTraffic? || e.InformExternal? || e.SetToNeedRestart?
  }

  /** Once anything has been broadcast, no accounting or restart follows. */
  ghost predicate ReconciledBeforePublished(events: seq<Event>) {
    forall i, j :: 0 <= i < j < |events| && IsBroadcast(events[i]) ==> !IsReconciliation(events[j])
  }

  /** The run gets past its two early returns. */
  predicate Proceeds(o: CycleOutcomes) {
    o.xrayRunning && !o.traffic.failed
  }

  /** The warnings a run that proceeds logs. */
  predicate Warned(o: CycleOutcomes, w: Warning) {
    match w
    case AddInboundTrafficFailed => o.inboundAdd.failed
    case AddOutboundTrafficFailed => o.outboundAdd.failed
    case InformSettingFailed => !o.informEnable.value && o.informEnable.failed
    case LastOnlineFailed => o.lastOnline.failed
    case AllInboundsFailed => o.allInbounds.failed
    case OutboundsFailed => o.outbounds.failed
  }

  /** The last-online map broadcast: an empty map when the read failed. */
  function BroadcastLastOnline(o: CycleOutcomes): map<string, int> {
    if o.lastOnline.failed then map[] else o.lastOnline.value
  }

  /** A warning logged when `failed` holds, nothing otherwise. */
  function WarnIf(failed: bool, w: Warning): (r: seq<Event>)
    ensures Warn(w) in r <==> failed
    ensures forall e :: e in r ==> e == Warn(w)
  {
    if failed then [Warn(w)] else []
  }

  /** The inform step: the call when the setting reads true, a warning when it
      reads false with an error, nothing otherwise. */
  function InformStep(setting: Read<bool>, batch: TrafficBatch): (r: seq<Event>)
    ensures InformExternal(batch) in r <==> setting.value
    ensures Warn(InformSettingFailed) in r <==> !setting.value && setting.failed
    ensures forall e :: e in r ==> e == InformExternal(batch) || e == Warn(InformSettingFailed)
  {
    if setting.value then [InformExternal(batch)]
    else if setting.failed then [Warn(InformSettingFailed)]
    else []
  }

  /** The events of xray_traffic_job.go:93-105, in order. */
  function AccountingCalls(o: CycleOutcomes): seq<Event> {
    var batch := o.traffic.value;
    [AddInboundTraffic(batch)] + WarnIf(o.inboundAdd.failed, AddInboundTrafficFailed)
    + [AddOutboundTraffic(batch)] + WarnIf(o.outboundAdd.failed, AddOutboundTrafficFailed)
    + InformStep(o.informEnable, batch)
  }

  /** The events of xray_traffic_job.go:93-108, in order. */
  function AccountingEvents(o: CycleOutcomes): seq<Event> {
    AccountingCalls(o)
    + (if o.inboundAdd.needRestart || o.outboundAdd.needRestart then [SetToNeedRestart] else [])
  }

  /** The broadcast of the inbound list, for a non-nil list. */
  function InboundsBroadcast(list: Option<seq<Option<Inbound>>>): (r: seq<Event>)
    ensures forall l :: BroadcastInbounds(l) in r <==> list == Some(l)
    ensures forall e :: e in r ==> e.BroadcastInbounds?
  {
    match list
    case None => []
    case Some(l) => [BroadcastInbounds(l)]
  }

  /** The broadcast of the outbound list, for a non-nil list. */
  function OutboundsBroadcast(list: Option<seq<OutboundTraffic>>): (r: seq<Event>)
    ensures forall l :: BroadcastOutbounds(l) in r <==> list == Some(l)
    ensures forall e :: e in r ==> e.BroadcastOutbounds?
  {
    match list
    case None => []
    case Some(l) => [BroadcastOutbounds(l)]
  }

  /** The traffic update broadcast: the fetched batch, the online clients and
      the last-online map read. */
  function Update(o: CycleOutcomes): TrafficUpdate {
    TrafficUpdate(o.traffic.value.traffics, o.traffic.value.clientTraffics,
                  o.onlineClients, BroadcastLastOnline(o))
  }

  /** The events of xray_traffic_job.go:110-151, in order. */
  function PublishingEvents(o: CycleOutcomes): seq<Event> {
    WarnIf(o.lastOnline.failed, LastOnlineFailed)
    + WarnIf(o.allInbounds.failed, AllInboundsFailed)
    + WarnIf(o.outbounds.failed, OutboundsFailed)
    + [BroadcastTraffic(Update(o))]
    + InboundsBroadcast(o.allInbounds.value)
    + OutboundsBroadcast(o.outbounds.value)
  }

  /** Everything one run does. */
  function RunEvents(o: CycleOutcomes): seq<Event> {
    if Proceeds(o) then AccountingEvents(o) + PublishingEvents(o) else []
  }

  /** The accounting half of Run (xray_traffic_job.go:93-108). */
  method Reconcile(o: CycleOutcomes) returns (events: seq<Event>)
    ensures events == AccountingEvents(o)
  {
    var batch := o.traffic.value;
    events := [AddInboundTraffic(batch)];
    var needRestart0 := o.inboundAdd.needRestart;
    if o.inboundAdd.failed {
      events := events + [Warn(AddInboundTrafficFailed)];
    }
    assert events == [AddInboundTraffic(batch)] + WarnIf(o.inboundAdd.failed, AddInboundTrafficFailed);
    events := events + [AddOutboundTraffic(batch)];
    var needRestart1 := o.outboundAdd.needRestart;
    if o.outboundAdd.failed {
      events := events + [Warn(AddOutboundTrafficFailed)];
    }
    assert events == [AddInboundTraffic(batch)] + WarnIf(o.inboundAdd.failed, AddInboundTrafficFailed)
                     + [AddOutboundTraffic(batch)] + WarnIf(o.outboundAdd.failed, AddOutboundTrafficFailed);
    if o.informEnable.value {
      events := events + [InformExternal(batch)];
    } else if o.informEnable.failed {
      events := events + [Warn(InformSettingFailed)];
    }
    assert events == AccountingCalls(o);
    if needRestart0 || needRestart1 {
      events := events + [SetToNeedRestart];
    }
  }

  /** The DTO list built at xray_traffic_job.go:141-144, one per inbound. */
  method InboundDtos(updatedInbounds: seq<Option<Inbound>>) returns (dtos: seq<InboundDTO>)
    ensures |dtos| == |updatedInbounds|
    ensures forall i :: 0 <= i < |updatedInbounds| ==> dtos[i] == ToInboundDTOPtr(updatedInbounds[i])
  {
    dtos := [];
    var i := 0;
    while i < |updatedInbounds|
      invariant 0 <= i <= |updatedInbounds|
      invariant |dtos| == i
      invariant forall k :: 0 <= k < i ==> dtos[k] == ToInboundDTOPtr(updatedInbounds[k])
    {
      dtos := dtos + [ToInboundDTOPtr(updatedInbounds[i])];
      i := i + 1;
    }
  }

  /** The publishing half of Run (xray_traffic_job.go:110-151), with the DTO
      list the run builds for a non-nil inbound list (and does not use). */
  method Publish(o: CycleOutcomes) returns (events: seq<Event>, dtos: seq<InboundDTO>)
    ensures events == PublishingEvents(o)
    ensures o.allInbounds.value.None? ==> dtos == []
    ensures o.allInbounds.value.Some? ==>
      var list := o.allInbounds.value.value;
      |dtos| == |list| && forall i :: 0 <= i < |list| ==> dtos[i] == ToInboundDTOPtr(list[i])
  {
    events := [];
    dtos := [];
    var lastOnlineMap := o.lastOnline.value;
    if o.lastOnline.failed {
      events := events + [Warn(LastOnlineFailed)];
      lastOnlineMap := map[];
    }
    assert events == WarnIf(o.lastOnline.failed, LastOnlineFailed);
    if o.allInbounds.failed {
      events := events + [Warn(AllInboundsFailed)];
    }
    if o.outbounds.failed {
      events := events + [Warn(OutboundsFailed)];
    }
    assert events == WarnIf(o.lastOnline.failed, LastOnlineFailed)
                     + WarnIf(o.allInbounds.failed, AllInboundsFailed)
                     + WarnIf(o.outbounds.failed, OutboundsFailed);
    var batch := o.traffic.value;
    var update := TrafficUpdate(batch.traffics, batch.clientTraffics, o.onlineClients, lastOnlineMap);
    assert update == Update(o);
    events := events + [BroadcastTraffic(update)];
    ghost var announced := events;
    if o.allInbounds.value.Some? {
      var updatedInbounds := o.allInbounds.value.value;
      dtos := InboundDtos(updatedInbounds);
      events := events + [BroadcastInbounds(updatedInbounds)];
    }
    assert events == announced + InboundsBroadcast(o.allInbounds.value);
    if o.outbounds.value.Some? {
      events := events + [BroadcastOutbounds(o.outbounds.value.value)];
    }
  }

  /** XrayTrafficJob.Run (xray_traffic_job.go:85-152): the run's events and the
      DTO list it builds. */
  method Run(o: CycleOutcomes) returns (events: seq<Event>, dtos: seq<InboundDTO>)
    ensures events == RunEvents(o)
    ensures Proceeds(o) && o.allInbounds.value.Some? ==>
      var list := o.allInbounds.value.value;
      |dtos| == |list| && forall i :: 0 <= i < |list| ==> dtos[i] == ToInboundDTOPtr(list[i])
    ensures !(Proceeds(o) && o.allInbounds.value.Some?) ==> dtos == []
  {
    if !o.xrayRunning {
      return [], [];
    }
    if o.traffic.failed {
      return [], [];
    }
    var accounting := Reconcile(o);
    var publishing;
    publishing, dtos := Publish(o);
    events := accounting + publishing;
  }

  /** Nothing happens when Xray is not running or the traffic cannot be read. */
  lemma SilentUnlessProceeds(o: CycleOutcomes)
    requires !Proceeds(o)
    ensures RunEvents(o) == []
  {
  }

  /** Membership in a run that proceeds: in one half or the other. */
  lemma InRun(o: CycleOutcomes, x: Event)
    requires Proceeds(o)
    ensures x in RunEvents(o) <==> x in AccountingEvents(o) || x in PublishingEvents(o)
  {
  }

  /** Both accounting calls happen, the outbound one even when the inbound one
      failed. */
  lemma BothAccounted(o: CycleOutcomes)
    requires Proceeds(o)
    ensures AddInboundTraffic(o.traffic.value) in RunEvents(o)
    ensures AddOutboundTraffic(o.traffic.value) in RunEvents(o)
    ensures RunEvents(o)[0] == AddInboundTraffic(o.traffic.value)
  {
    InRun(o, AddInboundTraffic(o.traffic.value));
    InRun(o, AddOutboundTraffic(o.traffic.value));
  }

  /** Restart is requested exactly when a run proceeds and either accounting
      call asked for it. */
  lemma RestartIffNeeded(o: CycleOutcomes)
    ensures SetToNeedRestart in RunEvents(o)
        <==> Proceeds(o) && (o.inboundAdd.needRestart || o.outboundAdd.needRestart)
  {
    if Proceeds(o) {
      InRun(o, SetToNeedRestart);
      InAccounting(o, SetToNeedRestart);
      InPublishing(o, SetToNeedRestart);
    }
  }

  /** Membership in either half, piece by piece. */
  lemma InAccounting(o: CycleOutcomes, x: Event)
    ensures x in AccountingEvents(o) <==>
      || x == AddInboundTraffic(o.traffic.value)
      || x in WarnIf(o.inboundAdd.failed, AddInboundTrafficFailed)
      || x == AddOutboundTraffic(o.traffic.value)
      || x in WarnIf(o.outboundAdd.failed, AddOutboundTrafficFailed)
      || x in InformStep(o.informEnable, o.traffic.value)
      || (x == SetToNeedRestart && (o.inboundAdd.needRestart || o.outboundAdd.needRestart))
  {
  }

  lemma InPublishing(o: CycleOutcomes, x: Event)
    ensures x in PublishingEvents(o) <==>
      || x in WarnIf(o.lastOnline.failed, LastOnlineFailed)
      || x in WarnIf(o.allInbounds.failed, AllInboundsFailed)
      || x in WarnIf(o.outbounds.failed, OutboundsFailed)
      || x == BroadcastTraffic(Update(o))
      || x in InboundsBroadcast(o.allInbounds.value)
      || x in OutboundsBroadcast(o.outbounds.value)
  {
  }

  /** The kinds of event each half holds. */
  lemma AccountingKinds(o: CycleOutcomes)
    ensures forall e :: e in AccountingEvents(o) ==> IsReconciliation(e) || e.Warn?
    ensures SetToNeedRestart !in AccountingCalls(o)
    ensures forall i :: 0 <= i < |AccountingEvents(o)| ==> !IsBroadcast(AccountingEvents(o)[i])
  {
    var acc := AccountingEvents(o);
    forall e | e in acc
      ensures IsReconciliation(e) || e.Warn?
    {
      InAccounting(o, e);
    }
    forall i | 0 <= i < |acc|
      ensures !IsBroadcast(acc[i])
    {
      assert acc[i] in acc;
    }
  }

  lemma PublishingKinds(o: CycleOutcomes)
    ensures forall e :: e in PublishingEvents(o) ==> IsBroadcast(e) || e.Warn?
    ensures forall i :: 0 <= i < |PublishingEvents(o)| ==> !IsReconciliation(PublishingEvents(o)[i])
  {
    var pub := PublishingEvents(o);
    forall e | e in pub
      ensures IsBroadcast(e) || e.Warn?
    {
      InPublishing(o, e);
    }
    forall i | 0 <= i < |pub|
      ensures !IsReconciliation(pub[i])
    {
      assert pub[i] in pub;
    }
  }

  /** ... and at most once: the request closes the accounting half. */
  lemma RestartAtMostOnce(o: CycleOutcomes)
    ensures forall i, j :: 0 <= i < j < |RunEvents(o)| && RunEvents(o)[i] == SetToNeedRestart
              ==> RunEvents(o)[j] != SetToNeedRestart
  {
    if Proceeds(o) {
      var calls, acc, pub := AccountingCalls(o), AccountingEvents(o), PublishingEvents(o);
      AccountingKinds(o);
      PublishingKinds(o);
      assert forall i :: 0 <= i < |RunEvents(o)| && RunEvents(o)[i] == SetToNeedRestart ==> i == |acc| - 1;
    }
  }

  /** The external API is informed exactly when a run proceeds and the setting
      reads true, and always with the batch just read. */
  lemma InformIffEnabled(o: CycleOutcomes)
    ensures InformExternal(o.traffic.value) in RunEvents(o) <==> Proceeds(o) && o.informEnable.value
    ensures forall e :: e in RunEvents(o) && e.InformExternal? ==> e == InformExternal(o.traffic.value)
  {
    if Proceeds(o) {
      forall e | e in RunEvents(o) && e.InformExternal?
        ensures e == InformExternal(o.traffic.value)
      {
        InRun(o, e);
        InAccounting(o, e);
        InPublishing(o, e);
      }
      var e := InformExternal(o.traffic.value);
      InRun(o, e);
      InAccounting(o, e);
      InPublishing(o, e);
    }
  }

  /** A run that proceeds broadcasts the traffic, with an empty last-online
      map when that read failed; it broadcasts an inbound or outbound list
      exactly when the list read is non-nil, whether or not the read failed. */
  lemma BroadcastsWhenProceeding(o: CycleOutcomes)
    ensures Proceeds(o) ==> BroadcastTraffic(Update(o)) in RunEvents(o)
    ensures Proceeds(o) && o.lastOnline.failed ==> Update(o).lastOnlineMap == map[]
    ensures forall l :: BroadcastInbounds(l) in RunEvents(o) <==> Proceeds(o) && o.allInbounds.value == Some(l)
    ensures forall l :: BroadcastOutbounds(l) in RunEvents(o) <==> Proceeds(o) && o.outbounds.value == Some(l)
  {
    if Proceeds(o) {
      InRun(o, BroadcastTraffic(Update(o)));
      InPublishing(o, BroadcastTraffic(Update(o)));
      forall l
        ensures BroadcastInbounds(l) in RunEvents(o) <==> o.allInbounds.value == Some(l)
      {
        InRun(o, BroadcastInbounds(l));
        InAccounting(o, BroadcastInbounds(l));
        InPublishing(o, BroadcastInbounds(l));
      }
      forall l
        ensures BroadcastOutbounds(l) in RunEvents(o) <==> o.outbounds.value == Some(l)
      {
        InRun(o, BroadcastOutbounds(l));
        InAccounting(o, BroadcastOutbounds(l));
        InPublishing(o, BroadcastOutbounds(l));
      }
    }
  }

  /** A warning is logged exactly for the failures a proceeding run meets. */
  lemma WarnsExactly(o: CycleOutcomes, w: Warning)
    ensures Warn(w) in RunEvents(o) <==> Proceeds(o) && Warned(o, w)
  {
    if Proceeds(o) {
      InRun(o, Warn(w));
      InAccounting(o, Warn(w));
      InPublishing(o, Warn(w));
    }
  }

  /** A sequence whose first part has no broadcast and whose second part has
      no reconciliation has every broadcast after every reconciliation. */
  lemma OrderedConcat(acc: seq<Event>, pub: seq<Event>)
    requires forall i :: 0 <= i < |acc| ==> !IsBroadcast(acc[i])
    requires forall i :: 0 <= i < |pub| ==> !IsReconciliation(pub[i])
    ensures ReconciledBeforePublished(acc + pub)
  {
    var run := acc + pub;
    forall i, j | 0 <= i < j < |run| && IsBroadcast(run[i])
      ensures !IsReconciliation(run[j])
    {
      assert i >= |acc|;
      assert run[j] == pub[j - |acc|];
    }
  }

  /** Every broadcast comes after all accounting, informing and restarting. */
  lemma ReconcilesBeforePublishing(o: CycleOutcomes)
    ensures ReconciledBeforePublished(RunEvents(o))
  {
    if Proceeds(o) {
      AccountingKinds(o);
      PublishingKinds(o);
      OrderedConcat(AccountingEvents(o), PublishingEvents(o));
    }
  }
}
