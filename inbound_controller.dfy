/**
 * web/controller/inbound.go: the handlers of that file that the split files
 * do not redefine and that decide something themselves: the client IP list,
 * the traffic resets, the deletions and the import of an inbound.
 */
module InboundController {
  import opened Wrappers
  import opened Model
  import opened Web
  import opened InboundCreate
  import Slices

  // ---------------------------------------------------------------------
  // getClientIps

  /** One entry of the timestamped IP record (inbound.go:317-320). */
  datatype IpWithTimestamp = IpWithTimestamp(ip: string, timestamp: int)

  predicate HasIp(entry: IpWithTimestamp) {
    entry.ip != ""
  }

  /** An entry as shown: "<ip> (<local time>)" when it has a positive
      timestamp, the bare IP otherwise. */
  function Render(entry: IpWithTimestamp, formatTime: int -> string): (r: string)
    ensures Text.HasPrefix(r, entry.ip)
    ensures entry.timestamp > 0 ==> r == entry.ip + " (" + formatTime(entry.timestamp) + ")"
    ensures entry.timestamp <= 0 ==> r == entry.ip
  {
    if entry.timestamp > 0 then
      var r := entry.ip + " (" + formatTime(entry.timestamp) + ")";
      assert r[..|entry.ip|] == entry.ip;
      r
    else entry.ip
  }

  /** Render as an iteratee for Slices.Mapped. */
  function Renderer(formatTime: int -> string): (IpWithTimestamp, int) -> string {
    (entry: IpWithTimestamp, index: int) => Render(entry, formatTime)
  }

  /** The timestamped list as shown: the entries with an IP, in order, each
      rendered. */
  function RenderedIps(entries: seq<IpWithTimestamp>, formatTime: int -> string): seq<string> {
    Slices.Mapped(Slices.Filtered(entries, HasIp), Renderer(formatTime))
  }

  /** The shown list has one line per entry with an IP, each line rendering
      an entry with an IP, taken in their original order. */
  lemma RenderedIpsInOrder(entries: seq<IpWithTimestamp>, formatTime: int -> string)
    returns (idx: seq<nat>)
    ensures |idx| == |RenderedIps(entries, formatTime)|
    ensures forall j :: 0 <= j < |idx| ==>
      idx[j] < |entries| && HasIp(entries[idx[j]])
      && RenderedIps(entries, formatTime)[j] == Render(entries[idx[j]], formatTime)
    ensures forall j, k :: 0 <= j < k < |idx| ==> idx[j] < idx[k]
  {
    idx := Slices.FilteredIsSubsequence(entries, HasIp);
  }

  /** Nothing is dropped when every entry has an IP. */
  lemma RenderedIpsKeepsAll(entries: seq<IpWithTimestamp>, formatTime: int -> string)
    requires forall i :: 0 <= i < |entries| ==> HasIp(entries[i])
    ensures |RenderedIps(entries, formatTime)| == |entries|
    ensures forall i :: 0 <= i < |entries| ==>
      RenderedIps(entries, formatTime)[i] == Render(entries[i], formatTime)
  {
    Slices.FilteredAllKept(entries, HasIp);
  }

  /** Builds the shown list (inbound.go:324-335). */
  method FormatIps(ipsWithTime: seq<IpWithTimestamp>, formatTime: int -> string)
    returns (formatted: seq<string>)
    ensures formatted == RenderedIps(ipsWithTime, formatTime)
  {
    formatted := [];
    var i := 0;
    while i < |ipsWithTime|
      invariant 0 <= i <= |ipsWithTime|
      invariant formatted == RenderedIps(ipsWithTime[..i], formatTime)
    {
      var item := ipsWithTime[i];
      assert ipsWithTime[..i + 1] == ipsWithTime[..i] + [item];
      Slices.FilteredAppend(ipsWithTime[..i], item, HasIp);
      var kept := Slices.Filtered(ipsWithTime[..i], HasIp);
      if item.ip == "" {
        i := i + 1;
        continue;
      }
      Slices.MappedAppend(kept, item, Renderer(formatTime));
      if item.timestamp > 0 {
        var ts := formatTime(item.timestamp);
        formatted := formatted + [item.ip + " (" + ts + ")"];
        i := i + 1;
        continue;
      }
      formatted := formatted + [item.ip];
      i := i + 1;
    }
    assert ipsWithTime[..i] == ipsWithTime;
  }

  /** getClientIps (inbound.go:307-348), for the stored record `ips` and
      whether reading it failed. "No IP Record" when the read failed or the
      record is empty; else the rendered list when the record reads as a
      non-empty timestamped list; else the plain list when it reads as a
      non-empty list of strings; else the record itself. */
  method GetClientIps(ips: string, lookupFailed: bool,
                      unmarshalTimestamped: string -> Option<seq<IpWithTimestamp>>,
                      unmarshalPlain: string -> Option<seq<string>>, formatTime: int -> string)
    returns (resp: Response)
    ensures lookupFailed || ips == "" ==> resp == Obj(Text(NoIpRecord), None)
    ensures !(lookupFailed || ips == "") ==>
      var timed := unmarshalTimestamped(ips);
      var plain := unmarshalPlain(ips);
      if timed.Some? && |timed.value| > 0 then
        resp == Obj(TextList(RenderedIps(timed.value, formatTime)), None)
      else if plain.Some? && |plain.value| > 0 then
        resp == Obj(TextList(plain.value), None)
      else
        resp == Obj(Text(ips), None)
  {
    if lookupFailed || ips == "" {
      return Obj(Text(NoIpRecord), None);
    }
    var ipsWithTime := unmarshalTimestamped(ips);
    if ipsWithTime.Some? && |ipsWithTime.value| > 0 {
      var formatted := FormatIps(ipsWithTime.value, formatTime);
      return Obj(TextList(formatted), None);
    }
    var oldIps := unmarshalPlain(ips);
    if oldIps.Some? && |oldIps.value| > 0 {
      return Obj(TextList(oldIps.value), None);
    }
    return Obj(Text(ips), None);
  }

  // ---------------------------------------------------------------------
  // resetAllTraffics, resetAllClientTraffics

  /** resetAllTraffics (inbound.go:479-488): a restart is requested exactly
      when the reset succeeded, which the service is not asked about. */
  method ResetAllTraffics(resetErr: Option<string>) returns (resp: Response, events: seq<Event>)
    ensures resetErr.Some? ==> resp == Msg(SomethingWentWrong, ServiceError(resetErr))
    ensures resetErr.None? ==> resp == Msg(ResetAllTrafficSuccess, None)
    ensures |events| >= 1 && events[0] == ResetAllTrafficsCalled
    ensures events[1..] == if resetErr.None? then [SetToNeedRestart] else []
  {
    events := [ResetAllTrafficsCalled];
    if resetErr.Some? {
      return Msg(SomethingWentWrong, Some(ServiceFailed(resetErr.value))), events;
    } else {
      events := events + [SetToNeedRestart];
    }
    resp := Msg(ResetAllTrafficSuccess, None);
  }

  /** resetAllClientTraffics (inbound.go:491-506): a path id that does not
      parse is reported, under the update-success message key, with no
      reset; otherwise a restart is requested exactly when the reset of that
      inbound's clients succeeded. */
  method ResetAllClientTraffics(idParam: string, atoi: string -> Option<int>,
                                resetSvc: int -> Option<string>)
    returns (resp: Response, events: seq<Event>)
    ensures atoi(idParam).None? ==>
      resp == Msg(InboundUpdateSuccess, Some(AtoiFailed(idParam))) && events == []
    ensures atoi(idParam).Some? ==>
      var id := atoi(idParam).value;
      && |events| >= 1 && events[0] == ResetAllClientTrafficsCalled(id)
      && events[1..] == (if resetSvc(id).None? then [SetToNeedRestart] else [])
      && (resetSvc(id).Some? ==> resp == Msg(SomethingWentWrong, ServiceError(resetSvc(id))))
      && (resetSvc(id).None? ==> resp == Msg(ResetAllClientTrafficSuccess, None))
  {
    var parsed := atoi(idParam);
    if parsed.None? {
      return Msg(InboundUpdateSuccess, Some(AtoiFailed(idParam))), [];
    }
    var id := parsed.value;
    events := [ResetAllClientTrafficsCalled(id)];
    var err := resetSvc(id);
    if err.Some? {
      return Msg(SomethingWentWrong, Some(ServiceFailed(err.value))), events;
    } else {
      events := events + [SetToNeedRestart];
    }
    resp := Msg(ResetAllClientTrafficSuccess, None);
  }

  // ---------------------------------------------------------------------
  // delInbound, delInboundClient, resetClientTraffic, delInboundClientByEmail

  /** delInbound (inbound.go:192-212): a path id that does not parse is
      reported, under the delete-success message key, with no deletion; a
      service error is reported and nothing follows; otherwise the id is
      returned, a restart is requested exactly when the service asked for one,
      and the session user's inbounds are broadcast as the service returns
      them (its error is ignored), not as DTOs. */
  method DelInbound(idParam: string, atoi: string -> Option<int>, delSvc: int -> ClientOutcome,
                    userId: int, getInbounds: int -> seq<Option<Inbound>>)
    returns (resp: Response, events: seq<Event>)
    ensures atoi(idParam).None? ==>
      resp == Msg(InboundDeleteSuccess, Some(AtoiFailed(idParam))) && events == []
    ensures atoi(idParam).Some? ==>
      var id := atoi(idParam).value;
      var out := delSvc(id);
      && |events| >= 1 && events[0] == DelInboundCalled(id)
      && (out.err.Some? ==> resp == Msg(SomethingWentWrong, ServiceError(out.err)) && |events| == 1)
      && (out.err.None? ==>
            resp == MsgObj(InboundDeleteSuccess, InboundId(id), None)
            && events[1..] == (if out.needRestart then [SetToNeedRestart] else [])
                              + [GetInboundsCalled(userId), BroadcastRecords(getInbounds(userId))])
    ensures SetToNeedRestart in events <==>
      atoi(idParam).Some? && delSvc(atoi(idParam).value).err.None? && delSvc(atoi(idParam).value).needRestart
  {
    var parsed := atoi(idParam);
    if parsed.None? {
      return Msg(InboundDeleteSuccess, Some(AtoiFailed(idParam))), [];
    }
    var id := parsed.value;
    var call := DelInboundCalled(id);
    var out := delSvc(id);
    if out.err.Some? {
      return Msg(SomethingWentWrong, Some(ServiceFailed(out.err.value))), [call];
    }
    resp := MsgObj(InboundDeleteSuccess, InboundId(id), None);
    var restart := if out.needRestart then [SetToNeedRestart] else [];
    var published := [GetInboundsCalled(userId), BroadcastRecords(getInbounds(userId))];
    events := [call] + restart + published;
    assert events[1..] == restart + published;
    RestartOnlyIn(call, restart, published);
  }

  /** delInboundClient (inbound.go:400-417): a path id that does not parse is
      reported, under the update-success message key, with no deletion; a
      service error is reported with no restart; otherwise a restart is
      requested exactly when the service asked for one. */
  method DelInboundClient(idParam: string, atoi: string -> Option<int>, clientId: string,
                          delSvc: (int, string) -> ClientOutcome)
    returns (resp: Response, events: seq<Event>)
    ensures atoi(idParam).None? ==>
      resp == Msg(InboundUpdateSuccess, Some(AtoiFailed(idParam))) && events == []
    ensures atoi(idParam).Some? ==>
      var id := atoi(idParam).value;
      var out := delSvc(id, clientId);
      && |events| >= 1 && events[0] == DelInboundClientCalled(id, clientId)
      && events[1..] == (if out.err.None? && out.needRestart then [SetToNeedRestart] else [])
      && (out.err.Some? ==> resp == Msg(SomethingWentWrong, ServiceError(out.err)))
      && (out.err.None? ==> resp == Msg(InboundClientDeleteSuccess, None))
    ensures SetToNeedRestart in events <==>
      atoi(idParam).Some? && delSvc(atoi(idParam).value, clientId).err.None?
      && delSvc(atoi(idParam).value, clientId).needRestart
  {
    var parsed := atoi(idParam);
    if parsed.None? {
      return Msg(InboundUpdateSuccess, Some(AtoiFailed(idParam))), [];
    }
    var id := parsed.value;
    events := [DelInboundClientCalled(id, clientId)];
    var out := delSvc(id, clientId);
    if out.err.Some? {
      return Msg(SomethingWentWrong, Some(ServiceFailed(out.err.value))), events;
    }
    resp := Msg(InboundClientDeleteSuccess, None);
    if out.needRestart {
      events := events + [SetToNeedRestart];
    }
  }

  /** resetClientTraffic (inbound.go:459-476): a path id that does not parse
      is reported, under the update-success message key, with no reset; a
      service error is reported with no restart; otherwise a restart is
      requested exactly when the service asked for one (unlike the two
      resets above, which always request one on success). */
  method ResetClientTraffic(idParam: string, atoi: string -> Option<int>, email: string,
                            resetSvc: (int, string) -> ClientOutcome)
    returns (resp: Response, events: seq<Event>)
    ensures atoi(idParam).None? ==>
      resp == Msg(InboundUpdateSuccess, Some(AtoiFailed(idParam))) && events == []
    ensures atoi(idParam).Some? ==>
      var id := atoi(idParam).value;
      var out := resetSvc(id, email);
      && |events| >= 1 && events[0] == ResetClientTrafficCalled(id, email)
      && events[1..] == (if out.err.None? && out.needRestart then [SetToNeedRestart] else [])
      && (out.err.Some? ==> resp == Msg(SomethingWentWrong, ServiceError(out.err)))
      && (out.err.None? ==> resp == Msg(ResetInboundClientTrafficSuccess, None))
    ensures SetToNeedRestart in events <==>
      atoi(idParam).Some? && resetSvc(atoi(idParam).value, email).err.None?
      && resetSvc(atoi(idParam).value, email).needRestart
  {
    var parsed := atoi(idParam);
    if parsed.None? {
      return Msg(InboundUpdateSuccess, Some(AtoiFailed(idParam))), [];
    }
    var id := parsed.value;
    events := [ResetClientTrafficCalled(id, email)];
    var out := resetSvc(id, email);
    if out.err.Some? {
      return Msg(SomethingWentWrong, Some(ServiceFailed(out.err.value))), events;
    }
    resp := Msg(ResetInboundClientTrafficSuccess, None);
    if out.needRestart {
      events := events + [SetToNeedRestart];
    }
  }

  /** The fixed English texts delInboundClientByEmail replies with; they are
      not looked up through I18nWeb. */
  const InvalidInboundIdText := "Invalid inbound ID"
  const DeleteByEmailFailedText := "Failed to delete client by email"
  const ClientDeletedText := "Client deleted successfully"

  /** delInboundClientByEmail (inbound.go:591-609): the same rule as
      delInboundClient, keyed by e-mail, with fixed texts in place of
      message keys. */
  method DelInboundClientByEmail(idParam: string, atoi: string -> Option<int>, email: string,
                                 delSvc: (int, string) -> ClientOutcome)
    returns (resp: Response, events: seq<Event>)
    ensures atoi(idParam).None? ==>
      resp == Msg(InvalidInboundIdText, Some(AtoiFailed(idParam))) && events == []
    ensures atoi(idParam).Some? ==>
      var id := atoi(idParam).value;
      var out := delSvc(id, email);
      && |events| >= 1 && events[0] == DelInboundClientByEmailCalled(id, email)
      && events[1..] == (if out.err.None? && out.needRestart then [SetToNeedRestart] else [])
      && (out.err.Some? ==> resp == Msg(DeleteByEmailFailedText, ServiceError(out.err)))
      && (out.err.None? ==> resp == Msg(ClientDeletedText, None))
    ensures SetToNeedRestart in events <==>
      atoi(idParam).Some? && delSvc(atoi(idParam).value, email).err.None?
      && delSvc(atoi(idParam).value, email).needRestart
  {
    var parsed := atoi(idParam);
    if parsed.None? {
      return Msg(InvalidInboundIdText, Some(AtoiFailed(idParam))), [];
    }
    var id := parsed.value;
    events := [DelInboundClientByEmailCalled(id, email)];
    var out := delSvc(id, email);
    if out.err.Some? {
      return Msg(DeleteByEmailFailedText, Some(ServiceFailed(out.err.value))), events;
    }
    resp := Msg(ClientDeletedText, None);
    if out.needRestart {
      events := events + [SetToNeedRestart];
    }
  }

  // ---------------------------------------------------------------------
  // importInbound

  /** Each client stat of `stats` is that of `original` with id 0 and
      enabled, everything else kept. */
  predicate StatsReset(stats: seq<ClientTraffic>, original: seq<ClientTraffic>) {
    |stats| == |original|
    && forall i :: 0 <= i < |original| ==> stats[i] == original[i].(id := 0, enable := true)
  }

  /** The record added for an imported one (inbound.go:517-528): no id, the
      session user as owner, the tag rule's tag, every client stat with id 0
      and enabled, and every other field as imported. */
  predicate ImportedFrom(r: Inbound, parsed: Inbound, userId: int) {
    r.id == 0 && r.userId == userId && r.tag == TagFor(parsed.listen, parsed.port)
    && StatsReset(r.clientStats, parsed.clientStats)
    && r.(id := parsed.id, userId := parsed.userId, tag := parsed.tag, clientStats := parsed.clientStats) == parsed
  }

  /** Importing an imported record again for the same user changes nothing. */
  lemma ImportIdempotent(r: Inbound, parsed: Inbound, again: Inbound, userId: int)
    requires ImportedFrom(r, parsed, userId) && ImportedFrom(again, r, userId)
    ensures again == r
  {
    assert again.clientStats == r.clientStats;
  }

  /** The record is fully determined by what was imported and the user. */
  lemma ImportedFromUnique(r: Inbound, s: Inbound, parsed: Inbound, userId: int)
    requires ImportedFrom(r, parsed, userId) && ImportedFrom(s, parsed, userId)
    ensures r == s
  {
    assert r.clientStats == s.clientStats;
  }

  /** Normalises an imported record in place of the parsed one. */
  method NormaliseImport(parsed: Inbound, userId: int) returns (inbound: Inbound)
    ensures ImportedFrom(inbound, parsed, userId)
  {
    inbound := parsed;
    inbound := inbound.(id := 0);
    inbound := inbound.(userId := userId);
    if inbound.listen == "" || inbound.listen == "0.0.0.0" || inbound.listen == "::" || inbound.listen == "::0" {
      inbound := inbound.(tag := TagPrefix + Text.FormatInt(inbound.port));
    } else {
      inbound := inbound.(tag := TagPrefix + inbound.listen + ":" + Text.FormatInt(inbound.port));
    }
    var stats := inbound.clientStats;
    var index := 0;
    while index < |stats|
      invariant 0 <= index <= |stats| == |parsed.clientStats|
      invariant forall k :: 0 <= k < index ==> stats[k] == parsed.clientStats[k].(id := 0, enable := true)
      invariant forall k :: index <= k < |stats| ==> stats[k] == parsed.clientStats[k]
    {
      stats := stats[index := stats[index].(id := 0)];
      stats := stats[index := stats[index].(enable := true)];
      index := index + 1;
    }
    inbound := inbound.(clientStats := stats);
  }

  /** importInbound (inbound.go:509-536). Data that does not unmarshal is
      reported and nothing is added. Otherwise the normalised record is
      added; the response carries whatever the service returned and its
      error, and a restart is requested exactly when the add succeeded and
      asked for one. */
  method ImportInbound(data: string, unmarshal: string -> Result<Inbound, string>, userId: int,
                       addSvc: Inbound -> InboundOutcome)
    returns (resp: Response, events: seq<Event>)
    ensures unmarshal(data).Failure? ==>
      resp == Msg(SomethingWentWrong, Some(UnmarshalFailed(unmarshal(data).error))) && events == []
    ensures unmarshal(data).Success? ==>
      && |events| >= 1 && events[0].AddInboundCalled?
      && ImportedFrom(events[0].inbound, unmarshal(data).value, userId)
      && var out := addSvc(events[0].inbound);
      && resp == MsgObj(InboundCreateSuccess, Record(out.inbound), ServiceError(out.err))
      && events[1..] == if out.err.None? && out.needRestart then [SetToNeedRestart] else []
  {
    var parsed := unmarshal(data);
    if parsed.Failure? {
      return Msg(SomethingWentWrong, Some(UnmarshalFailed(parsed.error))), [];
    }
    var inbound := NormaliseImport(parsed.value, userId);
    events := [AddInboundCalled(inbound)];
    var out := addSvc(inbound);
    resp := MsgObj(InboundCreateSuccess, Record(out.inbound), ServiceError(out.err));
    if out.err.None? && out.needRestart {
      events := events + [SetToNeedRestart];
    }
  }
}
