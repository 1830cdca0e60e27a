/**
 * web/controller/inbound_list.go: the list of the session user's inbounds,
 * as DTOs.
 */
module InboundList {
  import opened Wrappers
  import opened Model
  import opened InboundDto
  import opened Web

  /** The service's list has no nil entry: the handler dereferences each. */
  predicate NoNil(inbounds: seq<Option<Inbound>>) {
    forall i :: 0 <= i < |inbounds| ==> inbounds[i].Some?
  }

  /** getInbounds (inbound_list.go:10-25). A service error is reported with
      the obtain message and no list; otherwise the response holds one DTO
      per inbound, the i-th being the projection of the i-th inbound (an
      empty list for no inbounds). */
  method GetInbounds(userId: int, getInboundsSvc: int -> Result<seq<Option<Inbound>>, string>)
    returns (resp: Response)
    requires getInboundsSvc(userId).Success? ==> NoNil(getInboundsSvc(userId).value)
    ensures getInboundsSvc(userId).Failure? ==>
      resp == Msg(Obtain, Some(ServiceFailed(getInboundsSvc(userId).error)))
    ensures getInboundsSvc(userId).Success? ==>
      var inbounds := getInboundsSvc(userId).value;
      && resp.Obj? && resp.err.None? && resp.payload.DtoList?
      && |resp.payload.dtos| == |inbounds|
      && forall i :: 0 <= i < |inbounds| ==> resp.payload.dtos[i] == ToInboundDTO(inbounds[i].value)
  {
    var result := getInboundsSvc(userId);
    if result.Failure? {
      return Msg(Obtain, Some(ServiceFailed(result.error)));
    }
    var inbounds := result.value;
    var dtos: seq<InboundDTO> := [];
    var i := 0;
    while i < |inbounds|
      invariant 0 <= i <= |inbounds|
      invariant |dtos| == i
      invariant forall k :: 0 <= k < i ==> dtos[k] == ToInboundDTO(inbounds[k].value)
    {
      dtos := dtos + [ToInboundDTO(inbounds[i].value)];
      i := i + 1;
    }
    return Obj(DtoList(dtos), None);
  }

  /** The listed DTOs give back the listed inbounds, in order. */
  lemma ListedInboundsRecoverable(dtos: seq<InboundDTO>, inbounds: seq<Option<Inbound>>)
    requires NoNil(inbounds) && |dtos| == |inbounds|
    requires forall i :: 0 <= i < |inbounds| ==> dtos[i] == ToInboundDTO(inbounds[i].value)
    ensures forall i :: 0 <= i < |inbounds| ==> Some(FromDTO(dtos[i])) == inbounds[i]
  {
  }
}
