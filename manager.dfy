/**
 * `ActuatorManager`: the object whose fields the delivery callback and the
 * polling loop share.  Each method is proved against the Protocol
 * function that specifies it.
 */
module Manager {
  import opened Wrappers
  import opened Json
  import opened Messages
  import opened Requests
  import opened Protocol

  /** The schema template before `_create_req` fills it in. */
  const SCHEMA: Request := Request("", "", "", "", "", "")

  class ActuatorManager {
    var uuid: Option<string>
    var isRespReceived: bool
    var enclShutdownSuccessful: bool
    /** How many times the response channel was deregistered. */
    ghost var deregistrations: nat

    function State(): TrackerState
      reads this
    {
      TrackerState(uuid, isRespReceived, enclShutdownSuccessful)
    }

    /** `__init__`: no request outstanding, both flags clear. */
    constructor ()
      ensures State() == Idle && deregistrations == 0
    {
      uuid := None;
      isRespReceived := false;
      enclShutdownSuccessful := false;
      deregistrations := 0;
    }

    /** `_generate_uuid`: the id is the clock reading in whole seconds. */
    method GenerateUuid(seconds: nat)
      modifies this`uuid
      ensures uuid == Some(UuidFromClock(seconds))
    {
      uuid := Some(DecimalString(seconds));
    }

    /** `_create_req`: raises before touching the id when a lookup fails;
        otherwise stores a fresh id and puts it in the request. */
    method CreateReq(target: string, topology: Topology, uuidSeconds: nat, timeSeconds: nat)
      returns (r: Result<Request, RequestError>)
      modifies this`uuid
      ensures r == CreateRequest(target, topology, uuidSeconds, timeSeconds)
      ensures uuid == if r.Success? then Some(r.value.uuid) else old(uuid)
    {
      if topology.nodeId.None? {
        return Failure(NodeIdLookupRaised);
      }
      var nodeId := topology.nodeId.value;
      if topology.nodeMap.None? {
        return Failure(ClusterManagerError(NODE_MAP_ERROR));
      }
      var nodeMap := topology.nodeMap.value;
      GenerateUuid(uuidSeconds);
      var request := SCHEMA.(time := DecimalString(timeSeconds));
      request := request.(siteId := nodeMap.siteId);
      request := request.(rackId := nodeMap.rackId);
      request := request.(nodeId := nodeId);
      request := request.(targetNodeId := target);
      request := request.(uuid := uuid.value);
      return Success(request);
    }

    /** `process_resp`: the delivery callback. */
    method ProcessResp(resp: Delivery) returns (disposition: Disposition)
      modifies this`uuid, this`isRespReceived, this`enclShutdownSuccessful, this`deregistrations
      ensures Step(State(), disposition) == OnResponse(old(State()), resp)
      ensures deregistrations == old(deregistrations) + (if disposition == Matched then 1 else 0)
    {
      if resp.Garbled? {
        return Undecodable;
      }
      var doc := resp.doc;
      if doc == JNull {
        return NullPayload;
      }
      var accepted := FilterEvent(doc, uuid);
      if accepted.Raises? {
        return Raised;
      }
      if !accepted.value {
        return NotForUs;
      }
      var outcome := ParseResponse(doc);
      if outcome.Raises? {
        return Raised;
      }
      if outcome.value {
        enclShutdownSuccessful := true;
      }
      uuid := None;
      isRespReceived := true;
      deregistrations := deregistrations + 1;
      return Matched;
    }

    /** The callbacks the consumer thread runs during one sleep. */
    method DeliverBatch(batch: seq<Delivery>)
      modifies this`uuid, this`isRespReceived, this`enclShutdownSuccessful, this`deregistrations
      ensures State() == DeliverAll(old(State()), batch)
      ensures deregistrations == old(deregistrations) + MatchCount(old(State()), batch)
    {
      for k := 0 to |batch|
        invariant State() == DeliverAll(old(State()), batch[..k])
        invariant deregistrations == old(deregistrations) + MatchCount(old(State()), batch[..k])
      {
        var _ := ProcessResp(batch[k]);
        assert batch[..k + 1][..k] == batch[..k];
      }
      assert batch[..|batch|] == batch;
    }

    /** The polling loop of `enclosure_stop`: each iteration sleeps, during
        which the callbacks of that sleep run, then stops if a response has
        been received. */
    method PollForResponse(batches: seq<seq<Delivery>>)
      modifies this`uuid, this`isRespReceived, this`enclShutdownSuccessful, this`deregistrations
      ensures
        var polled := Delivered(batches, PollCount(old(State()), batches, ACTUATOR_RESP_RETRY_COUNT));
        && State() == DeliverAll(old(State()), polled)
        && deregistrations == old(deregistrations) + MatchCount(old(State()), polled)
    {
      ghost var armed := State();
      var i := 0;
      while i < ACTUATOR_RESP_RETRY_COUNT
        invariant i <= ACTUATOR_RESP_RETRY_COUNT
        invariant State() == StateAfter(armed, batches, i)
        invariant deregistrations == old(deregistrations) + MatchCount(armed, Delivered(batches, i))
        invariant i == 0 || !isRespReceived
        invariant PollCount(armed, batches, i) == i
      {
        // `time.sleep`: the callbacks of this sleep run meanwhile
        DeliverAllAppend(armed, Delivered(batches, i), BatchAt(batches, i));
        DeliverBatch(BatchAt(batches, i));
        assert State() == StateAfter(armed, batches, i + 1);
        i := i + 1;
        if isRespReceived {
          break;
        }
      }
      PollCountStops(armed, batches, i, ACTUATOR_RESP_RETRY_COUNT);
    }

    /** `enclosure_stop`: build the request, poll for the response at most
        ACTUATOR_RESP_RETRY_COUNT times, report, and clear both flags on
        either return path. */
    method EnclosureStop(
      target: string, topology: Topology, uuidSeconds: nat, timeSeconds: nat,
      batches: seq<seq<Delivery>>)
      returns (r: Result<bool, RequestError>)
      modifies this
      ensures
        var c := Cycle(old(State()), target, topology, uuidSeconds, timeSeconds,
                       batches, ACTUATOR_RESP_RETRY_COUNT);
        && r == c.result
        && State() == c.next
        && deregistrations == old(deregistrations) + c.deregistrations
    {
      var request := CreateReq(target, topology, uuidSeconds, timeSeconds);
      if request.Failure? {
        return Failure(request.error);
      }
      PollForResponse(batches);
      if isRespReceived && enclShutdownSuccessful {
        isRespReceived, enclShutdownSuccessful := false, false;
        return Success(true);
      }
      isRespReceived, enclShutdownSuccessful := false, false;
      return Success(false);
    }
  }
}
