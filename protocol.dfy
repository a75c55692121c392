/**
 * The correlated request/response state machine of the actuator manager,
 * as values: the three instance fields, what one `process_resp` callback
 * does to them, what the callbacks delivered while `enclosure_stop` polls
 * do to them, and the whole `enclosure_stop` cycle.
 *
 * The consumer thread that runs `process_resp` is modelled by sequential
 * interleaving: `batches[i]` are the callbacks that run during the i-th
 * sleep of the polling loop, before that iteration looks at the flags.
 */
module Protocol {
  import opened Wrappers
  import opened Json
  import opened Messages
  import opened Requests

  /** `ACTUATOR_RESP_RETRY_COUNT`: three polls of 20 seconds, the 60-second
      budget the polling loop is written for.  Every lemma below holds for
      any number of polls. */
  const ACTUATOR_RESP_RETRY_COUNT: nat := 3

  /** `_uuid`, `_is_resp_received` and `_encl_shutdown_successful`. */
  datatype TrackerState = TrackerState(uuid: Option<string>, received: bool, successful: bool)

  /** The state `__init__` leaves. */
  const Idle: TrackerState := TrackerState(None, false, false)

  /** One invocation of the delivery callback: a payload that does not
      decode as JSON, or the decoded document. */
  datatype Delivery = Garbled | Payload(doc: Json)

  /** What `process_resp` did with a delivery. */
  datatype Disposition =
    | Undecodable  // decoding raised; logged and dropped
    | NullPayload  // the payload decoded to `null`
    | NotForUs     // the filter said no
    | Raised       // `AttributeError` escaped the callback
    | Matched      // state updated and the response channel deregistered

  datatype Step = Step(next: TrackerState, disposition: Disposition)

  /** The reply reports a successful shutdown. */
  predicate Informational(d: Delivery)
  {
    d.Payload? && IsObject(ResponseTypeOf(d.doc)) && SeverityOf(d.doc) == JString(INFORMATIONAL)
  }

  /** The delivery is a reply stamped with correlation id `uuid`. */
  predicate Carries(d: Delivery, uuid: string)
  {
    d.Payload? && UuidOf(d.doc) == JString(uuid)
  }

  /** The delivery, if it is a document at all, has a uuid in its header. */
  predicate HasUuid(d: Delivery)
  {
    d.Payload? ==> UuidOf(d.doc) != JNull
  }

  /** `process_resp`.  Anything but a matched reply leaves the state as it
      was.  A matched reply clears the correlation id, records that a
      response arrived, and sets the success flag when the severity is
      "informational"; it never clears the success flag. */
  function OnResponse(s: TrackerState, d: Delivery): (r: Step)
    ensures r.disposition != Matched ==> r.next == s
    ensures r.disposition == Matched <==>
      d.Payload? && FilterEvent(d.doc, s.uuid) == Returns(true) && IsObject(ResponseTypeOf(d.doc))
    ensures r.disposition == Matched ==>
      && r.next.uuid == None
      && r.next.received
      && (r.next.successful <==> s.successful || Informational(d))
    ensures r.disposition == Raised <==>
      d.Payload? && d.doc != JNull && (FilterEvent(d.doc, s.uuid).Raises? ||
                     (FilterEvent(d.doc, s.uuid) == Returns(true) && !IsObject(ResponseTypeOf(d.doc))))
  {
    match d
    case Garbled => Step(s, Undecodable)
    case Payload(doc) =>
      if doc == JNull then Step(s, NullPayload)
      else
        match FilterEvent(doc, s.uuid)
        case Raises => Step(s, Raised)
        case Returns(accepted) =>
          if !accepted then Step(s, NotForUs)
          else
            match ParseResponse(doc)
            case Raises => Step(s, Raised)
            case Returns(ok) => Step(TrackerState(None, true, s.successful || ok), Matched)
  }

  /** The state after the callbacks `ds`, in order. */
  function DeliverAll(s: TrackerState, ds: seq<Delivery>): TrackerState
    decreases |ds|
  {
    if ds == [] then s else OnResponse(DeliverAll(s, ds[..|ds| - 1]), ds[|ds| - 1]).next
  }

  /** How many of the callbacks `ds` matched, i.e. deregistered. */
  function MatchCount(s: TrackerState, ds: seq<Delivery>): nat
    decreases |ds|
  {
    if ds == [] then 0
    else
      var before := ds[..|ds| - 1];
      MatchCount(s, before)
        + (if OnResponse(DeliverAll(s, before), ds[|ds| - 1]).disposition == Matched then 1 else 0)
  }

  /** The callbacks of the i-th sleep (none once the schedule runs out). */
  function BatchAt(batches: seq<seq<Delivery>>, i: nat): seq<Delivery>
  {
    if i < |batches| then batches[i] else []
  }

  /** Every callback run during the first `j` sleeps, in order. */
  function Delivered(batches: seq<seq<Delivery>>, j: nat): seq<Delivery>
    decreases j
  {
    if j == 0 then [] else Delivered(batches, j - 1) + BatchAt(batches, j - 1)
  }

  /** The state the polling loop sees in its `j`-th iteration. */
  function StateAfter(s: TrackerState, batches: seq<seq<Delivery>>, j: nat): TrackerState
  {
    DeliverAll(s, Delivered(batches, j))
  }

  /** The number of iterations the polling loop runs: the first iteration
      that sees a response, or all `retries` of them. */
  function PollCount(s: TrackerState, batches: seq<seq<Delivery>>, retries: nat): (n: nat)
    ensures n <= retries
    ensures retries > 0 ==> n >= 1
    ensures forall j :: 1 <= j < n ==> !StateAfter(s, batches, j).received
    ensures n < retries ==> StateAfter(s, batches, n).received
    decreases retries
  {
    if retries == 0 then 0
    else
      var p := PollCount(s, batches, retries - 1);
      if p >= 1 && StateAfter(s, batches, p).received then p else retries
  }

  /** The result of `enclosure_stop`, the fields afterwards, and how many
      times its callbacks deregistered the response channel. */
  datatype CycleOutcome = CycleOutcome(result: Result<bool, RequestError>, next: TrackerState, deregistrations: nat)

  /** `enclosure_stop`: build the request (raising as `_create_req` does),
      poll until a response is seen or the polls run out, report success
      exactly when a response was seen and it was successful, and clear
      both flags.  The correlation id is left as the callbacks left it. */
  function Cycle(
    s: TrackerState, target: string, topology: Topology, uuidSeconds: nat, timeSeconds: nat,
    batches: seq<seq<Delivery>>, retries: nat): (r: CycleOutcome)
    ensures r.result.Failure? <==> CreateRequest(target, topology, uuidSeconds, timeSeconds).Failure?
    ensures r.result.Failure? ==>
      r.result.error == CreateRequest(target, topology, uuidSeconds, timeSeconds).error
      && r.next == s && r.deregistrations == 0
    ensures r.result.Success? ==> !r.next.received && !r.next.successful
    ensures r.result.Success? ==>
      var armed := s.(uuid := Some(UuidFromClock(uuidSeconds)));
      var seen := StateAfter(armed, batches, PollCount(armed, batches, retries));
      r.result.value == (seen.received && seen.successful) && r.next.uuid == seen.uuid
    ensures r.result.Success? ==>
      var armed := s.(uuid := Some(UuidFromClock(uuidSeconds)));
      r.deregistrations == MatchCount(armed, Delivered(batches, PollCount(armed, batches, retries)))
  {
    match CreateRequest(target, topology, uuidSeconds, timeSeconds)
    case Failure(e) => CycleOutcome(Failure(e), s, 0)
    case Success(request) =>
      var armed := s.(uuid := Some(request.uuid));
      var polled := Delivered(batches, PollCount(armed, batches, retries));
      var seen := DeliverAll(armed, polled);
      CycleOutcome(
        Success(seen.received && seen.successful),
        seen.(received := false, successful := false),
        MatchCount(armed, polled))
  }

  // ---------------------------------------------------------------------
  // Properties of the callback

  /** A duplicate of a matched reply that carries a uuid finds the id
      cleared, so the filter drops it and nothing changes. */
  lemma DuplicateReplyIgnored(s: TrackerState, d: Delivery)
    requires OnResponse(s, d).disposition == Matched
    requires HasUuid(d)
    ensures
      var after := OnResponse(s, d).next;
      OnResponse(after, d) == Step(after, NotForUs)
  {
  }

  /** The flags only ever go from false to true while callbacks run. */
  lemma {:induction false} DeliverAllMonotone(s: TrackerState, ds: seq<Delivery>)
    ensures s.received ==> DeliverAll(s, ds).received
    ensures s.successful ==> DeliverAll(s, ds).successful
    decreases |ds|
  {
    if ds != [] {
      DeliverAllMonotone(s, ds[..|ds| - 1]);
    }
  }

  /** Running `a` then `b` is running `a + b`. */
  lemma {:induction false} DeliverAllAppend(s: TrackerState, a: seq<Delivery>, b: seq<Delivery>)
    ensures DeliverAll(s, a + b) == DeliverAll(DeliverAll(s, a), b)
    ensures MatchCount(s, a + b) == MatchCount(s, a) + MatchCount(DeliverAll(s, a), b)
    decreases |b|
  {
    if b == [] {
      assert a + b == a;
    } else {
      var b' := b[..|b| - 1];
      assert (a + b)[..|a + b| - 1] == a + b';
      assert (a + b)[|a + b| - 1] == b[|b| - 1];
      DeliverAllAppend(s, a, b');
    }
  }

  /** While the id `uuid` is outstanding, callbacks none of which carries
      `uuid` change nothing and deregister nothing. */
  lemma {:induction false} ForeignTrafficIgnored(s: TrackerState, ds: seq<Delivery>, uuid: string)
    requires s.uuid == Some(uuid)
    requires forall d :: d in ds ==> !Carries(d, uuid)
    ensures DeliverAll(s, ds) == s && MatchCount(s, ds) == 0
    decreases |ds|
  {
    if ds != [] {
      var before := ds[..|ds| - 1];
      assert forall d :: d in before ==> d in ds;
      ForeignTrafficIgnored(s, before, uuid);
      assert ds[|ds| - 1] in ds;
    }
  }

  /** Without an "informational" reply among the callbacks, a success flag
      that was clear stays clear. */
  lemma {:induction false} NoInformationalKeepsFailure(s: TrackerState, ds: seq<Delivery>)
    requires !s.successful
    requires forall d :: d in ds ==> !Informational(d)
    ensures !DeliverAll(s, ds).successful
    decreases |ds|
  {
    if ds != [] {
      var before := ds[..|ds| - 1];
      assert forall d :: d in before ==> d in ds;
      NoInformationalKeepsFailure(s, before);
      assert ds[|ds| - 1] in ds;
    }
  }

  /** When every reply carries a uuid, at most one callback matches (and
      none if no id was outstanding); after it the id stays cleared. */
  lemma {:induction false} MatchesAtMostOnce(s: TrackerState, ds: seq<Delivery>)
    requires forall d :: d in ds ==> HasUuid(d)
    ensures MatchCount(s, ds) <= (if s.uuid.Some? then 1 else 0)
    ensures MatchCount(s, ds) == 0 ==> DeliverAll(s, ds) == s
    ensures MatchCount(s, ds) == 1 ==> DeliverAll(s, ds).uuid == None
    decreases |ds|
  {
    if ds != [] {
      var before := ds[..|ds| - 1];
      assert forall d :: d in before ==> d in ds;
      MatchesAtMostOnce(s, before);
      assert ds[|ds| - 1] in ds;
    }
  }

  // ---------------------------------------------------------------------
  // Properties of the polling loop

  /** The callbacks of an earlier poll are a prefix of those of a later one. */
  lemma {:induction false} DeliveredPrefix(batches: seq<seq<Delivery>>, j: nat, n: nat)
    requires j <= n
    ensures Delivered(batches, j) <= Delivered(batches, n)
    ensures forall d :: d in Delivered(batches, j) ==> d in Delivered(batches, n)
    decreases n
  {
    if j < n {
      DeliveredPrefix(batches, j, n - 1);
    }
  }

  /** No callbacks, no change. */
  lemma {:induction false} NothingDelivered(s: TrackerState, j: nat)
    ensures Delivered([], j) == []
    ensures StateAfter(s, [], j) == s
    decreases j
  {
    if j > 0 {
      NothingDelivered(s, j - 1);
    }
  }

  /** Once the loop has stopped at an iteration that sees a response,
      allowing it more polls changes nothing. */
  lemma PollCountStops(s: TrackerState, batches: seq<seq<Delivery>>, k: nat, retries: nat)
    requires k <= retries
    requires PollCount(s, batches, k) == k
    requires k == retries || (k >= 1 && StateAfter(s, batches, k).received)
    ensures PollCount(s, batches, retries) == k
  {
  }

  // ---------------------------------------------------------------------
  // Properties of enclosure_stop

  /** No reply for this request: the loop runs all its polls and reports
      failure; the flags are cleared but the correlation id survives, and
      nothing is deregistered. */
  lemma ForeignTrafficTimesOut(
    s: TrackerState, target: string, topology: Topology, uuidSeconds: nat, timeSeconds: nat,
    batches: seq<seq<Delivery>>, retries: nat)
    requires CreateRequest(target, topology, uuidSeconds, timeSeconds).Success?
    requires !s.received
    requires forall d :: d in Delivered(batches, retries) ==> !Carries(d, UuidFromClock(uuidSeconds))
    ensures
      var armed := s.(uuid := Some(UuidFromClock(uuidSeconds)));
      PollCount(armed, batches, retries) == retries
    ensures Cycle(s, target, topology, uuidSeconds, timeSeconds, batches, retries)
      == CycleOutcome(Success(false), TrackerState(Some(UuidFromClock(uuidSeconds)), false, false), 0)
  {
    var u := UuidFromClock(uuidSeconds);
    var armed := s.(uuid := Some(u));
    forall j | 0 <= j <= retries
      ensures StateAfter(armed, batches, j) == armed
      ensures MatchCount(armed, Delivered(batches, j)) == 0
    {
      DeliveredPrefix(batches, j, retries);
      ForeignTrafficIgnored(armed, Delivered(batches, j), u);
    }
  }

  /** The reply arrives during the first sleep, after any amount of other
      traffic: the loop stops after one poll and reports what the severity
      says, with everything cleared and one deregistration. */
  lemma PromptReplyDecides(
    s: TrackerState, target: string, topology: Topology, uuidSeconds: nat, timeSeconds: nat,
    batches: seq<seq<Delivery>>, retries: nat, noise: seq<Delivery>, severity: string)
    requires CreateRequest(target, topology, uuidSeconds, timeSeconds).Success?
    requires !s.successful
    requires retries >= 1
    requires forall d :: d in noise ==> !Carries(d, UuidFromClock(uuidSeconds))
    requires BatchAt(batches, 0) == noise + [Payload(Reply(UuidFromClock(uuidSeconds), severity))]
    ensures Cycle(s, target, topology, uuidSeconds, timeSeconds, batches, retries)
      == CycleOutcome(Success(severity == INFORMATIONAL), Idle, 1)
  {
    var u := UuidFromClock(uuidSeconds);
    var armed := s.(uuid := Some(u));
    var reply := Payload(Reply(u, severity));
    ReplyRoundTrip(u, severity, Some(u));
    ForeignTrafficIgnored(armed, noise, u);
    DeliverAllAppend(armed, noise, [reply]);
    assert Delivered(batches, 1) == noise + [reply];
    assert [reply][..0] == [];
    assert OnResponse(armed, reply).disposition == Matched;
    assert StateAfter(armed, batches, 1) == TrackerState(None, true, severity == INFORMATIONAL);
    PollCountStops(armed, batches, 1, retries);
  }

  /** The reply arrives during sleep `k`, within the budget, after traffic
      none of which carries this request's id: the loop stops at that poll
      and reports what the severity says, with everything cleared and one
      deregistration. */
  lemma ReplyWithinBudgetDecides(
    s: TrackerState, target: string, topology: Topology, uuidSeconds: nat, timeSeconds: nat,
    batches: seq<seq<Delivery>>, retries: nat, k: nat, noise: seq<Delivery>, severity: string)
    requires CreateRequest(target, topology, uuidSeconds, timeSeconds).Success?
    requires !s.received && !s.successful
    requires k < retries
    requires forall d :: d in Delivered(batches, k) ==> !Carries(d, UuidFromClock(uuidSeconds))
    requires forall d :: d in noise ==> !Carries(d, UuidFromClock(uuidSeconds))
    requires BatchAt(batches, k) == noise + [Payload(Reply(UuidFromClock(uuidSeconds), severity))]
    ensures Cycle(s, target, topology, uuidSeconds, timeSeconds, batches, retries)
      == CycleOutcome(Success(severity == INFORMATIONAL), Idle, 1)
  {
    var armed := s.(uuid := Some(UuidFromClock(uuidSeconds)));
    ReplyAfterQuiet(armed, batches, k, noise, severity);
    PollCountStops(armed, batches, k + 1, retries);
  }

  /** The polls up to `k` see nothing for the outstanding id, and sleep `k`
      ends with its reply: poll `k + 1` is the first to see a response. */
  lemma ReplyAfterQuiet(
    armed: TrackerState, batches: seq<seq<Delivery>>, k: nat, noise: seq<Delivery>, severity: string)
    requires armed.uuid.Some? && !armed.received
    requires forall d :: d in Delivered(batches, k) ==> !Carries(d, armed.uuid.value)
    requires forall d :: d in noise ==> !Carries(d, armed.uuid.value)
    requires BatchAt(batches, k) == noise + [Payload(Reply(armed.uuid.value, severity))]
    ensures StateAfter(armed, batches, k + 1)
      == TrackerState(None, true, armed.successful || severity == INFORMATIONAL)
    ensures MatchCount(armed, Delivered(batches, k + 1)) == 1
    ensures PollCount(armed, batches, k + 1) == k + 1
  {
    var u := armed.uuid.value;
    var reply := Payload(Reply(u, severity));
    QuietUntil(armed, batches, k, u);
    var before := Delivered(batches, k);
    assert StateAfter(armed, batches, k) == DeliverAll(armed, before) == armed;
    ReplyRoundTrip(u, severity, Some(u));
    ForeignTrafficIgnored(armed, noise, u);
    DeliverAllAppend(armed, noise, [reply]);
    assert [reply][..0] == [];
    assert OnResponse(armed, reply).disposition == Matched;
    assert DeliverAll(armed, noise + [reply])
      == TrackerState(None, true, armed.successful || severity == INFORMATIONAL);
    assert MatchCount(armed, noise + [reply]) == 1;
    DeliverAllAppend(armed, before, noise + [reply]);
    assert Delivered(batches, k + 1) == before + (noise + [reply]);
  }

  /** Before any callback carries the outstanding id, every poll sees the
      state as it was armed. */
  lemma QuietUntil(armed: TrackerState, batches: seq<seq<Delivery>>, k: nat, uuid: string)
    requires armed.uuid == Some(uuid)
    requires forall d :: d in Delivered(batches, k) ==> !Carries(d, uuid)
    ensures forall j :: 0 <= j <= k ==> StateAfter(armed, batches, j) == armed
    ensures MatchCount(armed, Delivered(batches, k)) == 0
  {
    forall j | 0 <= j <= k
      ensures StateAfter(armed, batches, j) == armed
    {
      DeliveredPrefix(batches, j, k);
      ForeignTrafficIgnored(armed, Delivered(batches, j), uuid);
    }
    ForeignTrafficIgnored(armed, Delivered(batches, k), uuid);
  }

  /** Consequence of `None == None`: a "warning" reply to this request
      followed, in the same sleep, by an "informational" message without a
      uuid leaves both flags set, and `enclosure_stop` reports success. */
  lemma WarningThenUuidlessInformationalSucceeds(
    s: TrackerState, target: string, topology: Topology, uuidSeconds: nat, timeSeconds: nat,
    batches: seq<seq<Delivery>>, retries: nat)
    requires CreateRequest(target, topology, uuidSeconds, timeSeconds).Success?
    requires retries >= 1
    requires BatchAt(batches, 0) ==
      [Payload(Reply(UuidFromClock(uuidSeconds), WARNING)), Payload(UuidlessReply(INFORMATIONAL))]
    ensures Cycle(s, target, topology, uuidSeconds, timeSeconds, batches, retries)
      == CycleOutcome(Success(true), Idle, 2)
  {
    var u := UuidFromClock(uuidSeconds);
    var armed := s.(uuid := Some(u));
    var warning := Payload(Reply(u, WARNING));
    var stray := Payload(UuidlessReply(INFORMATIONAL));
    ReplyRoundTrip(u, WARNING, Some(u));
    assert [warning][..0] == [];
    assert DeliverAll(armed, [warning]) == TrackerState(None, true, s.successful);
    UuidlessReplyMatchesWhenIdle(UuidlessReply(INFORMATIONAL));
    assert [warning, stray][..1] == [warning];
    assert OnResponse(DeliverAll(armed, [warning]), stray).disposition == Matched;
    assert DeliverAll(armed, [warning, stray]) == TrackerState(None, true, true);
    assert MatchCount(armed, [warning]) == 1;
    assert MatchCount(armed, [warning, stray]) == 2;
    assert Delivered(batches, 1) == [warning, stray];
    assert StateAfter(armed, batches, 1) == TrackerState(None, true, true);
    PollCountStops(armed, batches, 1, retries);
  }

  /** Fail-safe: starting with the success flag clear, `enclosure_stop`
      reports success only if some reply delivered while it polled was
      "informational". */
  lemma SuccessNeedsInformationalReply(
    s: TrackerState, target: string, topology: Topology, uuidSeconds: nat, timeSeconds: nat,
    batches: seq<seq<Delivery>>, retries: nat)
    requires !s.successful
    requires forall d :: d in Delivered(batches, retries) ==> !Informational(d)
    ensures Cycle(s, target, topology, uuidSeconds, timeSeconds, batches, retries).result != Success(true)
  {
    if CreateRequest(target, topology, uuidSeconds, timeSeconds).Success? {
      var armed := s.(uuid := Some(UuidFromClock(uuidSeconds)));
      var n := PollCount(armed, batches, retries);
      DeliveredPrefix(batches, n, retries);
      NoInformationalKeepsFailure(armed, Delivered(batches, n));
    }
  }

  /** When every reply carries a uuid, one `enclosure_stop` deregisters the
      response channel at most once. */
  lemma CycleDeregistersAtMostOnce(
    s: TrackerState, target: string, topology: Topology, uuidSeconds: nat, timeSeconds: nat,
    batches: seq<seq<Delivery>>, retries: nat)
    requires forall d :: d in Delivered(batches, retries) ==> HasUuid(d)
    ensures Cycle(s, target, topology, uuidSeconds, timeSeconds, batches, retries).deregistrations <= 1
  {
    if CreateRequest(target, topology, uuidSeconds, timeSeconds).Success? {
      var armed := s.(uuid := Some(UuidFromClock(uuidSeconds)));
      var n := PollCount(armed, batches, retries);
      DeliveredPrefix(batches, n, retries);
      MatchesAtMostOnce(armed, Delivered(batches, n));
    }
  }

  // ---------------------------------------------------------------------
  // Finding: the flags are not cleared when a new request is built

  /** As written: the first `enclosure_stop` times out, leaving its id
      outstanding; its reply arrives late and is matched between calls; the
      next `enclosure_stop` then reports success although no message at all
      is delivered while it polls. */
  lemma StaleReplyLeaksIntoNextCycle(
    target: string, topology: Topology, firstSeconds: nat, secondSeconds: nat, timeSeconds: nat,
    retries: nat)
    requires topology.nodeId.Some? && topology.nodeMap.Some?
    requires retries >= 1
    ensures
      var first := Cycle(Idle, target, topology, firstSeconds, timeSeconds, [], retries);
      var late := OnResponse(first.next, Payload(Reply(UuidFromClock(firstSeconds), INFORMATIONAL)));
      var second := Cycle(late.next, target, topology, secondSeconds, timeSeconds, [], retries);
      && first.result == Success(false)
      && late.disposition == Matched
      && second.result == Success(true)
  {
    var u := UuidFromClock(firstSeconds);
    NothingDelivered(Idle.(uuid := Some(u)), retries);
    ForeignTrafficTimesOut(Idle, target, topology, firstSeconds, timeSeconds, [], retries);
    var first := Cycle(Idle, target, topology, firstSeconds, timeSeconds, [], retries);
    ReplyRoundTrip(u, INFORMATIONAL, Some(u));
    var late := OnResponse(first.next, Payload(Reply(u, INFORMATIONAL)));
    assert late.next == TrackerState(None, true, true);
    var armed := late.next.(uuid := Some(UuidFromClock(secondSeconds)));
    NothingDelivered(armed, 1);
    PollCountStops(armed, [], 1, retries);
  }

  /** Corrected: `enclosure_stop` with both flags cleared when the new
      request is built, so the outcome depends only on this request. */
  function CycleFixed(
    s: TrackerState, target: string, topology: Topology, uuidSeconds: nat, timeSeconds: nat,
    batches: seq<seq<Delivery>>, retries: nat): (r: CycleOutcome)
    ensures !s.received && !s.successful ==>
      r == Cycle(s, target, topology, uuidSeconds, timeSeconds, batches, retries)
    ensures r.result.Failure? ==> r.next == s
  {
    match CreateRequest(target, topology, uuidSeconds, timeSeconds)
    case Failure(_) => Cycle(s, target, topology, uuidSeconds, timeSeconds, batches, retries)
    case Success(_) =>
      Cycle(s.(received := false, successful := false), target, topology, uuidSeconds, timeSeconds, batches, retries)
  }

  /** The corrected cycle reports success only if some reply delivered
      while it polled was "informational", whatever state it starts in. */
  lemma CycleFixedSuccessNeedsInformationalReply(
    s: TrackerState, target: string, topology: Topology, uuidSeconds: nat, timeSeconds: nat,
    batches: seq<seq<Delivery>>, retries: nat)
    requires forall d :: d in Delivered(batches, retries) ==> !Informational(d)
    ensures CycleFixed(s, target, topology, uuidSeconds, timeSeconds, batches, retries).result != Success(true)
  {
    if CreateRequest(target, topology, uuidSeconds, timeSeconds).Success? {
      SuccessNeedsInformationalReply(
        s.(received := false, successful := false), target, topology, uuidSeconds, timeSeconds, batches, retries);
    }
  }
}
