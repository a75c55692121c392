/**
 * `_create_req` and `_generate_uuid`: the enclosure-stop request and its
 * correlation id.
 *
 * The correlation id is `str(int(time.time()))`, the decimal rendering of
 * the clock in whole seconds; the clock readings are parameters here.  The
 * configuration lookups are parameters too: `Topology` is what the store
 * answers for the local node.
 */
module Requests {
  import opened Wrappers

  const NODE_MAP_ERROR: string := "Failed to fetch node_map value"

  /** The `site_id` and `rack_id` entries of the node-map record. */
  datatype NodeMap = NodeMap(siteId: string, rackId: string)

  /** The store's answers for the local node: its node id (`None` when the
      lookup yields no entry to pop) and its node-map record (`None` when
      the health store has none). */
  datatype Topology = Topology(nodeId: Option<string>, nodeMap: Option<NodeMap>)

  /** Why `_create_req` raised. */
  datatype RequestError =
    | NodeIdLookupRaised                  // `popitem` on a missing or empty lookup result
    | ClusterManagerError(message: string)

  /** The fields `_create_req` fills into the schema template. */
  datatype Request = Request(
    time: string,
    siteId: string,
    rackId: string,
    nodeId: string,
    targetNodeId: string,
    uuid: string)

  predicate IsDigit(c: char) { '0' <= c <= '9' }

  predicate IsDecimal(s: string) { forall i :: 0 <= i < |s| ==> IsDigit(s[i]) }

  function Digit(d: nat): (c: char)
    requires d < 10
    ensures IsDigit(c)
  {
    ('0' as int + d) as char
  }

  function DigitValue(c: char): (d: nat)
    requires IsDigit(c)
    ensures d < 10 && Digit(d) == c
  {
    c as int - '0' as int
  }

  /** `str(n)` for a natural number: its decimal digits, most significant
      first, without leading zeros. */
  function DecimalString(n: nat): (s: string)
    ensures |s| >= 1
    ensures IsDecimal(s)
    ensures s[0] == '0' ==> s == "0"
    decreases n
  {
    if n < 10 then [Digit(n)] else DecimalString(n / 10) + [Digit(n % 10)]
  }

  /** `int(s)` for a string of decimal digits. */
  function DecimalValue(s: string): nat
    requires IsDecimal(s)
  {
    if s == [] then 0 else DecimalValue(s[..|s| - 1]) * 10 + DigitValue(s[|s| - 1])
  }

  /** Reading a rendered number back gives the number. */
  lemma {:induction false} DecimalRoundTrip(n: nat)
    ensures DecimalValue(DecimalString(n)) == n
    decreases n
  {
    var s := DecimalString(n);
    if n >= 10 {
      DecimalRoundTrip(n / 10);
      assert s[..|s| - 1] == DecimalString(n / 10);
      assert DigitValue(s[|s| - 1]) == n % 10;
    } else {
      assert s[..|s| - 1] == [];
    }
  }

  /** `_generate_uuid`'s value for a clock reading of `seconds`. */
  function UuidFromClock(seconds: nat): string
  {
    DecimalString(seconds)
  }

  /** Two requests built in different seconds carry different correlation
      ids; two built in the same second carry the same one. */
  lemma UuidFreshPerSecond(a: nat, b: nat)
    ensures UuidFromClock(a) == UuidFromClock(b) <==> a == b
  {
    DecimalRoundTrip(a);
    DecimalRoundTrip(b);
  }

  /** `_create_req`: raise if the local node id or its node-map record
      cannot be fetched; otherwise address the request to `target` from the
      local node's site, rack and node, and stamp it with the time and the
      fresh correlation id. */
  function CreateRequest(target: string, topology: Topology, uuidSeconds: nat, timeSeconds: nat)
    : (r: Result<Request, RequestError>)
    ensures r.Failure? <==> topology.nodeId.None? || topology.nodeMap.None?
    ensures topology.nodeId.None? ==> r == Failure(NodeIdLookupRaised)
    ensures topology.nodeId.Some? && topology.nodeMap.None? ==>
      r == Failure(ClusterManagerError(NODE_MAP_ERROR))
    ensures r.Success? ==>
      && r.value.targetNodeId == target
      && r.value.nodeId == topology.nodeId.value
      && r.value.siteId == topology.nodeMap.value.siteId
      && r.value.rackId == topology.nodeMap.value.rackId
      && r.value.uuid == UuidFromClock(uuidSeconds)
      && IsDecimal(r.value.uuid) && DecimalValue(r.value.uuid) == uuidSeconds
      && IsDecimal(r.value.time) && DecimalValue(r.value.time) == timeSeconds
  {
    match topology.nodeId
    case None => Failure(NodeIdLookupRaised)
    case Some(nodeId) =>
      match topology.nodeMap
      case None => Failure(ClusterManagerError(NODE_MAP_ERROR))
      case Some(nodeMap) =>
        DecimalRoundTrip(uuidSeconds);
        DecimalRoundTrip(timeSeconds);
        Success(Request(
          time := DecimalString(timeSeconds),
          siteId := nodeMap.siteId,
          rackId := nodeMap.rackId,
          nodeId := nodeId,
          targetNodeId := target,
          uuid := UuidFromClock(uuidSeconds)))
  }
}
