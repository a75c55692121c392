# Actuator request manager: a verified Dafny model

This project models the enclosure-stop actuation protocol of the cortx-ha
cluster manager. The protocol lives in `ActuatorManager`
(`ha/core/controllers/pcs/actuator_req_manager.py`) and works like this:

- `_create_req` builds a request, stamped with a fresh correlation id (`_uuid`).
- The request is published.
- A background consumer thread calls `process_resp` for every message on the response channel.
- `process_resp` uses `_filter_event` to pick out the reply to the outstanding request and `_parse_response` to read its severity.
- It then sets the instance fields `_uuid`, `_is_resp_received` and `_encl_shutdown_successful`.
- Meanwhile `enclosure_stop` polls those fields a bounded number of times, reports the outcome as a boolean and clears the two flags.

Modules, one per component:

- `Json` (json.dfy): decoded JSON values and Python's `dict.get` on them. A missing key and `null` both read as `JNull`. `.get` on a value that is not a dictionary raises `AttributeError`, shown as `Raises`.
- `Messages` (messages.dfy): `_filter_event` and `_parse_response` as pure functions of the document and the stored id. It also has the reply the monitor sends (`Reply`) and the properties that link the two.
- `Requests` (requests.dfy): `_create_req` and the correlation id. The id is `str(int(time.time()))`, the decimal rendering of the clock in whole seconds. It comes with its inverse, `DecimalValue`.
- `Protocol` (protocol.dfy): the three fields as a value (`TrackerState`) and `process_resp` as a transition (`OnResponse`). It also has the callbacks run during each sleep of the polling loop (`DeliverAll`, `Delivered`), the loop's exit index (`PollCount`) and the whole `enclosure_stop` cycle (`Cycle`), with the lemmas about them.
- `Manager` (manager.dfy): the class `ActuatorManager`, with the three fields and a ghost count of deregistrations. Its methods update the fields in place, and each is proved against the `Protocol` function that specifies it.

The consumer thread is modelled as sequential interleaving. `batches[i]` is the sequence of `process_resp` calls that run during the i-th sleep, before that iteration looks at `_is_resp_received`. The clock readings and the configuration answers (`Topology`: the local node id and its node-map record) are parameters.

## Model

| member | source | states |
|---|---|---|
| `Messages.FilterEvent` | ha/core/controllers/pcs/actuator_req_manager.py:183-193 | Raises exactly when `message`, or for a message with a response type its header, is not a dictionary. Accepts exactly when the response type is present, the header is a dictionary and its uuid `==` the stored id. A message without a response type is rejected. |
| `Messages.ParseResponse` | ha/core/controllers/pcs/actuator_req_manager.py:195-215 | Raises exactly when the response type is not a dictionary. Returns success exactly when the severity is the string "informational". |
| `Messages.SeverityMapping` | ha/core/controllers/pcs/actuator_req_manager.py:207-215 | "informational" is success, "warning" is failure, and any other severity, missing included, is failure. |
| `Messages.ReplyRoundTrip` | ha/core/controllers/pcs/actuator_req_manager.py:183-215 | A reply built for id u passes the filter exactly when the stored id is u. It parses to success exactly when its severity is "informational". |
| `Messages.UuidlessReplyMatchesWhenIdle` | ha/core/controllers/pcs/actuator_req_manager.py:189-192 | While no id is stored, a reply whose header has no uuid passes the filter, because `None == None`. |
| `Requests.DecimalString` | ha/core/controllers/pcs/actuator_req_manager.py:57 | `str(n)`: a non-empty string of decimal digits with no leading zero. |
| `Requests.DecimalRoundTrip` | ha/core/controllers/pcs/actuator_req_manager.py:57 | Reading the rendered clock value back as a number gives the clock value. |
| `Requests.UuidFreshPerSecond` | ha/core/controllers/pcs/actuator_req_manager.py:51-57 | Two ids are equal exactly when they were generated in the same whole second. |
| `Requests.CreateRequest` | ha/core/controllers/pcs/actuator_req_manager.py:108-151 | Fails when the node-id lookup or the node-map record is missing, with `ClusterManagerError` for the node map. On success the request carries the target node, the local node id, site and rack, the time, and the id for the clock reading. |
| `Protocol.OnResponse` | ha/core/controllers/pcs/actuator_req_manager.py:218-246 | An undecodable, null, rejected or raising delivery leaves all three fields unchanged. A matched reply clears the id and sets "received". It sets "successful" when the severity is "informational" and otherwise leaves it unchanged. |
| `Protocol.DuplicateReplyIgnored` | ha/core/controllers/pcs/actuator_req_manager.py:232-243 | A second copy of a matched reply that carries a uuid is rejected and changes nothing. |
| `Protocol.DeliverAllMonotone` | ha/core/controllers/pcs/actuator_req_manager.py:236-242 | Callbacks never clear "received" or "successful". |
| `Protocol.ForeignTrafficIgnored` | ha/core/controllers/pcs/actuator_req_manager.py:218-246 | While id u is outstanding, callbacks none of which carries u change nothing and deregister nothing. |
| `Protocol.NoInformationalKeepsFailure` | ha/core/controllers/pcs/actuator_req_manager.py:236-237 | Without an "informational" reply, a clear success flag stays clear. |
| `Protocol.MatchesAtMostOnce` | ha/core/controllers/pcs/actuator_req_manager.py:240-243 | When every reply carries a uuid, at most one callback matches and deregisters, and none does if no id was outstanding. |
| `Protocol.PollCount` | ha/core/controllers/pcs/actuator_req_manager.py:79-82 | The loop runs at most the retry count of iterations, and at least one when there are retries. It stops early only at an iteration that sees a response, and no earlier iteration saw one. |
| `Protocol.PollCountStops` | ha/core/controllers/pcs/actuator_req_manager.py:79-82 | After the `break` at an iteration that sees a response, a larger retry budget does not change the exit iteration. |
| `Protocol.Cycle` | ha/core/controllers/pcs/actuator_req_manager.py:66-104 | Fails exactly when `_create_req` raises, and then the fields are unchanged. Otherwise it reports true exactly when the polled state has a response and a success. It clears both flags on either return path and leaves the id as the callbacks left it. On success the deregistrations are the matches among the callbacks of the polled sleeps. |
| `Protocol.ForeignTrafficTimesOut` | ha/core/controllers/pcs/actuator_req_manager.py:79-104 | Starting with the received flag clear, if no reply for this request arrives, the loop runs all its polls and the result is false. The flags are cleared, the id survives and nothing is deregistered. |
| `Protocol.PromptReplyDecides` | ha/core/controllers/pcs/actuator_req_manager.py:79-92 | Starting with the success flag clear, a reply during the first sleep, after any traffic that does not carry this id, ends the loop after one poll. The result is what its severity says, and the fields end cleared with one deregistration. |
| `Protocol.ReplyWithinBudgetDecides` | ha/core/controllers/pcs/actuator_req_manager.py:79-104 | Starting with both flags clear, a reply in any sleep k below the retry count, with no earlier callback and none before it in that sleep carrying this id, ends the loop after poll k + 1. The result is what its severity says, and the fields end cleared with one deregistration. |
| `Protocol.ReplyAfterQuiet` | ha/core/controllers/pcs/actuator_req_manager.py:79-82 | While the received flag is clear, if nothing before the reply in sleep k carries the outstanding id, poll k + 1 is the first to see a response. At that poll the id is cleared, "successful" is set when the reply is "informational", and exactly one callback has matched. |
| `Protocol.WarningThenUuidlessInformationalSucceeds` | ha/core/controllers/pcs/actuator_req_manager.py:189-192 | A "warning" reply followed in the same sleep by an "informational" message whose header has no uuid makes the call report true. Both match, so the channel is deregistered twice. |
| `Protocol.SuccessNeedsInformationalReply` | ha/core/controllers/pcs/actuator_req_manager.py:88-92 | Starting with the success flag clear, true is reported only if an "informational" reply was delivered while polling. |
| `Protocol.CycleDeregistersAtMostOnce` | ha/core/controllers/pcs/actuator_req_manager.py:240-243 | When every reply carries a uuid, one `enclosure_stop` deregisters the response channel at most once. |
| `Protocol.StaleReplyLeaksIntoNextCycle` | ha/core/controllers/pcs/actuator_req_manager.py:88-104 | As written: a timed-out request's late reply, matched between calls, makes the next `enclosure_stop` report true with no message delivered while it polls. |
| `Protocol.CycleFixed` | ha/core/controllers/pcs/actuator_req_manager.py:135 | Corrected cycle that clears both flags when the new id is stored. From a clear state it is `Cycle`, and on failure it leaves the fields unchanged. |
| `Protocol.CycleFixedSuccessNeedsInformationalReply` | ha/core/controllers/pcs/actuator_req_manager.py:88-92 | The corrected cycle reports true only if an "informational" reply was delivered while it polled, whatever state it starts in. |
| `Manager.ActuatorManager.constructor` | ha/core/controllers/pcs/actuator_req_manager.py:39-49 | No id stored, both flags clear, nothing deregistered. |
| `Manager.ActuatorManager.GenerateUuid` | ha/core/controllers/pcs/actuator_req_manager.py:51-57 | Stores the id for the clock reading. |
| `Manager.ActuatorManager.CreateReq` | ha/core/controllers/pcs/actuator_req_manager.py:108-151 | Returns `CreateRequest`. The stored id is the request's header uuid on success and is untouched when a lookup fails. |
| `Manager.ActuatorManager.ProcessResp` | ha/core/controllers/pcs/actuator_req_manager.py:218-246 | The new fields are `OnResponse` of the old ones. It deregisters exactly when the reply matched. |
| `Manager.ActuatorManager.DeliverBatch` | ha/core/controllers/pcs/actuator_req_manager.py:80 | The `process_resp` calls the consumer thread (started at lines 175-180) makes during one sleep. The new fields are `DeliverAll` of the old ones, and the deregistrations grow by `MatchCount`. |
| `Manager.ActuatorManager.PollForResponse` | ha/core/controllers/pcs/actuator_req_manager.py:78-82 | The fields after the loop are those after the callbacks of the first `PollCount` sleeps. |
| `Manager.ActuatorManager.EnclosureStop` | ha/core/controllers/pcs/actuator_req_manager.py:66-104 | Result, new fields and deregistrations are those of `Cycle` with `ACTUATOR_RESP_RETRY_COUNT` polls. |

Where the intended protocol and the code differ, the model follows the code:

- The result is a boolean, so a timeout and an explicit "warning" are not told apart.
- The response channel is deregistered only when a reply matches, never on timeout.
- `_uuid` survives a timeout.
- Ids are whole seconds, so two requests made in the same second share an id.
- A reply without a uuid matches whenever no id is stored, because `None == None`.
- So a "warning" reply followed in the same sleep by an "informational" message without a uuid makes the call report true, with two deregistrations (`Protocol.WarningThenUuidlessInformationalSucceeds`). Whether the bus still delivers after the first deregistration is outside the model.

## Left out

- `_get_machine_id` (lines 59-64) runs `cat /etc/machine-id`. That is a shell call, and the core never uses the machine id.
- `_send_req` and `_wait_for_resp` (lines 153-181) are message-bus transport: producer, consumer, publish and start. The model does not publish. The deliveries the consumer would make are the `batches` parameter, and `MessageBus.deregister` is only counted by the ghost field `deregistrations`.
- Loading the schema file (lines 113-114) is file I/O. The template is an empty `Request` record, `SCHEMA`.
- `Conf.get`, `ConfigManager`, `SystemHealth` and `SystemHealthManager` (lines 117-130) are foreign library calls. Their answers are the `Topology` parameter.
- A node-map record that `ast.literal_eval` cannot parse, or that lacks the site or rack key (lines 134, 140-141), is not modelled. `NodeMap` always has both fields.
- JSON encoding and decoding are out. `json.loads(json.dumps(doc))` is taken to give `doc` back (lines 186, 205, 232, 236). JSON numbers are integers.
- Printing and logging are left out. The "unexpected severity" warning is not modelled separately from the "warning" outcome.
- Clock and sleep are out. The two `time.time()` readings (lines 57, 139) are parameters, and each `time.sleep` (line 80) is one loop iteration. The sleep length `ACTUATOR_RESP_WAIT_TIME` is not modelled.
- ha/const.py is not part of this model. `ACTUATOR_RESP_RETRY_COUNT` is taken to be 3, and every `Protocol` lemma holds for any count. The `ACTUATOR_ATTRIBUTES` key strings are stand-ins that are only distinct.
- Real concurrency is left out. Callbacks run only during the sleeps, so no callback runs between the last poll (line 81) and the reading of the flags (line 88).
- `Manager.ActuatorManager.PollForResponse`: an `AttributeError` raised out of `process_resp` leaves the fields unchanged. The model keeps delivering later messages. What the consumer thread does after such an exception belongs to the message bus.
- ha/test/integration/test_iem_resource.py, test_event_action_handler.py and event_manager/test_event_manager.py drive other components against live services. They have no logic of the actuator manager to model.

## Findings

| source | as written | input that shows it | evidently intended | confidence | as-written member | corrected member |
|---|---|---|---|---|---|---|
| ha/core/controllers/pcs/actuator_req_manager.py:88-104 | On timeout `enclosure_stop` clears both flags, but `_uuid` stays set and the consumer is never stopped or deregistered. `_create_req` does not clear the flags when it stores a new id. | First call: no reply, so it returns False and `_uuid` stays "t1". Then its "informational" reply for "t1" arrives before the next call and is matched, which sets both flags. Second call: no message arrives at all, yet the first poll sees the flags and it returns True. | A stop reports success only when this request's reply was delivered while it waited. No outcome carries over between requests. | medium, not executed | `Protocol.StaleReplyLeaksIntoNextCycle` | `Protocol.CycleFixed` |

`Manager.ActuatorManager` keeps the behaviour as written. `Protocol.CycleFixed` is the corrected cycle: it clears both flags when the new id is stored.
