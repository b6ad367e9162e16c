# Verified model of the market data ingestion layer and the fraud detector

The repository collects trades and order books from an exchange over a
WebSocket, publishes them to Kafka, and contains a Flink job that detects a
fraud pattern in card transactions. This project models the four parts that
carry the behaviour: the connection protocol, the fraud detector, the
subscription registry, and the path from received message to producer queue.

**Connection protocol.** `ConnectionStates` holds the transition matrix.
`ConcurrentConnect` lets any number of tasks call `connect` and `disconnect` at
once; tasks interleave only at awaits, and the scheduler is arbitrary.
`WebSocketConnector` is the connector as the ingestion service uses it: a class
driven by two scripts, the outcomes of its dials and of its receives. It is
proved to refine `Streaming`, which computes from the scripts alone what a
stream yields, how long it sleeps and how it ends. `Backoff` gives the delays.

**Fraud detector.** `FraudDetector` is the operator together with the timers
that the runtime keeps for its key. `FraudRuns` proves what holds for every
interleaving of transactions and watermarks, `FraudExactness` says when the
detector implements the documented rule, `FraudTimers` tells every alert of an
ordered run from the transactions and finds the ones that leftover timers cost.
`FraudKeyed` shows that accounts do not influence each other, and
`FraudWatermarks` carries these results over to all accounts under one watermark.
`FraudReports` assumes nothing at all: it tells the alerts of any interleaving,
ordered or not and with whatever watermarks, from the events alone.

**Subscriptions.** `UpbitConnector` is the ticket table with its reverse index,
filled and overwritten in place; `Subscriptions` is the same thing as a plain
list over a whole connector life. `UpbitFrames` decides which frames count.
`Resubscription` joins registry and stream: the announcement decides which dials
succeed, and a connected stream carries every subscription.

**Publishing.** `KafkaProducer` is the bounded retry in front of a bounded FIFO
queue, with the books of every call; `IngestionService` is the loop that filters,
converts, publishes, and stops after too many failures in a row, proved against
the fates that its messages have as a function of the stream and the producer's
books; `Pipeline` composes it with the connector's stream, from the frames of the
exchange to the queue; `ProtobufMapper` splits timestamps and order book rows.

## Where the code and its descriptions differ

The model follows the code. The members named here state what it does.

- Running out of reconnection attempts leaves the connector DISCONNECTED. The
  design checklist asks for FAILED, but the branch that would set it
  (base_websocket.py:341-346) is never reached
  (`WebSocketConnector.Connector.HandleConnectionClosed`).
- After exhaustion the attempt counter stays spent. A stream started again
  dials once, and if that dial fails it raises at once without sleeping
  (`Streaming.SpentBudgetAllowsOneDial`).
- The first delay of an outage is 2 seconds (or the cap), not 1: the counter is
  incremented before the delay is computed (`Backoff.OutageLength`).
- A caller that waited for a failed connect is meant to try anew
  (base_websocket.py:98-100). It does so only if a disconnect call has completed
  since the failure. Otherwise it finds FAILED, from which the matrix refuses
  CONNECTING, and raises without dialling
  (`ConcurrentConnect.RetryNeedsDisconnect`, `ConcurrentConnect.OvertakenRetry`).
- A caller that waited for a connect that succeeded returns
  (base_websocket.py:96-97) whatever has happened since. If a disconnect call has
  completed in between, it may return although the connector is DISCONNECTED
  (`ConcurrentConnect.WaitedReturnFindsConnected`,
  `ConcurrentConnect.OvertakenReturn`).
- A second small transaction within the minute arms a second timer and leaves
  the first one pending, which then puts the flag out early. The detector is sure
  to meet its rule, whatever comes next, exactly on runs without such a re-arming
  (`FraudExactness.ExactIffSpaced`), and the alerts it misses are exactly those
  that a leftover timer cuts short (`FraudTimers.MissesIffCutShort`).
- The Flink job assigns no watermarks, so before the end of its input no timer
  fires and the one-minute limit does not apply; the guide's account 2, with 70
  seconds between its transactions, is listed as normal but would be reported
  (`FraudRuns.WithoutWatermarksExactIff`, `FraudRuns.AccountTwoIsReported`).
- When the first subscription ever sent fails, only the trade subscription is
  registered, and reconnecting never adds the order book
  (`Subscriptions.SeedIsCompleteIff`).
- The service asks its connector for `config` (ingestion_service.py:221). Neither
  the connector port nor the WebSocket connector has that attribute, so with the
  repository's own connector the loop fails on its first message
  (`IngestionService.Service.ConsumeAndPublish`, with `configured == None`).
- `stop` flushes and disconnects only if the background task did not fail. It
  fails iff, before a stop is noticed, the publishes contain as many failures in a
  row as the limit says, or the connector has no `config` and sends a message, or
  the stream itself raises (`IngestionService.TaskFailsIff`). The connector's
  stream raises when one of its outages meets the maximum of failed dials in a row
  (`Pipeline.TaskFailsWithConnectorIff`). Since the service counts as stopped
  afterwards, a second `stop` does not disconnect either
  (`IngestionService.Service.Stop`).
- The failure counter outlives a stopped loop, so a restarted service can abort
  at its first failure (`IngestionService.AbortsAtTheLimit`).
- A message whose enqueueing worked but whose trailing poll raised is reported
  as a failed publish although it is queued (`KafkaProducer.Producer.Publish`).

## Model

| member | source | states |
|---|---|---|
| ConcurrentConnect.SafeOnEverySchedule | src/data_ingestion/infrastructure/connectors/base_websocket.py:87-183 | On every schedule of any number of connect and disconnect calls: all transitions are in the matrix, no InvalidTransitionError reaches a caller, every socket ever opened is closed except the one held, and whenever the lock is free the state is settled, no connecting task is recorded and a socket is held iff CONNECTED |
| ConcurrentConnect.ApplyKeepsInv | src/data_ingestion/infrastructure/connectors/base_websocket.py:87-183 | The inductive invariant behind it: each single step keeps it, including who may wait for whom and what the lock holder sees at its await |
| ConcurrentConnect.StepTells | src/data_ingestion/infrastructure/connectors/base_websocket.py:87-183 | The whole effect of a step on a reachable system, case by case: the await and the state it leads to (fast returns, waiting, dialling, refusing, closing), the lock, the dials and the sockets, and nothing of any other task |
| ConcurrentConnect.BlockedByHolder | src/data_ingestion/infrastructure/connectors/base_websocket.py:92-116 | A task that cannot go on has ended, or waits directly or through its target for a holder of the lock that can |
| ConcurrentConnect.CompletionTellsState | src/data_ingestion/infrastructure/connectors/base_websocket.py:84-97 | What a caller may conclude at the moment its call ends: a returned disconnect means DISCONNECTED without a socket, ConnectionFailedError means FAILED without a socket, and a returned connect means CONNECTED with one, except where the connect only waited and was overtaken: its target was unfinished at some earlier moment, and a disconnect has completed since every such moment |
| ConcurrentConnect.WaitingBeganUnfinished | src/data_ingestion/infrastructure/connectors/base_websocket.py:93-96 | A task that waits for another has an earlier moment at which it waited and that one was unfinished |
| ConcurrentConnect.SettledUntilDisconnect | src/data_ingestion/infrastructure/connectors/base_websocket.py:87-183 | On every schedule FAILED and CONNECTED are left only by a disconnect call that completes |
| ConcurrentConnect.WaitedReturnFindsConnected | src/data_ingestion/infrastructure/connectors/base_websocket.py:92-97 | A connect that waited for another task ends only by returning, and then finds CONNECTED with a socket unless a disconnect has completed since that task was unfinished |
| ConcurrentConnect.RetryNeedsDisconnect | src/data_ingestion/infrastructure/connectors/base_websocket.py:98-149 | A connect that takes the lock after a failure dials iff the state is DISCONNECTED by then, raises iff it is still FAILED and returns iff it is CONNECTED; unless a disconnect has completed since the failure it is still FAILED |
| ConcurrentConnect.OvertakenRetry | src/data_ingestion/infrastructure/connectors/base_websocket.py:92-124 | A schedule on which a waiter whose target failed dials again, because a disconnect came in between |
| ConcurrentConnect.OvertakenReturn | src/data_ingestion/infrastructure/connectors/base_websocket.py:92-97 | A schedule on which a waiter whose target connected returns into DISCONNECTED, for the same reason |
| ConcurrentConnect.ConnectedIffSubscribed | src/data_ingestion/infrastructure/connectors/base_websocket.py:122-141 | CONNECTED is entered exactly when a call's dial and subscription have both succeeded, on the socket of that dial |
| ConcurrentConnect.DialsAreBoundedByDisconnects | src/data_ingestion/infrastructure/connectors/base_websocket.py:87-153 | The number of dials equals the number of returns to DISCONNECTED, plus one while not disconnected, and exceeds the completed disconnect calls by at most one |
| ConcurrentConnect.SingleFlight | src/data_ingestion/infrastructure/connectors/base_websocket.py:87-153 | Without disconnects any number of concurrent connects dial at most once on every schedule, and all finished callers ended alike |
| ConcurrentConnect.SomebodyCanRun | src/data_ingestion/infrastructure/connectors/base_websocket.py:92-116 | As long as some call is unfinished some task can run: waits for the lock and for the connecting task never form a cycle |
| ConcurrentConnect.EveryCallCompletes | src/data_ingestion/infrastructure/connectors/base_websocket.py:87-183 | From any reachable state at most seven effective steps per call are possible, and when none is left every call has returned or raised ConnectionFailedError, the lock is free and all sockets are accounted for |
| ConnectionStates.AttemptsAlternateWithReturns | src/data_ingestion/domain/models/connection_state.py:69-75 | In every legal history attempts and returns to DISCONNECTED alternate strictly |
| ConnectionStates.SuccessesAreBackedByAttempts | src/data_ingestion/domain/models/connection_state.py:69-99 | CONNECTED is never entered more often than CONNECTING and RECONNECTING together |
| ConnectionStates.MatrixIs | src/data_ingestion/domain/models/connection_state.py:69-99 | The allowed transitions, entry by entry, and no others but staying |
| WebSocketConnector.Connector.TransitionState | src/data_ingestion/infrastructure/connectors/base_websocket.py:266-278 | A refused transition changes nothing; an allowed one is recorded and keeps the history legal |
| WebSocketConnector.Connector.Cleanup | src/data_ingestion/infrastructure/connectors/base_websocket.py:280-292 | Afterwards no socket is held and the one that was held is closed |
| WebSocketConnector.Connector.Connect | src/data_ingestion/infrastructure/connectors/base_websocket.py:69-153 | From DISCONNECTED one dial decides between CONNECTED on the new socket with a fresh counter and FAILED without a socket; CONNECTED returns without dialling and FAILED raises without dialling |
| WebSocketConnector.Connector.Disconnect | src/data_ingestion/infrastructure/connectors/base_websocket.py:155-183 | Always ends DISCONNECTED with every socket closed |
| WebSocketConnector.Connector.HandleConnectionClosed | src/data_ingestion/infrastructure/connectors/base_websocket.py:296-349 | An episode dials and sleeps exactly as the closed form says, ends CONNECTED with a fresh counter or, exhausted, DISCONNECTED without a socket; all its transitions are legal and it never enters FAILED at its end |
| WebSocketConnector.Connector.StreamMarketData | src/data_ingestion/infrastructure/connectors/base_websocket.py:194-253 | The stream refines a function of its two scripts: same yields, same end, same dials, same sleeps, from any state at rest |
| WebSocketConnector.StreamIsLawful | src/data_ingestion/infrastructure/connectors/base_websocket.py:207-253 | From any state at rest a stream stops only where it must (a cancellation it received, an outage it did not recover from, a script that ran out), yields exactly the deliveries of what it received, uses one successful dial for each outage it survives, and sleeps once before every dial but a first one from DISCONNECTED |
| Streaming.EpisodeIsExact | src/data_ingestion/infrastructure/connectors/base_websocket.py:316-362 | An episode gives up iff every dial of the remaining budget fails, recovers iff a success lies within the budget, and dials no further than the first success |
| Streaming.DiesOfLongRun | src/data_ingestion/infrastructure/connectors/base_websocket.py:204-253 | A stream raises ConnectionClosedError iff the maximum is positive and one of its outages meets at least that many failed dials in a row |
| Streaming.YieldsTheDeliveries | src/data_ingestion/infrastructure/connectors/base_websocket.py:217-228 | The yielded messages are the conversions of the accepted frames in order, across any number of reconnections |
| Streaming.DeliveryIs | src/data_ingestion/infrastructure/connectors/base_websocket.py:222-228 | A receive delivers exactly the messages of its frame, and nothing else delivers any |
| Streaming.QuietStreamYieldsAll | src/data_ingestion/infrastructure/connectors/base_websocket.py:207-228 | A stream that is handed frames only receives and yields all of them, in order |
| Streaming.StreamedStops | src/data_ingestion/infrastructure/connectors/base_websocket.py:207-253 | A connected stream reads on until a cancellation, an outage that ends it, or the end of its scripts |
| Streaming.FirstConnectingIsLawful | src/data_ingestion/infrastructure/connectors/base_websocket.py:208-253 | A stream that starts unconnected obeys the same laws, its start counting as an outage whose first dial is not slept for |
| Streaming.ContentsDoNotSteer | src/data_ingestion/infrastructure/connectors/base_websocket.py:217-248 | Two scripts with the same transport events lead to the same dials, sleeps and end, whatever the frames contain |
| Streaming.SpentBudgetAllowsOneDial | src/data_ingestion/infrastructure/connectors/base_websocket.py:250-253 | After exhaustion a restarted stream makes one dial and, if it fails, raises without sleeping |
| Backoff.DelaysGrowWithinCap | src/data_ingestion/infrastructure/connectors/base_websocket.py:364-383 | The delays of an outage never shrink and stay between 1 and the cap |
| Backoff.OutageLength | src/data_ingestion/infrastructure/connectors/base_websocket.py:316-383 | The total sleep of n attempts in closed form: doubling up to the largest power of two within the cap, then the cap for each further attempt |
| FraudDetector.Detector.ProcessElement | src/pyflink_examples/fraud_detection/fraud_detector.py:64-114 | The in-place operator takes state and alert exactly where the specification function takes them |
| FraudDetector.Detector.AdvanceWatermark | src/pyflink_examples/fraud_detection/fraud_detector.py:108-133 | Firing the due timers one by one equals one simultaneous step: the due timers go, and the flag goes iff there is one |
| FraudRuns.TimerLawHolds | src/pyflink_examples/fraud_detection/fraud_detector.py:103-149 | For every interleaving the flag is set iff a timer is stored, a stored timer is still pending, and every pending timer stems from a small transaction |
| FraudRuns.FlagIsArmed | src/pyflink_examples/fraud_detection/fraud_detector.py:103-110 | A set flag always has an earlier unexpired small transaction, with no large one since, whose timer is the stored one |
| FraudRuns.AlertsHaveACause | src/pyflink_examples/fraud_detection/fraud_detector.py:85-100 | Every alert belongs to a large transaction and has an unexpired earlier small one without a large one in between |
| FraudRuns.TightAlertsAreTimely | src/pyflink_examples/fraud_detection/fraud_detector.py:85-110 | With a tight watermark and no late small transactions that cause is at most a minute old |
| FraudRuns.TrailingAlertsAreTimely | src/pyflink_examples/fraud_detection/fraud_detector.py:85-110 | With a watermark that trails the alert by at most a given lag and no late small transactions that cause is at most a minute and the lag old |
| FraudRuns.AlertIffUnanswered | src/pyflink_examples/fraud_detection/fraud_detector.py:82-133 | For every interleaving an alert is raised iff the transaction is large and some small one has met neither a large one nor a firing timer since |
| FraudRuns.WithoutWatermarksNoTimeBound | src/pyflink_examples/fraud_detection/job.py:124-140 | As the job is wired, an alert is raised iff a small transaction precedes the large one without another large one in between, at any distance in time |
| FraudRuns.WithoutWatermarksExactIff | src/pyflink_examples/fraud_detection/job.py:124-140 | As the job is wired, a transaction is judged by the one-minute rule iff it is not large, or no small one precedes it, or one at most a minute back does |
| FraudRuns.AccountTwoIsReported | docs/fraud_detection_guide.md:111-112 | The account that the guide lists as normal raises an alert as the job is wired, against the one-minute rule |
| FraudRuns.AlertsAreSeparated | src/pyflink_examples/fraud_detection/fraud_detector.py:85-100 | Between two alerts of an account lies a small transaction |
| FraudRuns.AlertsUseUpSmalls | src/pyflink_examples/fraud_detection/fraud_detector.py:85-110 | Alerts, plus one while the flag is set, never outnumber the small transactions |
| FraudRuns.IrrelevantCanBeDeleted | src/pyflink_examples/fraud_detection/fraud_detector.py:86-114 | Deleting all transactions between the thresholds and all large ones that meet no flag leaves alerts and final state unchanged |
| FraudExactness.ExactIffSpaced | src/pyflink_examples/fraud_detection/fraud_detector.py:82-149 | On an ordered run with tight watermarks the detector agrees with the documented rule on every possible next transaction after every prefix iff no small transaction re-arms a flag whose timer still runs |
| FraudExactness.SpacedAlerts | src/pyflink_examples/fraud_detection/fraud_detector.py:82-149 | On a spaced run the alerts are exactly the large transactions within a minute after a small one with no large one between |
| FraudExactness.SpacedTells | src/pyflink_examples/fraud_detection/fraud_detector.py:103-149 | Under spacing the key's whole state is told by the transactions: flag set iff one is live, and then exactly its timer is pending |
| FraudExactness.RearmingHidesAlert | src/pyflink_examples/fraud_detection/fraud_detector.py:103-110 | After any first re-arming, a large transaction exactly a minute after the second small one raises no alert although the rule demands one |
| FraudTimers.BeforeShows | src/pyflink_examples/fraud_detection/fraud_detector.py:103-149 | On every ordered run with tight watermarks, whatever its spacing, flag, stored timer and all pending timers are told from the transactions: which timers earlier alerts have deleted, which have fired, and which are left over |
| FraudTimers.DetectsIffCaught | src/pyflink_examples/fraud_detection/fraud_detector.py:82-149 | The alerts of every such run, exactly, as a predicate of the transactions |
| FraudTimers.MissesIffCutShort | src/pyflink_examples/fraud_detection/fraud_detector.py:82-149 | On every such run each alert obeys the documented rule, and one is missed iff, since the last small transaction within the minute, the never deleted timer of an earlier one has fired |
| FraudKeyed.AccountsAreIndependent | src/pyflink_examples/fraud_detection/job.py:136-140 | A keyed run over interleaved accounts, seen from one account, has the state and alerts of the detector run on that account's transactions alone with the same watermarks |
| FraudKeyed.OtherAccountsAreUntouched | src/pyflink_examples/fraud_detection/job.py:136-140 | A transaction changes the state of its own account only, as it would for that account alone |
| FraudKeyed.TwoTransactions | src/pyflink_examples/fraud_detection/fraud_detector.py:35-37 | In numbers: of two transactions in order, each under its own watermark, the second is reported, with its account and amount, iff both are of one account, the first is of at most $1.00, the second of at least $500.00, and at most 60000 ms lie between them |
| FraudWatermarks.WatchedIsLikeTight | src/pyflink_examples/fraud_detection/fraud_detector.py:108-133 | If the watermark stands just below each transaction when it comes, any further watermarks in between leave the key exactly as the transactions alone would |
| FraudWatermarks.DetectsUnlessMissed | src/pyflink_examples/fraud_detection/fraud_detector.py:82-149 | A transaction after an ordered run is detected iff the rule demands it and no leftover timer cuts it short; after a spaced run iff the rule demands it |
| FraudWatermarks.KeyedAlertsByTheRule | src/pyflink_examples/fraud_detection/job.py:136-140 | With all accounts interleaved under one watermark that stands just below each transaction, every alert is the one that rule and leftover timers of its own account determine, and on spaced accounts the rule alone |
| FraudReports.PendingTold | src/pyflink_examples/fraud_detection/fraud_detector.py:103-149 | On every interleaving, without any assumption on order, spacing or watermarks, the pending timers are those told from the events: set by small transactions, not yet surpassed by a watermark, and not deleted by an alert |
| FraudReports.ReportedIffAlert | src/pyflink_examples/fraud_detection/fraud_detector.py:82-149 | On every interleaving an alert is raised exactly where a predicate of the events alone says so, which replays leftover timers and late transactions but no detector state |
| FraudReports.KeyedReportedIffAlert | src/pyflink_examples/fraud_detection/job.py:136-140 | The same for every transaction of the keyed job, told from the events of its own account |
| Subscriptions.LifeIsSound | src/data_ingestion/infrastructure/connectors/upbit_connector.py:78-93 | Over any life of connects, drops, subscribes and frames: tickets are unique, codes upper case, and the current socket carries every registered subscription in order except those whose own send failed on it |
| Subscriptions.RegistryOnlyGrows | src/data_ingestion/infrastructure/connectors/upbit_connector.py:287-310 | No later operation loses, reorders or alters a registered subscription, a status only moves to ACTIVE, and reconnecting with a non-empty registry changes nothing |
| Subscriptions.ConnectReplaysRegistry | src/data_ingestion/infrastructure/connectors/upbit_connector.py:81-89 | A dial leads to a connection iff none of the sends fails (two for an empty registry, else one for each entry), and the new socket then carries exactly the registry in insertion order |
| Subscriptions.SeedIsCompleteIff | src/data_ingestion/infrastructure/connectors/upbit_connector.py:264-275 | However many reconnects follow, both initial subscriptions are registered iff the very first send worked; otherwise only the trade subscription is |
| Subscriptions.SubscribeTells | src/data_ingestion/infrastructure/connectors/upbit_connector.py:245-298 | A subscribe on an open socket registers one requested entry of its type with its codes in upper case and sends just that; any other type, or no socket, changes nothing |
| Subscriptions.MarkTells | src/data_ingestion/infrastructure/connectors/upbit_connector.py:306-310 | A frame makes exactly the entries of its own type that list its code ACTIVE and stamps those only |
| Subscriptions.ActiveIffHit | src/data_ingestion/infrastructure/connectors/upbit_connector.py:158-159 | Over a whole life an entry is ACTIVE iff a frame of its type with one of its codes was accepted since it was registered, and its time is that of the last such frame |
| Subscriptions.IdleConnects | src/data_ingestion/infrastructure/connectors/base_websocket.py:88-90 | Connecting on an open socket, or after a failed dial, touches no subscription |
| Subscriptions.UpperAt | src/data_ingestion/infrastructure/connectors/upbit_connector.py:250 | Upper-casing moves the letters a to z up and changes nothing else |
| Subscriptions.UpperAllTwice | src/data_ingestion/infrastructure/connectors/upbit_connector.py:250-291 | Upper-casing codes in `subscribe` and again in the table is the same as doing it once, so the sent and the stored codes agree |
| UpbitConnector.Connector.StoreSubscription | src/data_ingestion/infrastructure/connectors/upbit_connector.py:287-298 | Adds one row and keeps the index exact: a ticket stands under a code iff its entry lists the code |
| UpbitConnector.Connector.MarkActiveFor | src/data_ingestion/infrastructure/connectors/upbit_connector.py:300-310 | Marking through the index equals a full scan by type and code; all other entries stay |
| UpbitConnector.Connector.CreateAndSendSubscription | src/data_ingestion/infrastructure/connectors/upbit_connector.py:271-285 | The entry is registered whether or not its send succeeds |
| UpbitConnector.Connector.SendSubscriptionMessage | src/data_ingestion/infrastructure/connectors/upbit_connector.py:78-93 | Seeds an empty registry or replays it in order up to the first failing send |
| UpbitConnector.Connector.Subscribe | src/data_ingestion/infrastructure/connectors/upbit_connector.py:245-252 | Unknown types and missing sockets are refused without effect; otherwise the registry grows by one even if the send fails |
| UpbitConnector.Connector.ParseMessage | src/data_ingestion/infrastructure/connectors/upbit_connector.py:124-167 | A frame is accepted iff its type is known and its upper-cased code configured; only an accepted frame touches the registry |
| UpbitFrames.StreamYieldsMessages | src/data_ingestion/infrastructure/connectors/upbit_connector.py:124-230 | Whatever dials and drops occur, the stream yields exactly the messages of the accepted convertible frames it received, in order |
| UpbitFrames.FramesDoNotReconnect | src/data_ingestion/infrastructure/connectors/upbit_connector.py:164-230 | No frame content causes a reconnection: exchanging frames changes no dial, no sleep and not the end |
| UpbitFrames.FrameTells | src/data_ingestion/infrastructure/connectors/upbit_connector.py:137-162 | Every frame, case by case: trades and order books of a configured code, in whatever case, are delivered with the code in upper case or are malformed, and all others are ignored |
| UpbitFrames.OutagesAreFailures | src/data_ingestion/infrastructure/connectors/base_websocket.py:235-243 | The outages of a stream are exactly the failures of its transport |
| UpbitFrames.OwnFramesActivate | src/data_ingestion/infrastructure/connectors/upbit_connector.py:300-310 | Every subscription that was ever registered is activated by a frame of its own type with one of its configured codes, and not by one of the other type |
| Resubscription.SuccessCarriesRegistry | src/data_ingestion/infrastructure/connectors/upbit_connector.py:78-93 | Over a whole stream with any frames and subscribes in between, a dial succeeds iff the socket it leaves is open and carries every subscription in order; otherwise it leaves none |
| Resubscription.ReconnectedCarriesRegistry | src/data_ingestion/infrastructure/connectors/base_websocket.py:296-349 | An episode leaves a socket that carries the whole registry iff it reconnects, and otherwise leaves none, also when it ends without a dial |
| Resubscription.CarriesWhileConnected | src/data_ingestion/infrastructure/connectors/upbit_connector.py:158-159 | No frame and no successful subscribe changes that while the stream stays connected |
| KafkaProducer.Producer.EnqueueWithRetry | src/data_ingestion/infrastructure/kafka/kafka_producer.py:156-176 | The record enters at the back once or not at all; the queue has the length that the polls of the retries leave; full-buffer and retry counters rise together, once for each full queue met |
| KafkaProducer.Producer.Publish | src/data_ingestion/infrastructure/kafka/kafka_producer.py:144-207 | Succeeds iff the record entered and the last poll worked; the queue stays a bounded FIFO of the newest records, and its length, the number of served records and every counter are those of the books after this call |
| KafkaProducer.Producer.Flush | src/data_ingestion/infrastructure/kafka/kafka_producer.py:247-280 | Serves records from the front only and reports how many are left, whether or not it fails |
| KafkaProducer.BooksBalance | src/data_ingestion/infrastructure/kafka/kafka_producer.py:153-184 | After any sequence of publishes and flushes: attempts = enqueued + exhausted + rejected + failed polls, retries = full buffers, enqueued = served + queued, the queue is within capacity, and full buffers lie between limit × exhausted and limit × attempts |
| KafkaProducer.QuietBooks | src/data_ingestion/infrastructure/kafka/kafka_producer.py:153-184 | When nothing but full queues goes wrong, attempts = enqueued + exhausted |
| KafkaProducer.EntersIff | src/data_ingestion/infrastructure/kafka/kafka_producer.py:156-181 | A message enters iff some attempt within the limit finds a free place unrejected after plain retries only |
| KafkaProducer.VerdictIff | src/data_ingestion/infrastructure/kafka/kafka_producer.py:156-181 | The verdict is passed by the first attempt that is rejected, finds a place or meets a raising poll, and is exhaustion if there is none within the limit |
| KafkaProducer.LengthIsRest | src/data_ingestion/infrastructure/kafka/kafka_producer.py:174 | The polls take as many records as they serve, until none is left |
| KafkaProducer.FullQueuesAreCounted | src/data_ingestion/infrastructure/kafka/kafka_producer.py:153-175 | An unserializable message leaves no trace; any other counts one attempt and exactly as many full queues and retries as it met |
| KafkaProducer.VerdictsAreCounted | src/data_ingestion/infrastructure/kafka/kafka_producer.py:164-207 | Each attempt is counted under its own verdict and no other |
| KafkaProducer.ExhaustedIff | src/data_ingestion/infrastructure/kafka/kafka_producer.py:168-181 | The attempts are exhausted iff each of them meets a full queue and is polled without an error |
| KafkaProducer.QuietEnvironmentEnters | src/data_ingestion/infrastructure/kafka/kafka_producer.py:156-181 | Without errors a message enters iff the polls leave a free place at the last attempt |
| IngestionService.Service.Handle | src/data_ingestion/application/services/ingestion_service.py:165-203 | One message: its fate is the one that filter, converter and producer books determine, queue and counters follow it, and the loop aborts iff it is a failure that reaches the maximum |
| IngestionService.Service.ConsumeAndPublish | src/data_ingestion/application/services/ingestion_service.py:159-207 | How the loop ends (by the breaker, a stop, a missing `config`, or the stream that ends, raises or sends nothing more), how many messages it handles, the queue, the producer books, the processed count and the failure counter are a function of the stream, the stop, the configuration and the books it started with |
| IngestionService.FateTells | src/data_ingestion/application/services/ingestion_service.py:165-194 | The fate of each message, case by case: filtered iff its market is not configured, dropped iff it then does not convert, and otherwise published or failed as the queue left by the messages before it and its own polls decide |
| IngestionService.EndingTells | src/data_ingestion/application/services/ingestion_service.py:160-203 | How the loop ends, case by case, and how many messages it has handled by then |
| IngestionService.AbortsIffFailsRepeatedly | src/data_ingestion/application/services/ingestion_service.py:191-203 | The loop aborts iff the publish attempts among the messages before a stop contain as many failures in a row as the limit says |
| IngestionService.AbortsAtTheLimit | src/data_ingestion/application/services/ingestion_service.py:191-203 | It aborts at the failure that reaches the limit, neither earlier nor later; a counter left at or above the limit by an earlier loop, and not reset by a success, trips on the next failure |
| IngestionService.TaskFailsIff | src/data_ingestion/application/services/ingestion_service.py:159-221 | The background task fails iff, before a stop is noticed, the publishes fail that often in a row, or the connector has no `config` and sends a message, or the stream itself raises |
| IngestionService.FailuresInARowIsLongestSuffix | src/data_ingestion/application/services/ingestion_service.py:184-192 | The failure counter is the length of the longest all-failed suffix of publish attempts; filtered and unconvertible messages neither extend nor break it |
| IngestionService.NothingIsLost | src/data_ingestion/application/services/ingestion_service.py:165-194 | Of the messages handled, those for other markets are filtered, those that do not convert are dropped, and all others are published or failed; the queue has taken the published ones and those whose trailing poll failed, and nothing else |
| IngestionService.RecordTells | src/data_ingestion/application/services/ingestion_service.py:177-183 | A published message becomes one record of the trades or the order books topic, with its code as key |
| IngestionService.KeysAreConfigured | src/data_ingestion/application/services/ingestion_service.py:211-222 | Nothing of a market that is not configured ever reaches the queue, and nothing under another topic |
| IngestionService.ProcessedAreEnqueued | src/data_ingestion/application/services/ingestion_service.py:181-185 | Where no trailing poll raises, the processed count equals the number of messages enqueued |
| IngestionService.QuietFailuresAreExhaustion | src/data_ingestion/application/services/ingestion_service.py:181-194 | When nothing but full queues goes wrong, the failed messages are exactly those that exhausted their retries, and every attempt is a published or a failed message |
| IngestionService.MarketOrderIsKept | src/data_ingestion/application/services/ingestion_service.py:177-183 | Per market the queue holds that market's successes in input order, each under its type's topic and its own code |
| IngestionService.Service.Stop | src/data_ingestion/application/services/ingestion_service.py:97-142 | Leaves the service stopped; a running one flushes its producer and disconnects iff its background task has not failed, and one that is not running does neither, so that a failed stop cannot be made up for |
| Pipeline.TaskFailsWithConnectorIff | src/data_ingestion/application/services/ingestion_service.py:159-221 | The same for the connector's own stream: it raises iff one of its outages meets its maximum of failed dials in a row, and that fails the task iff the stream has by then yielded no message that notices the stop |
| Pipeline.ConnectorSendsNothingForeign | src/data_ingestion/infrastructure/connectors/upbit_connector.py:153-156 | Every message of the connector has its code, in upper case, among the configured markets, so the service's own filter passes it |
| Pipeline.WantedTells | src/data_ingestion/application/services/ingestion_service.py:322-335 | What a frame is meant to become: a trade a record of the trades topic, an order book one of the order books topic, keyed by its code |
| Pipeline.QueueFollowsFrames | src/data_ingestion/application/services/ingestion_service.py:160-221 | From the frames to the queue: of one market the queue receives records of accepted, convertible frames only, in the order in which they came, across any number of reconnections, and all of them if nothing failed and every message was handled; without a `config` it receives none |
| ProtobufMapper.MillisAreTimestamps | src/data_ingestion/infrastructure/serialization/protobuf_mapper.py:67-73 | Splitting milliseconds is an order isomorphism onto the normalised whole-millisecond timestamps, negative times included, with an exact inverse |
| ProtobufMapper.CompleteRowsCanBeRebuilt | src/data_ingestion/infrastructure/serialization/protobuf_mapper.py:187-197 | Rows without missing fields can be rebuilt from the two level lists |
| ProtobufMapper.AsksJoin | src/data_ingestion/infrastructure/serialization/protobuf_mapper.py:194-195 | Ask levels keep the order of the rows |
| ProtobufMapper.BidsJoin | src/data_ingestion/infrastructure/serialization/protobuf_mapper.py:196-197 | Bid levels keep the order of the rows |
| ProtobufMapper.RowTells | src/data_ingestion/infrastructure/serialization/protobuf_mapper.py:188-197 | A row has an ask level iff both ask fields are there, whatever the bid fields are, and the other way round |
| ProtobufMapper.ExchangeIsRecognisedIff | src/data_ingestion/infrastructure/serialization/protobuf_mapper.py:76-87 | An exchange name is recognised iff it is the known one in any case between blanks |
| ProtobufMapper.JsonToOrderbook | src/data_ingestion/infrastructure/serialization/protobuf_mapper.py:170-211 | Fails iff the code is missing or empty or there is no timestamp; otherwise the event time is the preferred timestamp, the reception time the current one, missing totals are zero, and the levels are the complete sides of the rows |

## Left out

- Cancellation of tasks inside `connect` and `disconnect`: a cancelled dial leaves CONNECTING behind; the concurrent model assumes none. A cancelled receive of the stream is modelled.
- The stream beside concurrent `connect` calls: the reconnection loop takes no lock, so a foreign connect during its sleep can open a second socket. The two connector models are therefore separate, and a single task drives the sequential one.
- A `subscribe` between the dial and the end of the announcement on a new socket.
- A stream that is closed by its consumer in the middle of a frame's messages.
- Endless waiting: a script that ends while the connector still waits gives `Starved`, the point at which observation stops.
- WebSocketConnector.Connector.Connect: the subscription send is one outcome here; what is sent is the subject of `UpbitConnector`.
- UpbitConnector.Connector.StoreSubscription: tickets are a counter instead of random UUIDs, and `created_at` is not kept.
- Subscriptions.UpperAllTwice: upper-casing is ASCII only; Python's `str.upper` can change the length of a string outside ASCII.
- The JSON text of frames and the UTF-8 decoding of binary ones: a frame arrives already classified.
- KafkaProducer.Producer.Publish: delivery reports and the closing of the producer are not modelled; polls take any number of records off the queue.
- IngestionService.Service.ConsumeAndPublish: cancellation of the background task by anything but `stop`.
- IngestionService.Service.Stop: the five-second limit is not modelled; a task that has not ended by then is cancelled and counts as one that has not failed. Errors of flush and disconnect are only logged.
- The field mapping of the service's own converter, amounts as binary floating point, and `datetime` conversion: a message either converts or does not, prices are reals.
- ProtobufMapper.JsonToOrderbook: data that is no object, the failing conversion of non-numeric fields, blanks outside ASCII in exchange names, and the 64-bit range of seconds.
- FraudDetector.Detector.ProcessElement: the text of an alert is left out; an alert carries account and amount.
- Checkpoints, state backends and parallelism of Flink; keys are independent by `FraudKeyed`.
- Validation in `ExchangeConfig` and `MarketDataMessage`: the bounds it enforces (attempts not negative, cap at least 1, upper-case markets) are preconditions of the constructors.
- `StateTransitionTracker`, exception classes, metrics, logging, enum tables, the word count and source examples, and scripts: only easy members.
