# HiveMQ connection attributes, event-log lines and payload persistence in Dafny

This project models three small, deterministic pieces of the HiveMQ Community
Edition broker and proves what their code and tests promise.

- **Channel utilities** (`ChannelUtils`, `channel_utils.dfy`). These are the decisions the broker
  reads off a client channel:
  - the peer's IP address, present only for a resolved Internet socket address;
  - whether messages are still in flight;
  - the outgoing in-flight window, which is the client's receive maximum clamped to the
    broker maximum;
  - the `ClientToken` handed to security extensions: its client id, authenticated flag,
    address and optional disconnect timestamp.

  The Netty channel and its `ClientConnection` attribute become one immutable record with
  `Option` fields for everything the source allows to be null.
- **Event log lines** (`EventLog`, `event_log.dfy`; concrete test lines in
  `event_log_examples.dfy`). These are the texts written for dropped publishes, dropped MQTT
  packets, connects and disconnects, together with the log category each one goes to. An IP
  that the channel cannot provide is written as `UNKNOWN`. Numbers and booleans are rendered
  as Java renders them (`Decimal`, `decimal.dfy`). This rendering is proved canonical and
  readable back.
- **Payload persistence** (`PayloadStore`, `PayloadStoreProperties`, `PayloadLifecycle`). Message
  payload bytes are keyed by payload id and spread over a configured number of buckets. An id
  lives in bucket `id % bucketCount`. Every operation is stated against one flat map,
  `Contents`: `Put` is a map update, `Remove` is a key removal, `Get` is a lookup and
  `GetAllIds` returns the key set. On start, every bucket is scanned for its highest id, and
  the broker-wide publish counter is raised above the highest id found. After a restart, an
  issued id therefore never collides with a stored payload.

Java's fixed-width types are written out as subset types (`Primitives.Int32`, `Primitives.Int64`).
Bytes are `bv8`.

## Model

| member | source | states |
|---|---|---|
| `ChannelUtils.GetChannelAddress` | src/main/java/com/hivemq/util/ChannelUtils.java:59-70 | An address is present exactly when the remote address is present, is an Internet socket address, and resolved to an address. In that case it is that address. |
| `ChannelUtils.GetChannelIP` | src/main/java/com/hivemq/util/ChannelUtils.java:48-57 | The IP text is present exactly when `GetChannelAddress` is present. It is then that address's host form. |
| `ChannelUtils.MessagesInFlight` | src/main/java/com/hivemq/util/ChannelUtils.java:88-99 | It is true whenever the in-flight messages have not been sent, whatever the counter says. Once they were sent, it is false with no counter, and otherwise true iff the counter is positive. |
| `ChannelUtils.NoMessagesInFlightIff` | src/main/java/com/hivemq/util/ChannelUtils.java:88-99 | Nothing is in flight iff the messages were sent and the counter is absent or not positive. This is both directions of the decision. |
| `ChannelUtils.MaxInflightWindow` | src/main/java/com/hivemq/util/ChannelUtils.java:101-108 | The window never exceeds the configured maximum. It equals the maximum when the client sent no receive maximum. Otherwise it is at most the receive maximum and equal to one of the two. |
| `ChannelUtils.MaxInflightWindowIsMinimum` | src/main/java/com/hivemq/util/ChannelUtils.java:101-108 | With a receive maximum present, the window is the minimum of it and the configured maximum. |
| `ChannelUtils.GetClientToken` | src/main/java/com/hivemq/util/ChannelUtils.java:110-140 | The token carries the connection's client id, credentials, certificate and listener, and the channel address. It is never a bypass token. It is authenticated iff the state is AUTHENTICATED or RE_AUTHENTICATING. It carries exactly the given timestamp option. |
| `ChannelUtils.TokenFromChannelAt` | src/main/java/com/hivemq/util/ChannelUtils.java:79-82 | A null timestamp is rejected. Otherwise the token carries that timestamp as present. |
| `ChannelUtils.TokenFromChannel` | src/main/java/com/hivemq/util/ChannelUtils.java:84-86 | The token is exactly `GetClientToken` with no disconnect timestamp, so it carries the connection's client id, credentials, listener, channel address and authenticated flag. |
| `ChannelUtils.TokenAddressMatchesChannelIP` | src/main/java/com/hivemq/util/ChannelUtils.java:123-130 | The token has an address exactly when the channel reports an IP, and that IP is the address's host form. |
| `Decimal.NatToTextRoundTrip` | src/test/java/com/hivemq/logging/EventLogTest.java:131-134 | Rendered numbers are canonical decimal text (digits, no leading zero) and read back as the number rendered. |
| `Decimal.IntToTextRoundTrip` | src/test/java/com/hivemq/logging/EventLogTest.java:94-97 | A rendered integer is '-' followed by canonical digits when negative, and canonical digits otherwise. It reads back as the integer rendered, so distinct numbers render as distinct texts. |
| `EventLog.IpText` | src/test/java/com/hivemq/logging/EventLogTest.java:127-152 | The IP is written as `UNKNOWN` when the channel has no address, and as the host address otherwise. |
| `EventLog.MessageDropped` | src/test/java/com/hivemq/logging/EventLogTest.java:90-100 | The line goes to the message-dropped category. Its text is the publish-drop template with the receiving client, topic, qos and reason. |
| `EventLog.SharedSubscriptionMessageDropped` | src/test/java/com/hivemq/logging/EventLogTest.java:102-113 | The line goes to the message-dropped category. Its text is the same template, naming the receiving shared subscription group. |
| `EventLog.MqttMessageDropped` | src/test/java/com/hivemq/logging/EventLogTest.java:115-125 | The line goes to the message-dropped category. Its text is the MQTT-packet drop template with client, message type and reason. |
| `EventLog.ClientConnected` | src/test/java/com/hivemq/logging/EventLogTest.java:127-152 | The line goes to the client-connected category. Its text gives the client id, IP-or-UNKNOWN, clean start and session expiry, and ends " connected.". |
| `EventLog.ClientDisconnectedGracefully` | src/test/java/com/hivemq/logging/EventLogTest.java:154-163 | The line goes to the client-disconnected category. Its text is the client header followed by " disconnected gracefully.". |
| `EventLog.ClientDisconnectedUngracefully` | src/test/java/com/hivemq/logging/EventLogTest.java:165-174 | The line goes to the client-disconnected category. Its text is the client header followed by " disconnected ungracefully.". |
| `EventLog.ClientWasDisconnected` | src/test/java/com/hivemq/logging/EventLogTest.java:176-201 | The line goes to the client-disconnected category. Its text is the client header followed by " was disconnected. reason: <r>.". |
| `EventLog.DisconnectLinesDifferOnlyInSuffix` | src/test/java/com/hivemq/logging/EventLogTest.java:154-174 | Graceful and ungraceful lines go to the same category and share the client header. They differ only in the final words, and so are never equal. |
| `EventLog.PublishDropLinesDifferOnlyInReceiver` | src/test/java/com/hivemq/logging/EventLogTest.java:90-113 | Both publish-drop lines share category and tail. They differ only in the "Receiving client" versus "Receiving shared subscription group" label. |
| `EventLog.PublishDropLineNamesTheReceiver` | src/test/java/com/hivemq/logging/EventLogTest.java:90-100 | For every input, the receiving client can be read back from the publish-drop line, provided the client id holds no comma. |
| `EventLog.SharedDropLineNamesTheGroup` | src/test/java/com/hivemq/logging/EventLogTest.java:102-113 | For every input, the receiving group can be read back from the shared-subscription drop line, provided the group name holds no comma. |
| `EventLog.MqttDropLineNamesTheReceiver` | src/test/java/com/hivemq/logging/EventLogTest.java:115-125 | For every input, the receiving client can be read back from the MQTT-packet drop line, provided the client id holds no comma. |
| `EventLog.ConnectedLineNamesTheClient` | src/test/java/com/hivemq/logging/EventLogTest.java:127-152 | The client id can be read back from the connect line, provided the id holds no comma. |
| `EventLog.DisconnectLinesNameTheClient` | src/test/java/com/hivemq/logging/EventLogTest.java:154-201 | The client id can be read back from all three disconnect lines, provided the id holds no comma. |
| `EventLogExamples.MessageDroppedExample` | src/test/java/com/hivemq/logging/EventLogTest.java:90-100 | For the test's client, topic, qos 1 and reason, the line is exactly the test's expected text, in the message-dropped category. |
| `EventLogExamples.SharedSubscriptionMessageDroppedExample` | src/test/java/com/hivemq/logging/EventLogTest.java:102-113 | For group "hiveMQ", the line is exactly the test's expected text, in the message-dropped category. |
| `EventLogExamples.MqttMessageDroppedExample` | src/test/java/com/hivemq/logging/EventLogTest.java:115-125 | For message type "myType", the line is exactly the test's expected text, in the message-dropped category. |
| `EventLogExamples.ClientConnectedUnknownExample` | src/test/java/com/hivemq/logging/EventLogTest.java:127-137 | With no remote address, the connect line reads "IP: UNKNOWN, Clean Start: false, Session Expiry: 123". |
| `EventLogExamples.ClientConnectedWithIpExample` | src/test/java/com/hivemq/logging/EventLogTest.java:139-152 | With peer 127.0.0.1:1234, the connect line reads "IP: 127.0.0.1". |
| `EventLogExamples.ClientDisconnectedGracefullyExample` | src/test/java/com/hivemq/logging/EventLogTest.java:154-163 | It gives the test's exact graceful-disconnect line in the disconnected category. |
| `EventLogExamples.ClientDisconnectedUngracefullyExample` | src/test/java/com/hivemq/logging/EventLogTest.java:165-174 | It gives the test's exact ungraceful-disconnect line in the disconnected category. |
| `EventLogExamples.ClientWasDisconnectedExample` | src/test/java/com/hivemq/logging/EventLogTest.java:176-201 | It gives the test's exact was-disconnected lines, with IP UNKNOWN and with IP 127.0.0.1. |
| `PayloadStore.BucketIndex` | src/test/java/com/hivemq/persistence/payload/PublishPayloadXodusLocalPersistenceTest.java:56 | Every id routes to a bucket index below the configured bucket count. |
| `PayloadStore.Empty` | src/test/java/com/hivemq/persistence/payload/PublishPayloadXodusLocalPersistenceTest.java:51-66 | A fresh store has the configured number of buckets, satisfies the routing invariant and holds no payload. |
| `PayloadStore.Put` | src/test/java/com/hivemq/persistence/payload/PublishPayloadXodusLocalPersistenceTest.java:74-88 | It keeps the routing invariant and the bucket count. The stored contents become the old contents updated at `id` with the payload. |
| `PayloadStore.Get` | src/test/java/com/hivemq/persistence/payload/PublishPayloadXodusLocalPersistenceTest.java:74-88 | It returns a payload exactly when the id is stored, and then that id's payload. |
| `PayloadStore.Remove` | src/test/java/com/hivemq/persistence/payload/PublishPayloadXodusLocalPersistenceTest.java:90-106 | It keeps the routing invariant and the bucket count. The stored contents lose exactly `id`. |
| `PayloadStore.GetAllIds` | src/test/java/com/hivemq/persistence/payload/PublishPayloadXodusLocalPersistenceTest.java:142-156 | Scanning every bucket lists exactly the stored ids. |
| `PayloadStoreProperties.PutThenGet` | src/test/java/com/hivemq/persistence/payload/PublishPayloadXodusLocalPersistenceTest.java:74-88 | After `put(id, b)`, `get(id)` is exactly `b`, for a payload of any length. |
| `PayloadStoreProperties.PutRemoveThenGet` | src/test/java/com/hivemq/persistence/payload/PublishPayloadXodusLocalPersistenceTest.java:90-106 | After `put(id, b)` and `remove(id)`, `get(id)` is absent. |
| `PayloadStoreProperties.OtherIdsUnaffected` | src/test/java/com/hivemq/persistence/payload/PublishPayloadXodusLocalPersistenceTest.java:96-105 | Putting or removing one id leaves every other id's read unchanged, in the same bucket or another. |
| `PayloadStoreProperties.RemoveAbsentIsNoOp` | src/test/java/com/hivemq/persistence/payload/PublishPayloadXodusLocalPersistenceTest.java:90-106 | Removing an id that holds nothing leaves the store identical. |
| `PayloadStoreProperties.TwoPayloadsReadBack` | src/test/java/com/hivemq/persistence/payload/PublishPayloadXodusLocalPersistenceTest.java:108-122 | Payloads put under ids 0 and 1 both read back unchanged, whatever their sizes, including the test's payload of 10 MiB and 100 bytes. |
| `PayloadStoreProperties.RemoveSecondOfTwo` | src/test/java/com/hivemq/persistence/payload/PublishPayloadXodusLocalPersistenceTest.java:124-140 | After putting ids 0 and 1 and removing 1, id 0 reads back and id 1 is absent, whatever the payload sizes. |
| `PayloadStoreProperties.ListAfterRemoval` | src/test/java/com/hivemq/persistence/payload/PublishPayloadXodusLocalPersistenceTest.java:142-156 | With 8 buckets, putting ids 0, 1 and 2 and removing 1 lists exactly {0, 2}. That list has two ids and does not contain 1. |
| `PayloadLifecycle.BucketMaxId` | src/test/java/com/hivemq/persistence/payload/PublishPayloadXodusLocalPersistenceTest.java:158-170 | It returns absent iff the bucket is empty. Otherwise it returns a stored id that no other stored id exceeds. |
| `PayloadLifecycle.HighWaterMark` | src/test/java/com/hivemq/persistence/payload/PublishPayloadXodusLocalPersistenceTest.java:158-170 | It returns a stored id that no stored id exceeds, and is absent only when the whole store is empty. |
| `PayloadLifecycle.Reconcile` | src/test/java/com/hivemq/persistence/payload/PublishPayloadXodusLocalPersistenceTest.java:158-170 | The counter never decreases and ends above the high-water mark. It is raised no further than one past the mark. The non-decrease is an assumption of this model (see "## Left out"). |
| `PayloadLifecycle.Start` | src/test/java/com/hivemq/persistence/payload/PublishPayloadXodusLocalPersistenceTest.java:158-170 | Starting keeps the store and leaves the counter strictly above every stored id. The counter never decreases (an assumption of this model) and is raised only to one past a stored id. |
| `PayloadLifecycle.NextId` | src/test/java/com/hivemq/persistence/payload/PublishPayloadXodusLocalPersistenceTest.java:168 | The issued id is the current counter, and the counter goes up by exactly one, so successive ids are distinct and strictly increasing. When the counter was above every stored id, the issued id is not stored, and that invariant still holds. |
| `PayloadLifecycle.FirstIdAfterRestart` | src/test/java/com/hivemq/persistence/payload/PublishPayloadXodusLocalPersistenceTest.java:158-170 | The first id issued after a stop and a start is above every stored id, and it is no lower than the counter before the restart. |
| `PayloadLifecycle.PutIssuedIdKeepsCounterAbove` | src/test/java/com/hivemq/persistence/payload/PublishPayloadXodusLocalPersistenceTest.java:158-170 | Storing a payload under a freshly issued id keeps every stored id below the counter. |
| `PayloadLifecycle.Restart` | src/test/java/com/hivemq/persistence/payload/PublishPayloadXodusLocalPersistenceTest.java:158-170 | A stop followed by a start keeps the stored buckets. The counter ends strictly above every stored id, and never decreases (an assumption of this model). |
| `PayloadLifecycle.RestartAboveHighestId` | src/test/java/com/hivemq/persistence/payload/PublishPayloadXodusLocalPersistenceTest.java:158-170 | Putting id 123456789, stopping and starting over the same buckets leaves the counter above 123456789, whatever its starting value. |

Two operations have no row of their own. `ChannelUtils.GetClientId`
(src/main/java/com/hivemq/util/ChannelUtils.java:75-77) is covered by the
`ChannelUtils.GetClientToken` and `ChannelUtils.TokenFromChannel` rows: both state that the token's
client id is the connection's client id. `PayloadLifecycle.Stop`
(src/test/java/com/hivemq/persistence/payload/PublishPayloadXodusLocalPersistenceTest.java:162) is
covered by the `PayloadLifecycle.Restart` and `PayloadLifecycle.RestartAboveHighestId` rows: both
stop and start again, and keep the stored buckets.

## Left out

- The Xodus storage environments, on-disk layout and versioned persistence folders are not
  modelled. They belong to a foreign storage engine whose implementation is not part of this
  model. The store is its observable key-to-bytes contract.
- The class `PublishPayloadXodusLocalPersistence` is not part of this model. Routing is modelled
  as `id % bucketCount`, and start-up reconciliation as "raise the counter to one past the highest
  stored id unless it is already above it". Both rules are assumptions of this model: no visible
  code fixes them. The only visible promise is that, after a restart, the counter is above the
  highest stored id. In particular, that the counter never decreases across a start is assumed,
  not read from the source.
- PayloadLifecycle.NextId: "issue the counter, then add one" is an assumption of this model. No
  visible code issues an id; the visible test only reads the counter.
- The parallel bucket opening, the `PersistenceStartup` barrier and the atomic counters are
  not modelled, because their purpose is concurrency. The counter is a plain value that changes
  in single steps.
- The close retries and the retry interval are not modelled. They are a timing policy, and no
  retry behaviour is asserted.
- Payload ids are unbounded naturals. The 64-bit width of a Java `long` id, and a counter
  overflow past `Long.MAX_VALUE`, are not modelled.
- PayloadStore.GetAllIds: returns a set, whereas the source returns a list. The list cannot
  hold an id twice, because buckets are disjoint, so only its order is lost.
- `clientSessionExpired` is left out. It formats an epoch-milliseconds timestamp as a UTC
  calendar date through `java.time`, and that library is too heavy to reproduce.
- `EventLog.java` itself is not part of this model. The line formats are the ones the event-log
  tests fix. Graceful disconnects that carry a client-supplied reason are left out, because no
  visible text fixes that format.
- EventLog.ClientDisconnectedGracefully: this and `EventLog.ClientDisconnectedUngracefully` take the
  connection's channel, whereas the source passes the connection itself. The IP comes from that
  channel. `clientWasDisconnected` takes the channel in the source too.
- Logger names, appenders and the logging back end are left out. A line is its text plus a
  `Category`.
- The textual form of `InetAddress.getHostAddress` is treated as an opaque string. Certificates
  and listeners are treated as opaque values.
- `InternalConfigurations.MAX_INFLIGHT_WINDOW_SIZE` is not part of this model. It is a parameter
  of `ChannelUtils.MaxInflightWindow`.
- The `ClientState` enumeration is not part of this model. Besides AUTHENTICATED and
  RE_AUTHENTICATING, which the token logic tests for, a few representative states stand for the
  rest.
- A channel without a `ClientConnection` attribute is not modelled. The source dereferences the
  attribute unconditionally, so its callers must supply one.
