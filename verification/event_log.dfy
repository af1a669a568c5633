/** The event log: one formatted line per client connect, disconnect or
    dropped message, each sent to the log category for its kind of event.
    Only the produced text and its category are modelled; the logging
    back end that receives them is not. */
module EventLog {
  import opened Wrappers
  import opened Primitives
  import Decimal
  import ChannelUtils

  /** The log categories (one logger each). The session-expired category
      is listed so that the set of loggers is complete; no line modelled
      here goes to it. */
  datatype Category =
    | ClientConnectedCategory
    | ClientDisconnectedCategory
    | MessageDroppedCategory
    | ClientSessionExpiredCategory

  /** One emitted event line. */
  datatype LogEvent = LogEvent(category: Category, message: string)

  /** What is written in place of an IP the channel cannot provide. */
  const UNKNOWN: string := "UNKNOWN"

  const CLIENT_ID_LABEL: string := "Client ID: "

  /** The IP as printed: the peer's host address, or "UNKNOWN". */
  function IpText(channel: ChannelUtils.Channel): (ip: string)
    ensures ChannelUtils.GetChannelAddress(channel).None? ==> ip == UNKNOWN
    ensures ChannelUtils.GetChannelAddress(channel).Some? ==>
              ip == ChannelUtils.GetChannelAddress(channel).value.hostAddress
  {
    ChannelUtils.GetChannelIP(channel).Or(UNKNOWN)
  }

  /** The head shared by every connect and disconnect line. */
  function ClientHeader(clientId: string, ip: string): string {
    CLIENT_ID_LABEL + clientId + ", IP: " + ip
  }

  /** The tail shared by both publish-drop lines. */
  function PublishDropDetails(topic: string, qos: Int32, reason: string): string {
    ", topic: " + topic + ", qos: " + Decimal.IntToText(qos) + ", reason: " + reason + "."
  }

  /** The tail of a connect line. */
  function ConnectedDetails(cleanStart: bool, sessionExpiry: Int64): string {
    ", Clean Start: " + Decimal.BoolToText(cleanStart) + ", Session Expiry: " + Decimal.IntToText(sessionExpiry) + " connected."
  }

  /** The tail of a line for a client the broker disconnected. */
  function WasDisconnectedDetails(reason: string): string {
    " was disconnected." + " reason: " + reason + "."
  }

  /** An outgoing publish to one client was dropped. */
  function MessageDropped(clientId: string, topic: string, qos: Int32, reason: string): (e: LogEvent)
    ensures e.category == MessageDroppedCategory
    ensures e.message ==
              "Outgoing publish message was dropped. Receiving client: " + clientId
              + ", topic: " + topic + ", qos: " + Decimal.IntToText(qos) + ", reason: " + reason + "."
  {
    LogEvent(MessageDroppedCategory,
             "Outgoing publish message was dropped. Receiving client: " + clientId + PublishDropDetails(topic, qos, reason))
  }

  /** An outgoing publish to a shared subscription group was dropped. */
  function SharedSubscriptionMessageDropped(group: string, topic: string, qos: Int32, reason: string): (e: LogEvent)
    ensures e.category == MessageDroppedCategory
    ensures e.message ==
              "Outgoing publish message was dropped. Receiving shared subscription group: " + group
              + ", topic: " + topic + ", qos: " + Decimal.IntToText(qos) + ", reason: " + reason + "."
  {
    LogEvent(MessageDroppedCategory,
             "Outgoing publish message was dropped. Receiving shared subscription group: " + group + PublishDropDetails(topic, qos, reason))
  }

  /** An outgoing MQTT packet other than a publish was dropped. */
  function MqttMessageDropped(clientId: string, messageType: string, reason: string): (e: LogEvent)
    ensures e.category == MessageDroppedCategory
    ensures e.message ==
              "Outgoing MQTT packet was dropped. Receiving client: " + clientId
              + ", messageType: " + messageType + ", reason: " + reason + "."
  {
    LogEvent(MessageDroppedCategory,
             "Outgoing MQTT packet was dropped. Receiving client: " + clientId
             + ", messageType: " + messageType + ", reason: " + reason + ".")
  }

  /** A client connected on `channel`. */
  function ClientConnected(channel: ChannelUtils.Channel): (e: LogEvent)
    ensures e.category == ClientConnectedCategory
    ensures e.message ==
              "Client ID: " + channel.connection.clientId + ", IP: " + IpText(channel)
              + ", Clean Start: " + Decimal.BoolToText(channel.connection.cleanStart)
              + ", Session Expiry: " + Decimal.IntToText(channel.connection.sessionExpiryInterval) + " connected."
  {
    var connection := channel.connection;
    LogEvent(ClientConnectedCategory,
             ClientHeader(connection.clientId, IpText(channel))
             + ConnectedDetails(connection.cleanStart, connection.sessionExpiryInterval))
  }

  /** The client on `channel` disconnected with a DISCONNECT packet and gave
      no reason. */
  function ClientDisconnectedGracefully(channel: ChannelUtils.Channel): (e: LogEvent)
    ensures e.category == ClientDisconnectedCategory
    ensures e.message == "Client ID: " + channel.connection.clientId + ", IP: " + IpText(channel) + " disconnected gracefully."
  {
    LogEvent(ClientDisconnectedCategory,
             ClientHeader(channel.connection.clientId, IpText(channel)) + " disconnected gracefully.")
  }

  /** The connection of the client on `channel` was lost without a
      DISCONNECT packet. */
  function ClientDisconnectedUngracefully(channel: ChannelUtils.Channel): (e: LogEvent)
    ensures e.category == ClientDisconnectedCategory
    ensures e.message == "Client ID: " + channel.connection.clientId + ", IP: " + IpText(channel) + " disconnected ungracefully."
  {
    LogEvent(ClientDisconnectedCategory,
             ClientHeader(channel.connection.clientId, IpText(channel)) + " disconnected ungracefully.")
  }

  /** The broker disconnected the client on `channel` for `reason`. */
  function ClientWasDisconnected(channel: ChannelUtils.Channel, reason: string): (e: LogEvent)
    ensures e.category == ClientDisconnectedCategory
    ensures e.message ==
              "Client ID: " + channel.connection.clientId + ", IP: " + IpText(channel)
              + " was disconnected. reason: " + reason + "."
  {
    LogEvent(ClientDisconnectedCategory,
             ClientHeader(channel.connection.clientId, IpText(channel)) + WasDisconnectedDetails(reason))
  }

  /** Both disconnect lines share the client header and differ only in their
      final words. */
  lemma DisconnectLinesDifferOnlyInSuffix(channel: ChannelUtils.Channel)
    ensures ClientDisconnectedGracefully(channel).category == ClientDisconnectedUngracefully(channel).category
    ensures var header := "Client ID: " + channel.connection.clientId + ", IP: " + IpText(channel);
            && ClientDisconnectedGracefully(channel).message == header + " disconnected gracefully."
            && ClientDisconnectedUngracefully(channel).message == header + " disconnected ungracefully."
    ensures ClientDisconnectedGracefully(channel).message != ClientDisconnectedUngracefully(channel).message
  {
    var header := ClientHeader(channel.connection.clientId, IpText(channel));
    var g, u := " disconnected gracefully.", " disconnected ungracefully.";
    assert (header + g)[|header| + 14] == 'g';
    assert (header + u)[|header| + 14] == 'u';
  }

  /** A dropped publish to a client and to a shared subscription group
      produce the same line apart from who was receiving. */
  lemma PublishDropLinesDifferOnlyInReceiver(receiver: string, topic: string, qos: Int32, reason: string)
    ensures MessageDropped(receiver, topic, qos, reason).category
         == SharedSubscriptionMessageDropped(receiver, topic, qos, reason).category
    ensures var tail := receiver + PublishDropDetails(topic, qos, reason);
            && MessageDropped(receiver, topic, qos, reason).message
               == "Outgoing publish message was dropped. Receiving client: " + tail
            && SharedSubscriptionMessageDropped(receiver, topic, qos, reason).message
               == "Outgoing publish message was dropped. Receiving shared subscription group: " + tail
  {
  }

  /** The text before the first comma (all of `s` when there is none). */
  function UpToComma(s: string): (r: string)
    ensures r <= s
    ensures forall k :: 0 <= k < |r| ==> r[k] != ','
  {
    if |s| == 0 || s[0] == ',' then [] else [s[0]] + UpToComma(s[1..])
  }

  /** Reads the field that follows the label `lead` at the start of a line, up to
      the next comma; `None` when the line does not start with `lead`. */
  function ReadField(lead: string, message: string): Option<string> {
    if lead <= message then Some(UpToComma(message[|lead|..])) else None
  }

  /** Reads the client identifier back out of a connect or disconnect line. */
  function ReadClientId(message: string): Option<string> {
    ReadField(CLIENT_ID_LABEL, message)
  }

  /** `UpToComma` stops exactly where a comma-free prefix meets a comma. */
  lemma {:induction false} UpToCommaStopsAtComma(prefix: string, rest: string)
    requires forall k :: 0 <= k < |prefix| ==> prefix[k] != ','
    requires |rest| > 0 && rest[0] == ','
    ensures UpToComma(prefix + rest) == prefix
    decreases |prefix|
  {
    if |prefix| > 0 {
      assert (prefix + rest)[1..] == prefix[1..] + rest;
      UpToCommaStopsAtComma(prefix[1..], rest);
    } else {
      assert prefix + rest == rest;
    }
  }

  /** A comma-free field written right after a label, and followed by a
      comma, reads back exactly. */
  lemma LabelledFieldReadBack(lead: string, field: string, rest: string)
    requires forall k :: 0 <= k < |field| ==> field[k] != ','
    requires |rest| > 0 && rest[0] == ','
    ensures ReadField(lead, lead + (field + rest)) == Some(field)
  {
    var line := lead + (field + rest);
    assert line[..|lead|] == lead;
    assert line[|lead|..] == field + rest;
    UpToCommaStopsAtComma(field, rest);
  }

  /** The publish-drop line names its receiving client, as long as the
      client identifier holds no comma. */
  lemma PublishDropLineNamesTheReceiver(clientId: string, topic: string, qos: Int32, reason: string)
    requires forall k :: 0 <= k < |clientId| ==> clientId[k] != ','
    ensures ReadField("Outgoing publish message was dropped. Receiving client: ",
                      MessageDropped(clientId, topic, qos, reason).message) == Some(clientId)
  {
    var lead := "Outgoing publish message was dropped. Receiving client: ";
    var details := PublishDropDetails(topic, qos, reason);
    assert MessageDropped(clientId, topic, qos, reason).message == lead + (clientId + details);
    LabelledFieldReadBack(lead, clientId, details);
  }

  /** The shared-subscription drop line names its receiving group, as long
      as the group name holds no comma. */
  lemma SharedDropLineNamesTheGroup(group: string, topic: string, qos: Int32, reason: string)
    requires forall k :: 0 <= k < |group| ==> group[k] != ','
    ensures ReadField("Outgoing publish message was dropped. Receiving shared subscription group: ",
                      SharedSubscriptionMessageDropped(group, topic, qos, reason).message) == Some(group)
  {
    var lead := "Outgoing publish message was dropped. Receiving shared subscription group: ";
    var details := PublishDropDetails(topic, qos, reason);
    assert SharedSubscriptionMessageDropped(group, topic, qos, reason).message == lead + (group + details);
    LabelledFieldReadBack(lead, group, details);
  }

  /** The MQTT-packet drop line names its receiving client, as long as the
      client identifier holds no comma. */
  lemma MqttDropLineNamesTheReceiver(clientId: string, messageType: string, reason: string)
    requires forall k :: 0 <= k < |clientId| ==> clientId[k] != ','
    ensures ReadField("Outgoing MQTT packet was dropped. Receiving client: ",
                      MqttMessageDropped(clientId, messageType, reason).message) == Some(clientId)
  {
    var lead := "Outgoing MQTT packet was dropped. Receiving client: ";
    var details := ", messageType: " + messageType + ", reason: " + reason + ".";
    assert MqttMessageDropped(clientId, messageType, reason).message == lead + (clientId + details);
    LabelledFieldReadBack(lead, clientId, details);
  }

  /** The client header identifies the client: its identifier can be read
      back from any line that starts with it, whatever follows, as long as
      the identifier itself holds no comma. */
  lemma ClientHeaderReadBack(clientId: string, ip: string, tail: string)
    requires forall k :: 0 <= k < |clientId| ==> clientId[k] != ','
    ensures ReadClientId(ClientHeader(clientId, ip) + tail) == Some(clientId)
  {
    var rest := ", IP: " + ip + tail;
    assert ClientHeader(clientId, ip) + tail == CLIENT_ID_LABEL + (clientId + rest);
    LabelledFieldReadBack(CLIENT_ID_LABEL, clientId, rest);
  }

  /** The connect line names its client first. */
  lemma ConnectedLineNamesTheClient(channel: ChannelUtils.Channel)
    requires forall k :: 0 <= k < |channel.connection.clientId| ==> channel.connection.clientId[k] != ','
    ensures ReadClientId(ClientConnected(channel).message) == Some(channel.connection.clientId)
  {
    var id, ip := channel.connection.clientId, IpText(channel);
    ClientHeaderReadBack(id, ip, ConnectedDetails(channel.connection.cleanStart, channel.connection.sessionExpiryInterval));
  }

  /** Every disconnect line names its client first. */
  lemma DisconnectLinesNameTheClient(channel: ChannelUtils.Channel, reason: string)
    requires forall k :: 0 <= k < |channel.connection.clientId| ==> channel.connection.clientId[k] != ','
    ensures ReadClientId(ClientDisconnectedGracefully(channel).message) == Some(channel.connection.clientId)
    ensures ReadClientId(ClientDisconnectedUngracefully(channel).message) == Some(channel.connection.clientId)
    ensures ReadClientId(ClientWasDisconnected(channel, reason).message) == Some(channel.connection.clientId)
  {
    var id, ip := channel.connection.clientId, IpText(channel);
    ClientHeaderReadBack(id, ip, " disconnected gracefully.");
    ClientHeaderReadBack(id, ip, " disconnected ungracefully.");
    ClientHeaderReadBack(id, ip, WasDisconnectedDetails(reason));
  }
}
