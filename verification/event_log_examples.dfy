/** The concrete lines the event log tests expect, for their fixed client
    (`clientId_`, clean start off, session expiry 123) on a channel with no
    remote address and on one whose peer is 127.0.0.1:1234. */
module EventLogExamples {
  import opened Wrappers
  import ChannelUtils
  import EventLog

  const clientId: string := "clientId_"
  const topic: string := "topic/a"
  const reason: string := "its a reason"

  /** The test's connection: client id `clientId_`, clean start off and
      session expiry 123. Its state and in-flight fields are arbitrary: no
      event line reads them. */
  function TestConnection(): ChannelUtils.ClientConnection {
    ChannelUtils.ClientConnection(
      clientId, None, None, None, None, ChannelUtils.Authenticated,
      true, None, None, false, 123)
  }

  /** A channel that reports no remote address. */
  function UnknownPeer(): ChannelUtils.Channel {
    ChannelUtils.Channel(None, TestConnection())
  }

  /** A channel whose peer is 127.0.0.1 on port 1234. */
  function LoopbackPeer(): ChannelUtils.Channel {
    ChannelUtils.Channel(Some(ChannelUtils.InetSocket(Some(ChannelUtils.InetAddress("127.0.0.1")), 1234)), TestConnection())
  }

  lemma MessageDroppedExample()
    ensures EventLog.MessageDropped(clientId, topic, 1, reason)
         == EventLog.LogEvent(EventLog.MessageDroppedCategory,
              "Outgoing publish message was dropped. Receiving client: " + "clientId_" + ", topic: " + "topic/a"
              + ", qos: " + "1" + ", reason: " + "its a reason" + ".")
  {
  }

  lemma SharedSubscriptionMessageDroppedExample()
    ensures EventLog.SharedSubscriptionMessageDropped("hiveMQ", topic, 1, reason)
         == EventLog.LogEvent(EventLog.MessageDroppedCategory,
              "Outgoing publish message was dropped. Receiving shared subscription group: " + "hiveMQ"
              + ", topic: " + "topic/a" + ", qos: " + "1" + ", reason: " + "its a reason" + ".")
  {
  }

  lemma MqttMessageDroppedExample()
    ensures EventLog.MqttMessageDropped(clientId, "myType", reason)
         == EventLog.LogEvent(EventLog.MessageDroppedCategory,
              "Outgoing MQTT packet was dropped. Receiving client: " + "clientId_"
              + ", messageType: " + "myType" + ", reason: " + "its a reason" + ".")
  {
  }

  lemma ClientConnectedUnknownExample()
    ensures EventLog.ClientConnected(UnknownPeer())
         == EventLog.LogEvent(EventLog.ClientConnectedCategory,
              "Client ID: " + "clientId_" + ", IP: " + "UNKNOWN" + ", Clean Start: " + "false"
              + ", Session Expiry: " + "123" + " connected.")
  {
  }

  lemma ClientConnectedWithIpExample()
    ensures EventLog.ClientConnected(LoopbackPeer())
         == EventLog.LogEvent(EventLog.ClientConnectedCategory,
              "Client ID: " + "clientId_" + ", IP: " + "127.0.0.1" + ", Clean Start: " + "false"
              + ", Session Expiry: " + "123" + " connected.")
  {
  }

  lemma ClientDisconnectedGracefullyExample()
    ensures EventLog.ClientDisconnectedGracefully(UnknownPeer())
         == EventLog.LogEvent(EventLog.ClientDisconnectedCategory,
              "Client ID: " + "clientId_" + ", IP: " + "UNKNOWN" + " disconnected gracefully.")
  {
  }

  lemma ClientDisconnectedUngracefullyExample()
    ensures EventLog.ClientDisconnectedUngracefully(UnknownPeer())
         == EventLog.LogEvent(EventLog.ClientDisconnectedCategory,
              "Client ID: " + "clientId_" + ", IP: " + "UNKNOWN" + " disconnected ungracefully.")
  {
  }

  lemma ClientWasDisconnectedExample()
    ensures EventLog.ClientWasDisconnected(UnknownPeer(), reason)
         == EventLog.LogEvent(EventLog.ClientDisconnectedCategory,
              "Client ID: " + "clientId_" + ", IP: " + "UNKNOWN" + " was disconnected." + " reason: " + "its a reason" + ".")
    ensures EventLog.ClientWasDisconnected(LoopbackPeer(), reason)
         == EventLog.LogEvent(EventLog.ClientDisconnectedCategory,
              "Client ID: " + "clientId_" + ", IP: " + "127.0.0.1" + " was disconnected." + " reason: " + "its a reason" + ".")
  {
  }
}
