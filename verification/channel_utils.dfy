/** Per-connection decisions the broker reads off a channel: which IP the
    peer has, whether messages are still in flight, how large the outgoing
    in-flight window may be, and the client token handed to security
    extensions. The Netty channel and its `ClientConnection` attribute are
    modelled as one immutable record. */
module ChannelUtils {
  import opened Wrappers
  import opened Primitives

  /** An IP address; only its textual host form is ever read. */
  datatype InetAddress = InetAddress(hostAddress: string)

  /** The remote end of a channel. An `InetSocket` whose host could not be
      resolved carries no address; any other kind of socket address (a
      local or domain socket, say) carries no IP at all. */
  datatype SocketAddress =
    | InetSocket(address: Option<InetAddress>, port: int)
    | OtherSocket

  /** Lifecycle state of a client connection. */
  datatype ClientState =
    | Connecting
    | Authenticating
    | ReAuthenticating
    | Authenticated
    | Disconnecting
    | Disconnected

  /** Opaque security collaborators, only ever passed through. */
  datatype SslClientCertificate = SslClientCertificate(handle: nat)
  datatype Listener = Listener(name: string)

  /** The per-connection attribute record. Every field that the source
      documents as possibly null is an `Option`. */
  datatype ClientConnection = ClientConnection(
    clientId: string,
    authUsername: Option<string>,
    authPassword: Option<seq<byte>>,
    authCertificate: Option<SslClientCertificate>,
    connectedListener: Option<Listener>,
    clientState: ClientState,
    inFlightMessagesSent: bool,
    inFlightMessages: Option<Int32>,
    clientReceiveMaximum: Option<Int32>,
    cleanStart: bool,
    sessionExpiryInterval: Int64)

  /** A channel: its (possibly unknown) peer and its connection attribute. */
  datatype Channel = Channel(remoteAddress: Option<SocketAddress>, connection: ClientConnection)

  /** The identity record given to authorizers and other extensions. */
  datatype ClientToken = ClientToken(
    clientId: string,
    username: Option<string>,
    password: Option<seq<byte>>,
    certificate: Option<SslClientCertificate>,
    bypass: bool,
    inetAddress: Option<InetAddress>,
    listener: Option<Listener>,
    disconnectTimestamp: Option<Int64>,
    authenticated: bool)

  /** Why building a token can fail: a required argument was null. */
  datatype Error = NullArgument(message: string)

  /** The peer's IP address, present only for a resolved Internet socket
      address. */
  function GetChannelAddress(channel: Channel): (r: Option<InetAddress>)
    ensures r.Some? <==>
      && channel.remoteAddress.Some?
      && channel.remoteAddress.value.InetSocket?
      && channel.remoteAddress.value.address.Some?
    ensures r.Some? ==> r == channel.remoteAddress.value.address
  {
    match channel.remoteAddress
    case None => None
    case Some(sockAddress) =>
      if sockAddress.InetSocket? then sockAddress.address else None
  }

  /** The peer's IP address as text. */
  function GetChannelIP(channel: Channel): (r: Option<string>)
    ensures r.Some? <==> GetChannelAddress(channel).Some?
    ensures r.Some? ==> r.value == GetChannelAddress(channel).value.hostAddress
  {
    match GetChannelAddress(channel)
    case Some(inetAddress) => Some(inetAddress.hostAddress)
    case None => None
  }

  /** The client identifier stored on the channel's connection. */
  function GetClientId(channel: Channel): string {
    channel.connection.clientId
  }

  /** Whether the connection may still have messages in flight: always until
      the stored in-flight messages have been resent, afterwards only while
      the in-flight counter is positive. */
  function MessagesInFlight(channel: Channel): (r: bool)
    ensures !channel.connection.inFlightMessagesSent ==> r
    ensures channel.connection.inFlightMessagesSent && channel.connection.inFlightMessages.None? ==> !r
    ensures channel.connection.inFlightMessagesSent && channel.connection.inFlightMessages.Some? ==>
              (r <==> channel.connection.inFlightMessages.value > 0)
  {
    var clientConnection := channel.connection;
    if !clientConnection.inFlightMessagesSent then true
    else match clientConnection.inFlightMessages
      case None => false
      case Some(inFlightMessages) => inFlightMessages > 0
  }

  /** The outgoing in-flight window: the client's receive maximum clamped to
      the broker-wide maximum `maxInflightWindowSize`, or that maximum when
      the client announced none. */
  function MaxInflightWindow(channel: Channel, maxInflightWindowSize: Int32): (r: Int32)
    ensures r <= maxInflightWindowSize
    ensures channel.connection.clientReceiveMaximum.None? ==> r == maxInflightWindowSize
    ensures channel.connection.clientReceiveMaximum.Some? ==>
              && r <= channel.connection.clientReceiveMaximum.value
              && (r == channel.connection.clientReceiveMaximum.value || r == maxInflightWindowSize)
  {
    match channel.connection.clientReceiveMaximum
    case None => maxInflightWindowSize
    case Some(clientReceiveMaximum) =>
      if clientReceiveMaximum <= maxInflightWindowSize then clientReceiveMaximum else maxInflightWindowSize
  }

  /** Clients count as authenticated both once authenticated and while
      re-authenticating. */
  predicate AuthenticatedOrAuthenticating(state: ClientState) {
    state == Authenticated || state == ReAuthenticating
  }

  /** The token for a channel, with an optional disconnect timestamp. */
  function GetClientToken(channel: Channel, disconnectTimestamp: Option<Int64>): (token: ClientToken)
    ensures token.clientId == channel.connection.clientId
    ensures token.authenticated <==>
              channel.connection.clientState == Authenticated || channel.connection.clientState == ReAuthenticating
    ensures token.disconnectTimestamp == disconnectTimestamp
    ensures token.inetAddress == GetChannelAddress(channel)
    ensures && token.username == channel.connection.authUsername
            && token.password == channel.connection.authPassword
            && token.certificate == channel.connection.authCertificate
            && token.listener == channel.connection.connectedListener
            && !token.bypass
  {
    var clientConnection := channel.connection;
    ClientToken(
      GetClientId(channel),
      clientConnection.authUsername,
      clientConnection.authPassword,
      clientConnection.authCertificate,
      false,
      GetChannelAddress(channel),
      clientConnection.connectedListener,
      disconnectTimestamp,
      AuthenticatedOrAuthenticating(clientConnection.clientState))
  }

  /** The token of a client that disconnected at `disconnectTimestamp`; a
      null timestamp is rejected. */
  function TokenFromChannelAt(channel: Channel, disconnectTimestamp: Option<Int64>): (r: Result<ClientToken, Error>)
    ensures r.Failure? <==> disconnectTimestamp.None?
    ensures r.Success? ==>
              && r.value.disconnectTimestamp == disconnectTimestamp
              && r.value == GetClientToken(channel, disconnectTimestamp)
  {
    match disconnectTimestamp
    case None => Failure(NullArgument("disconnectTimestamp must not be null"))
    case Some(_) => Success(GetClientToken(channel, disconnectTimestamp))
  }

  /** The token of a connected client: it carries no disconnect timestamp. */
  function TokenFromChannel(channel: Channel): (token: ClientToken)
    ensures token.disconnectTimestamp.None?
    ensures token.clientId == channel.connection.clientId
    ensures token == GetClientToken(channel, None)
  {
    GetClientToken(channel, None)
  }

  /** Messages are not in flight exactly when the stored in-flight messages
      have been resent and the counter is absent or not positive. */
  lemma NoMessagesInFlightIff(channel: Channel)
    ensures !MessagesInFlight(channel) <==>
              && channel.connection.inFlightMessagesSent
              && (channel.connection.inFlightMessages.None? || channel.connection.inFlightMessages.value <= 0)
  {
  }

  /** The window is the minimum of the client's receive maximum and the
      configured maximum, and so never exceeds either. */
  lemma MaxInflightWindowIsMinimum(channel: Channel, maxInflightWindowSize: Int32, receiveMaximum: Int32)
    requires channel.connection.clientReceiveMaximum == Some(receiveMaximum)
    ensures MaxInflightWindow(channel, maxInflightWindowSize) ==
              if receiveMaximum < maxInflightWindowSize then receiveMaximum else maxInflightWindowSize
  {
  }

  /** The token's address and the channel IP agree: the token carries an
      address exactly when an IP can be reported, and the IP is its host
      form. */
  lemma TokenAddressMatchesChannelIP(channel: Channel, disconnectTimestamp: Option<Int64>)
    ensures GetClientToken(channel, disconnectTimestamp).inetAddress.Some? <==> GetChannelIP(channel).Some?
    ensures GetChannelIP(channel).Some? ==>
              GetChannelIP(channel).value == GetClientToken(channel, disconnectTimestamp).inetAddress.value.hostAddress
  {
  }
}
