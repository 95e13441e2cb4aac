/** The exceptions the gateway core raises or lets through, one constructor
  * per Python exception (or external failure) that the model distinguishes. */
module Errors {

  datatype Fault =
    // ConfigParser and list indexing
    | NoSectionError(section: string)
    | NoOptionError(option: string, section: string)
    | IndexError
    // credentials and startup
    | InvalidPrivateKey
    | AssertionError
    | ValueError(text: string)
    // the outbound SSH connection
    | SocketError
    | TransportError
    | AuthenticationFailed
    | SSHError
    | ChannelOpenFailed
    // struct.error: paramiko packs pty dimensions as integers only
    | StructError
    // session observers: an AttributeError for a hook the sniffer lacks,
    // or whatever the hook itself raised
    | MissingHook(sniffer: nat)
    | SnifferRaised(sniffer: nat)
    // the relay loop's own I/O
    | NotATerminal
    | ChannelRecvFailed
    | StdinReadFailed
    | ChannelSendFailed
    // select.error(EINTR): a signal arrived while Python 2's select waited
    | SelectInterrupted
}
