/** The exceptions the delivery session can raise, one constructor per kind of cause. */
module Errors {

  datatype Error =
    /** `TypeError` raised by a property setter. */
    | TypeError(message: string)
    /** `ValueError` raised by a property setter, by the "not established" guard, or by `hashlib.new`. */
    | ValueError(message: string)
    /** The private key file could not be loaded (missing, unreadable or malformed). */
    | KeyLoadError(path: string)
    /** The server rejected the credentials. */
    | AuthenticationError
    /** The network-level handshake did not complete (unreachable host, closed port, negotiation failure). */
    | ConnectionError
    /** The SFTP sub-channel could not be opened over an established connection. */
    | ChannelError
    /** A local file could not be opened for reading. */
    | FileNotFound(path: string)
    /** A local file could not be opened for writing. */
    | LocalWriteError(path: string)
    /** A remote file could not be opened or written through the channel. */
    | RemoteIOError(path: string)
    /** The SFTP channel was used after it had been closed ("Socket is closed"). */
    | SocketClosed

  /** The error every transfer operation raises when no SFTP client is present. */
  const NotEstablished: Error := ValueError("SFTP connection not established")

  /** The error `hashlib.new` raises for a name it does not know. */
  function UnsupportedHash(name: string): Error {
    ValueError("unsupported hash type " + name)
  }
}
