/**
 * Stand-ins for what the delivery session uses from the SSH library and the two file systems. Everything
 * the library decides on the network (does the key load, does the server answer, does it accept the
 * credentials, can the channel be opened, can the remote path be written) is a parameter.
 */
module Transport {
  import opened Wrappers
  import opened Errors
  import opened PyText
  import opened Hashing

  /** How the client authenticates: a private key loaded from a file, or a password. */
  datatype Credential = KeyFile(path: string) | Password(secret: string)

  /** Where the connection goes and as whom. */
  datatype Endpoint = Endpoint(host: string, port: PyValue, username: string)

  /** How the server answers `SSHClient.connect`. */
  datatype Handshake = Accepted | Rejected | Unreachable

  /** A file system, as a map from path to content. */
  class FileStore {
    var files: map<string, Bytes>

    constructor (files: map<string, Bytes>)
      ensures this.files == files
    {
      this.files := files;
    }

    /** `open(path, "rb")`. */
    method OpenRead(path: string) returns (r: Result<Reader, Error>)
      ensures r.Success? <==> path in files
      ensures r.Success? ==> fresh(r.value) && r.value.Valid() && r.value.pos == 0 && r.value.data == files[path]
      ensures r.Failure? ==> r.error == FileNotFound(path)
    {
      if path !in files {
        return Failure(FileNotFound(path));
      }
      var f := new Reader(files[path]);
      r := Success(f);
    }
  }

  /** An authenticated session: who logged in where, with which credential, and the server's file store. */
  datatype Session = Session(endpoint: Endpoint, credential: Credential, server: FileStore)

  /** `paramiko.SSHClient`: connected when it holds a session. */
  class SshClient {
    var session: Option<Session>

    constructor ()
      ensures session == None
    {
      session := None;
    }

    /** `SSHClient.connect(hostname, port, username, pkey | password)`; the server's answer is `handshake`. */
    method Connect(endpoint: Endpoint, credential: Credential, server: FileStore, handshake: Handshake) returns (o: Outcome<Error>)
      modifies this
      ensures o.Pass? <==> handshake == Accepted
      ensures handshake == Rejected ==> o == Fail(AuthenticationError)
      ensures handshake == Unreachable ==> o == Fail(ConnectionError)
      ensures session == if o.Pass? then Some(Session(endpoint, credential, server)) else old(session)
    {
      match handshake
      case Accepted =>
        session := Some(Session(endpoint, credential, server));
        o := Pass;
      case Rejected =>
        o := Fail(AuthenticationError);
      case Unreachable =>
        o := Fail(ConnectionError);
    }

    /** `SSHClient.open_sftp()` on a connected client; whether the server grants the subsystem is `opens`. */
    method OpenSftp(opens: bool) returns (r: Result<SftpChannel, Error>)
      requires session.Some?
      ensures r.Success? <==> opens
      ensures r.Success? ==> fresh(r.value) && r.value.open && r.value.ssh == this && r.value.store == session.value.server
      ensures r.Failure? ==> r.error == ChannelError
    {
      if !opens {
        return Failure(ChannelError);
      }
      var channel := new SftpChannel(this, session.value.server);
      r := Success(channel);
    }

    /** `SSHClient.close()`: drops the transport; closing twice, or a client never connected, is harmless. */
    method Close()
      modifies this
      ensures session == None
    {
      session := None;
    }
  }

  /** `paramiko.SFTPClient`: a file-transfer channel over one connection, reaching one server's files. */
  class SftpChannel {
    const ssh: SshClient
    const store: FileStore
    var open: bool

    constructor (ssh: SshClient, store: FileStore)
      ensures this.ssh == ssh && this.store == store && open
    {
      this.ssh := ssh;
      this.store := store;
      open := true;
    }

    method Close()
      modifies this`open
      ensures !open
    {
      open := false;
    }

    /**
     * `SFTPClient.put(localpath, remotepath)`: opens the local file first, then writes the remote one.
     * Whether the remote path can be written is `writable`.
     */
    method Put(local: FileStore, localPath: string, remotePath: string, writable: bool) returns (o: Outcome<Error>)
      modifies store
      ensures localPath !in old(local.files) ==> o == Fail(FileNotFound(localPath))
      ensures localPath in old(local.files) && !open ==> o == Fail(SocketClosed)
      ensures localPath in old(local.files) && open && !writable ==> o == Fail(RemoteIOError(remotePath))
      ensures o.Pass? <==> localPath in old(local.files) && open && writable
      ensures store.files == if o.Pass? then old(store.files)[remotePath := old(local.files)[localPath]] else old(store.files)
    {
      if localPath !in local.files {
        return Fail(FileNotFound(localPath));
      }
      if !open {
        return Fail(SocketClosed);
      }
      if !writable {
        return Fail(RemoteIOError(remotePath));
      }
      store.files := store.files[remotePath := local.files[localPath]];
      o := Pass;
    }

    /**
     * `SFTPClient.get(remotepath, localpath)`: opens the local file for writing first, then reads the remote one.
     * Whether the local path can be written is `writable`.
     */
    method Get(remotePath: string, local: FileStore, localPath: string, writable: bool) returns (o: Outcome<Error>)
      modifies local
      ensures !writable ==> o == Fail(LocalWriteError(localPath))
      ensures writable && !open ==> o == Fail(SocketClosed)
      ensures writable && open && remotePath !in old(store.files) ==> o == Fail(RemoteIOError(remotePath))
      ensures o.Pass? <==> writable && open && remotePath in old(store.files)
      ensures local.files == if o.Pass? then old(local.files)[localPath := old(store.files)[remotePath]] else old(local.files)
    {
      if !writable {
        return Fail(LocalWriteError(localPath));
      }
      if !open {
        return Fail(SocketClosed);
      }
      if remotePath !in store.files {
        return Fail(RemoteIOError(remotePath));
      }
      local.files := local.files[localPath := store.files[remotePath]];
      o := Pass;
    }

    /** `SFTPClient.open(remotepath, "rb")`. */
    method OpenRead(remotePath: string) returns (r: Result<Reader, Error>)
      ensures !open ==> r == Failure(SocketClosed)
      ensures open && remotePath !in store.files ==> r == Failure(RemoteIOError(remotePath))
      ensures r.Success? <==> open && remotePath in store.files
      ensures r.Success? ==> fresh(r.value) && r.value.Valid() && r.value.pos == 0 && r.value.data == store.files[remotePath]
    {
      if !open {
        return Failure(SocketClosed);
      }
      if remotePath !in store.files {
        return Failure(RemoteIOError(remotePath));
      }
      var f := new Reader(store.files[remotePath]);
      r := Success(f);
    }
  }
}
