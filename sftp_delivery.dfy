/**
 * The SFTP delivery session: validated configuration, the two connection handles, uploads and downloads,
 * and the upload verified by comparing streamed checksums of the local and the remote file.
 */
module Delivery {
  import opened Wrappers
  import opened Errors
  import opened PyText
  import opened Validation
  import opened Hashing
  import opened Transport

  /** The algorithm `upload` uses when none is named. */
  const DefaultAlgorithm: string := "md5"

  /** The attributes of an instance whose setters have never run. */
  const Unset: Settings := Settings("", PyNone, "", "", None)

  /** `if self.private_key:` picks the key when it is a non-empty string, and the password otherwise. */
  function CredentialFor(s: Settings): (c: Credential)
    ensures c.KeyFile? <==> s.privateKey.Some? && s.privateKey.value != []
    ensures c.KeyFile? ==> c.path == s.privateKey.value
    ensures c.Password? ==> c.secret == s.password
  {
    if s.privateKey.Some? && s.privateKey.value != [] then KeyFile(s.privateKey.value) else Password(s.password)
  }

  /**
   * How `__establish_ssh_connection` ends: a key that does not load stops it before the handshake;
   * otherwise the server's answer decides.
   */
  function EstablishOutcome(c: Credential, keyLoads: bool, handshake: Handshake): (o: Outcome<Error>)
    ensures o.Pass? <==> (c.Password? || keyLoads) && handshake == Accepted
    ensures c.KeyFile? && !keyLoads ==> o == Fail(KeyLoadError(c.path))
    ensures (c.Password? || keyLoads) && handshake == Rejected ==> o == Fail(AuthenticationError)
    ensures (c.Password? || keyLoads) && handshake == Unreachable ==> o == Fail(ConnectionError)
  {
    if c.KeyFile? && !keyLoads then Fail(KeyLoadError(c.path))
    else match handshake
      case Accepted => Pass
      case Rejected => Fail(AuthenticationError)
      case Unreachable => Fail(ConnectionError)
  }

  class SFTPDelivery {
    var host: string
    var port: PyValue
    var username: string
    var password: string
    var privateKey: Option<string>
    var connection: SshClient?
    var sftpClient: SftpChannel?

    /** The configuration attributes as one value. */
    function Config(): Settings
      reads this
    {
      Settings(host, port, username, password, privateKey)
    }

    /** The object `__new__` allocates, before `__init__` has assigned anything. */
    constructor Blank()
      ensures Config() == Unset && connection == null && sftpClient == null
    {
      host, port, username, password, privateKey := "", PyNone, "", "", None;
      connection, sftpClient := null, null;
    }

    method SetHost(v: PyValue) returns (o: Outcome<Error>)
      modifies this`host
      ensures host == if AcceptedText(v) then v.s else old(host)
      ensures o == if AcceptedText(v) then Pass else Fail(TextError("host", v))
    {
      var r := CheckText("host", v);
      if r.Failure? {
        return Fail(r.error);
      }
      host := r.value;
      o := Pass;
    }

    method SetPort(v: PyValue) returns (o: Outcome<Error>)
      modifies this`port
      ensures port == if AcceptedPort(v) then v else old(port)
      ensures o == if AcceptedPort(v) then Pass else Fail(PortError(v))
    {
      var r := CheckPort(v);
      if r.Failure? {
        return Fail(r.error);
      }
      port := r.value;
      o := Pass;
    }

    method SetUsername(v: PyValue) returns (o: Outcome<Error>)
      modifies this`username
      ensures username == if AcceptedText(v) then v.s else old(username)
      ensures o == if AcceptedText(v) then Pass else Fail(TextError("username", v))
    {
      var r := CheckText("username", v);
      if r.Failure? {
        return Fail(r.error);
      }
      username := r.value;
      o := Pass;
    }

    method SetPassword(v: PyValue) returns (o: Outcome<Error>)
      modifies this`password
      ensures password == if AcceptedText(v) then v.s else old(password)
      ensures o == if AcceptedText(v) then Pass else Fail(TextError("password", v))
    {
      var r := CheckText("password", v);
      if r.Failure? {
        return Fail(r.error);
      }
      password := r.value;
      o := Pass;
    }

    method SetPrivateKey(v: PyValue) returns (o: Outcome<Error>)
      modifies this`privateKey
      ensures privateKey == if AcceptedKey(v) then KeyValue(v) else old(privateKey)
      ensures o == if AcceptedKey(v) then Pass else Fail(KeyError(v))
    {
      var r := CheckPrivateKey(v);
      if r.Failure? {
        return Fail(r.error);
      }
      privateKey := r.value;
      o := Pass;
    }

    /**
     * `__init__`: the five setters in order, stopping at the first that raises; only when all of them
     * pass are both handles set to absent.
     */
    method Init(a: InitArgs) returns (o: Outcome<Error>)
      modifies this
      ensures Construct(old(Config()), a) == Construction(Config(), o)
      ensures o.Pass? ==> connection == null && sftpClient == null
      ensures o.Fail? ==> connection == old(connection) && sftpClient == old(sftpClient)
    {
      o := SetHost(a.host);
      if o.Fail? {
        return;
      }
      o := SetPort(a.port);
      if o.Fail? {
        return;
      }
      o := SetUsername(a.username);
      if o.Fail? {
        return;
      }
      o := SetPassword(a.password);
      if o.Fail? {
        return;
      }
      o := SetPrivateKey(a.privateKey);
      if o.Fail? {
        return;
      }
      connection := null;
      sftpClient := null;
    }

    /**
     * `close()`: closes the SFTP client, then the connection, each only if present. It never raises and
     * does not reset either handle to absent.
     */
    method Close()
      modifies sftpClient, connection
      ensures sftpClient != null ==> !sftpClient.open
      ensures connection != null ==> connection.session == None
    {
      if sftpClient != null {
        sftpClient.Close();
      }
      if connection != null {
        connection.Close();
      }
    }

    /**
     * `__establish_ssh_connection()`: a new SSH client is stored first, unconditionally; it then
     * authenticates with the key file when one is set and with the password otherwise.
     */
    method EstablishSshConnection(server: FileStore, keyLoads: bool, handshake: Handshake) returns (o: Outcome<Error>)
      modifies this`connection
      ensures connection != null && fresh(connection)
      ensures o == EstablishOutcome(CredentialFor(Config()), keyLoads, handshake)
      ensures connection.session ==
        if o.Pass? then Some(Session(Endpoint(host, port, username), CredentialFor(Config()), server)) else None
    {
      connection := new SshClient();
      var credential := CredentialFor(Config());
      if credential.KeyFile? && !keyLoads {
        return Fail(KeyLoadError(credential.path));
      }
      o := connection.Connect(Endpoint(host, port, username), credential, server, handshake);
    }

    /**
     * `connect()`: always a fresh connection, never a check for an existing one (a previous connection is
     * left as it was); on success the SFTP client is the one opened on that new connection.
     */
    method Connect(server: FileStore, keyLoads: bool, handshake: Handshake, channelOpens: bool) returns (o: Outcome<Error>)
      modifies this`connection, this`sftpClient
      ensures connection != null && fresh(connection)
      ensures old(connection) != null ==> old(connection).session == old(connection.session)
      ensures EstablishOutcome(CredentialFor(Config()), keyLoads, handshake).Fail? ==>
        o == EstablishOutcome(CredentialFor(Config()), keyLoads, handshake) && connection.session == None
      ensures EstablishOutcome(CredentialFor(Config()), keyLoads, handshake).Pass? ==>
        connection.session == Some(Session(Endpoint(host, port, username), CredentialFor(Config()), server)) &&
        o == (if channelOpens then Pass else Fail(ChannelError))
      ensures o.Pass? ==>
        (sftpClient != null && fresh(sftpClient) && sftpClient.open && sftpClient.ssh == connection && sftpClient.store == server)
      ensures o.Fail? ==> sftpClient == old(sftpClient)
    {
      o := EstablishSshConnection(server, keyLoads, handshake);
      if o.Fail? {
        return;
      }
      var channel := connection.OpenSftp(channelOpens);
      if channel.Failure? {
        return Fail(channel.error);
      }
      sftpClient := channel.value;
    }

    /** `download_file(remote_file, local_file)`: guarded by the presence of the SFTP client. */
    method DownloadFile(remoteFile: string, local: FileStore, localFile: string, localWritable: bool) returns (o: Outcome<Error>)
      modifies local
      ensures sftpClient == null ==> o == Fail(NotEstablished) && local.files == old(local.files)
      ensures sftpClient != null && !localWritable ==> o == Fail(LocalWriteError(localFile))
      ensures sftpClient != null && localWritable && !sftpClient.open ==> o == Fail(SocketClosed)
      ensures sftpClient != null && localWritable && sftpClient.open && remoteFile !in old(sftpClient.store.files) ==>
        o == Fail(RemoteIOError(remoteFile))
      ensures o.Pass? <==> sftpClient != null && localWritable && sftpClient.open && remoteFile in old(sftpClient.store.files)
      ensures local.files ==
        if o.Pass? then old(local.files)[localFile := old(sftpClient.store.files)[remoteFile]] else old(local.files)
    {
      if sftpClient == null {
        return Fail(NotEstablished);
      }
      o := sftpClient.Get(remoteFile, local, localFile, localWritable);
    }

    /** `upload_file(local_file, remote_file)`: guarded by the presence of the SFTP client. */
    method UploadFile(local: FileStore, localFile: string, remoteFile: string, remoteWritable: bool) returns (o: Outcome<Error>)
      modifies if sftpClient != null then {sftpClient.store} else {}
      ensures sftpClient == null ==> o == Fail(NotEstablished)
      ensures sftpClient != null && localFile !in old(local.files) ==> o == Fail(FileNotFound(localFile))
      ensures sftpClient != null && localFile in old(local.files) && !sftpClient.open ==> o == Fail(SocketClosed)
      ensures sftpClient != null && localFile in old(local.files) && sftpClient.open && !remoteWritable ==>
        o == Fail(RemoteIOError(remoteFile))
      ensures o.Pass? <==> sftpClient != null && localFile in old(local.files) && sftpClient.open && remoteWritable
      ensures sftpClient != null ==>
        (sftpClient.store.files ==
         if o.Pass? then old(sftpClient.store.files)[remoteFile := old(local.files)[localFile]] else old(sftpClient.store.files))
    {
      if sftpClient == null {
        return Fail(NotEstablished);
      }
      o := sftpClient.Put(local, localFile, remoteFile, remoteWritable);
    }

    /** `__calculate_checksum(file_path, algorithm)`: the hex digest of a local file, read in 4096-byte chunks. */
    method CalculateChecksum<S(!new)>(local: FileStore, filePath: string, algorithm: string, lib: Library<S>)
      returns (r: Result<string, Error>)
      requires LawfulLibrary(lib)
      ensures algorithm !in lib ==> r == Failure(UnsupportedHash(algorithm))
      ensures algorithm in lib && filePath !in local.files ==> r == Failure(FileNotFound(filePath))
      ensures algorithm in lib && filePath in local.files ==> r == Success(Digest(lib[algorithm], local.files[filePath]))
    {
      var h := NewHash(lib, algorithm);
      if h.Failure? {
        return Failure(h.error);
      }
      var f := local.OpenRead(filePath);
      if f.Failure? {
        return Failure(f.error);
      }
      var hex := DigestStream(f.value, h.value);
      r := Success(hex);
    }

    /**
     * `__verify_upload(local_file, remote_file, algorithm)`: the local checksum, then the remote file's
     * checksum read back through the channel; true iff the two hex digests are equal.
     */
    method VerifyUpload<S(!new)>(local: FileStore, localFile: string, remoteFile: string, algorithm: string, lib: Library<S>)
      returns (r: Result<bool, Error>)
      requires LawfulLibrary(lib)
      ensures sftpClient == null ==> r == Failure(NotEstablished)
      ensures sftpClient != null && algorithm !in lib ==> r == Failure(UnsupportedHash(algorithm))
      ensures sftpClient != null && algorithm in lib && localFile !in local.files ==> r == Failure(FileNotFound(localFile))
      ensures sftpClient != null && algorithm in lib && localFile in local.files && !sftpClient.open ==> r == Failure(SocketClosed)
      ensures (sftpClient != null && algorithm in lib && localFile in local.files && sftpClient.open &&
               remoteFile !in sftpClient.store.files) ==> r == Failure(RemoteIOError(remoteFile))
      ensures r.Success? <==>
        (sftpClient != null && algorithm in lib && localFile in local.files && sftpClient.open &&
         remoteFile in sftpClient.store.files)
      ensures r.Success? ==>
        (r.value <==>
         Digest(lib[algorithm], local.files[localFile]) == Digest(lib[algorithm], sftpClient.store.files[remoteFile]))
      ensures r.Success? && local.files[localFile] == sftpClient.store.files[remoteFile] ==> r.value
    {
      if sftpClient == null {
        return Failure(NotEstablished);
      }
      var localChecksum := CalculateChecksum(local, localFile, algorithm, lib);
      if localChecksum.Failure? {
        return Failure(localChecksum.error);
      }
      var remote := sftpClient.OpenRead(remoteFile);
      if remote.Failure? {
        return Failure(remote.error);
      }
      var h := NewHash(lib, algorithm);
      var remoteChecksum := DigestStream(remote.value, h.value);
      r := Success(localChecksum.value == remoteChecksum);
    }

    /**
     * `upload(local_file, remote_file, algorithm)`: the guard, the copy, then the verification. The copy is
     * not undone when verification cannot run (an unknown algorithm is only noticed after the upload).
     */
    method Upload<S(!new)>(local: FileStore, localFile: string, remoteFile: string, algorithm: string, lib: Library<S>,
                           remoteWritable: bool) returns (r: Result<bool, Error>)
      requires LawfulLibrary(lib)
      modifies if sftpClient != null then {sftpClient.store} else {}
      ensures sftpClient == null ==> r == Failure(NotEstablished)
      ensures sftpClient != null && localFile !in old(local.files) ==> r == Failure(FileNotFound(localFile))
      ensures sftpClient != null && localFile in old(local.files) && !sftpClient.open ==> r == Failure(SocketClosed)
      ensures sftpClient != null && localFile in old(local.files) && sftpClient.open && !remoteWritable ==>
        r == Failure(RemoteIOError(remoteFile))
      ensures sftpClient != null && localFile in old(local.files) && sftpClient.open && remoteWritable ==>
        sftpClient.store.files == old(sftpClient.store.files)[remoteFile := old(local.files)[localFile]] &&
        r == (if algorithm in lib then Success(true) else Failure(UnsupportedHash(algorithm)))
      ensures sftpClient != null && !(localFile in old(local.files) && sftpClient.open && remoteWritable) ==>
        sftpClient.store.files == old(sftpClient.store.files)
    {
      if sftpClient == null {
        return Failure(NotEstablished);
      }
      var o := UploadFile(local, localFile, remoteFile, remoteWritable);
      if o.Fail? {
        return Failure(o.error);
      }
      r := VerifyUpload(local, localFile, remoteFile, algorithm, lib);
    }
  }

  /** `SFTPDelivery._instance` together with `__new__`: every construction runs `__init__` on one shared object. */
  class Registry {
    var instance: SFTPDelivery?

    constructor ()
      ensures instance == null
    {
      instance := null;
    }

    /** `SFTPDelivery(host, username, password, port, private_key)`. */
    method New(a: InitArgs) returns (r: Result<SFTPDelivery, Error>)
      modifies this, instance
      ensures instance != null
      ensures old(instance) != null ==> instance == old(instance)
      ensures old(instance) == null ==> fresh(instance)
      ensures instance.Config() ==
        Construct(if old(instance) == null then Unset else old(instance.Config()), a).settings
      ensures Construct(if old(instance) == null then Unset else old(instance.Config()), a).outcome.Pass? ==>
        r == Success(instance) && instance.connection == null && instance.sftpClient == null
      ensures Construct(if old(instance) == null then Unset else old(instance.Config()), a).outcome.Fail? ==>
        r == Failure(Construct(if old(instance) == null then Unset else old(instance.Config()), a).outcome.error)
      ensures Construct(if old(instance) == null then Unset else old(instance.Config()), a).outcome.Fail? ==>
        instance.connection == (if old(instance) == null then null else old(instance.connection)) &&
        instance.sftpClient == (if old(instance) == null then null else old(instance.sftpClient))
    {
      if instance == null {
        instance := new SFTPDelivery.Blank();
      }
      var o := instance.Init(a);
      if o.Fail? {
        return Failure(o.error);
      }
      r := Success(instance);
    }
  }

  /**
   * A delivery as a caller performs it: construct, connect with a password, upload a report and have it
   * verified, then close. After close the handles are still present, so a second upload passes the guard
   * and fails on the closed channel.
   */
  method DeliverReport<S(!new)>(lib: Library<S>, report: Bytes)
    requires LawfulLibrary(lib) && DefaultAlgorithm in lib
  {
    var registry := new Registry();
    var local := new FileStore(map["report.pdf" := report]);
    var server := new FileStore(map[]);
    var host, user, secret := "sftp.example.com", "alice", "secret";
    assert !IsSpace(host[0]) && !IsSpace(user[0]) && !IsSpace(secret[0]);
    var made := registry.New(InitArgs(PyStr(host), PyStr(user), PyStr(secret), DefaultPort, PyNone));
    assert made.Success?;
    var delivery := made.value;
    assert delivery.privateKey == None;
    var connected := delivery.Connect(server, false, Accepted, true);
    assert connected.Pass?;
    var verified := delivery.Upload(local, "report.pdf", "/incoming/report.pdf", DefaultAlgorithm, lib, true);
    assert verified == Success(true);
    assert server.files["/incoming/report.pdf"] == report;
    delivery.Close();
    var again := delivery.Upload(local, "report.pdf", "/incoming/report.pdf", DefaultAlgorithm, lib, true);
    assert again == Failure(SocketClosed);
  }

  /** A key path that does not load: `connect` fails, the connection handle holds a new unconnected client, no SFTP client exists. */
  method KeyLoadFails(server: FileStore)
  {
    var registry := new Registry();
    var host, user, secret, key := "sftp.example.com", "alice", "secret", "/missing/id_rsa";
    assert !IsSpace(host[0]) && !IsSpace(user[0]) && !IsSpace(secret[0]) && !IsSpace(key[0]);
    var made := registry.New(InitArgs(PyStr(host), PyStr(user), PyStr(secret), DefaultPort, PyStr(key)));
    assert made.Success?;
    var delivery := made.value;
    var connected := delivery.Connect(server, false, Accepted, true);
    assert connected == Fail(KeyLoadError(key));
    assert delivery.connection != null && delivery.connection.session == None && delivery.sftpClient == null;
  }
}
