# SFTP delivery session, modelled in Dafny

This project models `SFTPDelivery` (src/services/sftp_delivery.py), the component that delivers files over SFTP:

- its validated configuration: host, port, username, password and private-key path;
- its two connection handles: the SSH client and the SFTP client;
- its transfers: upload and download;
- its verified upload, which compares streamed checksums of the local file and of the file read back from the server.

Modules, one per concern:

- `Wrappers`: `Option`, `Result` and `Outcome`; errors the source raises become `Failure`/`Fail` values.
- `Errors`: one constructor per kind of exception, with the source's messages where the source writes them.
- `PyText`: `PyValue`, a tagged Python argument (`None`, `bool`, `int`, `str`, other), so the `isinstance` branches of the setters are modelled; Python's whitespace set; `str.strip()`.
- `Validation`: the setter checks, the order in which `__init__` runs them (`Construct`), and the dictionary `__str__` renders (`Describe`).
- `Hashing`: a hash algorithm is uninterpreted, an initial state plus `update` and `hexdigest` functions, and must satisfy the incremental-update law (`Lawful`). `Reader` is a binary stream with `read(size)`. `FeedChunks` is the read-until-empty loop; `DigestStream` runs it and applies `hexdigest`.
- `Transport`: stand-ins for what the session uses from paramiko (`SshClient`, `SftpChannel`) and for the two file systems (`FileStore`, path to bytes).
- `Delivery`: the class `SFTPDelivery`, whose fields are the source's private attributes, and `Registry`, which models the class attribute `_instance` together with `__new__`.

Everything the network or the SSH library decides is passed in as a parameter. That covers: whether the key file loads, how the server answers the handshake, whether the SFTP subsystem opens, and whether a target path can be written. The hash algorithms are an argument too: a map from name to fixed-length algorithm, standing for the names `hashlib.new` accepts whose `hexdigest()` takes no argument.

Behaviour of the code worth knowing (the model follows it):

- The password is required even when a private key is given (line 40).
- `private_key=""` is accepted, although the setter's docstring says an empty string raises (line 181).
- `port=True` is accepted, because `bool` is a subclass of `int` (lines 95-97).
- A `connect` that fails on the key or the handshake still leaves a new SSH client, without an authenticated session, in the connection handle, because it is assigned before the key is loaded and before the handshake (line 259). One that fails to open the SFTP channel (line 250) leaves the new authenticated connection in the handle and the SFTP client as it was.
- `connect` never checks for an existing connection. The previous connection is left open and unreferenced.
- `close` does not reset the handles. After `close`, a transfer passes the "not established" guard and then fails on the closed channel.
- The "not connected" error is a `ValueError("SFTP connection not established")`.
- An unknown algorithm name is noticed by `hashlib.new` only after `upload` has already copied the file.
- `__str__` shows the private-key path itself, not just whether one is configured.

## Model

| member | source | states |
|---|---|---|
| PyText.TrimStart | src/services/sftp_delivery.py:69 | the result is a suffix of the input, every dropped character is whitespace, and the result does not start with whitespace |
| PyText.TrimEnd | src/services/sftp_delivery.py:69 | the result is a prefix of the input, every dropped character is whitespace, and the result does not end with whitespace |
| PyText.StripEmptyIff | src/services/sftp_delivery.py:69 | `s.strip()` is empty (falsy) exactly when every character of `s` is whitespace |
| Validation.CheckText | src/services/sftp_delivery.py:67-71 | a host, username or password is accepted iff it is a `str` with a non-whitespace character; the stored value is the unstripped input; a non-string raises `TypeError` and a blank string raises `ValueError`, with the source's messages (the same check is at lines 123-127 and 151-155) |
| Validation.CheckPort | src/services/sftp_delivery.py:95-99 | accepted iff an `int` in 1..65535 or `True`; a non-integer raises `TypeError`; an integer out of range, or `False`, raises `ValueError` |
| Validation.CheckPrivateKey | src/services/sftp_delivery.py:179-183 | accepts `None`, `""` and every string with a non-whitespace character, storing `None` or the string; only a non-empty all-whitespace string raises `ValueError`; anything other than `None` or a `str` raises `TypeError` |
| Validation.Construct | src/services/sftp_delivery.py:37-41 | assignments run in the order host, port, username, password, private_key and stop at the first rejected value, whose error is the outcome; each field is overwritten iff it and every earlier field were accepted; success iff all five are accepted; well-formed settings stay well-formed |
| Validation.ReconstructKeepsEarlierAssignments | src/services/sftp_delivery.py:24-38 | re-running `__init__` on the shared instance with a valid host and an invalid port fails with the port's error, but the host is already replaced |
| Validation.Describe | src/services/sftp_delivery.py:383-390 | the rendered dictionary has exactly the keys host, port, username, private_key, in that order, with the current values; no key is the password |
| Validation.DescribeHidesPassword | src/services/sftp_delivery.py:383-390 | changing only the password never changes the rendered dictionary |
| Hashing.NewHash | src/services/sftp_delivery.py:340 | `hashlib.new(name)` succeeds iff the name is known and gives that algorithm; otherwise it raises `ValueError` |
| Hashing.FeedFlatten | src/services/sftp_delivery.py:342-343 | under the incremental-update law, calling `update` on each chunk in turn gives the same state as one `update` on the concatenated chunks |
| Hashing.ChunkCount | src/services/sftp_delivery.py:342 | a chunking where every chunk except the last holds exactly 4096 bytes has ceil(n / 4096) chunks for n bytes |
| Hashing.Reader.Read | src/services/sftp_delivery.py:342 | `f.read(size)` returns the next `size` bytes, or fewer at the end of the file, or `b""` at end of file, and moves the position past them |
| Hashing.FeedChunks | src/services/sftp_delivery.py:342-343 | the read-until-empty loop consumes the whole stream; the chunks it feeds concatenate to exactly the content, in order, each 1 to 4096 bytes and all but the last exactly 4096, ceil(n / 4096) of them; the state is that of updating with each chunk in turn |
| Hashing.DigestStream | src/services/sftp_delivery.py:340-344 | for a lawful algorithm, the hex digest of the streamed content equals the digest of the whole content |
| Transport.FileStore.OpenRead | src/services/sftp_delivery.py:341 | opening a local file for reading succeeds iff the path exists and yields a stream over its content at position 0; otherwise it raises file-not-found |
| Transport.SshClient.Connect | src/services/sftp_delivery.py:264-276 | the client holds a session with the given endpoint and credential iff the server accepts; a rejection raises an authentication error, an unreachable server a connection error |
| Transport.SshClient.OpenSftp | src/services/sftp_delivery.py:250 | on a connected client, yields a new, open channel bound to this client and to the server's files, or raises a channel error |
| Transport.SshClient.Close | src/services/sftp_delivery.py:242-243 | afterwards the client holds no session; closing twice, or closing a client that was never connected, is harmless |
| Transport.SftpChannel.Close | src/services/sftp_delivery.py:239-240 | afterwards the channel is closed |
| Transport.SftpChannel.Put | src/services/sftp_delivery.py:306 | the remote path gets the local file's bytes iff the local file exists, the channel is open and the path is writable; otherwise the remote files are unchanged and the first failing cause is the error |
| Transport.SftpChannel.Get | src/services/sftp_delivery.py:291 | the local path gets the remote file's bytes iff the local path is writable, the channel is open and the remote file exists; otherwise the local files are unchanged and the first failing cause is the error |
| Transport.SftpChannel.OpenRead | src/services/sftp_delivery.py:368 | opening a remote file succeeds iff the channel is open and the file exists, and yields a stream over its content; otherwise it raises socket-closed or a remote I/O error |
| Delivery.CredentialFor | src/services/sftp_delivery.py:262-276 | the key file is used iff `private_key` is a non-empty string; otherwise the password is used, so `""` means password authentication |
| Delivery.EstablishOutcome | src/services/sftp_delivery.py:259-276 | the connection succeeds iff the key loads (when a key is used) and the server accepts; a key that does not load raises before any handshake |
| Delivery.SFTPDelivery.Blank | src/services/sftp_delivery.py:24-27 | the object `__new__` allocates holds no configuration and no handles |
| Delivery.SFTPDelivery.SetHost | src/services/sftp_delivery.py:67-71 | the host becomes the argument iff it is accepted; otherwise the host is unchanged and the setter's error is raised; no other field changes |
| Delivery.SFTPDelivery.SetPort | src/services/sftp_delivery.py:95-99 | the port becomes the argument iff it is accepted; otherwise the port is unchanged and the setter's error is raised |
| Delivery.SFTPDelivery.SetUsername | src/services/sftp_delivery.py:123-127 | the username becomes the argument iff it is accepted; otherwise it is unchanged and the setter's error is raised |
| Delivery.SFTPDelivery.SetPassword | src/services/sftp_delivery.py:151-155 | the password becomes the argument iff it is accepted; otherwise it is unchanged and the setter's error is raised |
| Delivery.SFTPDelivery.SetPrivateKey | src/services/sftp_delivery.py:179-183 | the key path becomes `None` or the string iff it is accepted; otherwise it is unchanged and the setter's error is raised |
| Delivery.SFTPDelivery.Init | src/services/sftp_delivery.py:29-43 | the configuration and the outcome after `__init__` are exactly `Construct` of the previous configuration; both handles become absent only when every setter passed, and are left as they were otherwise |
| Delivery.SFTPDelivery.Close | src/services/sftp_delivery.py:235-243 | closes the SFTP client and then the connection, each only if present; it never raises; it does not reset either handle |
| Delivery.SFTPDelivery.EstablishSshConnection | src/services/sftp_delivery.py:252-276 | always stores a new SSH client; it is connected, with the configured endpoint and the credential chosen by `private_key`, iff the establish outcome passes |
| Delivery.SFTPDelivery.Connect | src/services/sftp_delivery.py:245-250 | a fresh connection every call, with no check for an existing one (a previous connection is left as it was); on success the SFTP client is a new open channel on that very connection; on failure the SFTP client is unchanged |
| Delivery.SFTPDelivery.DownloadFile | src/services/sftp_delivery.py:278-291 | with no SFTP client it raises "not established" and changes nothing; otherwise `local[local_file]` becomes `remote[remote_file]` iff the transfer can run, and each failure cause is named |
| Delivery.SFTPDelivery.UploadFile | src/services/sftp_delivery.py:293-306 | with no SFTP client it raises "not established" and changes nothing; otherwise `remote[remote_file]` becomes `local[local_file]` iff the transfer can run, and each failure cause is named |
| Delivery.SFTPDelivery.CalculateChecksum | src/services/sftp_delivery.py:329-344 | the result is the hex digest of the whole local file; an unknown algorithm raises first, a missing file next |
| Delivery.SFTPDelivery.VerifyUpload | src/services/sftp_delivery.py:346-374 | with no SFTP client it raises "not established"; otherwise, when every file and the algorithm are there, it returns whether the local and remote digests are equal, so identical contents give true; each failure cause is named, in the source's order |
| Delivery.SFTPDelivery.Upload | src/services/sftp_delivery.py:308-327 | with no SFTP client it raises "not established" and writes nothing; after a successful copy the remote file equals the local one and the result is true; an unknown algorithm raises only after the copy; a failed copy leaves the remote files unchanged |
| Delivery.Registry.constructor | src/services/sftp_delivery.py:22 | no instance exists yet |
| Delivery.Registry.New | src/services/sftp_delivery.py:22-43 | every construction runs `__init__` on the one shared instance, allocated on first use; the instance's configuration is `Construct` of what it held before; the call returns the instance iff `__init__` passed, and raises its error otherwise; a failed `__init__` leaves the shared instance's `connection` and `sftp_client` as they were |

## Left out

- paramiko itself is not modelled: the SSH handshake, host-key policy (`AutoAddPolicy`, which accepts unknown hosts), `RSAKey.from_private_key_file`, `open_sftp`, `put`, `get` and `open`. What they decide comes in as parameters, and remote behaviour is a path-to-bytes map.
- The hash algorithms (MD5 by default, or any other fixed-length name `hashlib` knows) are uninterpreted. The incremental-update law is a precondition (`LawfulLibrary`) of the members that hash, not an axiom. The model proves nothing about collisions.
- Variable-length algorithms (`shake_128`, `shake_256`) are not modelled. `hashlib.new` accepts them (lines 340, 369), but their `hexdigest()` with no length raises `TypeError` (lines 344, 372), and in `upload` that happens after the file has been copied and the local file hashed. In the model `hexdigest` is total, so such a name is either absent from the library (a `ValueError` before any file is opened) or gives a digest.
- Upload: never returns false in the model, because a successful `put` always stores exactly the local bytes; a copy corrupted in transit or replaced on the server between `put` and the read-back is not modelled. A false result is reachable only through `VerifyUpload` called on differing contents.
- The key file's loading is a boolean parameter. It is not tied to the local file store.
- Failed `put`/`get` leave both stores unchanged. Whatever paramiko has already done by then (a truncated local target, a partly written remote file) is not modelled.
- The size check that paramiko's `put` makes after writing is not modelled.
- I/O errors in the middle of a read are not modelled.
- The `connection` and `sftp_client` property setters and their `isinstance` checks (lines 206-208, 231-233) are left out: Dafny's types already guarantee them.
- `Registry.New` starts a fresh instance from placeholder values (`Unset`). In Python those attributes do not exist until their setter first succeeds. The difference cannot be observed, because the instance is returned only after a complete `__init__`.
- `Describe` gives the dictionary as ordered key/value pairs. The `repr` text of `str(dict)` (quoting, escaping) is not modelled.
- Exception messages from paramiko and from file opening are not modelled. Only their kind and path are.
- Concurrency, and aliasing of the process-wide instance beyond the one shared object, are not modelled.
- The data-source wrappers (quipus/data_sources/dataframe_data_source.py), the CSV/XLSX loader tests and quipus/__init__.py are not part of this model. They are pandas wrappers and re-exports.
