/**
 * The validation performed by the property setters of SFTPDelivery, the order in which `__init__`
 * runs them, and the dictionary `__str__` renders.
 */
module Validation {
  import opened Wrappers
  import opened Errors
  import opened PyText

  /** The five configuration attributes of a delivery session. */
  datatype Settings = Settings(host: string, port: PyValue, username: string, password: string, privateKey: Option<string>)

  /** The arguments of `SFTPDelivery(host, username, password, port=22, private_key=None)`, in signature order. */
  datatype InitArgs = InitArgs(host: PyValue, username: PyValue, password: PyValue, port: PyValue, privateKey: PyValue)

  /** The attributes after `__init__` has run its setters, and whether it got through all of them. */
  datatype Construction = Construction(settings: Settings, outcome: Outcome<Error>)

  const DefaultPort: PyValue := PyInt(22)

  /** A text setter (host, username, password) accepts a `str` whose `strip()` is non-empty. */
  predicate AcceptedText(v: PyValue) {
    v.PyStr? && HasNonSpace(v.s)
  }

  /** The port setter accepts an `int` in `range(1, 65536)`; `bool` is a subclass of `int`, so `True` (== 1) passes. */
  predicate AcceptedPort(v: PyValue) {
    (v.PyInt? && 1 <= v.i <= 65535) || v == PyBool(true)
  }

  /** The private-key setter accepts `None`, the empty string, and any string with a non-whitespace character. */
  predicate AcceptedKey(v: PyValue) {
    v.PyNone? || (v.PyStr? && (v.s == [] || HasNonSpace(v.s)))
  }

  /** Every attribute holds a value its setter accepts. */
  predicate WellFormed(s: Settings) {
    HasNonSpace(s.host) && AcceptedPort(s.port) && HasNonSpace(s.username) && HasNonSpace(s.password) &&
    (s.privateKey.Some? ==> AcceptedKey(PyStr(s.privateKey.value)))
  }

  /** The error a text setter raises for a value it rejects: `TypeError` for a non-string, `ValueError` for a blank one. */
  function TextError(field: string, v: PyValue): Error {
    if v.PyStr? then ValueError("'" + field + "' cannot be an empty string.") else TypeError("'" + field + "' must be a string.")
  }

  /** The error the port setter raises for a value it rejects. */
  function PortError(v: PyValue): Error {
    if v.PyInt? || v.PyBool? then ValueError("'port' must be between 1 and 65535.") else TypeError("'port' must be an integer.")
  }

  /** The error the private-key setter raises for a value it rejects. */
  function KeyError(v: PyValue): Error {
    if v.PyNone? || v.PyStr? then ValueError("'private_key' cannot be an empty string.")
    else TypeError("'private_key' must be a string or None.")
  }

  /** The value the private-key setter stores for an accepted argument. */
  function KeyValue(v: PyValue): Option<string> {
    if v.PyStr? then Some(v.s) else None
  }

  /**
   * The `host`, `username` and `password` setters: `isinstance(v, str)`, then `not v.strip()`.
   * A value is accepted iff it is a string with a non-whitespace character, and it is stored unstripped.
   */
  function CheckText(field: string, v: PyValue): (r: Result<string, Error>)
    ensures r == if AcceptedText(v) then Success(v.s) else Failure(TextError(field, v))
  {
    match v
    case PyStr(s) =>
      StripEmptyIff(s);
      if Strip(s) == [] then Failure(ValueError("'" + field + "' cannot be an empty string.")) else Success(s)
    case _ => Failure(TypeError("'" + field + "' must be a string."))
  }

  /** The integer value Python uses for an `int` or a `bool` in a comparison. */
  function IntValue(v: PyValue): int
    requires v.PyInt? || v.PyBool?
  {
    if v.PyInt? then v.i else if v.b then 1 else 0
  }

  /** The `port` setter: `isinstance(port, int)`, then `port in range(1, 65536)`. */
  function CheckPort(v: PyValue): (r: Result<PyValue, Error>)
    ensures r == if AcceptedPort(v) then Success(v) else Failure(PortError(v))
  {
    if !(v.PyInt? || v.PyBool?) then Failure(TypeError("'port' must be an integer."))
    else if !(1 <= IntValue(v) < 65536) then Failure(ValueError("'port' must be between 1 and 65535."))
    else Success(v)
  }

  /**
   * The `private_key` setter: `None` or a `str`; a truthy (non-empty) string must not strip to empty.
   * The empty string is falsy, so the blank test is skipped and "" is stored.
   */
  function CheckPrivateKey(v: PyValue): (r: Result<Option<string>, Error>)
    ensures r == if AcceptedKey(v) then Success(KeyValue(v)) else Failure(KeyError(v))
  {
    if !v.PyNone? && !v.PyStr? then Failure(TypeError("'private_key' must be a string or None."))
    else if v.PyStr? && v.s != [] && (StripEmptyIff(v.s); Strip(v.s) == []) then
      Failure(ValueError("'private_key' cannot be an empty string."))
    else Success(if v.PyNone? then None else Some(v.s))
  }

  /**
   * `__init__`'s five assignments, in the order host, port, username, password, private_key, stopping at the
   * first setter that raises. Because `__new__` hands back the one shared instance, `s` holds what an earlier
   * construction left there, and the fields assigned before the failing one stay overwritten.
   */
  function Construct(s: Settings, a: InitArgs): (r: Construction)
    ensures r.outcome.Pass? <==>
      AcceptedText(a.host) && AcceptedPort(a.port) && AcceptedText(a.username) && AcceptedText(a.password) && AcceptedKey(a.privateKey)
    ensures r.settings.host == if AcceptedText(a.host) then a.host.s else s.host
    ensures r.settings.port == if AcceptedText(a.host) && AcceptedPort(a.port) then a.port else s.port
    ensures r.settings.username ==
      if AcceptedText(a.host) && AcceptedPort(a.port) && AcceptedText(a.username) then a.username.s else s.username
    ensures r.settings.password ==
      if AcceptedText(a.host) && AcceptedPort(a.port) && AcceptedText(a.username) && AcceptedText(a.password)
      then a.password.s else s.password
    ensures r.settings.privateKey == if r.outcome.Pass? then KeyValue(a.privateKey) else s.privateKey
    ensures !AcceptedText(a.host) ==> r.outcome == Fail(TextError("host", a.host))
    ensures AcceptedText(a.host) && !AcceptedPort(a.port) ==> r.outcome == Fail(PortError(a.port))
    ensures AcceptedText(a.host) && AcceptedPort(a.port) && !AcceptedText(a.username) ==>
      r.outcome == Fail(TextError("username", a.username))
    ensures AcceptedText(a.host) && AcceptedPort(a.port) && AcceptedText(a.username) && !AcceptedText(a.password) ==>
      r.outcome == Fail(TextError("password", a.password))
    ensures (AcceptedText(a.host) && AcceptedPort(a.port) && AcceptedText(a.username) && AcceptedText(a.password)
             && !AcceptedKey(a.privateKey)) ==>
      r.outcome == Fail(KeyError(a.privateKey))
    ensures r.outcome.Pass? ==> WellFormed(r.settings)
    ensures WellFormed(s) ==> WellFormed(r.settings)
  {
    if !AcceptedText(a.host) then Construction(s, Fail(TextError("host", a.host))) else
    var s1 := s.(host := a.host.s);
    if !AcceptedPort(a.port) then Construction(s1, Fail(PortError(a.port))) else
    var s2 := s1.(port := a.port);
    if !AcceptedText(a.username) then Construction(s2, Fail(TextError("username", a.username))) else
    var s3 := s2.(username := a.username.s);
    if !AcceptedText(a.password) then Construction(s3, Fail(TextError("password", a.password))) else
    var s4 := s3.(password := a.password.s);
    if !AcceptedKey(a.privateKey) then Construction(s4, Fail(KeyError(a.privateKey))) else
    Construction(s4.(privateKey := KeyValue(a.privateKey)), Pass)
  }

  /**
   * `str(self)`: the dictionary of host, port, username and private_key, in that order, as key/value pairs.
   * The password is not among the keys.
   */
  function Describe(s: Settings): (d: seq<(string, PyValue)>)
    ensures |d| == 4
    ensures forall i :: 0 <= i < |d| ==> d[i].0 != "password"
    ensures d[0] == ("host", PyStr(s.host)) && d[1] == ("port", s.port) && d[2] == ("username", PyStr(s.username))
    ensures d[3] == ("private_key", if s.privateKey.Some? then PyStr(s.privateKey.value) else PyNone)
  {
    [("host", PyStr(s.host)), ("port", s.port), ("username", PyStr(s.username)),
     ("private_key", if s.privateKey.None? then PyNone else PyStr(s.privateKey.value))]
  }

  /** Changing only the password never changes the rendered dictionary. */
  lemma DescribeHidesPassword(s: Settings, password: string)
    ensures Describe(s.(password := password)) == Describe(s)
  {
  }

  /** Reconstructing the shared instance with a valid host and an invalid port fails on the port, yet the host is already overwritten. */
  lemma ReconstructKeepsEarlierAssignments(s: Settings, a: InitArgs)
    requires AcceptedText(a.host) && !AcceptedPort(a.port)
    ensures Construct(s, a) == Construction(s.(host := a.host.s), Fail(PortError(a.port)))
  {
  }
}
