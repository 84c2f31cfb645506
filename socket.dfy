/** fSocket: one blocking, line-oriented TCP or TLS client connection.

    The PHP stream primitives are inputs here: `fsockopen` and `stream_socket_enable_crypto`
    are function parameters, and what `stream_select`, `fgetc`, `fgets` and `fwrite` return
    is given as sequences of results (see `LineReader`, `Readiness` and `Sender`). */
module Sockets {
  import opened Errors
  import opened Php
  import opened Checks
  import LineReader
  import Readiness
  import Sender

  const NotConnectedMessage := "Call connect() on the socket first."
  const StrictlySecureMessage := "Cannot honour strictly secure connection requests."
  const SecureUnavailableMessage :=
    "There was an error connecting the socket. A secure connection was requested, but was not available. Try a non-secure connection instead."

  function OpenFailedMessage(errorNumber: int, errorString: string): (message: string) {
    "There was an error connecting the socket. Error number [" + IntToString(errorNumber) +
    "], message [" + errorString + "]."
  }

  function WriteFailedMessage(host: string, port: int): (message: string) {
    "Unable to write data to server at " + host + " on port " + IntToString(port)
  }

  /** The process-wide `fSocket::$strictly_secure` flag. */
  class Config {
    var strictlySecure: bool

    constructor ()
      ensures !strictlySecure
    {
      strictlySecure := false;
    }

    /** `setStrictlySecure`: only a boolean is accepted, and the flag is left alone otherwise. */
    method SetStrictlySecure(strict: Value) returns (r: Outcome)
      modifies this
      ensures strict.PBool? ==> r == Pass && strictlySecure == strict.b
      ensures !strict.PBool? ==> r == Fail(ProgrammerError(ParameterMessage("strict", "a bool")))
      ensures !strict.PBool? ==> strictlySecure == old(strictlySecure)
    {
      r := RequireBool(strict, "strict");
      if r.Pass? {
        strictlySecure := strict.b;
      }
    }
  }

  /** The fields a successful construction stores. */
  datatype Params = Params(host: string, port: int, secure: bool, timeout: Value)

  /** The checks and coercions of `__construct`, in their order: host, then port, then secure,
      then the strict-TLS rule. `timeout` is stored unchecked, NULL standing for the
      `default_socket_timeout` setting (`iniTimeout`); `secure` is kept only where the
      OpenSSL extension is loaded. */
  function Validate(host: Value, port: Value, secure: Value, timeout: Value,
                    strictlySecure: bool, opensslLoaded: bool, iniTimeout: string): (r: Result<Params>)
    ensures r.Ok? <==>
      && host.PStr? && host.s != "" && host.s != "0"
      && IsNumeric(port)
      && secure.PBool?
      && !(secure.b && strictlySecure && !opensslLoaded)
    ensures !(host.PStr? && host.s != "" && host.s != "0") ==>
      r == Err(ProgrammerError(ParameterMessage("host", "a non-empty string")))
    ensures host.PStr? && host.s != "" && host.s != "0" && !IsNumeric(port) ==>
      r == Err(ProgrammerError(ParameterMessage("port", "numeric")))
    ensures host.PStr? && host.s != "" && host.s != "0" && IsNumeric(port) && !secure.PBool? ==>
      r == Err(ProgrammerError(ParameterMessage("secure", "a bool")))
    ensures r.Err? && r.error.ConnectivityError? ==>
      r.error.message == StrictlySecureMessage && secure == PBool(true) && strictlySecure && !opensslLoaded
    ensures host.PStr? && host.s != "" && host.s != "0" && IsNumeric(port) && secure == PBool(true)
            && strictlySecure && !opensslLoaded ==>
      r == Err(ConnectivityError(StrictlySecureMessage))
    ensures r.Ok? ==> r.value.host == host.s && r.value.port == IntCast(port)
    ensures r.Ok? ==> r.value.timeout == if timeout.PNull? then PStr(iniTimeout) else timeout
    ensures r.Ok? ==> (r.value.secure <==> secure.b && opensslLoaded)
    // never upgraded, and in strict mode never silently downgraded
    ensures r.Ok? && r.value.secure ==> secure == PBool(true)
    ensures r.Ok? && strictlySecure && secure == PBool(true) ==> r.value.secure
  {
    match RequireNonEmptyString(host, "host")
    case Fail(e) => Err(e)
    case Pass =>
      match RequireNumeric(port, "port")
      case Fail(e) => Err(e)
      case Pass =>
        var storedTimeout := if timeout.PNull? then PStr(iniTimeout) else timeout;
        match RequireBool(secure, "secure")
        case Fail(e) => Err(e)
        case Pass =>
          if secure.b && strictlySecure && !opensslLoaded then Err(ConnectivityError(StrictlySecureMessage))
          else Ok(Params(host.s, IntCast(port), secure.b && opensslLoaded, storedTimeout))
  }

  /** A port given as the decimal string of a number is stored as that number. */
  lemma PortStringIsCast(host: string, n: int, strictlySecure: bool, opensslLoaded: bool, iniTimeout: string)
    requires host != "" && host != "0"
    ensures var r := Validate(PStr(host), PStr(IntToString(n)), PBool(false), PNull, strictlySecure, opensslLoaded, iniTimeout);
      r.Ok? && r.value.port == n && !r.value.secure && r.value.timeout == PStr(iniTimeout)
  {
    IntToStringRoundTrip(n);
  }

  /** What `fsockopen` gives back: the stream (FALSE as `None`), the error number and
      string it fills in, and the warnings the error capture collected meanwhile. */
  datatype OpenResult = OpenResult(handle: Option<nat>, errorNumber: int, errorString: string, warnings: seq<string>)

  /** `stopErrorCapture('#ssl#i')` returns a warning: one of them mentions SSL in any case. */
  predicate SslWarning(warnings: seq<string>) {
    exists i :: 0 <= i < |warnings| && ContainsIgnoringCase(warnings[i], "ssl")
  }

  class Socket {
    const host: string
    const port: int
    const secure: bool
    const timeout: Value

    /** `$connection`: FALSE (`None`) or the stream handle. */
    var connection: Option<nat>

    /** The handles `fclose` has been called on, in order. */
    ghost var released: seq<nat>

    /** The constructor proper, once `Validate` has accepted the arguments: no connection yet. */
    constructor (p: Params)
      ensures host == p.host && port == p.port && secure == p.secure && timeout == p.timeout
      ensures connection == None && released == []
    {
      host, port, secure, timeout := p.host, p.port, p.secure, p.timeout;
      connection := None;
      released := [];
    }

    /** `isConnected`. */
    /** `isConnected`: `$this->connection` is not FALSE, which holds exactly while a stream is held. */
    function IsConnected(): (connected: bool)
      reads this
      ensures connected <==> connection.Some?
    {
      ConnectionValue() != PBool(false)
    }

    /** `$this->connection` as the PHP value `requireNotFalse` tests: a stream resource or FALSE. */
    function ConnectionValue(): (v: Value)
      reads this
      ensures Truthy(v) <==> connection.Some?
    {
      if connection.Some? then PResource(connection.value) else PBool(false)
    }

    /** `requireNotFalse($this->connection, ...)`, which guards every other operation. */
    function RequireConnection(): (r: Outcome)
      reads this
      ensures r.Pass? <==> IsConnected()
      ensures r.Fail? ==> r.error == ProgrammerError(NotConnectedMessage)
    {
      RequireNotFalse(ConnectionValue(), NotConnectedMessage)
    }

    /** `getSecure`: the stored flag, once connected. */
    function GetSecure(): (r: Result<bool>)
      reads this
      ensures r.Ok? <==> IsConnected()
      ensures r.Ok? ==> r.value == secure
      ensures r.Err? ==> r.error == ProgrammerError(NotConnectedMessage)
    {
      match RequireConnection()
      case Fail(e) => Err(e)
      case Pass => Ok(secure)
    }

    /** `getHost`: the stored host, once connected. */
    function GetHost(): (r: Result<string>)
      reads this
      ensures r.Ok? <==> IsConnected()
      ensures r.Ok? ==> r.value == host
      ensures r.Err? ==> r.error == ProgrammerError(NotConnectedMessage)
    {
      match RequireConnection()
      case Fail(e) => Err(e)
      case Pass => Ok(host)
    }

    /** `getPort`: the stored port, once connected. */
    function GetPort(): (r: Result<int>)
      reads this
      ensures r.Ok? <==> IsConnected()
      ensures r.Ok? ==> r.value == port
      ensures r.Err? ==> r.error == ProgrammerError(NotConnectedMessage)
    {
      match RequireConnection()
      case Fail(e) => Err(e)
      case Pass => Ok(port)
    }

    /** `getTimeout`: the stored timeout, once connected. */
    function GetTimeout(): (r: Result<Value>)
      reads this
      ensures r.Ok? <==> IsConnected()
      ensures r.Ok? ==> r.value == timeout
      ensures r.Err? ==> r.error == ProgrammerError(NotConnectedMessage)
    {
      match RequireConnection()
      case Fail(e) => Err(e)
      case Pass => Ok(timeout)
    }

    /** `setCrypto`: hands the stream, state and flags to `stream_socket_enable_crypto` and
        returns its result untouched, once connected. */
    function SetCrypto(state: Value, flags: Value, enableCrypto: (nat, Value, Value) -> Value): (r: Result<Value>)
      reads this
      ensures r.Ok? <==> IsConnected()
      ensures r.Ok? ==> r.value == enableCrypto(connection.value, state, flags)
      ensures r.Err? ==> r.error == ProgrammerError(NotConnectedMessage)
    {
      match RequireConnection()
      case Fail(e) => Err(e)
      case Pass => Ok(enableCrypto(connection.value, state, flags))
    }

    /** The address `fsockopen` is given: the host, behind `tls://` for a secure socket. */
    function Target(): (t: string)
      ensures secure ==> t == "tls://" + host
      ensures !secure ==> t == host
    {
      if secure then "tls://" + host else host
    }

    /** `connect`: a connected socket is left as it is. Otherwise the stream `fsockopen`
        returns is stored, even when an SSL warning then raises the "secure connection not
        available" error; a missing stream raises the error with the error number and
        message. The socket itself is returned, for chaining. */
    method Connect(open: (string, int, Value) -> OpenResult) returns (r: Result<Socket>)
      modifies this
      ensures released == old(released)
      ensures old(connection).Some? ==> connection == old(connection) && r == Ok(this)
      ensures old(connection).None? ==>
        var attempt := open(Target(), port, timeout);
        && connection == attempt.handle
        && (SslWarning(attempt.warnings) ==> r == Err(ConnectivityError(SecureUnavailableMessage)))
        && (!SslWarning(attempt.warnings) && attempt.handle.None? ==>
              r == Err(ConnectivityError(OpenFailedMessage(attempt.errorNumber, attempt.errorString))))
        && (!SslWarning(attempt.warnings) && attempt.handle.Some? ==> r == Ok(this))
      ensures r.Ok? ==> r.value == this && IsConnected()
    {
      if connection.None? {
        var attempt := open(Target(), port, timeout);
        connection := attempt.handle;
        if SslWarning(attempt.warnings) {
          return Err(ConnectivityError(SecureUnavailableMessage));
        }
        if connection.None? {
          return Err(ConnectivityError(OpenFailedMessage(attempt.errorNumber, attempt.errorString)));
        }
      }
      r := Ok(this);
    }

    /** `close`: releases a held stream exactly once and forgets it; on a socket without one
        it does nothing, so it can be called any number of times. */
    method Close()
      modifies this
      ensures connection == None
      ensures old(connection).Some? ==> released == old(released) + [old(connection).value]
      ensures old(connection).None? ==> released == old(released)
    {
      if connection.Some? {
        released := released + [connection.value];
        connection := None;
      }
    }

    /** `__destruct`: closes the socket. */
    method Destruct()
      modifies this
      ensures connection == None
      ensures old(connection).Some? ==> released == old(released) + [old(connection).value]
      ensures old(connection).None? ==> released == old(released)
    {
      Close();
    }

    /** `select`: the broken-select classification is looked up (and cached) first, then the
        Windows branch is tried before the polling fallback. Both `stream_select` branches
        return what the call returns (`native`); the fallback returns the first data character
        `fgetc` yields, or FALSE. */
    method Select(platform: Readiness.Platform, env: Readiness.Env, native: Value,
                  chars: seq<Option<char>>, inBudget: seq<bool>) returns (r: Value)
      modifies platform
      ensures old(platform.brokenSelect).Some? ==> platform.brokenSelect == old(platform.brokenSelect)
      ensures old(platform.brokenSelect).None? ==> platform.brokenSelect == Some(Readiness.BrokenSelectOn(env))
      ensures platform.brokenSelect.Some?
      ensures Readiness.ChooseStrategy(env, platform.brokenSelect.value) == Readiness.PollingFallback ==>
        r == Readiness.PollFrom(chars, inBudget, 0).value
      ensures Readiness.ChooseStrategy(env, platform.brokenSelect.value) != Readiness.PollingFallback ==>
        r == native
    {
      var broken := platform.BrokenSelect(env);
      var strategy := Readiness.ChooseStrategy(env, broken);
      if strategy == Readiness.SuppressedSelect {
        r := native;
      } else if strategy == Readiness.PollingFallback {
        var attempts;
        r, attempts := Readiness.PollForData(chars, inBudget);
      } else {
        r := native;
      }
    }

    /** `read($expect)`: once connected, the lines of `f` without their terminators, as
        `LineReader.Response` defines them: empty when the first `select` finds nothing,
        otherwise stopping at the count, at the first line matching the pattern, when the
        short `select` finds nothing (NULL), or at the end of the stream. */
    method Read(expected: Value, f: LineReader.Feed, matches: (string, string) -> bool) returns (r: Result<seq<string>>)
      ensures r.Ok? <==> IsConnected()
      ensures r.Err? ==> r.error == ProgrammerError(NotConnectedMessage)
      ensures r.Ok? ==> r.value == LineReader.Response(expected, f, matches)
      ensures r.Ok? ==> |r.value| <= |f.lines|
      ensures r.Ok? && expected.PInt? && expected.i >= 1 ==> |r.value| <= expected.i
    {
      var check := RequireConnection();
      if check.Fail? {
        return Err(check.error);
      }
      var response := LineReader.ReadLoop(expected, f, matches);
      r := Ok(response);
      if expected.PInt? && Truthy(LineReader.Ready(f, 0)) {
        LineReader.ResponseToCount(expected.i, f, matches);
      }
    }

    /** `write($data)`, once connected and given a non-empty string: the loop of
        `Sender.Transmit`, counting down `decodedLength` (what `strlen(utf8_decode($data))`
        gives, never more than the byte length). A failed `fwrite` raises the error naming
        host and port. */
    method Write(data: Value, decodedLength: nat, writes: seq<Option<nat>>) returns (r: Result<nat>, offered: seq<string>)
      requires data.PStr? ==> decodedLength <= |data.s|
      ensures !IsConnected() ==> r == Err(ProgrammerError(NotConnectedMessage)) && offered == []
      ensures IsConnected() && !(data.PStr? && data.s != "" && data.s != "0") ==>
        r == Err(ProgrammerError(ParameterMessage("data", "a non-empty string"))) && offered == []
      ensures IsConnected() && data.PStr? && data.s != "" && data.s != "0" ==>
        var s := Sender.Send(data.s, decodedLength, writes);
        && (r.Ok? <==> s.total.Some?)
        && (r.Ok? ==> r.value == s.total.value && decodedLength <= r.value <= |data.s|)
        && (r.Err? ==> r.error == ConnectivityError(WriteFailedMessage(host, port)))
        && |offered| == s.calls
        && (forall j :: 0 <= j < |offered| ==> offered[j] == data.s[Sender.Offset(data.s, writes, j)..])
      ensures r.Ok? && data.PStr? && decodedLength == |data.s| ==> r.value == |data.s|
    {
      offered := [];
      var check := RequireConnection();
      if check.Fail? {
        return Err(check.error), [];
      }
      check := RequireNonEmptyString(data, "data");
      if check.Fail? {
        return Err(check.error), [];
      }
      var sent;
      sent, offered := Sender.Transmit(data.s, decodedLength, writes);
      if sent.None? {
        return Err(ConnectivityError(WriteFailedMessage(host, port))), offered;
      }
      r := Ok(sent.value);
    }

    /** `write` with the count taken over bytes (`strlen($data)`), as the method's
        documentation promises: a returned total is always the full byte length. */
    method WriteBytes(data: Value, writes: seq<Option<nat>>) returns (r: Result<nat>, offered: seq<string>)
      ensures r.Ok? <==> (IsConnected() && data.PStr? && data.s != "" && data.s != "0" &&
                          Sender.Send(data.s, |data.s|, writes).total.Some?)
      ensures r.Ok? ==> r.value == |data.s|
      ensures r.Err? && IsConnected() && data.PStr? && data.s != "" && data.s != "0" ==>
        r.error == ConnectivityError(WriteFailedMessage(host, port))
    {
      var n := if data.PStr? then |data.s| else 0;
      r, offered := Write(data, n, writes);
    }
  }

  /** `new fSocket($host, $port, $secure, $timeout)`: the checks of `Validate`, then an
      unconnected socket holding what they accepted. */
  method NewSocket(config: Config, opensslLoaded: bool, iniTimeout: string,
                   host: Value, port: Value, secure: Value, timeout: Value) returns (r: Result<Socket>)
    ensures var v := Validate(host, port, secure, timeout, config.strictlySecure, opensslLoaded, iniTimeout);
      && (r.Ok? <==> v.Ok?)
      && (r.Err? ==> r.error == v.error)
      && (r.Ok? ==>
            && fresh(r.value) && !r.value.IsConnected() && r.value.released == []
            && r.value.host == v.value.host && r.value.port == v.value.port
            && r.value.secure == v.value.secure && r.value.timeout == v.value.timeout)
  {
    var v := Validate(host, port, secure, timeout, config.strictlySecure, opensslLoaded, iniTimeout);
    if v.Err? {
      return Err(v.error);
    }
    var s := new Socket(v.value);
    r := Ok(s);
  }
}
