/** The scenarios of fSocketTest, restated as methods whose postconditions are verified against the model: a socket to www.google.com port 80,
    with the network replaced by the given `fsockopen` and `fwrite` results. */
module SocketScenarios {
  import opened Errors
  import opened Php
  import opened Sockets
  import Sender

  const TestHost := "www.google.com"

  /** testCreateDestroy: a new socket is not connected, and destroying it is harmless. */
  method CreateDestroy(config: Config, opensslLoaded: bool, iniTimeout: string) returns (connected: bool)
    ensures !connected
  {
    var r := NewSocket(config, opensslLoaded, iniTimeout, PStr(TestHost), PInt(80), PBool(false), PNull);
    if r.Err? {
      assert false;
    }
    var sock := r.value;
    connected := sock.IsConnected();
    sock.Destruct();
  }

  /** testCreateConnectDestroy and testCreateConnectMultiCloseDestroy: after a successful
      `connect` the socket is connected; after one or more `close` calls it is not, and the
      stream was released exactly once. */
  method ConnectMultiClose(config: Config, opensslLoaded: bool, iniTimeout: string,
                           open: (string, int, Value) -> OpenResult) returns (afterConnect: bool, afterClose: bool, ghost releases: nat)
    requires open(TestHost, 80, PStr(iniTimeout)).handle.Some?
    requires !SslWarning(open(TestHost, 80, PStr(iniTimeout)).warnings)
    ensures afterConnect && !afterClose && releases == 1
  {
    var r := NewSocket(config, opensslLoaded, iniTimeout, PStr(TestHost), PInt(80), PBool(false), PNull);
    if r.Err? {
      assert false;
    }
    var sock := r.value;
    var c := sock.Connect(open);
    afterConnect := sock.IsConnected();
    sock.Close();
    sock.Close();
    sock.Close();
    afterClose := sock.IsConnected();
    releases := |sock.released|;
    sock.Destruct();
  }

  /** testNonSecureHTTP: writing the seven-byte request line `"GET /\r\n"` on a connected
      socket returns 7 when `fwrite` takes it in one call. */
  method NonSecureRequest(config: Config, opensslLoaded: bool, iniTimeout: string,
                          open: (string, int, Value) -> OpenResult) returns (sent: Result<nat>)
    requires open(TestHost, 80, PStr(iniTimeout)).handle.Some?
    requires !SslWarning(open(TestHost, 80, PStr(iniTimeout)).warnings)
    ensures sent == Ok(7)
  {
    var r := NewSocket(config, opensslLoaded, iniTimeout, PStr(TestHost), PInt(80), PBool(false), PNull);
    if r.Err? {
      assert false;
    }
    var sock := r.value;
    var c := sock.Connect(open);
    var header := "GET /\r\n";
    Sender.SendInOneCall(header, 7, [Some(7)]);
    var offered;
    sent, offered := sock.Write(PStr(header), 7, [Some(7)]);
    sock.Destruct();
  }
}
