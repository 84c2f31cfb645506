# fSocket in Dafny

A model of `fSocket`, Flourish's blocking, line-oriented TCP/TLS client socket, with proofs
of what its code promises. The model covers the following:

- the `requireX` parameter checks;
- the process-wide strictly-secure flag;
- construction, with its rule that `secure` may be downgraded (when OpenSSL is missing) but
  never upgraded;
- the connection life cycle (`connect`, `close`, `__destruct`, `isConnected`, the getters,
  `setCrypto`);
- the `select` readiness wait, with its three platform strategies and the polling fallback;
- the line loop of `read` and the accumulation loop of `write`.

The PHP stream primitives are replaced by inputs:

- `fsockopen` and `stream_socket_enable_crypto` are function parameters;
- `stream_select`, `fgetc`, `fgets` and `fwrite` results are sequences;
- the OpenSSL check, the OS and version probes, `ini_get('default_socket_timeout')` and the
  warning capture are plain values.

What is left after that substitution is sequential code, modelled in its own form:

- `fSocket` is a class with immutable `host`, `port`, `secure` and `timeout` and a mutable
  `connection`;
- the three loops are `while` loops proved against specification functions;
- the checks are functions.

Files:

- `errors.dfy`: the two exception kinds (programmer error and connectivity error) and the
  result types that carry them.
- `php.dfy`: PHP values, truthiness (`empty`), `is_numeric`, the `(int)` cast and
  integer-to-string conversion.
- `checks.dfy`: `requireBool`, `requireInt`, `requireNumeric`, `requireNonEmptyString` and
  `requireNotFalse`.
- `readiness.dfy`: the strategy choice of `select`, the cached broken-select classification
  and the `fgetc` polling loop.
- `lines.dfy`: the response of `read`, defined line by line, its stopping rules and the loop
  that computes it.
- `sender.dfy`: the `fwrite` accumulation loop of `write` and its trace.
- `socket.dfy`: the strictly-secure flag, construction and the `Socket` class.
- `scenarios.dfy`: the unit tests of fSocket, restated as methods whose postconditions are verified
  against the model.

### Where the code and its description differ (the model follows the code)

- **Timeout:** `timeout` is never checked. A non-NULL timeout of any type is stored as given.
- **Host:** `requireNonEmptyString` uses PHP `empty`, so the host `"0"` is refused as well
  as `""`.
- **Byte count:** `write` counts down `strlen(utf8_decode($data))`, not the byte length.
  Its result equals the byte length only for single-byte data (see Findings).
- **Cached classification:** only the broken-select classification is computed once and
  cached. The Windows/PHP 5.3 test runs on every call, and it takes precedence.
- **SSL warning:** when `fsockopen` returns a stream but an SSL warning was captured,
  `connect` raises the "secure connection not available" error. The stream stays stored,
  so the socket reports itself connected afterwards.
- **Pre-read `"0"`:** a character `"0"` pre-read by the polling `select` is falsy in PHP.
  `read` then returns nothing, or stops reading (`PreReadZeroIsDropped`).

## Model

| member | source | states |
|---|---|---|
| `Checks.RequireBool` | classes/fSocket.php:23-28 | passes exactly PHP booleans; otherwise a programmer error naming the parameter |
| `Checks.RequireInt` | classes/fSocket.php:30-35 | passes exactly PHP integers (not numeric strings or floats); otherwise a programmer error |
| `Checks.RequireNumeric` | classes/fSocket.php:37-42 | passes exactly `is_numeric` values: every int and float, numeric strings; never null, bool or a resource |
| `Checks.RequireNonEmptyString` | classes/fSocket.php:44-49 | passes exactly strings other than `""` and `"0"`; otherwise a programmer error |
| `Checks.RequireNotFalse` | classes/fSocket.php:51-56 | passes exactly the truthy values (`!$var` fails): FALSE, NULL, `""`, `"0"`, 0 and 0.0 fail with the caller's message; a resource passes |
| `Php.IntToStringRoundTrip` | classes/fSocket.php:121-122 | an integer written as a decimal string is numeric and `(int)` casts it back to itself |
| `Sockets.Config.SetStrictlySecure` | classes/fSocket.php:66-72 | a boolean sets the process-wide flag; any other value is a programmer error and leaves the flag unchanged |
| `Sockets.Validate` | classes/fSocket.php:116-135 | succeeds iff the host is a non-empty string, the port is numeric, `secure` is a bool and the strict-TLS rule holds. Errors come in source order. The stored port is `(int)port`. A NULL timeout becomes the ini default. Stored `secure` is requested `secure` and OpenSSL: never upgraded, and never silently downgraded in strict mode; a secure request in strict mode without OpenSSL is the "Cannot honour strictly secure connection requests." connectivity error |
| `Sockets.PortStringIsCast` | classes/fSocket.php:121-127 | a port given as a decimal string is stored as that number, and an omitted timeout as the ini default |
| `Sockets.NewSocket` | classes/fSocket.php:116-135 | fails exactly when `Validate` does, with the same error; otherwise a fresh, unconnected socket holding the validated fields |
| `Sockets.Socket.constructor` | classes/fSocket.php:116-135 | the stored fields are the validated ones and `$connection` starts FALSE |
| `Sockets.Socket.IsConnected` | classes/fSocket.php:184-187 | `FALSE !== $connection` holds exactly while a stream is held (false after construction and `close`, true after a successful `connect`) |
| `Sockets.Socket.ConnectionValue` | classes/fSocket.php:81 | the connection value is truthy exactly when a stream is held, so `requireNotFalse` passes exactly for connected sockets |
| `Sockets.Socket.RequireConnection` | classes/fSocket.php:149 | passes iff connected; otherwise the "Call connect() on the socket first." programmer error |
| `Sockets.Socket.SetCrypto` | classes/fSocket.php:147-153 | before a connection: programmer error. After: the result of `stream_socket_enable_crypto` on the stream, unmodified |
| `Sockets.Socket.GetSecure` | classes/fSocket.php:160-164 | the stored `secure` iff connected, else the not-connected programmer error |
| `Sockets.Socket.GetHost` | classes/fSocket.php:166-170 | the stored host iff connected, else the not-connected programmer error |
| `Sockets.Socket.GetPort` | classes/fSocket.php:172-176 | the stored port iff connected, else the not-connected programmer error |
| `Sockets.Socket.GetTimeout` | classes/fSocket.php:178-182 | the stored timeout iff connected, else the not-connected programmer error |
| `Sockets.Socket.Target` | classes/fSocket.php:198-199 | the address is `tls://host` for a secure socket and `host` otherwise |
| `Sockets.Socket.Connect` | classes/fSocket.php:192-218 | On a connected socket: nothing changes and the same socket is returned. Otherwise the opened stream is stored. Then an SSL-mentioning warning raises the secure-unavailable error; a FALSE stream raises the error with the number and message. Success returns the socket itself, connected |
| `Sockets.Socket.Close` | classes/fSocket.php:343-349 | afterwards not connected. A held stream is released exactly once; without one nothing is released, so repeated calls are safe |
| `Sockets.Socket.Destruct` | classes/fSocket.php:138-141 | the same effect as `close` |
| `Readiness.BrokenSelectWindow` | classes/fSocket.php:239 | the broken-select classification is exactly "machine name contains 64 and PHP 5.2.0 to 5.2.5" |
| `Readiness.ChooseStrategy` | classes/fSocket.php:243-267 | Windows on PHP 5.3 or later always takes the suppressed `stream_select`. Otherwise a broken-select platform polls and every other platform calls `stream_select` |
| `Readiness.WindowsNeverPolls` | classes/fSocket.php:243-246 | the Windows branch takes precedence over the broken-select fallback |
| `Readiness.BrokenPlatformPolls` | classes/fSocket.php:237-246 | a platform classified as broken always polls, since 5.2.x never passes the 5.3 test |
| `Readiness.Platform.BrokenSelect` | classes/fSocket.php:237-240 | the classification is probed only while the cache is empty, then stays cached for the process |
| `Readiness.PollFrom` | classes/fSocket.php:246-263 | At most 3 `fgetc` attempts. Returns the first character that is neither NUL nor FALSE, made by the last attempt. Every earlier attempt read no data and left the time budget open. FALSE only after 3 attempts or an exhausted budget |
| `Readiness.PollForData` | classes/fSocket.php:247-263 | the `do…while` polling loop returns exactly `PollFrom`'s value and attempt count (1 to 3) |
| `Sockets.Socket.Select` | classes/fSocket.php:229-270 | caches the classification before branching. The polling strategy returns the fallback's value; both `stream_select` branches return the call's result |
| `LineReader.StripDropsTerminator` | classes/fSocket.php:286 | each line loses exactly its last two characters and keeps the rest |
| `LineReader.StopIndex` | classes/fSocket.php:281-301 | Reading from entry k stops just after the first entry whose stop condition holds, or at the end. No entry before that point has it. Stopping before the end means the last entry taken has it |
| `LineReader.Response` | classes/fSocket.php:279-301 | the response never holds more entries than lines arrived |
| `LineReader.ResponseEntries` | classes/fSocket.php:280-290 | A falsy first `select` gives an empty response. Otherwise entry j is line j without its terminator, after any character pre-read by the `select` just before it. With an `expect`, only the first entry can carry one |
| `LineReader.ResponseToCount` | classes/fSocket.php:291-297 | `read(N)` returns exactly N entries when N lines arrive, never more than N; an N below 1 reads to the end |
| `LineReader.ResponseToPattern` | classes/fSocket.php:291-297 | `read($pattern)`: no entry before the last matches; when lines remain unread, the last entry matches |
| `LineReader.ResponseUntilQuiet` | classes/fSocket.php:287-298 | `read(NULL)` continues exactly while each 200 ms `select` is truthy. Each entry carries the character that `select` pre-read |
| `LineReader.PreReadZeroIsDropped` | classes/fSocket.php:280 | a pre-read character `"0"` makes `read` return nothing |
| `LineReader.ReadTurn` | classes/fSocket.php:282-299 | one loop turn: the stripped line, after the pending pre-read character, is the next entry; the loop breaks after it exactly on the count, the pattern or a falsy short `select` |
| `LineReader.ReadLoop` | classes/fSocket.php:279-302 | the `while` loop returns exactly `Response` |
| `Sockets.Socket.Read` | classes/fSocket.php:275-308 | before a connection: programmer error. After: `Response`, at most as many entries as lines, and at most N for `read(N)` |
| `Sender.Fwrite` | classes/fSocket.php:326-327 | an `fwrite` never takes more than offered; it counts as failed exactly for FALSE or 0 |
| `Sender.Send` | classes/fSocket.php:322-338 | At least one `fwrite`. Every call but the last took bytes and left the count short. The loop throws iff the last call took nothing. A returned total is where the last call ended: at least the count, at most the byte length |
| `Sender.LastCall` | classes/fSocket.php:325-336 | the loop ends at the first call that takes nothing or reaches the count; every call before it continued |
| `Sender.SendFailsOnlyOnFailedWrite` | classes/fSocket.php:326-333 | for non-empty data, the loop throws iff one of its `fwrite` calls reported 0 or FALSE |
| `Sender.SendCountingBytesSendsAll` | classes/fSocket.php:312-316 | counting bytes, a returned total is the full byte length |
| `Sender.SendInOneCall` | tests/classes/fSocket/fSocketTest.php:62-65 | one `fwrite` that takes everything makes `write` return the data's length |
| `Sender.MultibyteWriteStopsShort` | classes/fSocket.php:322 | two bytes of data (UTF-8 `é`) count down from 1; a first `fwrite` of one byte ends the loop, returning 1 with 1 byte unsent |
| `Sender.SendTurn` | classes/fSocket.php:326-337 | One loop turn: the next call starts where this one ended. A call that took nothing or reached the count is the last; otherwise the last call lies further on |
| `Sender.Transmit` | classes/fSocket.php:322-338 | the `do…while` loop returns `Send`'s outcome. Call j is offered the data from the offset where call j starts |
| `Sockets.Socket.Write` | classes/fSocket.php:317-339 | Requires a connection, then a non-empty string. Returns the loop's total, between the decoded count and the byte length. A failed write raises the connectivity error naming host and port. Each call is offered the unsent suffix |
| `Sockets.Socket.WriteBytes` | classes/fSocket.php:312-316 | counting bytes instead, a successful `write` returns exactly the byte length |
| `SocketScenarios.CreateDestroy` | tests/classes/fSocket/fSocketTest.php:10-17 | a freshly constructed socket is not connected |
| `SocketScenarios.ConnectMultiClose` | tests/classes/fSocket/fSocketTest.php:47-55 | connected after `connect`; after three `close` calls not connected, with the stream released exactly once |
| `SocketScenarios.NonSecureRequest` | tests/classes/fSocket/fSocketTest.php:57-66 | writing `"GET /\r\n"` returns 7 |

## Left out

- Networking and TLS are not modelled. `fsockopen`, `stream_select`, `stream_socket_enable_crypto`,
  `fgets`, `fgetc`, `fwrite`, `feof` and `fclose` are inputs, and their real behaviour is outside
  the model.
- `stream_set_timeout` after a successful connect (classes/fSocket.php:214) changes only the
  stream, so the model records nothing for it.
- `microtime` and `usleep` in the polling fallback are replaced by one "budget still open"
  boolean per attempt, because the float clock arithmetic is not modelled.
- The `@` warning suppression in the Windows branch is not modelled. The branch is kept
  separate, but it returns the same result as the plain call.
- `fCore::startErrorCapture`/`stopErrorCapture`, `fCore::checkOS`, `fCore::checkVersion`,
  `php_uname`, `extension_loaded` and `ini_get` are inputs. `fCore` is not part of this model:
  `checkVersion(v)` is read as "version at least v".
- The debug output at the end of `read` (classes/fSocket.php:303-306) is not modelled; it
  affects nothing returned.
- Sockets.Socket.Read: the `select` results are given as inputs, not computed by `Select`, so
  the characters that polling reads from the stream are not linked to the lines `fgets` returns.
- Sockets.Socket.Read: end of stream and a failing `fgets` are merged into "no more lines",
  because both end the loop in the same way.
- LineReader.Strip: for lines shorter than two characters, PHP 5's `substr` gives FALSE, which
  lands in the response; the model stores `""`.
- Sockets.Socket.Write: `strlen(utf8_decode($data))` is an input bounded by the byte length,
  because PHP's UTF-8 decoding is not modelled.
- Sockets.Socket.Read: `preg_match` is an abstract predicate `matches`, because the PCRE engine
  is not modelled; an invalid pattern counts as a predicate that does not match.
- Php.IsNumericString: hexadecimal strings (numeric in PHP 5) are treated as non-numeric.
- Php.IntCast: integers are unbounded. The 32/64-bit range, `strtol`'s saturation and
  out-of-range float casts are not modelled.
- PHP arrays and objects are not modelled as parameter values. They fail every check, like the
  other non-matching types.
- Strings are byte strings: each `char` of a model string stands for one byte of the PHP
  string, so `|s|` is `strlen($s)`. Character encodings are not modelled, and the UTF-8 `é`
  of the Findings is the two elements C3 and A9.
- Sockets.WriteFailedMessage: the message of a failed write assumes that the
  `%2$s`/`%3$s` placeholders (classes/fSocket.php:328-332) are filled with host and port.
  fException's formatting is not part of this model.
- Concurrency is not modelled: the socket is single-threaded.
- classes/database/object_relational_mapping/fORMRelated.php is not part of this model. It is
  ORM glue that delegates to collaborators outside the socket.

## Findings

| source | as written | input that shows it | evidently intended | confidence | as-written member | corrected member |
|---|---|---|---|---|---|---|
| classes/fSocket.php:322 | `$remaining = strlen(utf8_decode($data))` counts characters, and the loop ends once that many bytes are sent | `$data` = UTF-8 `é` (bytes C3 A9); the first `fwrite` accepts 1 byte | count `strlen($data)` bytes, so that `write` returns only after every byte is sent and returns the byte length | medium, not executed | `Sender.MultibyteWriteStopsShort` | `Sockets.Socket.WriteBytes` |
