/** What `fSocket::read` returns, defined line by line instead of loop step by loop step,
    and the stopping rules proved about it.

    The stream is given as the lines successive `fgets` calls return before the stream
    ends (`feof`) or `fgets` fails, and as the values successive `select` calls return:
    `readiness[0]` for the initial wait, and `readiness[k + 1]` for the short wait after
    line `k` when no `expect` is given. A `select` past the end of `readiness` finds nothing. */
module LineReader {
  import opened Php

  /** The incoming side of the connection. */
  datatype Feed = Feed(readiness: seq<Value>, lines: seq<string>)

  /** `substr($line, 0, -2)`: the line without its two-character terminator. */
  function Strip(line: string): (stripped: string) {
    if |line| >= 2 then line[..|line| - 2] else ""
  }

  /** `Strip` removes exactly the last two characters and keeps the rest; a shorter line
      leaves nothing. */
  lemma StripDropsTerminator(line: string)
    ensures |line| >= 2 ==> |Strip(line)| == |line| - 2 && line == Strip(line) + line[|line| - 2..]
    ensures |line| < 2 ==> Strip(line) == ""
  {
  }

  /** The result of the `k`-th `select`; FALSE once the feed has no more. */
  function Ready(f: Feed, k: nat): (result: Value) {
    if k < |f.readiness| then f.readiness[k] else PBool(false)
  }

  /** The character a polling `select` already took from the stream, if it returned one. */
  function PreRead(v: Value): (pre: string) {
    if v.PStr? then v.s else ""
  }

  /** What is put in front of line `k`: the character pre-read by the `select` just before it.
      With an `expect`, `$result` is reset to NULL after the first line, so only line 0 can
      receive one. */
  function PrefixBefore(expected: Value, f: Feed, k: nat): (prefix: string) {
    if k == 0 then PreRead(Ready(f, 0))
    else if expected.PNull? then PreRead(Ready(f, k))
    else ""
  }

  /** Entry `k` of the response. */
  function Entry(expected: Value, f: Feed, k: nat): (entry: string)
    requires k < |f.lines|
  {
    PrefixBefore(expected, f, k) + Strip(f.lines[k])
  }

  /** Whether reading stops right after entry `k` has been appended. An integer `expect`
      stops when the response holds exactly that many entries, a string `expect` when the
      entry matches it as a pattern, a NULL `expect` when the 200 ms `select` finds nothing;
      any other `expect` never stops the loop. */
  predicate StopsAfter(expected: Value, f: Feed, matches: (string, string) -> bool, k: nat)
    requires k < |f.lines|
  {
    match expected
    case PNull => !Truthy(Ready(f, k + 1))
    case PInt(n) => k + 1 == n
    case PStr(pattern) => matches(pattern, Entry(expected, f, k))
    case _ => false
  }

  /** The entry every line would give, in arrival order. */
  function Entries(expected: Value, f: Feed): (e: seq<string>)
    ensures |e| == |f.lines|
    ensures forall k :: 0 <= k < |e| ==> e[k] == Entry(expected, f, k)
  {
    seq(|f.lines|, k requires 0 <= k < |f.lines| => Entry(expected, f, k))
  }

  /** For every line, whether reading stops right after its entry. */
  function Stops(expected: Value, f: Feed, matches: (string, string) -> bool): (s: seq<bool>)
    ensures |s| == |f.lines|
    ensures forall k :: 0 <= k < |s| ==> s[k] == StopsAfter(expected, f, matches, k)
  {
    seq(|f.lines|, k requires 0 <= k < |f.lines| => StopsAfter(expected, f, matches, k))
  }

  /** Where reading stops when it reaches entry `k`: just after the first entry from `k` on
      whose stop flag is set, or at the end. */
  function StopIndex(stops: seq<bool>, k: nat): (n: nat)
    requires k <= |stops|
    ensures k <= n <= |stops|
    ensures k < |stops| ==> k < n
    ensures forall j :: k <= j < n - 1 ==> !stops[j]
    ensures n < |stops| ==> stops[n - 1]
    decreases |stops| - k
  {
    if k == |stops| then k
    else if stops[k] then k + 1
    else StopIndex(stops, k + 1)
  }

  /** The response of `read($expect)`: nothing if the first `select` is falsy, else the
      entries up to and including the first one after which reading stops. */
  function Response(expected: Value, f: Feed, matches: (string, string) -> bool): (r: seq<string>)
    ensures |r| <= |f.lines|
  {
    if Truthy(Ready(f, 0)) then Entries(expected, f)[..StopIndex(Stops(expected, f, matches), 0)] else []
  }

  /** Every entry of the response is an incoming line without its terminator, in arrival
      order, preceded only by a character pre-read by the `select` just before it; with an
      `expect`, only the first entry can carry such a character. */
  lemma ResponseEntries(expected: Value, f: Feed, matches: (string, string) -> bool)
    ensures var r := Response(expected, f, matches);
      && (!Truthy(Ready(f, 0)) ==> r == [])
      && (Truthy(Ready(f, 0)) && |f.lines| > 0 ==> |r| >= 1)
      && (forall j :: 0 <= j < |r| ==> r[j] == PrefixBefore(expected, f, j) + Strip(f.lines[j]))
      && (!expected.PNull? ==> forall j :: 1 <= j < |r| ==> r[j] == Strip(f.lines[j]))
  {
    var r := Response(expected, f, matches);
    var e := Entries(expected, f);
    forall j | 0 <= j < |r|
      ensures r[j] == PrefixBefore(expected, f, j) + Strip(f.lines[j])
    {
      assert r[j] == e[j];
    }
  }

  /** `read(N)` with an integer N: the response stops at exactly N entries when that many
      lines arrive, so it never holds more than N; an N below 1 never matches and the whole
      stream is read. */
  lemma ResponseToCount(n: int, f: Feed, matches: (string, string) -> bool)
    requires Truthy(Ready(f, 0))
    ensures |Response(PInt(n), f, matches)| == if 1 <= n <= |f.lines| then n else |f.lines|
  {
    var st := Stops(PInt(n), f, matches);
    var stop := StopIndex(st, 0);
    if 1 <= n <= |f.lines| {
      assert st[n - 1];
    }
  }

  /** `read($pattern)`: no entry before the last one matches the pattern, and when lines
      remain unread the last entry does. */
  lemma ResponseToPattern(pattern: string, f: Feed, matches: (string, string) -> bool)
    ensures var r := Response(PStr(pattern), f, matches);
      && (forall j :: 0 <= j < |r| - 1 ==> !matches(pattern, r[j]))
      && (0 < |r| < |f.lines| ==> matches(pattern, r[|r| - 1]))
  {
    var r := Response(PStr(pattern), f, matches);
    var e := Entries(PStr(pattern), f);
    var st := Stops(PStr(pattern), f, matches);
    forall j | 0 <= j < |r| - 1
      ensures !matches(pattern, r[j])
    {
      assert !st[j] && r[j] == e[j];
    }
    if 0 < |r| < |f.lines| {
      assert st[|r| - 1] && r[|r| - 1] == e[|r| - 1];
    }
  }

  /** `read(NULL)`: reading goes on exactly as long as each short `select` reports more data,
      and each entry carries the character, if any, that `select` pre-read. */
  lemma ResponseUntilQuiet(f: Feed, matches: (string, string) -> bool)
    ensures var r := Response(PNull, f, matches);
      && (forall j :: 0 <= j < |r| ==> r[j] == PreRead(Ready(f, j)) + Strip(f.lines[j]))
      && (forall j :: 1 <= j < |r| ==> Truthy(Ready(f, j)))
      && (0 < |r| < |f.lines| ==> !Truthy(Ready(f, |r|)))
  {
    var r := Response(PNull, f, matches);
    var st := Stops(PNull, f, matches);
    ResponseEntries(PNull, f, matches);
    forall j | 1 <= j < |r|
      ensures Truthy(Ready(f, j))
    {
      assert !st[j - 1];
    }
    if 0 < |r| < |f.lines| {
      assert st[|r| - 1];
    }
  }

  /** A character `"0"` pre-read by the polling `select` is falsy in PHP, so `read` treats the
      connection as idle and returns nothing, although that character and further lines were
      available. */
  lemma PreReadZeroIsDropped(expected: Value, f: Feed, matches: (string, string) -> bool)
    requires Ready(f, 0) == PStr("0")
    ensures Response(expected, f, matches) == []
  {
  }

  /** One turn of the loop of `read`: line `k` after the pending pre-read character is entry
      `k`, and reading stops right after it exactly on the count, the pattern, or a falsy
      short `select`. */
  lemma ReadTurn(expected: Value, f: Feed, matches: (string, string) -> bool, k: nat, line: string, stop: bool)
    requires k < |f.lines|
    requires line == PrefixBefore(expected, f, k) + Strip(f.lines[k])
    requires stop == if expected.PNull? then !Truthy(Ready(f, k + 1))
                     else (expected.PInt? && k + 1 == expected.i) || (expected.PStr? && matches(expected.s, line))
    ensures Entries(expected, f)[..k + 1] == Entries(expected, f)[..k] + [line]
    ensures stop ==> StopIndex(Stops(expected, f, matches), k) == k + 1
    ensures !stop ==> StopIndex(Stops(expected, f, matches), k) == StopIndex(Stops(expected, f, matches), k + 1)
  {
    var e := Entries(expected, f);
    assert e[k] == line;
    assert e[..k + 1] == e[..k] + [e[k]];
    assert Stops(expected, f, matches)[k] == stop;
  }

  /** The loop of `read` once the connection check has passed: `$response` grows by one
      entry per `fgets` line, `$result` holds the last `select` value (its character, if
      any, is prepended to the next line), and the loop breaks on the `expect` condition. */
  method ReadLoop(expected: Value, f: Feed, matches: (string, string) -> bool) returns (response: seq<string>)
    ensures response == Response(expected, f, matches)
  {
    ghost var entries := Entries(expected, f);
    ghost var stops := Stops(expected, f, matches);
    response := [];
    var result := Ready(f, 0);
    if Truthy(result) {
      var k := 0;
      var pending := PreRead(result);
      while k < |f.lines|
        invariant 0 <= k <= |f.lines|
        invariant response == entries[..k]
        invariant pending == PrefixBefore(expected, f, k)
        invariant StopIndex(stops, 0) == StopIndex(stops, k)
      {
        var line := pending + Strip(f.lines[k]);
        var stop: bool;
        if !expected.PNull? {
          pending := "";
          var matchedNumber := expected.PInt? && k + 1 == expected.i;
          var matchedRegex := expected.PStr? && matches(expected.s, line);
          stop := matchedNumber || matchedRegex;
        } else {
          result := Ready(f, k + 1);
          stop := !Truthy(result);
          pending := PreRead(result);
        }
        ReadTurn(expected, f, matches, k, line, stop);
        response := response + [line];
        if stop {
          break;
        }
        k := k + 1;
      }
    }
  }
}
