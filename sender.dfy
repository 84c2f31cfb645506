/** The accumulation loop of `fSocket::write`: offer the unsent suffix of the data to
    `fwrite` until the running total reaches the count the loop was started with, and fail
    on a write that reports 0 or FALSE.

    The loop counts down `strlen(utf8_decode($data))`, a character count, not the byte
    length: for single-byte data the two agree; for multi-byte UTF-8 data the count is
    smaller, and the loop can finish with bytes still unsent (see `MultibyteWriteStopsShort`). */
module Sender {
  import opened Errors

  /** What the `k`-th `fwrite` call reports: a byte count, or FALSE (`None`); a call past the
      end of the oracle fails. */
  function Reported(writes: seq<Option<nat>>, k: nat): (reported: Option<nat>) {
    if k < |writes| then writes[k] else None
  }

  /** The bytes `fwrite` takes on the `k`-th call when offered `chunk`: never more than it
      was offered, and 0 for a FALSE result. */
  function Fwrite(writes: seq<Option<nat>>, k: nat, chunk: string): (n: nat)
    ensures n <= |chunk|
    ensures n == 0 <==> Reported(writes, k) == None || Reported(writes, k) == Some(0) || chunk == []
  {
    match Reported(writes, k)
    case None => 0
    case Some(n) => if n <= |chunk| then n else |chunk|
  }

  /** Where call `j` of the loop starts in the data: each call moves on by what `fwrite` took. */
  function Offset(data: string, writes: seq<Option<nat>>, j: nat): (o: nat)
    ensures o <= |data|
    decreases j
  {
    if j == 0 then 0
    else
      var p := Offset(data, writes, j - 1);
      p + Fwrite(writes, j - 1, data[p..])
  }

  /** Whether the loop goes on after call `j`: the call took at least one byte and the
      running total is still short of the count. */
  predicate Continues(data: string, count: int, writes: seq<Option<nat>>, j: nat) {
    Fwrite(writes, j, data[Offset(data, writes, j)..]) > 0 && Offset(data, writes, j + 1) < count
  }

  /** The call, from call `j` on, that ends the loop. */
  function LastCall(data: string, count: int, writes: seq<Option<nat>>, j: nat): (n: nat)
    ensures j <= n && !Continues(data, count, writes, n)
    ensures forall i {:trigger Continues(data, count, writes, i)} :: j <= i < n ==> Continues(data, count, writes, i)
    decreases |data| - Offset(data, writes, j)
  {
    if Continues(data, count, writes, j) then LastCall(data, count, writes, j + 1) else j
  }

  /** The outcome of a run of the loop: the total it returns (`None` when it throws), and how
      many `fwrite` calls it made. */
  datatype Sent = Sent(total: Option<nat>, calls: nat)

  /** The run of the loop over `data`, counting down from `count`. Every call but the last
      took bytes and left the count short; the last one either took nothing, and the loop
      throws, or brought the total to the count, and the loop returns that total, which never
      exceeds the data. */
  function Send(data: string, count: int, writes: seq<Option<nat>>): (s: Sent)
    ensures s.calls >= 1
    ensures forall j {:trigger Continues(data, count, writes, j)} :: 0 <= j < s.calls - 1 ==> Continues(data, count, writes, j)
    ensures s.total.None? <==> Fwrite(writes, s.calls - 1, data[Offset(data, writes, s.calls - 1)..]) == 0
    ensures s.total.Some? ==> s.total.value == Offset(data, writes, s.calls) && count <= s.total.value <= |data|
    ensures s.total.Some? ==> 0 < s.total.value
  {
    var last := LastCall(data, count, writes, 0);
    if Fwrite(writes, last, data[Offset(data, writes, last)..]) == 0 then Sent(None, last + 1)
    else Sent(Some(Offset(data, writes, last + 1)), last + 1)
  }

  /** `fwrite` reported 0 or FALSE on call `i`. */
  predicate FailedCall(writes: seq<Option<nat>>, i: nat) {
    Reported(writes, i) == None || Reported(writes, i) == Some(0)
  }

  /** For non-empty data, the loop throws exactly when some `fwrite` of the run reports 0 or
      FALSE: partial writes are carried on, a failed one is never retried. */
  lemma SendFailsOnlyOnFailedWrite(data: string, count: int, writes: seq<Option<nat>>)
    requires 0 < |data| && count <= |data|
    ensures var s := Send(data, count, writes);
      s.total.None? <==> exists i :: 0 <= i < s.calls && FailedCall(writes, i)
  {
    var s := Send(data, count, writes);
    var last := s.calls - 1;
    forall i | 0 <= i < s.calls && FailedCall(writes, i)
      ensures s.total.None?
    {
      if i < last {
        assert Continues(data, count, writes, i);
      }
    }
    if s.total.None? {
      if last > 0 {
        assert Continues(data, count, writes, last - 1);
      }
      assert FailedCall(writes, last);
    }
  }

  /** When the count is the byte length, a run that returns has sent every byte. */
  lemma SendCountingBytesSendsAll(data: string, writes: seq<Option<nat>>)
    ensures var s := Send(data, |data|, writes);
      s.total.Some? ==> s.total.value == |data|
  {
  }

  /** A single `fwrite` that takes the whole data ends the loop at once with its length, as
      for the request line `"GET /\r\n"` of seven bytes. */
  lemma SendInOneCall(data: string, count: int, writes: seq<Option<nat>>)
    requires 1 <= |data| && count <= |data|
    requires Reported(writes, 0).Some? && Reported(writes, 0).value >= |data|
    ensures Send(data, count, writes) == Sent(Some(|data|), 1)
  {
    assert Offset(data, writes, 1) == |data|;
    assert !Continues(data, count, writes, 0);
  }

  /** `é` is two bytes in UTF-8 (C3 A9) but one character after `utf8_decode`, so the loop
      counts down from 1. If the first `fwrite` takes one byte, that count is reached and the
      loop returns 1: the second byte is never sent. */
  lemma MultibyteWriteStopsShort(data: string, writes: seq<Option<nat>>)
    requires |data| == 2 && Reported(writes, 0) == Some(1)
    ensures Send(data, 1, writes) == Sent(Some(1), 1)
  {
    assert data[0..] == data;
    assert Offset(data, writes, 1) == 1;
    assert LastCall(data, 1, writes, 0) == 0;
  }

  /** One turn of the loop: call `k` starts at the running total; if it ends the loop it is
      the last call, and otherwise the last call lies further on. */
  lemma SendTurn(data: string, count: int, writes: seq<Option<nat>>, k: nat)
    requires LastCall(data, count, writes, 0) == LastCall(data, count, writes, k)
    ensures Offset(data, writes, k + 1) == Offset(data, writes, k) + Fwrite(writes, k, data[Offset(data, writes, k)..])
    ensures !Continues(data, count, writes, k) ==> LastCall(data, count, writes, 0) == k
    ensures Continues(data, count, writes, k) ==> LastCall(data, count, writes, 0) == LastCall(data, count, writes, k + 1)
  {
  }

  /** The `do ... while` loop itself: `$remaining` counts down from `count`, `$total` counts
      up, and each `fwrite` is offered `substr($data, $total)`. */
  method Transmit(data: string, count: int, writes: seq<Option<nat>>) returns (sent: Option<nat>, offered: seq<string>)
    ensures var s := Send(data, count, writes);
      && sent == s.total
      && |offered| == s.calls
      && (forall j {:trigger offered[j]} :: 0 <= j < |offered| ==> offered[j] == data[Offset(data, writes, j)..])
  {
    var remaining := count;
    var total := 0;
    var k := 0;
    offered := [];
    while true
      invariant total == Offset(data, writes, k)
      invariant remaining == count - total
      invariant |offered| == k
      invariant forall j {:trigger offered[j]} :: 0 <= j < k ==> offered[j] == data[Offset(data, writes, j)..]
      invariant LastCall(data, count, writes, 0) == LastCall(data, count, writes, k)
      decreases |data| - total
    {
      var chunk := data[total..];
      offered := offered + [chunk];
      var n := Fwrite(writes, k, chunk);
      SendTurn(data, count, writes, k);
      if n == 0 {
        sent := None;
        return;
      }
      remaining := remaining - n;
      total := total + n;
      k := k + 1;
      if remaining <= 0 {
        sent := Some(total);
        return;
      }
    }
  }
}
