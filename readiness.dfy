/** The readiness wait behind `fSocket::select`: which of three strategies runs on which
    platform, the process-wide cache of the "broken stream_select" classification, and the
    polling fallback that stands in for `stream_select` where it is broken. */
module Readiness {
  import opened Errors
  import opened Php

  /** A PHP version number. */
  datatype Version = Version(major: nat, minor: nat, patch: nat)

  /** `fCore::checkVersion(w)`: the running version is `w` or later. */
  predicate AtLeast(v: Version, w: Version) {
    v.major > w.major ||
    (v.major == w.major && (v.minor > w.minor || (v.minor == w.minor && v.patch >= w.patch)))
  }

  /** What the socket learns about its platform: `fCore::checkOS('windows')`,
      `php_uname('m')` and the PHP version. */
  datatype Env = Env(isWindows: bool, machine: string, version: Version)

  /** The three ways `select` waits for data. */
  datatype Strategy =
    | SuppressedSelect  // Windows on PHP 5.3 or later: `@stream_select`, warnings discarded
    | PollingFallback   // the broken `stream_select`: poll with `fgetc`
    | NativeSelect      // everywhere else: `stream_select`

  /** The broken-select classification: a 64-bit machine on PHP 5.2.0 up to, not including, 5.2.6. */
  predicate BrokenSelectOn(env: Env) {
    Contains(env.machine, "64") && AtLeast(env.version, Version(5, 2, 0)) && !AtLeast(env.version, Version(5, 2, 6))
  }

  /** The broken-select window is exactly the releases 5.2.0 to 5.2.5. */
  lemma BrokenSelectWindow(env: Env)
    ensures BrokenSelectOn(env) <==>
      Contains(env.machine, "64") && env.version.major == 5 && env.version.minor == 2 && env.version.patch <= 5
  {
  }

  /** The branch order of `select`: the Windows test comes first, so the broken-select
      classification only matters off Windows-with-5.3. */
  function ChooseStrategy(env: Env, brokenSelect: bool): (s: Strategy)
    ensures env.isWindows && AtLeast(env.version, Version(5, 3, 0)) ==> s == SuppressedSelect
    ensures s == SuppressedSelect ==> env.isWindows && AtLeast(env.version, Version(5, 3, 0))
    ensures s == PollingFallback <==> s != SuppressedSelect && brokenSelect
    ensures s == NativeSelect <==> s != SuppressedSelect && !brokenSelect
  {
    if env.isWindows && AtLeast(env.version, Version(5, 3, 0)) then SuppressedSelect
    else if brokenSelect then PollingFallback
    else NativeSelect
  }

  /** A Windows host on PHP 5.3 or later never polls, whatever the classification says. */
  lemma WindowsNeverPolls(env: Env, brokenSelect: bool)
    requires env.isWindows && AtLeast(env.version, Version(5, 3, 0))
    ensures ChooseStrategy(env, brokenSelect) != PollingFallback
  {
  }

  /** A broken-select platform always polls: 5.2.x is never at least 5.3. */
  lemma BrokenPlatformPolls(env: Env)
    requires BrokenSelectOn(env)
    ensures ChooseStrategy(env, true) == PollingFallback
  {
  }

  /** The `static $broken_select` of `select`: one per process, computed on the first call. */
  class Platform {
    var brokenSelect: Option<bool>

    constructor ()
      ensures brokenSelect == None
    {
      brokenSelect := None;
    }

    /** The cached classification; the environment is probed only while the cache is empty. */
    method BrokenSelect(env: Env) returns (b: bool)
      modifies this
      ensures old(brokenSelect).Some? ==> b == old(brokenSelect).value
      ensures old(brokenSelect).None? ==> b == BrokenSelectOn(env)
      ensures brokenSelect == Some(b)
    {
      if brokenSelect.None? {
        brokenSelect := Some(BrokenSelectOn(env));
      }
      b := brokenSelect.value;
    }
  }

  /** What `fgetc` returns on attempt `k`: a character, or FALSE (`None`) once the oracle runs out. */
  function FgetcAt(chars: seq<Option<char>>, k: nat): (c: Option<char>) {
    if k < |chars| then chars[k] else None
  }

  /** Whether the time budget still holds after attempt `k`; exhausted once the oracle runs out. */
  predicate WithinBudget(inBudget: seq<bool>, k: nat) {
    k < |inBudget| && inBudget[k]
  }

  /** A character that counts as data: neither FALSE nor NUL. */
  predicate IsData(c: Option<char>) {
    c.Some? && c.value != '\0'
  }

  /** The value the polling fallback returns, and the number of `fgetc` calls it made. */
  datatype Poll = Poll(value: Value, attempts: nat)

  /** The polling fallback from attempt `i` on: the first data character becomes the
      readiness value; at most three attempts are made, and after each one without data the
      loop goes on only while the time budget holds. */
  function PollFrom(chars: seq<Option<char>>, inBudget: seq<bool>, i: nat): (p: Poll)
    requires i < 3
    ensures i < p.attempts <= 3
    ensures p.value.PStr? <==> IsData(FgetcAt(chars, p.attempts - 1))
    ensures p.value.PStr? ==> p.value.s == [FgetcAt(chars, p.attempts - 1).value]
    ensures !p.value.PStr? ==> p.value == PBool(false)
    ensures forall k :: i <= k < p.attempts - 1 ==> !IsData(FgetcAt(chars, k)) && WithinBudget(inBudget, k)
    ensures p.value == PBool(false) ==> p.attempts == 3 || !WithinBudget(inBudget, p.attempts - 1)
    decreases 3 - i
  {
    var c := FgetcAt(chars, i);
    if IsData(c) then Poll(PStr([c.value]), i + 1)
    else if i + 1 > 2 || !WithinBudget(inBudget, i) then Poll(PBool(false), i + 1)
    else PollFrom(chars, inBudget, i + 1)
  }

  /** The `do ... while` polling loop of `select`, with `$i` counting the `fgetc` calls and
      `$broken_select_buffer` holding the first data character. */
  method PollForData(chars: seq<Option<char>>, inBudget: seq<bool>) returns (select: Value, attempts: nat)
    ensures Poll(select, attempts) == PollFrom(chars, inBudget, 0)
    ensures 1 <= attempts <= 3
  {
    var buffer: Option<char> := None;
    var i := 0;
    while true
      invariant 0 <= i < 3
      invariant buffer.None?
      invariant PollFrom(chars, inBudget, 0) == PollFrom(chars, inBudget, i)
      decreases 3 - i
    {
      var c := FgetcAt(chars, i);
      if IsData(c) {
        buffer := c;
      }
      i := i + 1;
      if i > 2 {
        break;
      }
      if !(buffer.None? && WithinBudget(inBudget, i - 1)) {
        break;
      }
    }
    select := if buffer.None? then PBool(false) else PStr([buffer.value]);
    attempts := i;
  }
}
