/**
 * src/core/logger.ts without the console output: the numeric levels, which
 * channels `createLogger` wires to the console at a level, and the
 * case-insensitive `parseLogLevel`.
 */
module Logger {
  import opened Wrappers

  type LogLevel = n: int | 0 <= n <= 4

  const NONE: LogLevel := 0
  const ERROR: LogLevel := 1
  const WARN: LogLevel := 2
  const INFO: LogLevel := 3
  const DEBUG: LogLevel := 4

  datatype Channel = ErrorChannel | WarnChannel | InfoChannel | DebugChannel

  /** The level at which `createLogger` stops giving a channel the no-op closure. */
  function Threshold(c: Channel): LogLevel {
    match c
    case ErrorChannel => ERROR
    case WarnChannel => WARN
    case InfoChannel => INFO
    case DebugChannel => DEBUG
  }

  /** The channels of a logger created at `level` that print. */
  function EnabledChannels(level: LogLevel): (r: set<Channel>)
    ensures forall c :: c in r <==> level >= Threshold(c)
  {
    (if level >= ERROR then {ErrorChannel} else {}) +
    (if level >= WARN then {WarnChannel} else {}) +
    (if level >= INFO then {InfoChannel} else {}) +
    (if level >= DEBUG then {DebugChannel} else {})
  }

  /** Raising the level only ever turns channels on. */
  lemma EnabledMonotone(lo: LogLevel, hi: LogLevel)
    requires lo <= hi
    ensures EnabledChannels(lo) <= EnabledChannels(hi)
    ensures |EnabledChannels(lo)| == lo && |EnabledChannels(hi)| == hi
  {
    ExactlyLevelMany(lo);
    ExactlyLevelMany(hi);
  }

  /** The channel whose threshold is `level`, for a level above NONE. */
  function ChannelAt(level: LogLevel): (c: Channel)
    requires level != NONE
    ensures Threshold(c) == level
  {
    if level == ERROR then ErrorChannel
    else if level == WARN then WarnChannel
    else if level == INFO then InfoChannel
    else DebugChannel
  }

  /** A logger at level n has exactly n printing channels: each level adds one. */
  lemma {:induction false} ExactlyLevelMany(level: LogLevel)
    ensures |EnabledChannels(level)| == level
  {
    if level == NONE {
      assert EnabledChannels(level) == {};
    } else {
      ExactlyLevelMany(level - 1);
      var below := EnabledChannels(level - 1);
      assert ChannelAt(level) !in below;
      assert EnabledChannels(level) == below + {ChannelAt(level)};
    }
  }

  /**
   * `toLowerCase` on the characters that matter here. Outside A-Z no
   * character lower-cases to a letter of the five level names except as
   * part of a longer sequence, so ASCII folding decides the same matches.
   */
  function ToLower(s: string): (r: string)
    ensures |r| == |s|
    ensures forall i :: 0 <= i < |s| ==> r[i] == LowerChar(s[i])
  {
    if s == [] then [] else [LowerChar(s[0])] + ToLower(s[1..])
  }

  function LowerChar(c: char): char {
    if 'A' <= c <= 'Z' then (c as int + 32) as char else c
  }

  /** The lowercase name of each level. */
  function LevelName(level: LogLevel): string {
    if level == NONE then "none"
    else if level == ERROR then "error"
    else if level == WARN then "warn"
    else if level == INFO then "info"
    else "debug"
  }

  /** `parseLogLevel`: undefined and "" give WARN; otherwise a case-insensitive match, WARN by default. */
  function ParseLogLevel(value: Option<string>): (r: LogLevel)
    ensures value.None? ==> r == WARN
    ensures r != WARN ==> value.Some? && ToLower(value.value) == LevelName(r)
  {
    if value.None? || value.value == "" then WARN
    else
      var v := ToLower(value.value);
      if v == "none" then NONE
      else if v == "error" then ERROR
      else if v == "warn" then WARN
      else if v == "info" then INFO
      else if v == "debug" then DEBUG
      else WARN
  }

  /**
   * The parser recognises exactly the five names, in any case: a level
   * other than WARN comes back exactly when the folded input is its name,
   * and everything else is WARN.
   */
  lemma ParseExactly(value: string, level: LogLevel)
    ensures level != WARN ==> (ParseLogLevel(Some(value)) == level <==> ToLower(value) == LevelName(level))
    ensures ParseLogLevel(Some(value)) == WARN <==>
      ToLower(value) !in {"none", "error", "info", "debug"}
  {
    if value == "" {
      assert ToLower(value) == "";
    }
  }

  /** Folding is idempotent, so the parser ignores case. */
  lemma {:induction false} ToLowerIdempotent(s: string)
    ensures ToLower(ToLower(s)) == ToLower(s)
  {
    if s != [] {
      ToLowerIdempotent(s[1..]);
    }
  }

  lemma ParseIgnoresCase(value: string)
    ensures ParseLogLevel(Some(ToLower(value))) == ParseLogLevel(Some(value))
  {
    ToLowerIdempotent(value);
  }

  /** Round trip: each level's lowercase name (and its upper-case spelling) parses back to it. */
  lemma NameRoundTrip(level: LogLevel)
    ensures ParseLogLevel(Some(LevelName(level))) == level
    ensures ParseLogLevel(Some(ToUpperAscii(LevelName(level)))) == level
  {
    var n := LevelName(level);
    assert forall i :: 0 <= i < |n| ==> 'a' <= n[i] <= 'z';
    ToLowerOfLowercase(n);
    UpperLowerRoundTrip(n);
    assert ToLower(n) == n;
    assert ToLower(ToUpperAscii(n)) == n;
  }

  function ToUpperAscii(s: string): (r: string)
    ensures |r| == |s|
  {
    if s == [] then [] else [if 'a' <= s[0] <= 'z' then (s[0] as int - 32) as char else s[0]] + ToUpperAscii(s[1..])
  }

  lemma {:induction false} ToLowerOfLowercase(s: string)
    requires forall i :: 0 <= i < |s| ==> !('A' <= s[i] <= 'Z')
    ensures ToLower(s) == s
  {
    if s != [] { ToLowerOfLowercase(s[1..]); }
  }

  lemma {:induction false} UpperLowerRoundTrip(s: string)
    requires forall i :: 0 <= i < |s| ==> !('A' <= s[i] <= 'Z')
    ensures ToLower(ToUpperAscii(s)) == s
  {
    if s != [] { UpperLowerRoundTrip(s[1..]); }
  }
}
