/** Logging set-up: the output level chosen from `log_level`, and the gate
    that silences the RPC library's own logger. */
module Logging {
  import opened Settings

  datatype Level = DebugLevel | InfoLevel | WarnLevel | ErrorLevel | NoneLevel

  /** The lower-case name under which each level may be selected. */
  function LevelName(l: Level): string {
    match l
    case DebugLevel => "debug"
    case InfoLevel => "info"
    case WarnLevel => "warn"
    case ErrorLevel => "error"
    case NoneLevel => "none"
  }

  predicate IsUpper(c: char) {
    'A' <= c <= 'Z'
  }

  predicate IsLower(c: char) {
    'a' <= c <= 'z'
  }

  function LowerChar(c: char): (r: char)
    ensures IsUpper(c) ==> IsLower(r) && r as int == c as int + 32
    ensures !IsUpper(c) ==> r == c
  {
    if IsUpper(c) then (c as int + 32) as char else c
  }

  function UpperChar(c: char): (r: char)
    ensures IsLower(c) ==> IsUpper(r) && LowerChar(r) == c
    ensures !IsLower(c) ==> r == c
  {
    if IsLower(c) then (c as int - 32) as char else c
  }

  /** Case folding of ASCII letters; every other character is kept. */
  function Lower(s: string): (r: string)
    ensures |r| == |s|
    ensures forall i :: 0 <= i < |s| ==> r[i] == LowerChar(s[i])
  {
    if s == [] then [] else [LowerChar(s[0])] + Lower(s[1..])
  }

  function Upper(s: string): (r: string)
    ensures |r| == |s|
    ensures forall i :: 0 <= i < |s| ==> r[i] == UpperChar(s[i])
  {
    if s == [] then [] else [UpperChar(s[0])] + Upper(s[1..])
  }

  /** A level name matched without regard to case; any other string,
      the empty one included, selects the info level. */
  function StringToLogLevel(name: string): (l: Level)
    ensures Lower(name) == LevelName(l)
         || (l == InfoLevel && forall k: Level :: Lower(name) != LevelName(k))
  {
    var n := Lower(name);
    if n == "debug" then DebugLevel
    else if n == "info" then InfoLevel
    else if n == "warn" then WarnLevel
    else if n == "error" then ErrorLevel
    else if n == "none" then NoneLevel
    else InfoLevel
  }

  /** Folding a string with no upper-case letter changes nothing. */
  lemma {:induction false} LowerKeepsLowerCase(s: string)
    requires forall i :: 0 <= i < |s| ==> !IsUpper(s[i])
    ensures Lower(s) == s
  {
    if s != [] {
      LowerKeepsLowerCase(s[1..]);
    }
  }

  /** Folding undoes `Upper` on a string with no upper-case letter. */
  lemma {:induction false} LowerUndoesUpper(s: string)
    requires forall i :: 0 <= i < |s| ==> !IsUpper(s[i])
    ensures Lower(Upper(s)) == s
  {
    if s != [] {
      LowerUndoesUpper(s[1..]);
      assert Upper(s) == [UpperChar(s[0])] + Upper(s[1..]);
    }
  }

  /** Every level is selected by its own name. */
  lemma LevelNameSelectsLevel(l: Level)
    ensures StringToLogLevel(LevelName(l)) == l
  {
    LowerKeepsLowerCase(LevelName(l));
  }

  /** Every level is selected by its name written in capitals too. */
  lemma UpperCaseNameSelectsLevel(l: Level)
    ensures StringToLogLevel(Upper(LevelName(l))) == l
  {
    LowerUndoesUpper(LevelName(l));
  }

  /** The empty string selects the info level. */
  lemma EmptyNameSelectsInfo()
    ensures StringToLogLevel("") == InfoLevel
  {
  }

  /** The part of the logging options this model resolves: the level,
      JSON encoding, and whether the RPC library's logger is silenced
      (its output discarded and the option that routes it turned off). */
  datatype LogOptions = LogOptions(level: Level, jsonEncoding: bool, silenceGrpc: bool)

  /** The RPC logger stays on only when `log_grpc` is set and true: an
      unset key reads as false, so it is silenced by default. */
  function ConfigureLogging(s: Store): (o: LogOptions)
    ensures o.level == StringToLogLevel(GetString(s, KeyLogLevel))
    ensures o.jsonEncoding <==> IsSet(s, KeyLogJson) && s[KeyLogJson].flag
    ensures !o.silenceGrpc <==> IsSet(s, KeyLogGrpc) && s[KeyLogGrpc].flag
  {
    LogOptions(StringToLogLevel(GetString(s, KeyLogLevel)),
               GetBool(s, KeyLogJson),
               !GetBool(s, KeyLogGrpc))
  }

  /** With no logging setting at all: info level, plain encoding, and the
      RPC logger silenced. */
  lemma UnsetLoggingDefaults(s: Store)
    requires !IsSet(s, KeyLogLevel) && !IsSet(s, KeyLogJson) && !IsSet(s, KeyLogGrpc)
    ensures ConfigureLogging(s) == LogOptions(InfoLevel, false, true)
  {
    EmptyNameSelectsInfo();
  }
}
