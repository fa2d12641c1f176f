/**
 * The level registry: the ordered severity names, the process-wide
 * threshold and the filter that compares positions in that order.
 */
module Levels {
  import opened Values

  /** The severities, in the insertion order of the `LogLevels` object. */
  datatype Level = DEBUG | INFO | WARN | ERROR | NONE

  /** The string each `LogLevels` entry holds. */
  function Name(l: Level): string {
    match l
    case DEBUG => "DEBUG"
    case INFO => "INFO"
    case WARN => "WARN"
    case ERROR => "ERROR"
    case NONE => "NONE"
  }

  /** The values of `LogLevels` in key order, the list every position is looked up in. */
  const LevelNames: seq<string> := ["DEBUG", "INFO", "WARN", "ERROR", "NONE"]

  /** The rank of a level in the order DEBUG < INFO < WARN < ERROR < NONE. */
  function Ordinal(l: Level): nat {
    match l
    case DEBUG => 0
    case INFO => 1
    case WARN => 2
    case ERROR => 3
    case NONE => 4
  }

  /** The levels that have an entry point on a logger (`debug`, `info`, `warn`, `error`). */
  predicate Emitting(l: Level) {
    l != NONE
  }

  /** `Array.prototype.indexOf` with strict equality: the first index holding `x`, or -1. */
  function IndexOf(names: seq<string>, x: string): (r: int)
    ensures -1 <= r < |names|
    ensures r == -1 <==> x !in names
    ensures r >= 0 ==> names[r] == x && forall j :: 0 <= j < r ==> names[j] != x
  {
    if names == [] then -1
    else if names[0] == x then 0
    else
      var k := IndexOf(names[1..], x);
      if k == -1 then -1 else k + 1
  }

  /** The position of any value in the level order; -1 for everything that is not a level name. */
  function Position(v: Value): (r: int)
    ensures -1 <= r < |LevelNames|
    ensures r == -1 <==> !(v.Str? && v.s in LevelNames)
    ensures r >= 0 ==> v == Str(LevelNames[r])
  {
    if v.Str? then IndexOf(LevelNames, v.s) else -1
  }

  /** Looking a level's own name up gives its rank: positions follow the declared order. */
  lemma PositionOfName(l: Level)
    ensures Position(Str(Name(l))) == Ordinal(l)
  {
    assert LevelNames[Ordinal(l)] == Name(l);
  }

  /** `_shouldLog`: a level passes when its position is at least the threshold's. */
  predicate ShouldLog(level: Level, threshold: Value) {
    Position(Str(Name(level))) >= Position(threshold)
  }

  /** With a recognised threshold the filter is exactly the rank comparison. */
  lemma ShouldLogByRank(level: Level, threshold: Level)
    ensures ShouldLog(level, Str(Name(threshold))) <==> Ordinal(level) >= Ordinal(threshold)
  {
    PositionOfName(level);
    PositionOfName(threshold);
  }

  /** A threshold that is not a level name has position -1, so every level passes. */
  lemma UnrecognisedThresholdPassesAll(level: Level, threshold: Value)
    requires !(threshold.Str? && threshold.s in LevelNames)
    ensures ShouldLog(level, threshold)
  {
    PositionOfName(level);
  }

  /** With the threshold at NONE no entry-point level passes. */
  lemma NoneSilencesEmitting(level: Level)
    requires Emitting(level)
    ensures !ShouldLog(level, Str(Name(NONE)))
  {
    ShouldLogByRank(level, NONE);
  }

  /** The initial threshold DEBUG lets every level through. */
  lemma DebugPassesAll(level: Level)
    ensures ShouldLog(level, Str(Name(DEBUG)))
  {
    ShouldLogByRank(level, DEBUG);
  }

  /** Whatever the threshold, a more severe level passes whenever a less severe one does. */
  lemma ShouldLogMonotone(lower: Level, higher: Level, threshold: Value)
    requires Ordinal(lower) <= Ordinal(higher)
    requires ShouldLog(lower, threshold)
    ensures ShouldLog(higher, threshold)
  {
    PositionOfName(lower);
    PositionOfName(higher);
  }

  /** The module-global `GlobalLogLevel` and its setter `setLogLevel`. */
  class Registry {
    var threshold: Value

    /** The threshold starts at DEBUG. */
    constructor()
      ensures threshold == Str(Name(DEBUG))
    {
      threshold := Str(Name(DEBUG));
    }

    /** Stores any value, unchecked. */
    method SetLogLevel(level: Value)
      modifies this
      ensures threshold == level
    {
      threshold := level;
    }

    /** Whether a call at `level` passes the current threshold. */
    predicate Active(level: Level)
      reads this
    {
      ShouldLog(level, threshold)
    }
  }

  /** Setting the same threshold twice leaves the registry as setting it once does. */
  method SetLogLevelTwice(registry: Registry, level: Value)
    modifies registry
    ensures registry.threshold == level
    ensures forall l :: registry.Active(l) == ShouldLog(l, level)
  {
    registry.SetLogLevel(level);
    ghost var once := registry.threshold;
    registry.SetLogLevel(level);
    assert registry.threshold == once;
  }
}
