/**
 * Log levels. A level is a JavaScript number; the model keeps the integers
 * and the sentinel `Number.NEGATIVE_INFINITY`, which the loggers use as "no
 * threshold" and as the resolution of an unknown level name. `Logger`'s
 * resolver turns a level name into the KEY of `LOG_LEVEL_NAMES` it stands
 * under, which is the decimal string of the number (`"10"` for `trace`):
 * `Key(n)` is that string. Comparisons and indexing convert it to the number
 * `n`; strict equality (`includes`) tells it apart from `Num(n)`.
 */
module Levels {

  datatype Level = NegInf | Num(n: int) | Key(n: int)

  /** JavaScript `a < b` on two levels (a key is compared as its number). */
  predicate Below(a: Level, b: Level) {
    match (a, b)
    case (NegInf, NegInf) => false
    case (NegInf, _) => true
    case (_, NegInf) => false
    case _ => a.n < b.n
  }

  /** JavaScript `a >= b`. */
  predicate AtLeast(a: Level, b: Level) {
    !Below(a, b)
  }

  /** JavaScript `a > b`. */
  predicate Above(a: Level, b: Level) {
    Below(b, a)
  }

  /** JavaScript `a == b` on two levels: a key equals the number it spells. */
  predicate LooselyEqual(a: Level, b: Level) {
    if a.NegInf? || b.NegInf? then a == b else a.n == b.n
  }

  /** JavaScript truthiness of a level: every number except 0 (NaN is not modelled), and every key. */
  predicate Truthy(l: Level) {
    l != Num(0)
  }

  /** Negative infinity is the bottom of the order: every level is at least -Infinity. */
  lemma NegInfIsBottom(l: Level)
    ensures AtLeast(l, NegInf)
    ensures !Above(NegInf, l)
  {
  }

  /**
   * `>=` on levels is a total preorder whose ties are the loosely equal
   * levels; among numbers (or among keys) ties are equal levels.
   */
  lemma AtLeastTotal(a: Level, b: Level, c: Level)
    ensures AtLeast(a, a)
    ensures AtLeast(a, b) || AtLeast(b, a)
    ensures AtLeast(a, b) && AtLeast(b, c) ==> AtLeast(a, c)
    ensures AtLeast(a, b) && AtLeast(b, a) <==> LooselyEqual(a, b)
    ensures LooselyEqual(a, b) && a.Key? == b.Key? ==> a == b
  {
  }

  /** A level argument as a caller passes it: a number or a level name. */
  datatype RawLevel = NumberLevel(level: Level) | NameLevel(name: string)

  /**
   * A level resolver. `NumbersOnly` is BaseLogger's default
   * (`isNumber(level) ? level : -Infinity`); `Named` is Logger's, which also
   * looks level names up in a name-to-key table.
   */
  datatype Resolver = NumbersOnly | Named(names: map<string, int>)

  function Resolve(r: Resolver, raw: RawLevel): (l: Level)
    ensures raw.NumberLevel? ==> l == raw.level
    ensures raw.NameLevel? && r.Named? && raw.name in r.names ==> l == Key(r.names[raw.name])
    ensures raw.NameLevel? && !(r.Named? && raw.name in r.names) ==> l == NegInf
  {
    match raw
    case NumberLevel(level) => level
    case NameLevel(name) =>
      if r.Named? && name in r.names then Key(r.names[name]) else NegInf
  }

  /** The library's named levels (`LogLevel` in constants.ts). */
  datatype LogLevel = TRACE | DEBUG | INFO | WARN | ERROR | FATAL | NOTICE {
    function Value(): int {
      match this
      case TRACE => 10
      case DEBUG => 20
      case INFO => 30
      case WARN => 40
      case ERROR => 50
      case FATAL => 60
      case NOTICE => 70
    }

    function Name(): string {
      match this
      case TRACE => "trace"
      case DEBUG => "debug"
      case INFO => "info"
      case WARN => "warn"
      case ERROR => "error"
      case FATAL => "fatal"
      case NOTICE => "notice"
    }
  }

  /** `LOG_LEVEL_NAMES` as a list of (name, number) pairs in declaration order. */
  const LevelTable: seq<(string, int)> := [
    ("trace", 10), ("debug", 20), ("info", 30), ("warn", 40),
    ("error", 50), ("fatal", 60), ("notice", 70)
  ]

  /** The name-to-key table Logger builds from `LOG_LEVEL_NAMES` (each key the string of the number). */
  const LevelNumbers: map<string, int> := map[
    "trace" := 10, "debug" := 20, "info" := 30, "warn" := 40,
    "error" := 50, "fatal" := 60, "notice" := 70
  ]
}
