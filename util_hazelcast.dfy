/** util/hazelcast.go: a Hazelcast client logger that writes through
    zerolog. Hazelcast weights are translated to zerolog levels, and a
    message is written only when its level reaches the configured one. */
module UtilHazelcast {

  /** A zerolog level, an `int8`. */
  type Level = x: int | -128 <= x <= 127

  const TraceLevel: Level := -1
  const DebugLevel: Level := 0
  const InfoLevel: Level := 1
  const WarnLevel: Level := 2
  const ErrorLevel: Level := 3
  const FatalLevel: Level := 4
  const PanicLevel: Level := 5
  const NoLevel: Level := 6
  const Disabled: Level := 7

  /** The weights of the Hazelcast client's logger; `Unnamed` is any other value. */
  datatype Weight = WeightOff | WeightFatal | WeightError | WeightWarn | WeightInfo | WeightDebug | WeightTrace | Unnamed(code: int)

  /** Every weight lands between debug and fatal, and only debug and trace
      become debug. */
  function TranslateWeight(weight: Weight): (r: Level)
    ensures DebugLevel <= r <= FatalLevel
    ensures r == DebugLevel <==> weight == WeightDebug || weight == WeightTrace
  {
    match weight
    case WeightDebug => DebugLevel
    case WeightTrace => DebugLevel
    case WeightInfo => InfoLevel
    case WeightWarn => WarnLevel
    case WeightError => ErrorLevel
    case WeightFatal => FatalLevel
    case _ => InfoLevel
  }

  /** Whether `Log` writes a message of this weight at the configured level. */
  predicate Emits(weight: Weight, level: Level) {
    TranslateWeight(weight) >= level
  }

  /** Debug and trace both become debug; info, warn, error and fatal keep
      their names; everything else, off included, becomes info. */
  lemma TranslationTable(weight: Weight)
    ensures weight == WeightDebug || weight == WeightTrace ==> TranslateWeight(weight) == DebugLevel
    ensures weight == WeightInfo ==> TranslateWeight(weight) == InfoLevel
    ensures weight == WeightWarn ==> TranslateWeight(weight) == WarnLevel
    ensures weight == WeightError ==> TranslateWeight(weight) == ErrorLevel
    ensures weight == WeightFatal ==> TranslateWeight(weight) == FatalLevel
    ensures weight == WeightOff || weight.Unnamed? ==> TranslateWeight(weight) == InfoLevel
    ensures DebugLevel <= TranslateWeight(weight) <= FatalLevel
  {
  }

  /** Lowering the configured level never silences a message, and a
      heavier weight is written whenever a lighter one is. */
  lemma ThresholdMonotone(weight: Weight, heavier: Weight, level: Level, lower: Level)
    requires lower <= level
    requires TranslateWeight(weight) <= TranslateWeight(heavier)
    ensures Emits(weight, level) ==> Emits(weight, lower)
    ensures Emits(weight, level) ==> Emits(heavier, level)
  {
  }

  /** At trace or debug level everything is written; at panic level and
      above, nothing is. */
  lemma ThresholdExtremes(weight: Weight, level: Level)
    ensures level <= DebugLevel ==> Emits(weight, level)
    ensures level >= PanicLevel ==> !Emits(weight, level)
    ensures Emits(WeightTrace, level) == Emits(WeightDebug, level)
  {
  }

  class HazelcastZerologLogger {
    const level: Level
    /** What the zerolog logger was given: the level and the message of each write. */
    var written: seq<(Level, string)>

    constructor (level: Level)
      ensures this.level == level && written == []
    {
      this.level := level;
      written := [];
    }

    /** `Log`: the message of `f` with the `Hazelcast: ` prefix, written at
        the translated level when that level reaches the configured one. */
    method Log(weight: Weight, f: () -> string)
      modifies this`written
      ensures Emits(weight, level) ==> written == old(written) + [(TranslateWeight(weight), "Hazelcast: " + f())]
      ensures !Emits(weight, level) ==> written == old(written)
    {
      var messageLevel := TranslateWeight(weight);
      if messageLevel >= level {
        written := written + [(messageLevel, "Hazelcast: " + f())];
      }
    }
  }
}
