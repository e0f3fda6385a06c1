/** Level names (helper.go): the configuration's level string mapped to one of
    zap's seven levels. */
module Levels {
  import opened GoStrings

  /** zapcore's levels, from least to most severe. */
  datatype Level = DebugLevel | InfoLevel | WarnLevel | ErrorLevel | DPanicLevel | PanicLevel | FatalLevel {

    /** zapcore's numeric value of the level (`DebugLevel` is -1). */
    function Severity(): (n: int)
      ensures -1 <= n <= 5
    {
      match this
      case DebugLevel => -1
      case InfoLevel => 0
      case WarnLevel => 1
      case ErrorLevel => 2
      case DPanicLevel => 3
      case PanicLevel => 4
      case FatalLevel => 5
    }

    /** The level's lower-case name, as the configuration documents it
        (`debug,info,warn,error,dpanic,panic,fatal`). */
    function Name(): GoString
    {
      match this
      case DebugLevel => "debug"
      case InfoLevel => "info"
      case WarnLevel => "warn"
      case ErrorLevel => "error"
      case DPanicLevel => "dpanic"
      case PanicLevel => "panic"
      case FatalLevel => "fatal"
    }
  }

  /** `levelString2Level(lvStr)`: the level named `lvStr`, and `InfoLevel`
      for any other string. */
  function LevelString2Level(lvStr: GoString): (lv: Level)
    ensures lv.Name() == lvStr || lv == InfoLevel
    ensures (exists l: Level :: l.Name() == lvStr) ==> lv.Name() == lvStr
  {
    match lvStr
    case "debug" => DebugLevel
    case "info" => InfoLevel
    case "warn" => WarnLevel
    case "error" => ErrorLevel
    case "dpanic" => DPanicLevel
    case "panic" => PanicLevel
    case "fatal" => FatalLevel
    case _ => InfoLevel
  }

  /** The zap atomic level `newAtomicLevelAt(lvStr)` wraps. */
  datatype AtomicLevel = AtomicLevel(level: Level)

  /** `newAtomicLevelAt(lvStr)`. */
  function NewAtomicLevelAt(lvStr: GoString): AtomicLevel
  {
    AtomicLevel(LevelString2Level(lvStr))
  }

  /** Every level's name maps back to that level. */
  lemma NameRoundTrip(lv: Level)
    ensures LevelString2Level(lv.Name()) == lv
  {
  }

  /** A string that names no level maps to `InfoLevel`. */
  lemma UnknownNameIsInfo(lvStr: GoString)
    requires forall lv: Level :: lv.Name() != lvStr
    ensures LevelString2Level(lvStr) == InfoLevel
  {
    assert InfoLevel.Name() != lvStr;
  }

  /** The empty string names no level, so it maps to `InfoLevel`. */
  lemma EmptyNameIsInfo()
    ensures forall lv: Level :: lv.Name() != []
    ensures LevelString2Level([]) == InfoLevel
  {
  }

  /** The seven names map to seven distinct levels. */
  lemma NamesDistinct(a: Level, b: Level)
    requires a != b
    ensures a.Name() != b.Name()
    ensures LevelString2Level(a.Name()) != LevelString2Level(b.Name())
  {
    NameRoundTrip(a);
    NameRoundTrip(b);
  }
}
