/** The six event levels (LogEventLevel), ordered Verbose through Fatal. */
module Levels {
  import opened Wrappers

  datatype Level = Verbose | Debug | Information | Warning | Error | Fatal

  /** Enum ordinal: the order in which the constants are declared. */
  function Ordinal(l: Level): (r: nat)
    ensures r < 6
  {
    match l
    case Verbose => 0
    case Debug => 1
    case Information => 2
    case Warning => 3
    case Error => 4
    case Fatal => 5
  }

  /** Enum name(), which is also its toString(). */
  function Name(l: Level): (r: string)
    ensures |r| >= 4
  {
    match l
    case Verbose => "Verbose"
    case Debug => "Debug"
    case Information => "Information"
    case Warning => "Warning"
    case Error => "Error"
    case Fatal => "Fatal"
  }

  /** `l.ordinal() >= m.ordinal()`, the comparison every level gate uses. */
  predicate AtLeast(l: Level, m: Level) {
    Ordinal(l) >= Ordinal(m)
  }

  /** LogEventLevel.valueOf: an exact, case-sensitive name match; None where Java throws. */
  function ValueOf(s: string): (r: Option<Level>)
    ensures r.Some? ==> Name(r.value) == s
    ensures r.None? ==> forall l: Level :: Name(l) != s
  {
    if s == "Verbose" then Some(Verbose)
    else if s == "Debug" then Some(Debug)
    else if s == "Information" then Some(Information)
    else if s == "Warning" then Some(Warning)
    else if s == "Error" then Some(Error)
    else if s == "Fatal" then Some(Fatal)
    else None
  }

  lemma OrdinalInjective(a: Level, b: Level)
    ensures Ordinal(a) == Ordinal(b) <==> a == b
  {
  }

  /** valueOf inverts name(). */
  lemma ValueOfName(l: Level)
    ensures ValueOf(Name(l)) == Some(l)
  {
  }
}
