/** The severity scale of logging/logger.go: six ordinals, the name table
    `Levels`, its reverse `LevelsMap`, and `Severity.String`. A severity is a
    plain Go `int`, so values outside the scale exist and are handled. */
module Severity {
  import opened Wrappers

  const Off: int := 0
  const ErrLvl: int := 1
  const WarnLvl: int := 2
  const InfoLvl: int := 3
  const DebugLvl: int := 4
  const TraceLvl: int := 5

  /** Names indexed by ordinal. */
  const Levels: seq<string> := ["OFF", "ERROR", "WARN", "INFO", "DEBUG", "TRACE"]

  /** Ordinal by name. */
  const LevelsMap: map<string, int> :=
    map["OFF" := Off, "ERROR" := ErrLvl, "WARN" := WarnLvl,
        "INFO" := InfoLvl, "DEBUG" := DebugLvl, "TRACE" := TraceLvl]

  const InvalidSeverity: string := "Invalid severity "

  predicate InRange(sev: int) {
    Off <= sev <= TraceLvl
  }

  /** Every ordinal's name maps back to it, and every mapped name is the name
      of its ordinal: `Levels` and `LevelsMap` are inverse tables. */
  lemma LevelsRoundTrip(sev: int, name: string)
    ensures InRange(sev) ==> Levels[sev] in LevelsMap && LevelsMap[Levels[sev]] == sev
    ensures name in LevelsMap ==> InRange(LevelsMap[name]) && Levels[LevelsMap[name]] == name
  {
    if InRange(sev) {
      if sev == 0 {} else if sev == 1 {} else if sev == 2 {}
      else if sev == 3 {} else if sev == 4 {} else {}
    }
  }

  /** `Severity.String`: the name of an ordinal of the scale, or the empty
      string together with an error for any other value. */
  function Name(sev: int): (r: (string, Option<string>))
    ensures r.1.None? <==> InRange(sev)
    ensures r.1.None? ==> r.0 in LevelsMap && LevelsMap[r.0] == sev
    ensures r.1.Some? ==> r.0 == "" && r.1.value == InvalidSeverity
  {
    LevelsRoundTrip(sev, "");
    if sev < 0 || sev > 5 then ("", Some(InvalidSeverity)) else (Levels[sev], None)
  }

  /** `LevelsMap[name]`: Go yields the zero value, Off, for a name the map
      does not hold (the lookup is case-sensitive). */
  function LevelOf(name: string): (sev: int)
    ensures InRange(sev)
    ensures name in LevelsMap ==> Levels[sev] == name
    ensures name !in LevelsMap ==> sev == Off
  {
    LevelsRoundTrip(0, name);
    if name in LevelsMap then LevelsMap[name] else Off
  }

  /** Resolving the name of an ordinal gives the ordinal back. */
  lemma NameThenLevel(sev: int)
    requires InRange(sev)
    ensures LevelOf(Name(sev).0) == sev
  {
  }
}
