/** The configuration records of logging/logger.go (`LogConfig`,
    `PackageConfig`, `WriterConfig`, `FileConfig`, `ConsoleConfig`), the
    built-in default configuration, and the pure parts of `Configure` and
    `GetLogger` that only read a configuration. Go's nil pointers in
    `WriterConfig` are `None`; nil slices are empty sequences. */
module Config {
  import opened Wrappers
  import opened Severity

  datatype PackageConfig = PackageConfig(packageName: string, level: string)

  datatype FileConfig = FileConfig(
    defaultPath: string,
    errorPath: string,
    warnPath: string,
    infoPath: string,
    debugPath: string,
    tracePath: string)

  datatype ConsoleConfig = ConsoleConfig(writeErrToStdOut: bool, writeWarnToStdOut: bool)

  datatype WriterConfig = WriterConfig(file: Option<FileConfig>, console: Option<ConsoleConfig>)

  datatype LogConfig = LogConfig(
    format: string,
    async: bool,
    queueSize: int,
    datePattern: string,
    includeFunction: bool,
    includeLineNum: bool,
    defaultLvl: string,
    pkgConfigs: seq<PackageConfig>,
    writers: seq<WriterConfig>)

  /** Go's `time.RFC3339` layout string. */
  const RFC3339: string := "2006-01-02T15:04:05Z07:00"

  const DefaultQueueSize: int := 512

  /** `loadDefaultConfig`: text format, synchronous, RFC 3339 timestamps,
      INFO by default, and a single console writer with no flags set. */
  const DefaultConfig: LogConfig :=
    LogConfig("text", false, 0, RFC3339, false, false, Levels[InfoLvl], [],
              [WriterConfig(None, Some(ConsoleConfig(false, false)))])

  /** The defaults `Configure` writes into the configuration it is given: an
      empty date pattern becomes RFC 3339 and, in asynchronous mode only, a
      zero queue size becomes 512. Nothing else changes. */
  function WithDefaults(l: LogConfig): (r: LogConfig)
    ensures r.datePattern == if l.datePattern == "" then RFC3339 else l.datePattern
    ensures r.datePattern != ""
    ensures r.queueSize != l.queueSize <==> l.async && l.queueSize == 0
    ensures l.async && l.queueSize == 0 ==> r.queueSize == DefaultQueueSize
    ensures r.(datePattern := l.datePattern, queueSize := l.queueSize) == l
  {
    var withDate := if l.datePattern == "" then l.(datePattern := RFC3339) else l;
    if l.async && l.queueSize == 0 then withDate.(queueSize := DefaultQueueSize) else withDate
  }

  /** Filling in the defaults twice changes nothing more. */
  lemma WithDefaultsIdempotent(l: LogConfig)
    ensures WithDefaults(WithDefaults(l)) == WithDefaults(l)
  {
  }

  /** The writer entries `Configure` builds a writer for, in configuration
      order: those with a file or a console part. */
  function Plan(ws: seq<WriterConfig>): (p: seq<WriterConfig>)
    ensures |p| <= |ws|
    ensures forall k :: 0 <= k < |p| ==> p[k].file.Some? || p[k].console.Some?
    ensures forall w :: w in p ==> w in ws
    ensures forall w :: w in ws && (w.file.Some? || w.console.Some?) ==> w in p
  {
    if ws == [] then []
    else
      var w := ws[|ws| - 1];
      var rest := Plan(ws[..|ws| - 1]);
      assert ws == ws[..|ws| - 1] + [w];
      if w.file.Some? || w.console.Some? then rest + [w] else rest
  }

  /** `Plan` is a filter that keeps configuration order and multiplicity: the
      plan of a concatenation is the plan of each part in turn, and a single
      entry plans itself exactly when it has a file or a console part. */
  lemma {:induction false} PlanAppend(ws1: seq<WriterConfig>, ws2: seq<WriterConfig>)
    ensures Plan(ws1 + ws2) == Plan(ws1) + Plan(ws2)
    decreases |ws2|
  {
    if ws2 == [] {
      assert ws1 + ws2 == ws1;
    } else {
      var init, w := ws2[..|ws2| - 1], ws2[|ws2| - 1];
      PlanAppend(ws1, init);
      assert (ws1 + ws2)[..|ws1 + ws2| - 1] == ws1 + init;
      assert (ws1 + ws2)[|ws1 + ws2| - 1] == w;
    }
  }

  /** A one-entry configuration plans that entry exactly when it has a file or
      a console part. */
  lemma PlanSingle(w: WriterConfig)
    ensures Plan([w]) == if w.file.Some? || w.console.Some? then [w] else []
  {
    assert [w][..0] == [];
  }

  /** The level string the override scan of `GetLogger` settles on: the level
      of the LAST override naming `pkg` (the scan has no `break`), else `dflt`. */
  function LastMatch(pkgs: seq<PackageConfig>, pkg: string, dflt: string): string
  {
    if pkgs == [] then dflt
    else if pkgs[|pkgs| - 1].packageName == pkg then pkgs[|pkgs| - 1].level
    else LastMatch(pkgs[..|pkgs| - 1], pkg, dflt)
  }

  /** No override names `pkg`. */
  predicate NoOverride(pkgs: seq<PackageConfig>, pkg: string)
  {
    forall k :: 0 <= k < |pkgs| ==> pkgs[k].packageName != pkg
  }

  /** Entry `j` names `pkg` and no later entry does. */
  predicate IsLastOverride(pkgs: seq<PackageConfig>, pkg: string, j: int)
  {
    && 0 <= j < |pkgs|
    && pkgs[j].packageName == pkg
    && forall k :: j < k < |pkgs| ==> pkgs[k].packageName != pkg
  }

  /** Without an override for the package, the default level is kept. */
  lemma {:induction false} LastMatchDefault(pkgs: seq<PackageConfig>, pkg: string, dflt: string)
    requires NoOverride(pkgs, pkg)
    ensures LastMatch(pkgs, pkg, dflt) == dflt
  {
    if pkgs != [] {
      LastMatchDefault(pkgs[..|pkgs| - 1], pkg, dflt);
    }
  }

  /** With overrides for the package, the last one wins. */
  lemma {:induction false} LastMatchLastWins(pkgs: seq<PackageConfig>, pkg: string, dflt: string, j: int)
    requires IsLastOverride(pkgs, pkg, j)
    ensures LastMatch(pkgs, pkg, dflt) == pkgs[j].level
  {
    if j < |pkgs| - 1 {
      var init := pkgs[..|pkgs| - 1];
      assert IsLastOverride(init, pkg, j);
      LastMatchLastWins(init, pkg, dflt, j);
    }
  }

  /** The built-in configuration already carries its defaults, resolves to
      INFO and yields exactly one console writer that routes nothing to
      standard output. */
  lemma DefaultConfigShape()
    ensures WithDefaults(DefaultConfig) == DefaultConfig
    ensures LevelOf(DefaultConfig.defaultLvl) == InfoLvl
    ensures Plan(DefaultConfig.writers) == [WriterConfig(None, Some(ConsoleConfig(false, false)))]
  {
    LevelsRoundTrip(InfoLvl, "");
    var ws := DefaultConfig.writers;
    assert ws[..0] == [];
  }
}
