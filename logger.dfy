/** The logger side of logging/logger.go: the `Logger` record with its five
    level flags, `updateLvlFlags`, `IsEnabled`, the ten level methods, and the
    package state (`loggers`, `writers`, `logConfig`) with `Configure`,
    `GetLogger` and `handleLog`.

    The package-level variables become the fields of one `Engine` object;
    `init` becomes its constructor, given the configuration that `loadConfig`
    would have read. `runtime.Caller` is replaced by a `Caller` argument (the
    fully qualified function name and line it would have reported), and the
    text that `fmt.Sprint`/`fmt.Sprintf` would produce is a string argument.
    Writes are returned, not performed. */
module Logging {
  import opened Wrappers
  import opened Severity
  import opened Config
  import opened Output
  import opened GoStrings
  import opened FileWriters
  import opened ConsoleWriters

  /** What `runtime.Caller` reports: a fully qualified function name such as
      `github.com/org/repo/pkg.Func`, and a line number. */
  datatype Caller = Caller(fnName: string, line: int)

  /** A `LogWriter` of the writer list. */
  datatype Writer = FileOut(file: FileWriter) | ConsoleOut(console: ConsoleWriter)
  {
    /** The writer object behind the interface value. */
    function Target(): object
    {
      if FileOut? then file else console
    }

    /** The interface call `w.DoLog(logMsg)`. */
    function DoLog(m: LogMessage, cfg: LogConfig, fx: Foreign): seq<Write>
      reads Target()
    {
      match this
      case FileOut(f) => f.DoLog(m, cfg, fx)
      case ConsoleOut(c) => c.DoLog(m, cfg, fx)
    }
  }

  function Targets(ws: seq<Writer>): set<object>
  {
    set w | w in ws :: w.Target()
  }

  /** The writes of handing one record to every writer of the list, in list
      order. */
  function FanOut(ws: seq<Writer>, m: LogMessage, cfg: LogConfig, fx: Foreign): seq<Write>
    reads Targets(ws)
  {
    if ws == [] then []
    else
      var init := ws[..|ws| - 1];
      assert Targets(init) <= Targets(ws) by {
        forall w | w in init ensures w in ws { }
      }
      FanOut(init, m, cfg, fx) + ws[|ws| - 1].DoLog(m, cfg, fx)
  }

  /** Fanning out to two lists one after the other is fanning out to their
      concatenation: each writer gets the record once, in list order. */
  lemma {:induction false} FanOutAppend(ws1: seq<Writer>, ws2: seq<Writer>, m: LogMessage, cfg: LogConfig, fx: Foreign)
    ensures FanOut(ws1 + ws2, m, cfg, fx) == FanOut(ws1, m, cfg, fx) + FanOut(ws2, m, cfg, fx)
    decreases |ws2|
  {
    if ws2 == [] {
      assert ws1 + ws2 == ws1;
    } else {
      var init2 := ws2[..|ws2| - 1];
      var last := ws2[|ws2| - 1];
      var d := last.DoLog(m, cfg, fx);
      assert (ws1 + ws2)[..|ws1 + ws2| - 1] == ws1 + init2;
      assert (ws1 + ws2)[|ws1 + ws2| - 1] == last;
      assert FanOut(ws1 + ws2, m, cfg, fx) == FanOut(ws1 + init2, m, cfg, fx) + d;
      assert FanOut(ws2, m, cfg, fx) == FanOut(init2, m, cfg, fx) + d;
      FanOutAppend(ws1, init2, m, cfg, fx);
      Assoc(FanOut(ws1, m, cfg, fx), FanOut(init2, m, cfg, fx), d);
    }
  }

  /** A one-writer list produces exactly that writer's writes. */
  lemma FanOutSingle(w: Writer, m: LogMessage, cfg: LogConfig, fx: Foreign)
    ensures FanOut([w], m, cfg, fx) == w.DoLog(m, cfg, fx)
  {
    assert [w][..0] == [];
  }

  /** An Off record, or a format that is neither "json" nor "text", produces
      no write at all, whatever the writers. */
  lemma {:induction false} FanOutSilent(ws: seq<Writer>, m: LogMessage, cfg: LogConfig, fx: Foreign)
    requires m.sev == Off || (cfg.format != "json" && cfg.format != "text")
    ensures FanOut(ws, m, cfg, fx) == []
  {
    if ws != [] {
      FanOutSilent(ws[..|ws| - 1], m, cfg, fx);
    }
  }

  /** The package name `GetLogger` derives from the qualified function name:
      the text after the last '/', up to its first '.'. */
  function PackageName(fnName: string): (r: string)
    ensures var seg := LastSegment(fnName, '/');
      && |r| <= |seg| && r == seg[..|r|] && '.' !in r
      && (|r| < |seg| ==> seg[|r|] == '.')
    ensures '/' !in r
  {
    var seg := LastSegment(fnName, '/');
    var r := FirstSegment(seg, '.');
    assert forall k :: 0 <= k < |r| ==> r[k] == seg[k];
    r
  }

  /** The override scan of `GetLogger`, as the loop it is. */
  method ResolveLevel(pkgs: seq<PackageConfig>, pkg: string, dflt: string) returns (level: string)
    ensures level == LastMatch(pkgs, pkg, dflt)
    ensures NoOverride(pkgs, pkg) ==> level == dflt
    ensures forall j :: IsLastOverride(pkgs, pkg, j) ==> level == pkgs[j].level
  {
    level := dflt;
    if |pkgs| > 0 {
      for i := 0 to |pkgs|
        invariant level == LastMatch(pkgs[..i], pkg, dflt)
      {
        assert pkgs[..i + 1][..i] == pkgs[..i];
        if pkgs[i].packageName == pkg {
          level := pkgs[i].level;
        }
      }
    }
    assert pkgs[..|pkgs|] == pkgs;
    if NoOverride(pkgs, pkg) {
      LastMatchDefault(pkgs, pkg, dflt);
    }
    forall j | IsLastOverride(pkgs, pkg, j)
      ensures level == pkgs[j].level
    {
      LastMatchLastWins(pkgs, pkg, dflt, j);
    }
  }

  /** The outcome of `handleLog`: the record built, and either its place in
      the asynchronous queue or the writes of the synchronous fan-out. */
  datatype Delivery = Queued(msg: LogMessage) | Delivered(msg: LogMessage, writes: seq<Write>)

  class Logger {
    var sev: int
    var pkgName: string
    var errorEnabled: bool
    var warnEnabled: bool
    var infoEnabled: bool
    var debugEnabled: bool
    var traceEnabled: bool
    var includeFunction: bool
    var includeLine: bool

    /** The `&Logger{...}` literal of `GetLogger`: every flag false. */
    constructor (sev: int, pkgName: string, includeFunction: bool, includeLine: bool)
      ensures this.sev == sev && this.pkgName == pkgName
      ensures this.includeFunction == includeFunction && this.includeLine == includeLine
      ensures !errorEnabled && !warnEnabled && !infoEnabled && !debugEnabled && !traceEnabled
    {
      this.sev, this.pkgName := sev, pkgName;
      this.includeFunction, this.includeLine := includeFunction, includeLine;
      errorEnabled, warnEnabled, infoEnabled, debugEnabled, traceEnabled := false, false, false, false, false;
    }

    /** Every flag is on exactly for the severities at or below the threshold. */
    ghost predicate FlagsMatchLevel()
      reads this
    {
      && InRange(sev)
      && errorEnabled == (sev >= ErrLvl)
      && warnEnabled == (sev >= WarnLvl)
      && infoEnabled == (sev >= InfoLvl)
      && debugEnabled == (sev >= DebugLvl)
      && traceEnabled == (sev == TraceLvl)
    }

    /** The flag a level method tests. */
    function Flag(level: int): bool
      reads this
    {
      if level == ErrLvl then errorEnabled
      else if level == WarnLvl then warnEnabled
      else if level == InfoLvl then infoEnabled
      else if level == DebugLvl then debugEnabled
      else if level == TraceLvl then traceEnabled
      else false
    }

    /** `updateLvlFlags`: for a threshold of the scale, sets every flag from
        it; for any other value reports an error and changes nothing. */
    method UpdateLvlFlags() returns (err: Option<string>)
      modifies this
      ensures sev == old(sev) && pkgName == old(pkgName)
      ensures includeFunction == old(includeFunction) && includeLine == old(includeLine)
      ensures err.None? <==> InRange(sev)
      ensures err.Some? ==> err.value == InvalidSeverity
      ensures InRange(sev) ==> FlagsMatchLevel()
      ensures !InRange(sev) ==>
        && errorEnabled == old(errorEnabled) && warnEnabled == old(warnEnabled)
        && infoEnabled == old(infoEnabled) && debugEnabled == old(debugEnabled)
        && traceEnabled == old(traceEnabled)
    {
      if sev < 0 || sev > 5 {
        return Some(InvalidSeverity);
      }
      errorEnabled := sev >= 1;
      warnEnabled := sev >= 2;
      infoEnabled := sev >= 3;
      debugEnabled := sev >= 4;
      traceEnabled := sev == 5;
      err := None;
    }

    /** `IsEnabled`: a range check against the threshold, reading no flag.
        Measured against flags that match the threshold, it accepts a level
        of the scale exactly when that level is the threshold or its flag is
        off. */
    function IsEnabled(s: int): (r: bool)
      reads this
      ensures FlagsMatchLevel() && ErrLvl <= s <= TraceLvl ==> (r <==> s == sev || !Flag(s))
    {
      s <= TraceLvl && s >= sev
    }

    /** `Error`, `Warn`, `Info`, `Debug`, `Trace`: hand the record on only
        when the level's flag is set and at least one operand was passed. */
    method Log(e: Engine, level: int, argc: nat, text: string, now: Instant, caller: Caller, fx: Foreign)
      returns (d: Option<Delivery>)
      requires ErrLvl <= level <= TraceLvl
      ensures d.Some? <==> Flag(level) && argc > 0
      ensures FlagsMatchLevel() ==> (d.Some? <==> level <= sev && argc > 0)
      ensures d.Some? ==> e.Handles(d.value, level, text, now, caller, includeFunction, includeLine, fx)
    {
      d := None;
      if Flag(level) && argc > 0 {
        var r := e.HandleLog(level, this, text, now, caller, fx);
        d := Some(r);
      }
    }

    /** `ErrorF`, `WarnF`, `InfoF`, `DebugF`, `TraceF`: hand the record on
        whenever the level's flag is set. */
    method LogF(e: Engine, level: int, text: string, now: Instant, caller: Caller, fx: Foreign)
      returns (d: Option<Delivery>)
      requires ErrLvl <= level <= TraceLvl
      ensures d.Some? <==> Flag(level)
      ensures FlagsMatchLevel() ==> (d.Some? <==> level <= sev)
      ensures d.Some? ==> e.Handles(d.value, level, text, now, caller, includeFunction, includeLine, fx)
    {
      d := None;
      if Flag(level) {
        var r := e.HandleLog(level, this, text, now, caller, fx);
        d := Some(r);
      }
    }
  }

  /** The level methods gate on the flags, and the flags form a chain: each
      level's flag is on exactly for thresholds at or above that level. */
  lemma FlagsChain(l: Logger)
    requires l.FlagsMatchLevel()
    ensures l.traceEnabled ==> l.debugEnabled
    ensures l.debugEnabled ==> l.infoEnabled
    ensures l.infoEnabled ==> l.warnEnabled
    ensures l.warnEnabled ==> l.errorEnabled
    ensures forall level :: ErrLvl <= level <= TraceLvl ==> (l.Flag(level) <==> level <= l.sev)
  {
  }

  /** `IsEnabled(s)` holds for the severities from the threshold up to Trace,
      while the flags hold for those from Error up to the threshold: the two
      agree on a level of the scale only at the threshold itself. */
  lemma IsEnabledAgainstFlags(l: Logger, s: int)
    requires l.FlagsMatchLevel() && ErrLvl <= s <= TraceLvl
    ensures l.IsEnabled(s) <==> l.sev <= s
    ensures l.Flag(s) <==> s <= l.sev
    ensures l.IsEnabled(s) == l.Flag(s) <==> s == l.sev
  {
    FlagsChain(l);
  }

  /** `IsEnabled` reads only the threshold, never the flags: it accepts the
      severities from the threshold up to Trace and nothing above Trace, so
      an Info logger rejects Warn and a Trace logger rejects Error, Info and
      Debug, whatever its flags say. */
  lemma IsEnabledCases(l: Logger)
    ensures forall s, s2 :: l.IsEnabled(s) && s <= s2 <= TraceLvl ==> l.IsEnabled(s2)
    ensures !l.IsEnabled(TraceLvl + 1)
    ensures l.sev <= TraceLvl ==> l.IsEnabled(TraceLvl)
    ensures l.sev == InfoLvl ==> !l.IsEnabled(WarnLvl) && l.IsEnabled(InfoLvl)
    ensures l.sev == TraceLvl ==> !l.IsEnabled(ErrLvl) && !l.IsEnabled(InfoLvl) && !l.IsEnabled(DebugLvl)
  {
  }

  /** The package state: the logger cache, the writer list and the current
      configuration, plus the lines the package itself printed to standard
      error (the file writer's echo of its error path). */
  class Engine {
    var loggers: map<string, Logger>
    var writers: seq<Writer>
    var config: LogConfig
    var stderrEcho: seq<Write>

    /** Every cached logger is filed under its own package name and has flags
        that match its threshold. */
    ghost predicate Valid()
      reads this, loggers.Values
    {
      forall p :: p in loggers ==> loggers[p].pkgName == p && loggers[p].FlagsMatchLevel()
    }

    /** `init`: `Configure` applied to the loaded configuration, starting from
        an empty cache and no writers. */
    constructor (loaded: LogConfig, fs: FileSystem)
      modifies fs
      ensures Valid() && loggers == map[]
      ensures config == WithDefaults(loaded)
      ensures BuiltAll(writers, Plan(loaded.writers), |old(fs.openLog)|)
      ensures fs.openLog == old(fs.openLog) + FileOpens(Plan(loaded.writers))
      ensures stderrEcho == Echoes(Plan(loaded.writers))
    {
      loggers, writers, config, stderrEcho := map[], [], loaded, [];
      new;
      ConfigureFresh(loaded, fs);
    }

    /** `Configure` as `init` runs it: on a package state that has no writers
        and has echoed nothing yet. */
    method ConfigureFresh(l: LogConfig, fs: FileSystem)
      requires writers == [] && stderrEcho == []
      modifies this, fs
      ensures config == WithDefaults(l) && loggers == old(loggers)
      ensures BuiltAll(writers, Plan(l.writers), |old(fs.openLog)|)
      ensures fs.openLog == old(fs.openLog) + FileOpens(Plan(l.writers))
      ensures stderrEcho == Echoes(Plan(l.writers))
    {
      ghost var built := Configure(l, fs);
      assert writers == built;
      assert stderrEcho == [] + Echoes(Plan(l.writers));
    }

    /** The record `handleLog` builds and what it does with it. */
    ghost predicate Handles(d: Delivery, sev: int, text: string, now: Instant, caller: Caller,
                            includeFunction: bool, includeLine: bool, fx: Foreign)
      reads this, Targets(writers)
    {
      && d.msg.sev == sev && d.msg.content == text && d.msg.time == now
      && d.msg.fnName == (if includeFunction then LastSegment(caller.fnName, '/') else "")
      && d.msg.line == (if includeFunction && includeLine then caller.line else 0)
      && (d.Queued? <==> config.async)
      && (d.Delivered? ==> d.writes == FanOut(writers, d.msg, config, fx))
    }

    /** `handleLog`: stamp the record; record the caller's function (its last
        '/' segment) only when the logger includes functions, and its line only
        when it includes lines as well; then queue it in asynchronous mode, or
        hand it to every writer in list order. */
    method HandleLog(sev: int, l: Logger, text: string, now: Instant, caller: Caller, fx: Foreign)
      returns (d: Delivery)
      requires ErrLvl <= sev <= TraceLvl
      ensures Handles(d, sev, text, now, caller, l.includeFunction, l.includeLine, fx)
    {
      var m := LogMessage(now, "", 0, text, sev);
      if l.includeFunction {
        var parts := Split(caller.fnName, '/');
        m := m.(fnName := parts[|parts| - 1]);
        if l.includeLine {
          m := m.(line := caller.line);
        }
      }
      if config.async {
        d := Queued(m);
      } else {
        var out := [];
        for i := 0 to |writers|
          invariant out == FanOut(writers[..i], m, config, fx)
        {
          assert writers[..i + 1][..i] == writers[..i];
          out := out + writers[i].DoLog(m, config, fx);
        }
        assert writers[..|writers|] == writers;
        d := Delivered(m, out);
      }
    }

    /** `GetLogger`: a cached package gets back the very logger cached for it
        and the cache is left alone; otherwise a new logger, with the threshold
        the overrides (last match) or the default level resolve to, is built
        and added under its package name, and no other entry changes. */
    method GetLogger(caller: Caller) returns (l: Logger)
      requires Valid()
      modifies this
      ensures Valid()
      ensures writers == old(writers) && config == old(config) && stderrEcho == old(stderrEcho)
      ensures var pkg := PackageName(caller.fnName);
        && pkg in loggers && loggers[pkg] == l && l.pkgName == pkg && l.FlagsMatchLevel()
        && (pkg in old(loggers) ==> l == old(loggers[pkg]) && loggers == old(loggers))
        && (pkg !in old(loggers) ==>
              && fresh(l) && loggers == old(loggers)[pkg := l]
              && l.sev == LevelOf(LastMatch(config.pkgConfigs, pkg, config.defaultLvl))
              && l.includeFunction == config.includeFunction
              && l.includeLine == config.includeLineNum)
    {
      var parts := Split(caller.fnName, '/');
      var pkgFn := Split(parts[|parts| - 1], '.');
      var pkg := pkgFn[0];
      if pkg in loggers {
        return loggers[pkg];
      }
      var level := ResolveLevel(config.pkgConfigs, pkg, config.defaultLvl);
      l := new Logger(LevelOf(level), pkg, config.includeFunction, config.includeLineNum);
      var _ := l.UpdateLvlFlags();
      loggers := loggers[pkg := l];
    }

    /** `Configure`: fill in the defaults, then append one new writer per
        entry with a file or console part, in configuration order (a file part
        wins over a console part); the writers already present and the logger
        cache are kept. */
    method Configure(l: LogConfig, fs: FileSystem) returns (ghost built: seq<Writer>)
      modifies this, fs
      ensures config == WithDefaults(l)
      ensures loggers == old(loggers)
      ensures writers == old(writers) + built
      ensures BuiltAll(built, Plan(l.writers), |old(fs.openLog)|)
      ensures fresh(Targets(built))
      ensures fs.openLog == old(fs.openLog) + FileOpens(Plan(l.writers))
      ensures fs.closed == old(fs.closed)
      ensures stderrEcho == old(stderrEcho) + Echoes(Plan(l.writers))
    {
      config := WithDefaults(l);
      built := [];
      for i := 0 to |l.writers|
        invariant config == WithDefaults(l) && loggers == old(loggers)
        invariant writers == old(writers) + built
        invariant BuiltAll(built, Plan(l.writers[..i]), |old(fs.openLog)|)
        invariant fresh(Targets(built)) && this !in Targets(built) && fs !in Targets(built)
        invariant fs.openLog == old(fs.openLog) + FileOpens(Plan(l.writers[..i]))
        invariant fs.closed == old(fs.closed)
        invariant stderrEcho == old(stderrEcho) + Echoes(Plan(l.writers[..i]))
      {
        PlanStep(l.writers, i);
        built := ConfigureEntry(l.writers[i], fs, Plan(l.writers[..i]), old(writers), old(fs.openLog), old(stderrEcho), built);
      }
      assert l.writers[..|l.writers|] == l.writers;
    }

    /** One pass of the loop of `Configure` over entry `i` of `ws`, together
        with what it keeps true of the writers built for the entries before it:
        they were built for those entries' plan, the files opened and the lines
        echoed are those of the plan so far, and nothing built is this object
        or the file system. */
    method ConfigureEntry(w: WriterConfig, fs: FileSystem, ghost plan: seq<WriterConfig>,
                          ghost w0: seq<Writer>, ghost open0: seq<string>, ghost echo0: seq<Write>,
                          ghost built: seq<Writer>)
      returns (ghost built': seq<Writer>)
      requires writers == w0 + built
      requires BuiltAll(built, plan, |open0|)
      requires this !in Targets(built) && fs !in Targets(built)
      requires fs.openLog == open0 + FileOpens(plan)
      requires stderrEcho == echo0 + Echoes(plan)
      modifies this, fs
      ensures config == old(config) && loggers == old(loggers) && fs.closed == old(fs.closed)
      ensures fs.openLog == open0 + FileOpens(plan + Keep(w))
      ensures stderrEcho == echo0 + Echoes(plan + Keep(w))
      ensures writers == w0 + built'
      ensures BuiltAll(built', plan + Keep(w), |open0|)
      ensures this !in Targets(built') && fs !in Targets(built')
      ensures forall o :: o in Targets(built') ==> o in Targets(built) || fresh(o)
    {
      var added := AddWriter(w, fs, built, plan, |open0|);
      LogsStep(plan, w, open0, echo0, old(fs.openLog), old(stderrEcho), fs.openLog, stderrEcho);
      Assoc(w0, built, added);
      built' := built + added;
    }

    /** One iteration of the writer loop of `Configure`: an entry with a file
        part gets a new file writer, otherwise one with a console part gets a
        new console writer, otherwise nothing happens. */
    method AddWriter(w: WriterConfig, fs: FileSystem, ghost built: seq<Writer>, ghost plan: seq<WriterConfig>, ghost base: nat)
      returns (added: seq<Writer>)
      requires BuiltAll(built, plan, base)
      requires this !in Targets(built) && fs !in Targets(built)
      requires |fs.openLog| == base + |FileOpens(plan)|
      modifies this, fs
      ensures config == old(config) && loggers == old(loggers)
      ensures writers == old(writers) + added
      ensures BuiltAll(built + added, plan + Keep(w), base)
      ensures |added| <= 1 && (added != [] ==> fresh(added[0].Target()))
      ensures this !in Targets(built + added) && fs !in Targets(built + added)
      ensures forall o :: o in Targets(built + added) ==> o in Targets(built) || fresh(o)
      ensures fs.openLog == old(fs.openLog) + EntryOpens(w)
      ensures fs.closed == old(fs.closed)
      ensures stderrEcho == old(stderrEcho) + EntryEchoes(w)
    {
      var echo;
      added, echo := BuildWriter(w, fs, built, plan, base);
      TargetsExtend(built, added);
      stderrEcho := stderrEcho + echo;
      writers := writers + added;
    }
  }

  /** The writer, if any, that `Configure` builds for entry `w`, and the lines
      it echoes to standard error. */
  method BuildWriter(w: WriterConfig, fs: FileSystem, ghost built: seq<Writer>, ghost plan: seq<WriterConfig>, ghost base: nat)
    returns (added: seq<Writer>, echo: seq<Write>)
    requires BuiltAll(built, plan, base)
    requires fs !in Targets(built)
    requires |fs.openLog| == base + |FileOpens(plan)|
    modifies fs
    ensures BuiltAll(built + added, plan + Keep(w), base)
    ensures |added| <= 1 && (added != [] ==> fresh(added[0].Target()))
    ensures fs.openLog == old(fs.openLog) + EntryOpens(w)
    ensures fs.closed == old(fs.closed)
    ensures echo == EntryEchoes(w)
  {
    if w.file.Some? {
      added, echo := BuildFileWriter(w, fs, built, plan, base);
    } else if w.console.Some? {
      added := BuildConsoleWriter(w, built, plan, base);
      echo := [];
    } else {
      added, echo := [], [];
      assert plan + Keep(w) == plan && built + added == built;
    }
  }

  lemma TargetsExtend(built: seq<Writer>, added: seq<Writer>)
    requires |added| <= 1
    ensures added == [] ==> Targets(built + added) == Targets(built)
    ensures added != [] ==> Targets(built + added) == Targets(built) + {added[0].Target()}
  {
    if added == [] {
      assert built + added == built;
    } else {
      assert forall x :: x in built + added <==> x in built || x == added[0];
    }
  }

  /** The entry itself when it has a file or a console part, else nothing. */
  function Keep(w: WriterConfig): seq<WriterConfig>
  {
    if w.file.Some? || w.console.Some? then [w] else []
  }

  /** The files a writer built for entry `w` opens. */
  function EntryOpens(w: WriterConfig): seq<string>
  {
    if w.file.Some? then OpenList(w.file.value) else []
  }

  /** The standard-error line a writer built for entry `w` prints. */
  function EntryEchoes(w: WriterConfig): seq<Write>
  {
    if w.file.Some? then ErrorEcho(w.file.value) else []
  }

  /** The files opened and the lines echoed after one more entry are those
      of the plan extended by that entry. */
  lemma LogsStep(plan: seq<WriterConfig>, w: WriterConfig, open0: seq<string>, echo0: seq<Write>,
                 openMid: seq<string>, echoMid: seq<Write>, openLog: seq<string>, echo: seq<Write>)
    requires openMid == open0 + FileOpens(plan) && openLog == openMid + EntryOpens(w)
    requires echoMid == echo0 + Echoes(plan) && echo == echoMid + EntryEchoes(w)
    ensures openLog == open0 + FileOpens(plan + Keep(w))
    ensures echo == echo0 + Echoes(plan + Keep(w))
  {
    if w.file.Some? || w.console.Some? {
      FileOpensStep(plan, w);
      EchoesStep(plan, w);
      Assoc(open0, FileOpens(plan), EntryOpens(w));
      Assoc(echo0, Echoes(plan), EntryEchoes(w));
    } else {
      assert plan + Keep(w) == plan;
    }
  }

  /** A file writer built for entry `w`, which has a file part. */
  method BuildFileWriter(w: WriterConfig, fs: FileSystem, ghost built: seq<Writer>, ghost plan: seq<WriterConfig>, ghost base: nat)
    returns (added: seq<Writer>, echo: seq<Write>)
    requires w.file.Some?
    requires BuiltAll(built, plan, base)
    requires fs !in Targets(built)
    requires |fs.openLog| == base + |FileOpens(plan)|
    modifies fs
    ensures BuiltAll(built + added, plan + Keep(w), base)
    ensures |added| == 1 && fresh(added[0].Target())
    ensures fs.openLog == old(fs.openLog) + OpenList(w.file.value) && fs.closed == old(fs.closed)
    ensures echo == ErrorEcho(w.file.value)
  {
    var nw;
    nw, echo := NewFileOut(w, fs, built, plan, base);
    BuiltAllStep(built, plan, base, nw, w, |old(fs.openLog)|);
    added := [nw];
    assert Keep(w) == [w];
  }

  /** The file writer `Configure` builds for entry `w`, which has a file part. */
  method NewFileOut(w: WriterConfig, fs: FileSystem, ghost built: seq<Writer>, ghost plan: seq<WriterConfig>, ghost base: nat)
    returns (nw: Writer, echo: seq<Write>)
    requires w.file.Some?
    requires BuiltAll(built, plan, base) && fs !in Targets(built)
    modifies fs
    ensures BuiltAll(built, plan, base)
    ensures BuiltFor(nw, w, |old(fs.openLog)|) && fresh(nw.Target())
    ensures fs.openLog == old(fs.openLog) + OpenList(w.file.value) && fs.closed == old(fs.closed)
    ensures echo == ErrorEcho(w.file.value)
  {
    var fw;
    fw, echo := NewInitialised(w, fs);
    nw := FileOut(fw);
  }

  /** A console writer built for entry `w`, which has a console part and no
      file part. */
  method BuildConsoleWriter(w: WriterConfig, ghost built: seq<Writer>, ghost plan: seq<WriterConfig>, ghost base: nat)
    returns (added: seq<Writer>)
    requires w.file.None? && w.console.Some?
    requires BuiltAll(built, plan, base)
    ensures BuiltAll(built + added, plan + Keep(w), base)
    ensures |added| == 1 && fresh(added[0].Target())
  {
    forall o | o in Targets(built) ensures allocated(o) { }
    var cw := new ConsoleWriter();
    cw.InitConfig(w);
    var nw := ConsoleOut(cw);
    assert BuiltAll(built, plan, base);
    assert BuiltFor(nw, w, base + |FileOpens(plan)|);
    BuiltAllStep(built, plan, base, nw, w, base + |FileOpens(plan)|);
    added := [nw];
    assert Keep(w) == [w];
  }

  /** Regrouping a concatenation, stated as a lemma so that the proofs using
      it see this one instance and not the whole sequence theory. */
  lemma Assoc<T>(a: seq<T>, b: seq<T>, c: seq<T>)
    ensures a + (b + c) == (a + b) + c
  {
  }

  /** One more entry adds itself to the plan exactly when it has a file or a
      console part. */
  lemma PlanStep(ws: seq<WriterConfig>, i: int)
    requires 0 <= i < |ws|
    ensures Plan(ws[..i + 1]) == Plan(ws[..i]) + Keep(ws[i])
  {
    assert ws[..i + 1][..i] == ws[..i];
  }

  lemma FileOpensStep(ws: seq<WriterConfig>, w: WriterConfig)
    ensures FileOpens(ws + [w]) == FileOpens(ws) + EntryOpens(w)
  {
    assert (ws + [w])[..|ws|] == ws;
  }

  lemma EchoesStep(ws: seq<WriterConfig>, w: WriterConfig)
    ensures Echoes(ws + [w]) == Echoes(ws) + EntryEchoes(w)
  {
    assert (ws + [w])[..|ws|] == ws;
  }

  /** `w` is the writer `Configure` builds for entry `wc` when `base` files had
      been opened before it. */
  ghost predicate BuiltFor(w: Writer, wc: WriterConfig, base: nat)
    reads w.Target()
  {
    if wc.file.Some? then w.FileOut? && w.file.Routes() == FileSlots(wc.file.value, base)
    else wc.console.Some? && w.ConsoleOut? && w.console.Routes() == ConsoleSlots(wc.console.value)
  }

  /** `ws` are the writers `Configure` builds for the entries `plan`, in
      order, when `base` files had been opened before the first of them. */
  ghost predicate BuiltAll(ws: seq<Writer>, plan: seq<WriterConfig>, base: nat)
    reads Targets(ws)
  {
    && |ws| == |plan|
    && (ws != [] ==>
          var init := ws[..|ws| - 1];
          assert Targets(init) <= Targets(ws) by {
            forall x | x in init ensures x in ws { }
          }
          && BuiltAll(init, plan[..|plan| - 1], base)
          && BuiltFor(ws[|ws| - 1], plan[|plan| - 1], base + |FileOpens(plan[..|plan| - 1])|))
  }

  lemma BuiltAllStep(ws: seq<Writer>, plan: seq<WriterConfig>, base: nat, w: Writer, wc: WriterConfig, at: nat)
    requires BuiltAll(ws, plan, base)
    requires at == base + |FileOpens(plan)|
    requires BuiltFor(w, wc, at)
    ensures BuiltAll(ws + [w], plan + [wc], base)
  {
    var ws', plan' := ws + [w], plan + [wc];
    assert ws'[..|ws'| - 1] == ws;
    assert plan'[..|plan'| - 1] == plan;
    assert ws'[|ws'| - 1] == w && plan'[|plan'| - 1] == wc;
    assert base + |FileOpens(plan'[..|plan'| - 1])| == at;
    assert BuiltAll(ws'[..|ws'| - 1], plan'[..|plan'| - 1], base);
    assert BuiltFor(ws'[|ws'| - 1], plan'[|plan'| - 1], at);
  }

  /** The routing table `Configure` gives the writer it builds for entry `wc`
      when `at` files had been opened before it: a file part wins over a
      console part. */
  function PlannedSlots(wc: WriterConfig, at: nat): Slots
  {
    if wc.file.Some? then FileSlots(wc.file.value, at)
    else if wc.console.Some? then ConsoleSlots(wc.console.value)
    else Slots(None, None, None, None, None)
  }

  /** The writes a record produces when handed, in order, to writers built
      for the entries `plan`, computed from the configuration alone. */
  function PlannedWrites(plan: seq<WriterConfig>, base: nat, m: LogMessage, cfg: LogConfig, fx: Foreign): seq<Write>
  {
    if plan == [] then []
    else
      var init := plan[..|plan| - 1];
      PlannedWrites(init, base, m, cfg, fx) + Route(PlannedSlots(plan[|plan| - 1], base + |FileOpens(init)|), m, cfg, fx)
  }

  /** A writer built for an entry writes a record where the entry says. */
  lemma BuiltForWrites(w: Writer, wc: WriterConfig, at: nat, m: LogMessage, cfg: LogConfig, fx: Foreign)
    requires BuiltFor(w, wc, at)
    ensures w.DoLog(m, cfg, fx) == Route(PlannedSlots(wc, at), m, cfg, fx)
  {
  }

  /** Writers built by `Configure` hand a record to exactly the destinations
      their configuration names, in configuration order. */
  lemma {:induction false} BuiltWrites(ws: seq<Writer>, plan: seq<WriterConfig>, base: nat, m: LogMessage, cfg: LogConfig, fx: Foreign)
    requires BuiltAll(ws, plan, base)
    ensures FanOut(ws, m, cfg, fx) == PlannedWrites(plan, base, m, cfg, fx)
    decreases |ws|
  {
    if ws != [] {
      var init, pinit := ws[..|ws| - 1], plan[..|plan| - 1];
      var last, plast, at := ws[|ws| - 1], plan[|plan| - 1], base + |FileOpens(pinit)|;
      assert BuiltAll(init, pinit, base);
      assert BuiltFor(last, plast, at);
      BuiltWrites(init, pinit, base, m, cfg, fx);
      BuiltForWrites(last, plast, at, m, cfg, fx);
      assert FanOut(ws, m, cfg, fx) == FanOut(init, m, cfg, fx) + last.DoLog(m, cfg, fx);
    }
  }

  /** `init` followed by one `handleLog`: in synchronous mode the record is
      written exactly where the loaded configuration's writer entries say, in
      their order; in asynchronous mode it is queued. */
  method LogAfterInit(loaded: LogConfig, fs: FileSystem, l: Logger, sev: int, text: string,
                      now: Instant, caller: Caller, fx: Foreign)
    returns (e: Engine, d: Delivery)
    requires ErrLvl <= sev <= TraceLvl
    modifies fs
    ensures d.msg.sev == sev && d.msg.content == text
    ensures loaded.async <==> d.Queued?
    ensures d.Delivered? ==>
      d.writes == PlannedWrites(Plan(loaded.writers), |old(fs.openLog)|, d.msg, WithDefaults(loaded), fx)
  {
    e := new Engine(loaded, fs);
    ghost var plan, base := Plan(loaded.writers), |old(fs.openLog)|;
    assert BuiltAll(e.writers, plan, base);
    forall o | o in Targets(e.writers) ensures allocated(o) { }
    d := e.HandleLog(sev, l, text, now, caller, fx);
    assert BuiltAll(e.writers, plan, base);
    assert e.config == WithDefaults(loaded);
    if d.Delivered? {
      BuiltWrites(e.writers, plan, base, d.msg, e.config, fx);
    }
  }

  /** Under the built-in configuration an Error record in text format is one
      line on standard error, and a Warn record likewise; Info, Debug and
      Trace records only reach `io.Discard`. */
  lemma DefaultConfigWrites(base: nat, m: LogMessage, cfg: LogConfig, fx: Foreign)
    requires cfg.format == "text" && ErrLvl <= m.sev <= TraceLvl
    ensures m.sev <= WarnLvl ==>
      PlannedWrites(Plan(DefaultConfig.writers), base, m, cfg, fx) == [Write(Stderr, TextLine(m, cfg.datePattern, fx))]
    ensures m.sev >= InfoLvl ==>
      PlannedWrites(Plan(DefaultConfig.writers), base, m, cfg, fx) == [Write(Discard, TextLine(m, cfg.datePattern, fx))]
  {
    DefaultConfigShape();
    var wc := WriterConfig(None, Some(ConsoleConfig(false, false)));
    var plan := [wc];
    assert plan[..0] == [];
    assert PlannedWrites(plan, base, m, cfg, fx) == Route(ConsoleSlots(ConsoleConfig(false, false)), m, cfg, fx);
  }

  /** The files the writers built for these entries open, in order. */
  function FileOpens(ws: seq<WriterConfig>): seq<string>
  {
    if ws == [] then [] else FileOpens(ws[..|ws| - 1]) + EntryOpens(ws[|ws| - 1])
  }

  /** The standard-error lines the file writers built for these entries print. */
  function Echoes(ws: seq<WriterConfig>): seq<Write>
  {
    if ws == [] then [] else Echoes(ws[..|ws| - 1]) + EntryEchoes(ws[|ws| - 1])
  }
}
