/** The console writer of logging/consolewriter.go: `InitConfig` points Error
    and Warn at standard output or standard error as configured, and Info,
    Debug and Trace at `io.Discard` (their standard-output assignment is
    overwritten by the `io.Discard` one that follows it); `DoLog` writes a
    record to the slot of its severity; `Close` does nothing. */
module ConsoleWriters {
  import opened Wrappers
  import opened Severity
  import opened Config
  import opened Output

  /** The routing table `InitConfig` leaves behind for a console configuration. */
  function ConsoleSlots(cc: ConsoleConfig): Slots
  {
    Slots(
      Some(if cc.writeErrToStdOut then Stdout else Stderr),
      Some(if cc.writeWarnToStdOut then Stdout else Stderr),
      Some(Discard), Some(Discard), Some(Discard))
  }

  /** Under a console configuration every severity of the scale has a
      destination; Error and Warn reach standard output exactly when their flag
      is set and standard error otherwise, and nothing at Info, Debug or Trace
      is ever shown. */
  lemma ConsoleRouting(cc: ConsoleConfig, sev: int)
    requires ErrLvl <= sev <= TraceLvl
    ensures ConsoleSlots(cc).At(sev).Some?
    ensures sev == ErrLvl ==> (ConsoleSlots(cc).At(sev) == Some(Stdout) <==> cc.writeErrToStdOut)
    ensures sev == WarnLvl ==> (ConsoleSlots(cc).At(sev) == Some(Stdout) <==> cc.writeWarnToStdOut)
    ensures sev <= WarnLvl ==> ConsoleSlots(cc).At(sev) != Some(Discard)
    ensures sev >= InfoLvl ==> ConsoleSlots(cc).At(sev) == Some(Discard)
  {
  }

  /** Every write a console writer produces for an Info, Debug or Trace record
      goes to `io.Discard`; an Off record produces no write at all. */
  lemma {:induction false} ConsoleQuiet(cc: ConsoleConfig, m: LogMessage, cfg: LogConfig, fx: Foreign)
    requires cfg.format == "text" ==> InRange(m.sev)
    requires m.sev == Off || InfoLvl <= m.sev <= TraceLvl
    ensures var r := Route(ConsoleSlots(cc), m, cfg, fx);
      forall k :: 0 <= k < |r| ==> r[k].sink == Discard
    ensures m.sev == Off ==> Route(ConsoleSlots(cc), m, cfg, fx) == []
  {
    if m.sev != Off {
      ConsoleRouting(cc, m.sev);
    }
  }

  class ConsoleWriter {
    var errorWriter: Option<Sink>
    var warnWriter: Option<Sink>
    var infoWriter: Option<Sink>
    var debugWriter: Option<Sink>
    var traceWriter: Option<Sink>

    /** `&ConsoleWriter{}`: every slot nil. */
    constructor ()
      ensures errorWriter.None? && warnWriter.None? && infoWriter.None?
      ensures debugWriter.None? && traceWriter.None?
    {
      errorWriter, warnWriter, infoWriter, debugWriter, traceWriter := None, None, None, None, None;
    }

    function Routes(): Slots
      reads this
    {
      Slots(errorWriter, warnWriter, infoWriter, debugWriter, traceWriter)
    }

    /** `InitConfig`: Error and Warn go to standard output when their flag is
        set and to standard error otherwise; Info, Debug and Trace end at
        `io.Discard`. */
    method InitConfig(w: WriterConfig)
      requires w.console.Some?
      modifies this
      ensures errorWriter == Some(if w.console.value.writeErrToStdOut then Stdout else Stderr)
      ensures warnWriter == Some(if w.console.value.writeWarnToStdOut then Stdout else Stderr)
      ensures infoWriter == Some(Discard) && debugWriter == Some(Discard) && traceWriter == Some(Discard)
      ensures Routes() == ConsoleSlots(w.console.value)
    {
      var cc := w.console.value;
      if cc.writeErrToStdOut {
        errorWriter := Some(Stdout);
      } else {
        errorWriter := Some(Stderr);
      }
      if cc.writeWarnToStdOut {
        warnWriter := Some(Stdout);
      } else {
        warnWriter := Some(Stderr);
      }
      infoWriter := Some(Stdout);
      debugWriter := Some(Stdout);
      traceWriter := Some(Stdout);
      infoWriter := Some(Discard);
      debugWriter := Some(Discard);
      traceWriter := Some(Discard);
    }

    /** `DoLog`: the record goes to the slot of its severity, only there, and
        nowhere when that slot is nil or the severity is Off. */
    function DoLog(m: LogMessage, cfg: LogConfig, fx: Foreign): (r: seq<Write>)
      reads this
      ensures forall k :: 0 <= k < |r| ==> Some(r[k].sink) == Routes().At(m.sev)
      ensures Routes().At(m.sev).None? ==> r == []
      ensures m.sev == Off ==> r == []
      ensures Routes().At(m.sev).Some? ==> r == WriteLogMsg(Routes().At(m.sev).value, m, cfg, fx)
    {
      Route(Routes(), m, cfg, fx)
    }

    /** `Close`: always succeeds and touches nothing. */
    method Close() returns (err: Option<string>)
      ensures err == None
    {
      err := None;
    }
  }
}
