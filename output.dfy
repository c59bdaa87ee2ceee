/** The log record and what writing it produces (logging/logger.go): the
    `LogMessage` record, the destinations a writer can hold, the per-severity
    routing table shared by both writers' `DoLog`, and `writeLogMsg`, which
    lays a record out as JSON or as a text line.

    Writes are returned as values, in the order the source performs them,
    rather than performed. The clock reading, `Time.Format` and `json.Marshal`
    are foreign: the reading is an opaque `Instant` and the two functions are
    parameters (`Foreign`). */
module Output {
  import opened Wrappers
  import opened Severity
  import opened Config
  import opened GoStrings

  /** A `time.Time` reading, kept opaque. */
  datatype Instant = Instant(ticks: int)

  /** The log record: timestamp, calling function ("" when not captured),
      line (0 when not captured), content and severity. */
  datatype LogMessage = LogMessage(time: Instant, fnName: string, line: int, content: string, sev: int)

  /** An open file: `id` tells apart the results of separate opens, even of
      the same path. */
  datatype Handle = Handle(id: nat, path: string)

  /** A writer's destination: the process's standard streams, `io.Discard`,
      or an opened file. */
  datatype Sink = Stdout | Stderr | Discard | File(handle: Handle)

  /** One write call: the bytes handed to one destination. */
  datatype Write = Write(sink: Sink, data: string)

  /** The foreign formatters: `Time.Format(layout)` and `json.Marshal`. */
  datatype Foreign = Foreign(formatTime: (Instant, string) -> string, marshal: LogMessage -> string)

  /** The five per-severity destinations of a writer; `None` is Go's nil. */
  datatype Slots = Slots(
    error: Option<Sink>,
    warn: Option<Sink>,
    info: Option<Sink>,
    debug: Option<Sink>,
    trace: Option<Sink>)
  {
    /** The `switch logMsg.Sev` of both `DoLog` methods: Off and any value
        outside the scale select nothing. */
    function At(sev: int): (s: Option<Sink>)
      ensures !(ErrLvl <= sev <= TraceLvl) ==> s.None?
    {
      if sev == ErrLvl then error
      else if sev == WarnLvl then warn
      else if sev == InfoLvl then info
      else if sev == DebugLvl then debug
      else if sev == TraceLvl then trace
      else None
    }
  }

  /** The operands `writeLogMsg` hands to `fmt.Fprintln` in text format. */
  function TextFields(m: LogMessage, stamp: string): seq<string>
    requires InRange(m.sev)
  {
    if m.fnName != "" then [stamp, Levels[m.sev], m.fnName + ":" + Itoa(m.line), m.content]
    else [stamp, Levels[m.sev], m.content]
  }

  /** The text-format line for a record. */
  function TextLine(m: LogMessage, datePattern: string, fx: Foreign): (r: string)
    requires InRange(m.sev)
    ensures |r| >= 1 && r[|r| - 1] == '\n'
  {
    Println(TextFields(m, fx.formatTime(m.time, datePattern)))
  }

  lemma NoSpaceInLevelName(sev: int)
    requires InRange(sev)
    ensures ' ' !in Levels[sev]
  {
    if sev == 0 {} else if sev == 1 {} else if sev == 2 {}
    else if sev == 3 {} else if sev == 4 {} else {}
  }

  /** The text line is `time SEV msg` or, when a function name was captured,
      `time SEV fn:line msg`, fields separated by single spaces and ended by a
      newline: as long as the timestamp, the function name and the content hold
      no space, splitting the line at its spaces gives back exactly these
      fields. */
  lemma TextLineFields(m: LogMessage, datePattern: string, fx: Foreign)
    requires InRange(m.sev)
    requires ' ' !in fx.formatTime(m.time, datePattern)
    requires ' ' !in m.fnName && ' ' !in m.content
    ensures var line := TextLine(m, datePattern, fx);
      var stamp := fx.formatTime(m.time, datePattern);
      Split(line[..|line| - 1], ' ') ==
        if m.fnName != "" then [stamp, Levels[m.sev], m.fnName + ":" + Itoa(m.line), m.content]
        else [stamp, Levels[m.sev], m.content]
  {
    var stamp := fx.formatTime(m.time, datePattern);
    NoSpaceInLevelName(m.sev);
    var at := m.fnName + ":" + Itoa(m.line);
    assert forall k :: 0 <= k < |at| ==> at[k] != ' ';
    PrintlnFields(TextFields(m, stamp));
  }

  /** The same layout for any message text: when the time stamp and the
      function name hold no space, splitting the line at spaces gives the
      stamp, the severity name, the `fn:line` field when a function name is
      set, and then the pieces of the message text itself. */
  lemma TextLineLayout(m: LogMessage, datePattern: string, fx: Foreign)
    requires InRange(m.sev)
    requires ' ' !in fx.formatTime(m.time, datePattern)
    requires ' ' !in m.fnName
    ensures var line := TextLine(m, datePattern, fx);
      var stamp := fx.formatTime(m.time, datePattern);
      Split(line[..|line| - 1], ' ') ==
        (if m.fnName != "" then [stamp, Levels[m.sev], m.fnName + ":" + Itoa(m.line)]
         else [stamp, Levels[m.sev]]) + Split(m.content, ' ')
  {
    var stamp := fx.formatTime(m.time, datePattern);
    NoSpaceInLevelName(m.sev);
    var at := m.fnName + ":" + Itoa(m.line);
    assert forall k :: 0 <= k < |at| ==> at[k] != ' ';
    var head := if m.fnName != "" then [stamp, Levels[m.sev], at] else [stamp, Levels[m.sev]];
    assert TextFields(m, stamp) == head + [m.content];
    SplitJoinLast(head, m.content, ' ');
  }

  /** `writeLogMsg`: in "json" format the marshalled record, then a newline
      (a second write); in "text" format one text line; in any other format
      nothing. Every write goes to the given destination. */
  function WriteLogMsg(sink: Sink, m: LogMessage, cfg: LogConfig, fx: Foreign): (r: seq<Write>)
    requires cfg.format == "text" ==> InRange(m.sev)
    ensures forall k :: 0 <= k < |r| ==> r[k].sink == sink
    ensures cfg.format == "json" ==> |r| == 2 && r[0].data == fx.marshal(m) && r[1].data == "\n"
    ensures cfg.format == "text" ==> |r| == 1 && r[0].data == TextLine(m, cfg.datePattern, fx)
    ensures cfg.format != "json" && cfg.format != "text" ==> r == []
  {
    if cfg.format == "json" then [Write(sink, fx.marshal(m)), Write(sink, Println([""]))]
    else if cfg.format == "text" then [Write(sink, TextLine(m, cfg.datePattern, fx))]
    else []
  }

  /** The shared body of both writers' `DoLog`: look up the slot for the
      record's severity and, when it holds a destination, write the record
      there. */
  function Route(slots: Slots, m: LogMessage, cfg: LogConfig, fx: Foreign): (r: seq<Write>)
    ensures forall k :: 0 <= k < |r| ==> Some(r[k].sink) == slots.At(m.sev)
    ensures slots.At(m.sev).None? ==> r == []
    ensures slots.At(m.sev).Some? ==> r == WriteLogMsg(slots.At(m.sev).value, m, cfg, fx)
  {
    match slots.At(m.sev)
    case None => []
    case Some(sink) => WriteLogMsg(sink, m, cfg, fx)
  }
}
