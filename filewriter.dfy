/** The file writer of logging/filewriter.go: `InitConfig` opens one handle
    per configured severity path and one for the default path, then fills
    every slot left nil with the default handle; `DoLog` writes a record to
    the slot of its severity; `Close` closes the debug slot only.

    Opening a file always succeeds here and yields a new handle whose id is
    its position in the file system's open log. */
module FileWriters {
  import opened Wrappers
  import opened Severity
  import opened Config
  import opened Output
  import opened GoStrings

  /** The part of the operating system the writers touch: the files opened,
      in order (a handle's id is its position here), and the ids closed. */
  class FileSystem {
    var openLog: seq<string>
    var closed: set<nat>

    constructor ()
      ensures openLog == [] && closed == {}
    {
      openLog, closed := [], {};
    }

    /** `os.OpenFile(path, O_RDWR|O_APPEND|O_CREATE, 0644)`: every call yields
        a new handle, even for a path opened before. */
    method Open(path: string) returns (h: Handle)
      modifies this
      ensures h == Handle(|old(openLog)|, path)
      ensures openLog == old(openLog) + [path] && closed == old(closed)
    {
      h := Handle(|openLog|, path);
      openLog := openLog + [path];
    }

    /** `(*os.File).Close`: closing a handle a second time reports an error. */
    method Close(h: Handle) returns (err: Option<string>)
      modifies this
      ensures err == if h.id in old(closed) then Some("file already closed") else None
      ensures closed == old(closed) + {h.id} && openLog == old(openLog)
    {
      err := if h.id in closed then Some("file already closed") else None;
      closed := closed + {h.id};
    }
  }

  /** What a call returned, or that it panicked (a method called on a nil
      interface value). */
  datatype CloseOutcome = Returned(err: Option<string>) | NilPanic

  /** The own path of severity `lv`; "" for Off and values off the scale. */
  function OwnPath(c: FileConfig, lv: int): string
  {
    if lv == ErrLvl then c.errorPath
    else if lv == WarnLvl then c.warnPath
    else if lv == InfoLvl then c.infoPath
    else if lv == DebugLvl then c.debugPath
    else if lv == TraceLvl then c.tracePath
    else ""
  }

  /** The files one `if path != "" { os.OpenFile(path, ...) }` opens. */
  function OpenedFor(path: string): seq<string>
  {
    if path != "" then [path] else []
  }

  /** The six paths `InitConfig` considers, in the order it opens them: the
      default path at position 0, then each severity's own path at the
      position equal to that severity. */
  function Paths(c: FileConfig): seq<string>
  {
    [c.defaultPath, c.errorPath, c.warnPath, c.infoPath, c.debugPath, c.tracePath]
  }

  /** The set (non-empty) paths of `ps`, in order: what a run of
      `if path != "" { os.OpenFile(path, ...) }` steps over `ps` opens. */
  function SetPaths(ps: seq<string>): seq<string>
  {
    if ps == [] then [] else SetPaths(ps[..|ps| - 1]) + OpenedFor(ps[|ps| - 1])
  }

  /** The files `InitConfig` opens, in order: the default path first, then
      the own paths of Error, Warn, Info, Debug and Trace, each only when set. */
  function OpenList(c: FileConfig): seq<string>
  {
    SetPaths(Paths(c))
  }

  /** The files `InitConfig` opens before the own path of severity `lv`. */
  function OpenedBefore(c: FileConfig, lv: int): seq<string>
    requires ErrLvl <= lv <= TraceLvl
  {
    SetPaths(Paths(c)[..lv])
  }

  /** The files `InitConfig` opens after the own path of severity `lv`. */
  function OpenedAfter(c: FileConfig, lv: int): seq<string>
    requires ErrLvl <= lv <= TraceLvl
  {
    SetPaths(Paths(c)[lv + 1..])
  }

  lemma {:induction false} SetPathsAppend(a: seq<string>, b: seq<string>)
    ensures SetPaths(a + b) == SetPaths(a) + SetPaths(b)
    decreases |b|
  {
    if b == [] {
      assert a + b == a;
    } else {
      var b' := b[..|b| - 1];
      assert (a + b)[..|a + b| - 1] == a + b';
      SetPathsAppend(a, b');
    }
  }

  /** At most one file per path, none of them empty, and nothing at all
      exactly when every path is empty. */
  lemma {:induction false} SetPathsShape(ps: seq<string>)
    ensures |SetPaths(ps)| <= |ps|
    ensures forall k :: 0 <= k < |SetPaths(ps)| ==> SetPaths(ps)[k] != ""
    ensures SetPaths(ps) == [] <==> forall k :: 0 <= k < |ps| ==> ps[k] == ""
  {
    if ps != [] {
      var init := ps[..|ps| - 1];
      SetPathsShape(init);
      assert forall k :: 0 <= k < |init| ==> init[k] == ps[k];
    }
  }

  /** Each severity's own open comes right after the opens before it. */
  lemma OpenedBeforeStep(c: FileConfig, lv: int)
    requires ErrLvl <= lv <= TraceLvl
    ensures lv == ErrLvl ==> OpenedBefore(c, lv) == OpenedFor(c.defaultPath)
    ensures lv < TraceLvl ==> OpenedBefore(c, lv + 1) == OpenedBefore(c, lv) + OpenedFor(OwnPath(c, lv))
    ensures lv == TraceLvl ==> OpenList(c) == OpenedBefore(c, lv) + OpenedFor(c.tracePath)
  {
    var ps := Paths(c);
    assert ps[..lv + 1][..lv] == ps[..lv];
    if lv == ErrLvl {
      assert ps[..lv] == [c.defaultPath];
      assert SetPaths([c.defaultPath]) == SetPaths([]) + OpenedFor(c.defaultPath);
    }
    if lv == TraceLvl {
      assert ps[..lv + 1] == ps;
    }
  }

  /** The default path's open comes before every severity's own open. */
  lemma DefaultOpenedFirst(c: FileConfig, lv: int)
    requires ErrLvl <= lv <= TraceLvl
    ensures OpenedBefore(c, lv) == OpenedFor(c.defaultPath) + SetPaths(Paths(c)[ErrLvl..lv])
  {
    var ps := Paths(c);
    assert ps[..lv] == ps[..ErrLvl] + ps[ErrLvl..lv];
    SetPathsAppend(ps[..ErrLvl], ps[ErrLvl..lv]);
    OpenedBeforeStep(c, ErrLvl);
  }

  /** The open list splits around every severity's own open. */
  lemma OpenListAround(c: FileConfig, lv: int)
    requires ErrLvl <= lv <= TraceLvl
    ensures OpenList(c) == OpenedBefore(c, lv) + OpenedFor(OwnPath(c, lv)) + OpenedAfter(c, lv)
  {
    var ps := Paths(c);
    assert ps == ps[..lv] + [ps[lv]] + ps[lv + 1..];
    SetPathsAppend(ps[..lv] + [ps[lv]], ps[lv + 1..]);
    SetPathsAppend(ps[..lv], [ps[lv]]);
    assert SetPaths([ps[lv]]) == SetPaths([]) + OpenedFor(ps[lv]);
  }

  /** The handle opened for severity `lv`'s own path when `InitConfig` starts
      with `base` files already opened: its position is the number of opens
      before it. */
  function OwnHandle(c: FileConfig, base: nat, lv: int): Handle
    requires ErrLvl <= lv <= TraceLvl
  {
    Handle(base + |OpenedBefore(c, lv)|, OwnPath(c, lv))
  }

  /** The shared default handle: the first file opened. */
  function DefaultHandle(c: FileConfig, base: nat): Handle
  {
    Handle(base, c.defaultPath)
  }

  /** The slot of severity `lv` after `InitConfig`, from what it held before:
      its own handle when its path is set; otherwise what it held, when that was
      not nil; otherwise the default handle when a default path is set;
      otherwise nil. */
  function SlotAfterInit(c: FileConfig, base: nat, prior: Option<Handle>, lv: int): Option<Handle>
    requires ErrLvl <= lv <= TraceLvl
  {
    if OwnPath(c, lv) != "" then Some(OwnHandle(c, base, lv))
    else if prior.Some? then prior
    else if c.defaultPath != "" then Some(DefaultHandle(c, base))
    else None
  }

  /** A severity with its own path gets a handle for that path, whatever the
      slot held before; it is never the default handle, and it is the file
      opened at its position in the open list. */
  lemma OwnPathHandle(c: FileConfig, base: nat, prior: Option<Handle>, lv: int)
    requires ErrLvl <= lv <= TraceLvl && OwnPath(c, lv) != ""
    ensures var h := SlotAfterInit(c, base, prior, lv);
      && h.Some? && h.value.path == OwnPath(c, lv)
      && h.value != DefaultHandle(c, base)
      && base <= h.value.id < base + |OpenList(c)|
      && OpenList(c)[h.value.id - base] == OwnPath(c, lv)
  {
    OpenListAround(c, lv);
    DefaultOpenedFirst(c, lv);
    assert OpenedFor(OwnPath(c, lv)) == [OwnPath(c, lv)];
    var before := OpenedBefore(c, lv);
    assert (before + [OwnPath(c, lv)] + OpenedAfter(c, lv))[|before|] == OwnPath(c, lv);
  }

  /** Two severities with their own paths never share a handle, even when the
      paths are equal: each is a separate open. */
  lemma OwnHandlesDistinct(c: FileConfig, base: nat, lv1: int, lv2: int)
    requires ErrLvl <= lv1 < lv2 <= TraceLvl
    requires OwnPath(c, lv1) != "" && OwnPath(c, lv2) != ""
    ensures OwnHandle(c, base, lv1) != OwnHandle(c, base, lv2)
  {
    var ps := Paths(c);
    assert ps[..lv2] == ps[..lv1] + [ps[lv1]] + ps[lv1 + 1..lv2];
    SetPathsAppend(ps[..lv1] + [ps[lv1]], ps[lv1 + 1..lv2]);
    SetPathsAppend(ps[..lv1], [ps[lv1]]);
    assert SetPaths([ps[lv1]]) == SetPaths([]) + OpenedFor(ps[lv1]);
  }

  /** A severity without its own path, whose slot was nil, falls back to the
      one default handle (the same for every such severity) or stays nil. */
  lemma FallbackHandle(c: FileConfig, base: nat, lv: int)
    requires ErrLvl <= lv <= TraceLvl && OwnPath(c, lv) == ""
    ensures SlotAfterInit(c, base, None, lv) ==
      if c.defaultPath != "" then Some(DefaultHandle(c, base)) else None
  {
  }

  /** `c2` is `c` with at most the own path of severity `other` changed. */
  predicate DiffersOnlyAt(c: FileConfig, c2: FileConfig, other: int)
  {
    && c2.defaultPath == c.defaultPath
    && forall lv :: ErrLvl <= lv <= TraceLvl && lv != other ==> OwnPath(c2, lv) == OwnPath(c, lv)
  }

  /** Setting or clearing one severity's path leaves every other severity
      writing to the same file; only the ids of opens made after it move. */
  lemma OtherSlotsKeepPath(c: FileConfig, c2: FileConfig, base: nat, other: int, lv: int)
    requires ErrLvl <= other <= TraceLvl && ErrLvl <= lv <= TraceLvl && lv != other
    requires DiffersOnlyAt(c, c2, other)
    ensures SlotAfterInit(c2, base, None, lv).Some? == SlotAfterInit(c, base, None, lv).Some?
    ensures SlotAfterInit(c, base, None, lv).Some? ==>
      SlotAfterInit(c2, base, None, lv).value.path == SlotAfterInit(c, base, None, lv).value.path
    ensures lv < other ==> SlotAfterInit(c2, base, None, lv) == SlotAfterInit(c, base, None, lv)
  {
    assert OwnPath(c2, lv) == OwnPath(c, lv);
    if lv < other {
      assert lv > ErrLvl ==> OwnPath(c2, ErrLvl) == OwnPath(c, ErrLvl);
      assert lv > WarnLvl ==> OwnPath(c2, WarnLvl) == OwnPath(c, WarnLvl);
      assert lv > InfoLvl ==> OwnPath(c2, InfoLvl) == OwnPath(c, InfoLvl);
      assert lv > DebugLvl ==> OwnPath(c2, DebugLvl) == OwnPath(c, DebugLvl);
      assert Paths(c2)[..lv] == Paths(c)[..lv];
    }
  }

  /** Only set paths are opened, at most six files in all, and the default
      path, when set, is the first one. */
  lemma OpenListShape(c: FileConfig)
    ensures |OpenList(c)| <= 6
    ensures forall k :: 0 <= k < |OpenList(c)| ==> OpenList(c)[k] != ""
    ensures c.defaultPath != "" ==> |OpenList(c)| > 0 && OpenList(c)[0] == c.defaultPath
    ensures c.defaultPath == c.errorPath == c.warnPath == c.infoPath == c.debugPath == c.tracePath == "" <==> OpenList(c) == []
  {
    var ps := Paths(c);
    SetPathsShape(ps);
    OpenListAround(c, ErrLvl);
    OpenedBeforeStep(c, ErrLvl);
    if c.defaultPath == c.errorPath == c.warnPath == c.infoPath == c.debugPath == c.tracePath == "" {
      forall k | 0 <= k < |ps| ensures ps[k] == "" { }
    } else {
      assert ps[0] != "" || ps[1] != "" || ps[2] != "" || ps[3] != "" || ps[4] != "" || ps[5] != "";
    }
  }

  /** What `InitConfig` prints to standard error: the error path on a line
      of its own, when one is set. */
  function ErrorEcho(c: FileConfig): seq<Write>
  {
    if c.errorPath != "" then [Write(Stderr, Println([c.errorPath]))] else []
  }

  function Lift(h: Option<Handle>): Option<Sink>
  {
    if h.Some? then Some(File(h.value)) else None
  }

  /** The routing table of a fresh file writer after `InitConfig`. */
  function FileSlots(c: FileConfig, base: nat): Slots
  {
    Slots(Lift(SlotAfterInit(c, base, None, ErrLvl)), Lift(SlotAfterInit(c, base, None, WarnLvl)),
          Lift(SlotAfterInit(c, base, None, InfoLvl)), Lift(SlotAfterInit(c, base, None, DebugLvl)),
          Lift(SlotAfterInit(c, base, None, TraceLvl)))
  }

  class FileWriter {
    var errorWriter: Option<Handle>
    var warnWriter: Option<Handle>
    var infoWriter: Option<Handle>
    var debugWriter: Option<Handle>
    var traceWriter: Option<Handle>

    /** `&FileWriter{}`: every slot nil. */
    constructor ()
      ensures errorWriter.None? && warnWriter.None? && infoWriter.None?
      ensures debugWriter.None? && traceWriter.None?
    {
      errorWriter, warnWriter, infoWriter, debugWriter, traceWriter := None, None, None, None, None;
    }

    function Routes(): Slots
      reads this
    {
      Slots(Lift(errorWriter), Lift(warnWriter), Lift(infoWriter), Lift(debugWriter), Lift(traceWriter))
    }

    /** `InitConfig`: the files opened are exactly the non-empty paths, default
        first; every slot ends as `SlotAfterInit` says; the error path is echoed
        to standard error when set. */
    method InitConfig(w: WriterConfig, fs: FileSystem) returns (echo: seq<Write>)
      requires w.file.Some?
      modifies this, fs
      ensures var c, base := w.file.value, |old(fs.openLog)|;
        && fs.openLog == old(fs.openLog) + OpenList(c)
        && errorWriter == SlotAfterInit(c, base, old(errorWriter), ErrLvl)
        && warnWriter == SlotAfterInit(c, base, old(warnWriter), WarnLvl)
        && infoWriter == SlotAfterInit(c, base, old(infoWriter), InfoLvl)
        && debugWriter == SlotAfterInit(c, base, old(debugWriter), DebugLvl)
        && traceWriter == SlotAfterInit(c, base, old(traceWriter), TraceLvl)
      ensures old(errorWriter.None? && warnWriter.None? && infoWriter.None? && debugWriter.None? && traceWriter.None?) ==>
        Routes() == FileSlots(w.file.value, |old(fs.openLog)|)
      ensures fs.closed == old(fs.closed)
      ensures echo == ErrorEcho(w.file.value)
    {
      var c := w.file.value;
      ghost var base := |fs.openLog|;
      var defaultWriter, e, wn, i, d, t := OpenAll(fs, c, errorWriter, warnWriter, infoWriter, debugWriter, traceWriter);
      echo := ErrorEcho(c);
      BackfillSlot(c, base, old(errorWriter), ErrLvl, e, defaultWriter);
      BackfillSlot(c, base, old(warnWriter), WarnLvl, wn, defaultWriter);
      BackfillSlot(c, base, old(infoWriter), InfoLvl, i, defaultWriter);
      BackfillSlot(c, base, old(debugWriter), DebugLvl, d, defaultWriter);
      BackfillSlot(c, base, old(traceWriter), TraceLvl, t, defaultWriter);
      errorWriter, warnWriter, infoWriter, debugWriter, traceWriter :=
        Backfill(e, defaultWriter), Backfill(wn, defaultWriter), Backfill(i, defaultWriter),
        Backfill(d, defaultWriter), Backfill(t, defaultWriter);
    }

    /** The six opens of `InitConfig`, default path first, each only when its
        path is set; a slot whose path is empty keeps what it held. */
    static method OpenAll(fs: FileSystem, c: FileConfig, e0: Option<Handle>, w0: Option<Handle>,
                          i0: Option<Handle>, d0: Option<Handle>, t0: Option<Handle>)
      returns (defaultWriter: Option<Handle>, e: Option<Handle>, w: Option<Handle>,
               i: Option<Handle>, d: Option<Handle>, t: Option<Handle>)
      modifies fs
      ensures fs.openLog == old(fs.openLog) + OpenList(c) && fs.closed == old(fs.closed)
      ensures defaultWriter == if c.defaultPath != "" then Some(DefaultHandle(c, |old(fs.openLog)|)) else None
      ensures e == if c.errorPath != "" then Some(OwnHandle(c, |old(fs.openLog)|, ErrLvl)) else e0
      ensures w == if c.warnPath != "" then Some(OwnHandle(c, |old(fs.openLog)|, WarnLvl)) else w0
      ensures i == if c.infoPath != "" then Some(OwnHandle(c, |old(fs.openLog)|, InfoLvl)) else i0
      ensures d == if c.debugPath != "" then Some(OwnHandle(c, |old(fs.openLog)|, DebugLvl)) else d0
      ensures t == if c.tracePath != "" then Some(OwnHandle(c, |old(fs.openLog)|, TraceLvl)) else t0
    {
      ghost var start := fs.openLog;
      defaultWriter := OpenSlot(fs, c.defaultPath, None);
      OpenedBeforeStep(c, ErrLvl);
      e := OpenLevel(fs, c, ErrLvl, start, e0);
      w := OpenLevel(fs, c, WarnLvl, start, w0);
      i := OpenLevel(fs, c, InfoLvl, start, i0);
      d := OpenLevel(fs, c, DebugLvl, start, d0);
      t := OpenLevel(fs, c, TraceLvl, start, t0);
    }

    /** The step of `InitConfig` for the own path of severity `lv`, taken
        once the default path and the lower severities' paths are open. */
    static method OpenLevel(fs: FileSystem, c: FileConfig, lv: int, ghost start: seq<string>, prior: Option<Handle>)
      returns (slot: Option<Handle>)
      requires ErrLvl <= lv <= TraceLvl
      requires fs.openLog == start + OpenedBefore(c, lv)
      modifies fs
      ensures lv < TraceLvl ==> fs.openLog == start + OpenedBefore(c, lv + 1)
      ensures lv == TraceLvl ==> fs.openLog == start + OpenList(c)
      ensures fs.closed == old(fs.closed)
      ensures slot == if OwnPath(c, lv) != "" then Some(OwnHandle(c, |start|, lv)) else prior
    {
      slot := OpenSlot(fs, OwnPath(c, lv), prior);
      assert fs.openLog == start + (OpenedBefore(c, lv) + OpenedFor(OwnPath(c, lv)));
      OpenedBeforeStep(c, lv);
    }

    /** The `if defaultWriter != nil { if slot == nil { slot = defaultWriter } }`
        step of `InitConfig` for one slot. */
    static function Backfill(slot: Option<Handle>, defaultWriter: Option<Handle>): (r: Option<Handle>)
      ensures slot.Some? ==> r == slot
      ensures slot.None? ==> r == defaultWriter
    {
      if defaultWriter.Some? && slot.None? then defaultWriter else slot
    }

    /** One slot's open step followed by its backfill step ends where
        `SlotAfterInit` says. */
    static lemma BackfillSlot(c: FileConfig, base: nat, prior: Option<Handle>, lv: int,
                              afterOpen: Option<Handle>, defaultWriter: Option<Handle>)
      requires ErrLvl <= lv <= TraceLvl
      requires afterOpen == if OwnPath(c, lv) != "" then Some(OwnHandle(c, base, lv)) else prior
      requires defaultWriter == if c.defaultPath != "" then Some(DefaultHandle(c, base)) else None
      ensures Backfill(afterOpen, defaultWriter) == SlotAfterInit(c, base, prior, lv)
    {
    }

    /** One `if path != "" { slot, _ = os.OpenFile(path, ...) }` step of
        `InitConfig`: a set path is opened into the slot, an empty one leaves
        the slot as it was. */
    static method OpenSlot(fs: FileSystem, path: string, prior: Option<Handle>) returns (slot: Option<Handle>)
      modifies fs
      ensures fs.openLog == old(fs.openLog) + OpenedFor(path)
      ensures slot == if path != "" then Some(Handle(|old(fs.openLog)|, path)) else prior
      ensures fs.closed == old(fs.closed)
    {
      slot := prior;
      if path != "" {
        var h := fs.Open(path);
        slot := Some(h);
      }
    }

    /** `DoLog`: the record goes to the slot of its severity, only there, and
        nowhere when that slot is nil or the severity is Off. */
    function DoLog(m: LogMessage, cfg: LogConfig, fx: Foreign): (r: seq<Write>)
      reads this
      ensures forall k :: 0 <= k < |r| ==> Some(r[k].sink) == Routes().At(m.sev)
      ensures Routes().At(m.sev).None? ==> r == []
      ensures m.sev == Off ==> r == []
      ensures Routes().At(m.sev).Some? ==> r == WriteLogMsg(Routes().At(m.sev).value, m, cfg, fx)
    {
      Route(Routes(), m, cfg, fx)
    }

    /** `Close`: closes the debug slot's handle and no other; with a nil debug
        slot the call panics. */
    method Close(fs: FileSystem) returns (r: CloseOutcome)
      modifies fs
      ensures debugWriter.None? ==> r == NilPanic && fs.closed == old(fs.closed)
      ensures debugWriter.Some? ==>
        && fs.closed == old(fs.closed) + {debugWriter.value.id}
        && r == Returned(if debugWriter.value.id in old(fs.closed) then Some("file already closed") else None)
      ensures fs.openLog == old(fs.openLog)
    {
      if debugWriter.None? {
        r := NilPanic;
      } else {
        var err := fs.Close(debugWriter.value);
        r := Returned(err);
      }
    }
  }

  /** `fw := &FileWriter{}` followed by `fw.InitConfig(w)`, as `Configure`
      runs them: the new writer's routes are those of its configuration. */
  method NewInitialised(w: WriterConfig, fs: FileSystem) returns (fw: FileWriter, echo: seq<Write>)
    requires w.file.Some?
    modifies fs
    ensures fresh(fw)
    ensures fw.Routes() == FileSlots(w.file.value, |old(fs.openLog)|)
    ensures fs.openLog == old(fs.openLog) + OpenList(w.file.value) && fs.closed == old(fs.closed)
    ensures echo == ErrorEcho(w.file.value)
  {
    fw := new FileWriter();
    echo := fw.InitConfig(w, fs);
  }
}
