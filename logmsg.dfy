/** The pooled log messages of logging/logmsg.go. A `sync.Pool` hands out a
    previously returned message or a fresh one; `getLogMessage` and
    `getLogMessageF` then overwrite the severity, time, function name and line
    in place and append the formatted text to the message's buffer without
    emptying it first; `putLogMessage` empties the buffer and hands the
    message back.

    The pool is a sequential free list. Which entry `sync.Pool.Get` returns
    (or whether it allocates) is not determined by the program, so it is a
    parameter: `pick` names a free-list position, and `None` or a position
    past the end means a fresh allocation. The formatted text of
    `fmt.Fprint`/`fmt.Fprintf` is a parameter too; the two getters differ only
    in which of those formatters produced it. */
module Pool {
  import opened Wrappers
  import opened Output

  /** `*LogMessage` of logmsg.go: the record whose `Buf` is a reusable buffer. */
  class PooledMessage {
    var time: Instant
    var fnName: string
    var line: int
    var buf: string
    var sev: int

    /** The pool's `New`: a message with an empty buffer and every other
        field at its zero value. */
    constructor ()
      ensures buf == [] && fnName == "" && line == 0 && sev == 0 && time == Instant(0)
    {
      time, fnName, line, buf, sev := Instant(0), "", 0, [], 0;
    }
  }

  class MessagePool {
    var free: seq<PooledMessage>

    /** Each pooled message is in the pool once, and every pooled message has
        an empty buffer. */
    ghost predicate Valid()
      reads this, free
    {
      && (forall i, j :: 0 <= i < j < |free| ==> free[i] != free[j])
      && (forall i :: 0 <= i < |free| ==> free[i].buf == [])
    }

    constructor ()
      ensures free == [] && Valid()
    {
      free := [];
    }

    /** Whether `Get` reuses a pooled message for this choice. */
    function Reuses(pick: Option<nat>): bool
      reads this
    {
      pick.Some? && pick.value < |free|
    }

    /** `sync.Pool.Get`: removes the chosen pooled message and returns it, or
        allocates a fresh one with an empty buffer; nothing else changes. */
    method Get(pick: Option<nat>) returns (m: PooledMessage)
      requires Valid()
      modifies this
      ensures Valid()
      ensures old(Reuses(pick)) ==>
        && m == old(free[pick.value])
        && free == old(free[..pick.value] + free[pick.value + 1..])
      ensures !old(Reuses(pick)) ==> fresh(m) && m.buf == [] && free == old(free)
      ensures m !in free
    {
      if pick.Some? && pick.value < |free| {
        var k := pick.value;
        m := free[k];
        free := free[..k] + free[k + 1..];
        assert forall i :: 0 <= i < |free| ==> free[i] == old(free)[if i < k then i else i + 1];
      } else {
        m := new PooledMessage();
      }
    }

    /** `getLogMessage` / `getLogMessageF`: take a message from the pool, set
        its severity and time, clear its function name and line, and append
        the formatted text to its buffer. The buffer is not emptied first, so
        the content is whatever the buffer held followed by the text; since the
        pool only holds emptied messages, that is the text alone. Other pooled
        messages are untouched. */
    method GetLogMessage(sev: int, now: Instant, text: string, pick: Option<nat>) returns (m: PooledMessage)
      requires Valid()
      modifies this, if Reuses(pick) then {free[pick.value]} else {}
      ensures Valid() && m !in free
      ensures m.sev == sev && m.time == now && m.fnName == "" && m.line == 0
      ensures old(Reuses(pick)) ==>
        && m == old(free[pick.value])
        && m.buf == old(free[pick.value].buf) + text
        && free == old(free[..pick.value] + free[pick.value + 1..])
      ensures !old(Reuses(pick)) ==> fresh(m) && m.buf == text && free == old(free)
      ensures m.buf == text
    {
      m := Get(pick);
      m.sev := sev;
      m.time := now;
      m.fnName := "";
      m.line := 0;
      m.buf := m.buf + text;
    }

    /** `putLogMessage`: empty the buffer, then return the message to the
        pool; its other fields keep their values. */
    method PutLogMessage(m: PooledMessage)
      requires Valid() && m !in free
      modifies this, m
      ensures Valid()
      ensures m.buf == [] && free == old(free) + [m]
      ensures m.sev == old(m.sev) && m.time == old(m.time) && m.fnName == old(m.fnName) && m.line == old(m.line)
    {
      m.buf := [];
      free := free + [m];
    }
  }

  /** A borrower that returns its message and a later borrower that is handed
      that same message: the later content is exactly its own text, with
      nothing left over from the earlier one. */
  method ReuseAfterPut(pool: MessagePool, m: PooledMessage, sev: int, now: Instant, text: string)
    returns (m2: PooledMessage)
    requires pool.Valid() && m !in pool.free
    modifies pool, m
    ensures m2 == m && m2.buf == text && m2.sev == sev
    ensures pool.Valid() && pool.free == old(pool.free)
  {
    pool.PutLogMessage(m);
    m2 := pool.GetLogMessage(sev, now, text, Some(|pool.free| - 1));
    assert pool.free == old(pool.free);
  }
}
