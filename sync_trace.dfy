/**
 * The observable history of one `sync_entity` session, as a trace of events,
 * and the rules every trace of the code follows. `Run` gives the state the
 * events lead to (buffer, cursor, flushed count, table); `Allowed` says which
 * event may come next. The lemmas derive the session's guarantees from them.
 */
module SyncTrace {
  import opened Wrappers
  import opened Json
  import opened Entities
  import opened Store
  import opened Remote

  /**
   * One page request of a session: the slot-th fetch submitted in the
   * round-th round, for `start` and the resume id passed as `filter[>ID]`.
   */
  datatype Request = Request(round: nat, slot: nat, start: int, since: Option<int>)

  /**
   * The fixed parameters of one session: the entity, `batch_size`,
   * `max_workers`, the `total` snapshot, the resume id, the remote reply to
   * each request (a decoded body, or None when the request raised), and the
   * progress and table at entry. Replies are per request, so the same start
   * asked for again in a later round may get a different reply.
   */
  datatype Config = Config(
    entity: Entity, batchSize: int, maxWorkers: int, total: int, since: Option<int>,
    remote: Request -> Option<Value>, entry: nat, table: Table)

  datatype Event =
    | Dispatch(cursor: Value, offsets: seq<int>)                 // one round's fetches submitted
    | Fetched(slot: nat, offset: int, items: seq<Value>, next: Value)  // one completed fetch consumed
    | Flush(batch: seq<Value>, accepted: bool)                    // insert_batch inside a round
    | FinalFlush(batch: seq<Value>, accepted: bool)               // insert_batch after the loop
    | StopSeen                                                   // a poll found stop_requested
    | Crash                                                      // an exception left the loop

  /** The session state after a trace. */
  datatype View = View(
    buffer: seq<Value>, cursor: Value, flushed: nat, table: Table,
    offsets: seq<int>, open: set<nat>, rounds: nat, last: Option<Event>, ended: bool)

  function Initial(cfg: Config): View {
    View([], Int(0), 0, cfg.table, [], {}, 0, None, false)
  }

  /** The dispatch slots 0 .. n-1 of a round. */
  function Slots(n: nat): (s: set<nat>)
    ensures forall k: nat :: k in s <==> k < n
  {
    if n == 0 then {} else Slots(n - 1) + {n - 1}
  }

  function Apply(cfg: Config, v: View, ev: Event): View {
    var w := match ev
      case Dispatch(_, offs) =>
        v.(offsets := offs, open := Slots(|offs|), rounds := v.rounds + 1)
      case Fetched(slot, _, items, next) =>
        v.(buffer := v.buffer + items, open := v.open - {slot},
           cursor := if items != [] && Truthy(next) then next else v.cursor)
      case Flush(batch, ok) =>
        v.(buffer := [], flushed := v.flushed + |batch|,
           table := UpsertBatch(v.table, cfg.entity, batch, ok))
      case FinalFlush(batch, ok) =>
        v.(buffer := [], flushed := v.flushed + |batch|,
           table := UpsertBatch(v.table, cfg.entity, batch, ok), ended := true)
      case StopSeen => v.(ended := true)
      case Crash => v.(ended := true);
    w.(last := Some(ev))
  }

  function Run(cfg: Config, t: seq<Event>): View
    decreases |t|
  {
    if t == [] then Initial(cfg)
    else Apply(cfg, Run(cfg, t[..|t| - 1]), t[|t| - 1])
  }

  /**
   * The offsets of one round from cursor `c`: `c + i*b` for i = 0, 1, ...,
   * at most `w` of them, each below `total`, stopping at the first that is not.
   */
  ghost predicate DispatchedFrom(c: int, offs: seq<int>, b: int, w: int, total: int) {
    && |offs| <= (if w < 0 then 0 else w)
    && (forall i :: 0 <= i < |offs| ==> offs[i] == c + i * b && offs[i] < total)
    && (|offs| < w ==> c + |offs| * b >= total)
  }

  /** The `while` condition holds and the previous round was complete and not empty. */
  ghost predicate MayStartRound(cfg: Config, v: View) {
    && v.open == {}
    && (v.rounds == 0 || v.offsets != [])
    && cfg.entry + v.flushed < cfg.total
  }

  /**
   * The session reads `stop_requested` in this state: before each result of
   * a round with futures left, after a round that submitted futures, in the
   * `while` test while progress is below the total, or before the final
   * flush of a non-empty buffer. The short-circuits of the `while` test and
   * of `if not futures or ...` mean it is not read after an empty round with
   * nothing buffered, nor when the total is reached before the first round.
   */
  ghost predicate MayPollStop(cfg: Config, v: View) {
    || v.open != {}
    || (v.rounds > 0 && v.offsets != [])
    || MayStartRound(cfg, v)
    || v.buffer != []
  }

  /**
   * The last event consumed a non-empty page, and the buffer has reached
   * twice the batch size or the page had no `next`: the flush comes next.
   */
  predicate FlushDue(cfg: Config, v: View) {
    && v.last.Some? && v.last.value.Fetched? && v.last.value.items != []
    && (|v.buffer| >= 2 * cfg.batchSize || v.last.value.next == Null)
  }

  /**
   * Which event may come next. A due flush comes straight after its page.
   * With no workers the pool itself raises before anything else happens. A
   * stop is seen only where the flag is read.
   */
  ghost predicate Allowed(cfg: Config, v: View, ev: Event) {
    && !v.ended
    && (FlushDue(cfg, v) ==> ev.Flush?)
    && match ev
      case Dispatch(cursor, offs) =>
        && MayStartRound(cfg, v) && cursor == v.cursor && cfg.maxWorkers > 0
        && AsNumber(cursor).Some?
        && DispatchedFrom(AsNumber(cursor).value, offs, cfg.batchSize, cfg.maxWorkers, cfg.total)
      case Fetched(slot, offset, items, next) =>
        && slot in v.open && slot < |v.offsets| && offset == v.offsets[slot]
        && FetchBatch(cfg.entity, cfg.remote(Request(v.rounds, slot, offset, cfg.since))) == Page(items, next)
      case Flush(batch, _) =>
        FlushDue(cfg, v) && batch == v.buffer
      case FinalFlush(batch, _) =>
        && v.open == {} && batch == v.buffer && batch != []
        && (cfg.entry + v.flushed >= cfg.total || (v.rounds > 0 && v.offsets == []))
      case StopSeen => cfg.maxWorkers > 0 && MayPollStop(cfg, v)
      case Crash =>
        || (v.last.None? && cfg.maxWorkers <= 0)
        || (MayStartRound(cfg, v) && cfg.maxWorkers > 0 && AsNumber(v.cursor).None?)
  }

  /** Every event of the trace was allowed after the events before it. */
  ghost predicate GoodTrace(cfg: Config, t: seq<Event>)
    decreases |t|
  {
    t == [] || (GoodTrace(cfg, t[..|t| - 1]) && Allowed(cfg, Run(cfg, t[..|t| - 1]), t[|t| - 1]))
  }

  /** Items consumed from completed fetches over the trace. */
  function FetchedItems(t: seq<Event>): nat
    decreases |t|
  {
    if t == [] then 0
    else FetchedItems(t[..|t| - 1]) + (if t[|t| - 1].Fetched? then |t[|t| - 1].items| else 0)
  }

  /** A consumed fetch that moves the cursor: non-empty items and a truthy `next`. */
  predicate Advances(ev: Event) {
    ev.Fetched? && ev.items != [] && Truthy(ev.next)
  }

  /** Appending one event: how `Run` and `GoodTrace` unfold. */
  lemma RunSnoc(cfg: Config, t: seq<Event>, ev: Event)
    ensures Run(cfg, t + [ev]) == Apply(cfg, Run(cfg, t), ev)
    ensures GoodTrace(cfg, t + [ev]) <==> GoodTrace(cfg, t) && Allowed(cfg, Run(cfg, t), ev)
    ensures FetchedItems(t + [ev]) == FetchedItems(t) + (if ev.Fetched? then |ev.items| else 0)
  {
    assert (t + [ev])[..|t|] == t;
  }

  /** A trace that has not ended does not end with a terminal event. */
  lemma LiveTraceLast(cfg: Config, t: seq<Event>)
    requires t != [] && !Run(cfg, t).ended
    ensures !t[|t| - 1].StopSeen? && !t[|t| - 1].Crash? && !t[|t| - 1].FinalFlush?
  {
  }

  /** Each event of a good trace was allowed in the state its prefix led to. */
  lemma {:induction false} StepAt(cfg: Config, t: seq<Event>, i: nat)
    requires GoodTrace(cfg, t) && i < |t|
    ensures GoodTrace(cfg, t[..i]) && Allowed(cfg, Run(cfg, t[..i]), t[i])
    ensures Run(cfg, t[..i + 1]) == Apply(cfg, Run(cfg, t[..i]), t[i])
    decreases |t|
  {
    assert t[..i + 1][..i] == t[..i];
    if i < |t| - 1 {
      var front := t[..|t| - 1];
      assert front[..i] == t[..i] && front[..i + 1] == t[..i + 1] && front[i] == t[i];
      StepAt(cfg, front, i);
    } else {
      assert t[..i + 1] == t;
    }
  }

  /**
   * Nothing happens after a stop is observed, an exception escapes, or the
   * final flush: each of these is the last event of any trace.
   */
  lemma TerminalEventsAreLast(cfg: Config, t: seq<Event>, i: nat)
    requires GoodTrace(cfg, t) && i < |t|
    requires t[i].StopSeen? || t[i].Crash? || t[i].FinalFlush?
    ensures i == |t| - 1
  {
    if i < |t| - 1 {
      StepAt(cfg, t, i);
      StepAt(cfg, t, i + 1);
      assert false;
    }
  }

  /** With no workers the pool raises at once: a session's only event is the exception. */
  lemma NoWorkersFails(cfg: Config, t: seq<Event>)
    requires GoodTrace(cfg, t) && cfg.maxWorkers <= 0 && t != []
    ensures t == [Crash]
  {
    StepAt(cfg, t, 0);
    assert t[..0] == [];
    TerminalEventsAreLast(cfg, t, 0);
  }

  /** A stop is observed only in a state where the session reads the flag. */
  lemma StopOnlyWherePolled(cfg: Config, t: seq<Event>, i: nat)
    requires GoodTrace(cfg, t) && i < |t| && t[i] == StopSeen
    ensures MayPollStop(cfg, Run(cfg, t[..i]))
  {
    StepAt(cfg, t, i);
  }

  /**
   * Every round dispatches offsets `cursor + i*batch_size`, at most
   * `max_workers` of them, each below `total`, and only while progress is
   * below `total`; the cursor is the one the trace had reached.
   */
  lemma DispatchedSlices(cfg: Config, t: seq<Event>, i: nat)
    requires GoodTrace(cfg, t) && i < |t| && t[i].Dispatch?
    ensures var offs := t[i].offsets;
            && t[i].cursor == Run(cfg, t[..i]).cursor
            && cfg.entry + Run(cfg, t[..i]).flushed < cfg.total
            && 0 < cfg.maxWorkers && |offs| <= cfg.maxWorkers
            && (forall k :: 0 <= k < |offs| ==> offs[k] < cfg.total)
            && AsNumber(t[i].cursor).Some?
            && (forall k :: 0 <= k < |offs| ==> offs[k] == AsNumber(t[i].cursor).value + k * cfg.batchSize)
  {
    StepAt(cfg, t, i);
  }

  /**
   * A flush inside a round comes right after a non-empty fetch result, and
   * either the buffer reached twice the batch size or that fetch had no
   * continuation; it writes exactly the buffer.
   */
  lemma FlushJustified(cfg: Config, t: seq<Event>, i: nat)
    requires GoodTrace(cfg, t) && i < |t| && t[i].Flush?
    ensures i > 0 && t[i - 1].Fetched? && t[i - 1].items != []
    ensures |t[i].batch| >= 2 * cfg.batchSize || t[i - 1].next == Null
    ensures t[i].batch == Run(cfg, t[..i]).buffer
  {
    StepAt(cfg, t, i);
    if i == 0 {
      assert false;
    }
    assert t[..i][..i - 1] == t[..i - 1];
    assert Run(cfg, t[..i]).last == Some(t[i - 1]);
  }

  /**
   * Conversely, a consumed non-empty page that brings the buffer to twice the
   * batch size, or that has no `next`, is followed at once by the flush of
   * the whole buffer, unless the trace ends there.
   */
  lemma FlushForced(cfg: Config, t: seq<Event>, i: nat)
    requires GoodTrace(cfg, t) && i + 1 < |t| && t[i].Fetched? && t[i].items != []
    requires |Run(cfg, t[..i + 1]).buffer| >= 2 * cfg.batchSize || t[i].next == Null
    ensures t[i + 1].Flush? && t[i + 1].batch == Run(cfg, t[..i + 1]).buffer
  {
    StepAt(cfg, t, i);
    StepAt(cfg, t, i + 1);
  }

  /**
   * Every item consumed from a completed fetch has been flushed or is still
   * in the buffer (the progress counter counts flushed items).
   */
  lemma {:induction false} Conservation(cfg: Config, t: seq<Event>)
    requires GoodTrace(cfg, t)
    ensures FetchedItems(t) == Run(cfg, t).flushed + |Run(cfg, t).buffer|
    decreases |t|
  {
    if t != [] {
      var front, ev := t[..|t| - 1], t[|t| - 1];
      Conservation(cfg, front);
      StepConserves(cfg, Run(cfg, front), ev);
    }
  }

  /** One event keeps flushed-plus-buffered equal to the items consumed. */
  lemma StepConserves(cfg: Config, v: View, ev: Event)
    requires Allowed(cfg, v, ev)
    ensures var w := Apply(cfg, v, ev);
            w.flushed + |w.buffer| == v.flushed + |v.buffer| + (if ev.Fetched? then |ev.items| else 0)
  {
  }

  /** The flushed count, and so the progress, never decreases along a trace. */
  lemma {:induction false} FlushedGrows(cfg: Config, t: seq<Event>, i: nat)
    requires i <= |t|
    ensures Run(cfg, t[..i]).flushed <= Run(cfg, t).flushed
    decreases |t|
  {
    if i < |t| {
      var front := t[..|t| - 1];
      assert front[..i] == t[..i];
      FlushedGrows(cfg, front, i);
      ApplyKeepsFlushed(cfg, Run(cfg, front), t[|t| - 1]);
    } else {
      assert t[..i] == t;
    }
  }

  /** No event lowers the flushed count. */
  lemma ApplyKeepsFlushed(cfg: Config, v: View, ev: Event)
    ensures v.flushed <= Apply(cfg, v, ev).flushed
  {
  }

  /**
   * The cursor is the `next` of the most recently consumed fetch that had
   * items and a truthy `next` — the latest such, not the largest.
   */
  lemma {:induction false} CursorIsLatest(cfg: Config, t: seq<Event>, j: nat)
    requires j < |t| && Advances(t[j])
    requires forall k :: j < k < |t| ==> !Advances(t[k])
    ensures Run(cfg, t).cursor == t[j].next
    decreases |t|
  {
    var front := t[..|t| - 1];
    if j < |t| - 1 {
      CursorIsLatest(cfg, front, j);
    }
  }

  /** Before any fetch moved it, the cursor is the initial start 0. */
  lemma {:induction false} CursorStartsAtZero(cfg: Config, t: seq<Event>)
    requires forall k :: 0 <= k < |t| ==> !Advances(t[k])
    ensures Run(cfg, t).cursor == Int(0)
    decreases |t|
  {
    if t != [] {
      CursorStartsAtZero(cfg, t[..|t| - 1]);
    }
  }

  /** The last offset of a round is below the total, and a round smaller than the pool reaches it. */
  lemma RoundExtent(c: int, offs: seq<int>, b: int, w: int, total: int)
    requires DispatchedFrom(c, offs, b, w, total)
    ensures |offs| > 0 ==> c + (|offs| - 1) * b < total
    ensures |offs| < w ==> c + |offs| * b >= total
  {
    if |offs| > 0 {
      assert offs[|offs| - 1] == c + (|offs| - 1) * b;
    }
  }

  /** With a positive batch size the offsets of a round are strictly increasing. */
  lemma OffsetsIncrease(c: int, offs: seq<int>, b: int, w: int, total: int, i: nat, j: nat)
    requires DispatchedFrom(c, offs, b, w, total) && b > 0 && i < j < |offs|
    ensures offs[i] < offs[j]
  {
    assert offs[j] - offs[i] == (j - i) * b;
  }

  /** From start 0 with 120 records, batch size 50 and 8 workers, a round fetches 0, 50 and 100. */
  lemma ScenarioOffsets(offs: seq<int>)
    requires DispatchedFrom(0, offs, 50, 8, 120)
    ensures offs == [0, 50, 100]
  {
    RoundExtent(0, offs, 50, 8, 120);
    assert |offs| == 3;
    assert offs[0] == 0 && offs[1] == 50 && offs[2] == 100;
  }
}
