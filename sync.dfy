/**
 * The backend's state and operations: the `sync_status` dictionary and the
 * three tables, the routes that start, stop and clear a sync, `insert_batch`
 * and `clear_table` against the tables, and `sync_entity`, which pages the
 * remote source into a table. Each session method states the events it
 * appends to a ghost trace of the session, and the whole trace follows the
 * protocol of SyncTrace, so the lemmas there are about the session's history.
 */
module Sync {
  import opened Wrappers
  import opened Json
  import opened Entities
  import opened Store
  import opened Remote
  import opened SyncTrace

  /** The fields of one `sync_status` entry at one moment. */
  datatype Flags = Flags(
    running: bool, progress: nat, total: int, lastRun: Option<string>, stopRequested: bool)

  /** One entry of `sync_status`, a dictionary updated in place. `progress` counts items handed to `insert_batch`. */
  class SyncState {
    var running: bool
    var progress: nat
    var total: int
    var lastRun: Option<string>
    var stopRequested: bool

    constructor()
      ensures Snapshot() == Flags(false, 0, 0, None, false)
    {
      running, progress, total, lastRun, stopRequested := false, 0, 0, None, false;
    }

    function Snapshot(): Flags
      reads this
    {
      Flags(running, progress, total, lastRun, stopRequested)
    }
  }

  /** One database table: its rows by id. */
  class DbTable {
    var rows: Table

    constructor(rows0: Table)
      ensures rows == rows0
    {
      rows := rows0;
    }
  }

  /** A route's JSON reply: status "success" (HTTP 200) or "error" (HTTP 400) with a message. */
  datatype Reply = Accepted(message: string) | Rejected(message: string)

  /**
   * How a session ends: the loop finished, a stop request was observed, an
   * exception left the loop, or the session was still running when the
   * bound on rounds (or on count pages) ran out.
   */
  datatype Outcome = Finished | Stopped | Failed | Unfinished

  /** A worker thread run to its end: how it ended, the remote count it took, and its session parameters. */
  datatype Worker = Worker(outcome: Outcome, count: Option<int>, cfg: Config)

  /**
   * What a session sees of the outside world: the clock reading for
   * `last_run`, the count replies, the local row count and maximum id
   * (`get_count_from_db`, `get_max_id_from_db`), and the reply to each page request.
   */
  datatype Env = Env(
    now: string, countReply: CountReply, countPages: int -> GroupPage, pageLimit: nat,
    localCount: nat, maxId: Option<int>, remote: Request -> Option<Value>)

  /**
   * The `range(max_workers)` loop of one round: the starts `start + i*batch_size`
   * that are below `total`, or None when the addition raises (start is not a number).
   */
  method SubmitRound(start: Value, batchSize: int, maxWorkers: int, total: int)
    returns (r: Option<seq<int>>)
    ensures r.None? <==> maxWorkers > 0 && AsNumber(start).None?
    ensures r.Some? && AsNumber(start).Some? ==>
              DispatchedFrom(AsNumber(start).value, r.value, batchSize, maxWorkers, total)
    ensures r.Some? && AsNumber(start).None? ==> r.value == []
  {
    if maxWorkers <= 0 {
      return Some([]);
    }
    if AsNumber(start).None? {
      return None;
    }
    var c := AsNumber(start).value;
    var offs: seq<int> := [];
    var i := 0;
    while i < maxWorkers
      invariant 0 <= i <= maxWorkers && |offs| == i
      invariant forall k :: 0 <= k < i ==> offs[k] == c + k * batchSize && offs[k] < total
      decreases maxWorkers - i
    {
      var batchStart := c + i * batchSize;
      if batchStart >= total {
        break;
      }
      offs := offs + [batchStart];
      i := i + 1;
    }
    return Some(offs);
  }

  /**
   * The entity's progress and table are what the trace leads to, and the
   * trace follows the protocol.
   */
  ghost predicate Recorded(cfg: Config, trace: seq<Event>, st: SyncState, tb: DbTable)
    reads st`progress, tb`rows
  {
    && GoodTrace(cfg, trace)
    && st.progress == cfg.entry + Run(cfg, trace).flushed
    && tb.rows == Run(cfg, trace).table
  }

  /**
   * How a session that left the loop ended, as its trace shows: Stopped
   * exactly after a stop was seen, Failed exactly after an exception, and
   * Finished with every future of the last round consumed and nothing left
   * in the buffer, once the total was reached or a round came back empty.
   */
  ghost predicate EndsAs(cfg: Config, trace: seq<Event>, outcome: Outcome) {
    && (outcome == Stopped <==> trace != [] && trace[|trace| - 1] == StopSeen)
    && (outcome == Failed <==> trace != [] && trace[|trace| - 1] == Crash)
    && (outcome == Finished ==>
          Run(cfg, trace).open == {} && Run(cfg, trace).buffer == []
          && (cfg.entry + Run(cfg, trace).flushed >= cfg.total
              || (Run(cfg, trace).rounds > 0 && Run(cfg, trace).offsets == [])))
  }

  /**
   * A session that ended inside the loop ends as its last event says: a stop
   * or an exception as the last event, or Unfinished on a live trace.
   */
  lemma EndsInside(cfg: Config, trace: seq<Event>, outcome: Outcome)
    requires outcome != Finished
    requires outcome == Stopped ==> trace != [] && trace[|trace| - 1] == StopSeen
    requires outcome == Failed ==> trace != [] && trace[|trace| - 1] == Crash
    requires outcome == Unfinished ==> !Run(cfg, trace).ended
    ensures EndsAs(cfg, trace, outcome)
  {
    if outcome == Unfinished && trace != [] {
      LiveTraceLast(cfg, trace);
    }
  }

  class App {
    const status: map<Entity, SyncState>
    const db: map<Entity, DbTable>

    /** Every entity has its own status entry and its own table. */
    ghost predicate Valid() {
      && (forall e: Entity :: e in status && e in db)
      && status[Deals] != status[Tasks] && status[Deals] != status[Projects] && status[Tasks] != status[Projects]
      && db[Deals] != db[Tasks] && db[Deals] != db[Projects] && db[Tasks] != db[Projects]
    }

    /** What a route for `name` may change: that entity's status entry and table. */
    function Touched(name: string): set<object>
      requires Valid()
    {
      match ParseEntity(name)
      case Some(e) => {status[e], db[e]}
      case None => {}
    }

    /** The status entry a stop request for `name` may change. */
    function Entry(name: string): set<object>
      requires Valid()
    {
      match ParseEntity(name)
      case Some(e) => {status[e]}
      case None => {}
    }

    /** The module globals at import time, over tables as they are in the database. */
    constructor(deals: Table, tasks: Table, projects: Table)
      ensures Valid()
      ensures forall e: Entity :: fresh(status[e]) && status[e].Snapshot() == Flags(false, 0, 0, None, false)
      ensures db[Deals].rows == deals && db[Tasks].rows == tasks && db[Projects].rows == projects
    {
      var sd := new SyncState();
      var st := new SyncState();
      var sp := new SyncState();
      var td := new DbTable(deals);
      var tt := new DbTable(tasks);
      var tp := new DbTable(projects);
      status := map[Deals := sd, Tasks := st, Projects := sp];
      db := map[Deals := td, Tasks := tt, Projects := tp];
      new;
      forall e: Entity
        ensures e in status && e in db
      {
        match e
        case Deals =>
        case Tasks =>
        case Projects =>
      }
    }

    /** The `/stop_sync/<entity>` route: flags a running sync to stop. */
    method StopSync(name: string) returns (reply: Reply)
      requires Valid()
      modifies Entry(name)
      ensures ParseEntity(name).None? ==> reply == Rejected("Invalid entity")
      ensures ParseEntity(name).Some? ==>
                var st := status[ParseEntity(name).value];
                && (!old(st.running) ==>
                      reply == Rejected("No sync running for this entity") && st.Snapshot() == old(st.Snapshot()))
                && (old(st.running) ==>
                      && reply == Accepted("Stopping sync for " + name + " requested")
                      && st.Snapshot() == old(st.Snapshot()).(stopRequested := true))
    {
      var p := ParseEntity(name);
      if p.None? {
        return Rejected("Invalid entity");
      }
      var st := status[p.value];
      if !st.running {
        return Rejected("No sync running for this entity");
      }
      st.stopRequested := true;
      reply := Accepted("Stopping sync for " + name + " requested");
    }

    /**
     * The `/sync/<entity>` route. The worker thread it starts is run to its
     * end here: `sync_entity` with the default batch size 50 and 8 workers.
     */
    method StartSync(name: string, env: Env, rounds: nat)
      returns (reply: Reply, worker: Option<Worker>, ghost trace: seq<Event>)
      requires Valid()
      modifies Touched(name)
      ensures ParseEntity(name).None? ==> reply == Rejected("Invalid entity") && worker.None?
      ensures ParseEntity(name).Some? ==>
                var e := ParseEntity(name).value;
                && (old(status[e].running) ==>
                      reply == Rejected("Sync already running") && worker.None?
                      && unchanged(status[e], db[e]))
                && (!old(status[e].running) ==>
                      && reply == Accepted("Syncing " + name + " started") && worker.Some?
                      && var w := worker.value;
                         Synced(e, 50, 8, env, rounds, old(db[e].rows), w.outcome, w.count, w.cfg, trace))
    {
      var p := ParseEntity(name);
      if p.None? {
        return Rejected("Invalid entity"), None, [];
      }
      var e := p.value;
      if status[e].running {
        return Rejected("Sync already running"), None, [];
      }
      reply := Accepted("Syncing " + name + " started");
      var outcome, count, cfg;
      outcome, count, cfg, trace := SyncEntity(e, 50, 8, env, rounds);
      worker := Some(Worker(outcome, count, cfg));
    }

    /**
     * The `/clear/<entity>` route; its worker thread (`clear_table`) is run
     * here. `committed` is whether the database accepted the TRUNCATE.
     */
    method ClearEntity(name: string, committed: bool) returns (reply: Reply)
      requires Valid()
      modifies Touched(name)
      ensures ParseEntity(name).None? ==> reply == Rejected("Invalid entity")
      ensures ParseEntity(name).Some? ==>
                var e := ParseEntity(name).value;
                && (old(status[e].running) ==>
                      reply == Rejected("Sync is running, cannot clear") && unchanged(status[e], db[e]))
                && (!old(status[e].running) ==>
                      && reply == Accepted("Clearing " + name + " started")
                      && (committed ==> db[e].rows == map[]
                                        && status[e].Snapshot() == old(status[e].Snapshot()).(progress := 0))
                      && (!committed ==> unchanged(status[e], db[e])))
    {
      var p := ParseEntity(name);
      if p.None? {
        return Rejected("Invalid entity");
      }
      var e := p.value;
      if status[e].running {
        return Rejected("Sync is running, cannot clear");
      }
      reply := Accepted("Clearing " + name + " started");
      ClearTable(e, committed);
    }

    /** `clear_table`: on a committed TRUNCATE the table is empty and progress is 0. */
    method ClearTable(e: Entity, committed: bool)
      requires Valid()
      modifies status[e], db[e]
      ensures committed ==> db[e].rows == map[]
                            && status[e].Snapshot() == old(status[e].Snapshot()).(progress := 0)
      ensures !committed ==> unchanged(status[e], db[e])
    {
      if committed {
        db[e].rows := map[];
        status[e].progress := 0;
      }
    }

    /**
     * `insert_batch`: the kept items' rows are executed one by one inside a
     * transaction that is committed (or not) at the end; nothing for an
     * empty list or when building a row raises.
     */
    method InsertBatch(e: Entity, items: seq<Value>, committed: bool)
      requires Valid()
      modifies db[e]
      ensures db[e].rows == UpsertBatch(old(db[e].rows), e, items, committed)
    {
      if items == [] {
        return;
      }
      var rows := MapRows(e, items);
      if rows.None? {
        return;
      }
      var t := db[e].rows;
      var i := 0;
      while i < |rows.value|
        invariant 0 <= i <= |rows.value|
        invariant t == ApplyRows(db[e].rows, rows.value[..i])
      {
        assert rows.value[..i + 1][..i] == rows.value[..i];
        t := t[rows.value[i].0 := rows.value[i].1];
        i := i + 1;
      }
      assert rows.value[..i] == rows.value;
      ApplyRowsIsUnion(db[e].rows, rows.value);
      if committed {
        db[e].rows := t;
      }
    }

    /**
     * A read of `sync_status[entity]["stop_requested"]` by the session. A
     * stop request may arrive from the route at any moment before it.
     */
    method PollStop(e: Entity) returns (stop: bool)
      requires Valid() && status[e].running
      modifies status[e]
      ensures status[e].Snapshot() == old(status[e].Snapshot()).(stopRequested := stop)
      ensures old(status[e].stopRequested) ==> stop
    {
      var arrived: bool :| true;
      if arrived {
        ParseName(e);
        var _ := StopSync(Name(e));
      }
      stop := status[e].stopRequested;
    }

    /** The entity's state agrees with the trace so far, and the session is running. */
    ghost predicate Live(cfg: Config, trace: seq<Event>)
      requires Valid()
      reads status[cfg.entity], db[cfg.entity]
    {
      && Recorded(cfg, trace, status[cfg.entity], db[cfg.entity])
      && status[cfg.entity].running && status[cfg.entity].total == cfg.total
    }

    /** The session's locals agree with the trace as well, and no flush is pending. */
    ghost predicate Session(cfg: Config, trace: seq<Event>, start: Value, buffer: seq<Value>)
      requires Valid()
      reads status[cfg.entity], db[cfg.entity]
    {
      && Live(cfg, trace) && buffer == Run(cfg, trace).buffer && start == Run(cfg, trace).cursor
      && !FlushDue(cfg, Run(cfg, trace))
    }

    /** A read of the stop flag by the session, recorded in the trace when it is set. */
    method ObserveStop(cfg: Config, ghost trace: seq<Event>, start: Value, buffer: seq<Value>)
      returns (stop: bool, ghost trace': seq<Event>)
      requires Valid() && Session(cfg, trace, start, buffer) && !Run(cfg, trace).ended
      requires cfg.maxWorkers > 0 && MayPollStop(cfg, Run(cfg, trace))
      modifies status[cfg.entity]
      ensures trace <= trace' && Session(cfg, trace', start, buffer)
      ensures stop ==> trace' == trace + [StopSeen]
                       && Run(cfg, trace') == Run(cfg, trace).(ended := true, last := Some(StopSeen))
      ensures !stop ==> trace' == trace
      ensures status[cfg.entity].lastRun == old(status[cfg.entity].lastRun)
    {
      stop := PollStop(cfg.entity);
      trace' := trace;
      if stop {
        RunSnoc(cfg, trace, StopSeen);
        trace' := trace + [StopSeen];
      }
    }

    /**
     * One completed future of a round, the slot-th of round `round`: take its
     * page, skip it when empty, buffer its items, flush when the buffer holds
     * twice the batch size or the page had no `next` (`committed` says whether
     * that insert committed), and move the start to a truthy `next`.
     */
    method Consume(cfg: Config, ghost trace: seq<Event>, start: Value, buffer: seq<Value>,
                   offsets: seq<int>, round: nat, slot: nat)
      returns (start': Value, buffer': seq<Value>, committed: bool, ghost trace': seq<Event>)
      requires Valid() && Session(cfg, trace, start, buffer) && !Run(cfg, trace).ended
      requires offsets == Run(cfg, trace).offsets && round == Run(cfg, trace).rounds
      requires slot in Run(cfg, trace).open && slot < |offsets|
      modifies status[cfg.entity], db[cfg.entity]
      ensures var page := FetchBatch(cfg.entity, cfg.remote(Request(round, slot, offsets[slot], cfg.since)));
              var due := page.items != [] && (|buffer + page.items| >= 2 * cfg.batchSize || page.next == Null);
              trace' == trace + [Fetched(slot, offsets[slot], page.items, page.next)]
                        + (if due then [Flush(buffer + page.items, committed)] else [])
      ensures trace <= trace' && Session(cfg, trace', start', buffer') && !Run(cfg, trace').ended
      ensures Run(cfg, trace').open == Run(cfg, trace).open - {slot}
      ensures Run(cfg, trace').offsets == offsets && Run(cfg, trace').rounds == round
      ensures status[cfg.entity].lastRun == old(status[cfg.entity].lastRun)
    {
      var page := FetchBatch(cfg.entity, cfg.remote(Request(round, slot, offsets[slot], cfg.since)));
      var ev := Fetched(slot, offsets[slot], page.items, page.next);
      RunSnoc(cfg, trace, ev);
      trace' := trace + [ev];
      start', buffer', committed := start, buffer, false;
      if page.items == [] {
        return;
      }
      buffer' := buffer + page.items;
      if |buffer'| >= cfg.batchSize * 2 || page.next == Null {
        ghost var t;
        committed, t := FlushBuffer(cfg, trace', buffer');
        trace' := t;
        buffer' := [];
      }
      if Truthy(page.next) {
        start' := page.next;
      }
    }

    /**
     * The `insert_batch` call inside a round, with the progress update after
     * it. `committed` is whether the database accepted the transaction.
     */
    method FlushBuffer(cfg: Config, ghost trace: seq<Event>, batch: seq<Value>)
      returns (committed: bool, ghost trace': seq<Event>)
      requires Valid() && Live(cfg, trace) && batch == Run(cfg, trace).buffer
      requires Allowed(cfg, Run(cfg, trace), Flush(batch, false))
      modifies status[cfg.entity], db[cfg.entity]
      ensures trace' == trace + [Flush(batch, committed)] && Live(cfg, trace')
      ensures var v := Run(cfg, trace);
              Run(cfg, trace') == v.(buffer := [], flushed := v.flushed + |batch|,
                                     table := UpsertBatch(v.table, cfg.entity, batch, committed),
                                     last := Some(Flush(batch, committed)))
      ensures status[cfg.entity].lastRun == old(status[cfg.entity].lastRun)
    {
      committed :| true;
      InsertBatch(cfg.entity, batch, committed);
      status[cfg.entity].progress := status[cfg.entity].progress + |batch|;
      RunSnoc(cfg, trace, Flush(batch, committed));
      trace' := trace + [Flush(batch, committed)];
    }

    /**
     * The `as_completed` loop of one round: futures complete in any order;
     * before each result the stop flag is read and the round is abandoned
     * when it is set. `stopped` reports that.
     */
    method RunRound(cfg: Config, ghost trace: seq<Event>, start: Value, buffer: seq<Value>,
                    offsets: seq<int>, round: nat)
      returns (start': Value, buffer': seq<Value>, stopped: bool, ghost trace': seq<Event>)
      requires Valid() && Session(cfg, trace, start, buffer) && !Run(cfg, trace).ended
      requires cfg.maxWorkers > 0 && round == Run(cfg, trace).rounds
      requires offsets == Run(cfg, trace).offsets && Run(cfg, trace).open == Slots(|offsets|)
      modifies status[cfg.entity], db[cfg.entity]
      ensures trace <= trace' && Session(cfg, trace', start', buffer')
      ensures stopped <==> Run(cfg, trace').ended
      ensures stopped ==> trace'[|trace'| - 1] == StopSeen && offsets != []
      ensures !stopped ==> Run(cfg, trace').open == {}
      ensures Run(cfg, trace').offsets == offsets && Run(cfg, trace').rounds == Run(cfg, trace).rounds
      ensures status[cfg.entity].lastRun == old(status[cfg.entity].lastRun)
    {
      var pending := Slots(|offsets|);
      start', buffer', trace' := start, buffer, trace;
      while pending != {}
        invariant trace <= trace' && Session(cfg, trace', start', buffer') && !Run(cfg, trace').ended
        invariant Run(cfg, trace').open == pending && pending <= Slots(|offsets|)
        invariant pending != {} ==> offsets != []
        invariant Run(cfg, trace').offsets == offsets && Run(cfg, trace').rounds == round
        invariant status[cfg.entity].lastRun == old(status[cfg.entity].lastRun)
        decreases pending
      {
        start', buffer', stopped, pending, trace' := NextFuture(cfg, trace', start', buffer', offsets, round, pending);
        if stopped {
          return;
        }
      }
      stopped := false;
    }

    /**
     * One turn of the `as_completed` loop: the stop flag is read, and unless
     * it is set, one of the pending futures, whichever completes, is consumed.
     */
    method NextFuture(cfg: Config, ghost trace: seq<Event>, start: Value, buffer: seq<Value>,
                      offsets: seq<int>, round: nat, pending: set<nat>)
      returns (start': Value, buffer': seq<Value>, stopped: bool, pending': set<nat>, ghost trace': seq<Event>)
      requires Valid() && Session(cfg, trace, start, buffer) && !Run(cfg, trace).ended
      requires cfg.maxWorkers > 0 && round == Run(cfg, trace).rounds
      requires offsets == Run(cfg, trace).offsets && Run(cfg, trace).open == pending && pending != {}
      requires pending <= Slots(|offsets|)
      modifies status[cfg.entity], db[cfg.entity]
      ensures trace <= trace' && Session(cfg, trace', start', buffer')
      ensures stopped <==> Run(cfg, trace').ended
      ensures stopped ==> trace' == trace + [StopSeen]
      ensures !stopped ==> Run(cfg, trace').open == pending' && pending' < pending
      ensures Run(cfg, trace').offsets == offsets && Run(cfg, trace').rounds == round
      ensures status[cfg.entity].lastRun == old(status[cfg.entity].lastRun)
    {
      stopped, trace' := ObserveStop(cfg, trace, start, buffer);
      start', buffer', pending' := start, buffer, pending;
      if stopped {
        return;
      }
      var k :| k in pending;
      var committed;
      start', buffer', committed, trace' := Consume(cfg, trace, start, buffer, offsets, round, k);
      pending' := pending - {k};
    }

    /**
     * The head of a round: the starts to fetch, or an exception (recorded as
     * Crash) when the start is not a number.
     */
    method BeginRound(cfg: Config, ghost trace: seq<Event>, start: Value, buffer: seq<Value>)
      returns (offs: Option<seq<int>>, ghost trace': seq<Event>)
      requires Valid() && Session(cfg, trace, start, buffer) && !Run(cfg, trace).ended
      requires MayStartRound(cfg, Run(cfg, trace)) && cfg.maxWorkers > 0
      ensures Session(cfg, trace', start, buffer)
      ensures offs.None? ==> trace' == trace + [Crash]
      ensures offs.Some? ==>
                && trace' == trace + [Dispatch(start, offs.value)] && !Run(cfg, trace').ended
                && Run(cfg, trace').offsets == offs.value && Run(cfg, trace').open == Slots(|offs.value|)
                && Run(cfg, trace').rounds == Run(cfg, trace).rounds + 1
    {
      offs := SubmitRound(start, cfg.batchSize, cfg.maxWorkers, cfg.total);
      var ev := if offs.None? then Crash else Dispatch(start, offs.value);
      RunSnoc(cfg, trace, ev);
      trace' := trace + [ev];
    }

    /**
     * One pass of the `while` body after its condition held: submit the
     * round, consume it, and read the stop flag after it. `end` is None when
     * the loop goes on, Finished when the round was empty (the loop breaks).
     */
    method Round(cfg: Config, ghost trace: seq<Event>, start: Value, buffer: seq<Value>, done: nat)
      returns (start': Value, buffer': seq<Value>, end: Option<Outcome>, ghost trace': seq<Event>)
      requires Valid() && Session(cfg, trace, start, buffer) && !Run(cfg, trace).ended
      requires MayStartRound(cfg, Run(cfg, trace)) && cfg.maxWorkers > 0 && done == Run(cfg, trace).rounds
      modifies status[cfg.entity], db[cfg.entity]
      ensures trace <= trace' && Session(cfg, trace', start', buffer')
      ensures status[cfg.entity].lastRun == old(status[cfg.entity].lastRun)
      ensures end != Some(Unfinished)
      ensures end.None? || end == Some(Finished) ==> !Run(cfg, trace').ended && Run(cfg, trace').open == {}
      ensures end.None? ==> Run(cfg, trace').offsets != [] && Run(cfg, trace').rounds == done + 1
      ensures end == Some(Finished) ==> Run(cfg, trace').rounds > 0 && Run(cfg, trace').offsets == []
      ensures end == Some(Stopped) ==> trace' != [] && trace'[|trace'| - 1] == StopSeen
                                       && Run(cfg, trace').offsets != []
      ensures end == Some(Failed) ==> trace' != [] && trace'[|trace'| - 1] == Crash
    {
      var offs;
      offs, trace' := BeginRound(cfg, trace, start, buffer);
      start', buffer' := start, buffer;
      if offs.None? {
        return start', buffer', Some(Failed), trace';
      }
      var stopped;
      start', buffer', stopped, trace' := RunRound(cfg, trace', start', buffer', offs.value, done + 1);
      if stopped {
        return start', buffer', Some(Stopped), trace';
      }
      if offs.value == [] {
        return start', buffer', Some(Finished), trace';
      }
      var stop;
      stop, trace' := ObserveStop(cfg, trace', start', buffer');
      end := if stop then Some(Stopped) else None;
    }

    /**
     * The final flush after the loop: the buffer is written unless the stop
     * flag is found set (`stopped`).
     */
    method FlushRest(cfg: Config, ghost trace: seq<Event>, start: Value, buffer: seq<Value>)
      returns (stopped: bool, committed: bool, ghost trace': seq<Event>)
      requires Valid() && Session(cfg, trace, start, buffer) && !Run(cfg, trace).ended
      requires Run(cfg, trace).open == {} && buffer != [] && cfg.maxWorkers > 0
      requires cfg.entry + Run(cfg, trace).flushed >= cfg.total
               || (Run(cfg, trace).rounds > 0 && Run(cfg, trace).offsets == [])
      modifies status[cfg.entity], db[cfg.entity]
      ensures Session(cfg, trace', start, if stopped then buffer else [])
      ensures stopped ==> trace' == trace + [StopSeen]
      ensures !stopped ==> trace' == trace + [FinalFlush(buffer, committed)]
      ensures Run(cfg, trace').rounds == Run(cfg, trace).rounds
      ensures Run(cfg, trace').offsets == Run(cfg, trace).offsets
      ensures status[cfg.entity].lastRun == old(status[cfg.entity].lastRun)
    {
      var e := cfg.entity;
      stopped, trace' := ObserveStop(cfg, trace, start, buffer);
      committed := false;
      if stopped {
        return;
      }
      ghost var v := Run(cfg, trace);
      committed :| true;
      var fl := FinalFlush(buffer, committed);
      assert Allowed(cfg, v, fl);
      InsertBatch(e, buffer, committed);
      status[e].progress := status[e].progress + |buffer|;
      RunSnoc(cfg, trace, fl);
      trace' := trace + [fl];
      assert Run(cfg, trace') == v.(buffer := [], flushed := v.flushed + |buffer|,
                                    table := UpsertBatch(v.table, e, buffer, committed),
                                    ended := true, last := Some(fl));
    }

    /**
     * The body of `sync_entity` from `start = 0` on: rounds while progress is
     * below the total and no stop is seen, then the final flush. Returns
     * Unfinished, leaving the session running, when `rounds` rounds did not end it.
     */
    method RunSession(cfg: Config, rounds: nat)
      returns (outcome: Outcome, start: Value, buffer: seq<Value>, ghost trace: seq<Event>)
      requires Valid() && Session(cfg, [], Int(0), [])
      modifies status[cfg.entity], db[cfg.entity]
      ensures Session(cfg, trace, start, buffer)
      ensures status[cfg.entity].lastRun == old(status[cfg.entity].lastRun)
      ensures EndsAs(cfg, trace, outcome)
      ensures outcome == Unfinished ==> Run(cfg, trace).rounds == rounds
      ensures cfg.maxWorkers <= 0 ==> outcome == Failed && trace == [Crash]
    {
      trace := [];
      start := Int(0);
      buffer := [];
      if cfg.maxWorkers <= 0 {
        // the `with ThreadPoolExecutor(...)` head raises ValueError
        RunSnoc(cfg, [], Crash);
        return Failed, start, buffer, [Crash];
      }
      var end;
      end, start, buffer, trace := SessionLoop(cfg, rounds);
      if end.Some? {
        return end.value, start, buffer, trace;
      }
      outcome, buffer, trace := Conclude(cfg, trace, start, buffer);
    }

    /**
     * The `while` loop of `sync_entity`, at most `rounds` passes. `end` is
     * None when the loop was left normally, so that the final flush follows,
     * and otherwise how the session ended inside it.
     */
    method SessionLoop(cfg: Config, rounds: nat)
      returns (end: Option<Outcome>, start: Value, buffer: seq<Value>, ghost trace: seq<Event>)
      requires Valid() && Session(cfg, [], Int(0), []) && cfg.maxWorkers > 0
      modifies status[cfg.entity], db[cfg.entity]
      ensures Session(cfg, trace, start, buffer)
      ensures status[cfg.entity].lastRun == old(status[cfg.entity].lastRun)
      ensures end.None? ==>
                && !Run(cfg, trace).ended && Run(cfg, trace).open == {}
                && (cfg.entry + Run(cfg, trace).flushed >= cfg.total
                    || (Run(cfg, trace).rounds > 0 && Run(cfg, trace).offsets == []))
      ensures end.Some? ==> end != Some(Finished) && EndsAs(cfg, trace, end.value)
      ensures end == Some(Unfinished) ==> Run(cfg, trace).rounds == rounds
    {
      trace := [];
      start := Int(0);
      buffer := [];
      var left, done := rounds, 0;
      while true
        invariant Session(cfg, trace, start, buffer) && !Run(cfg, trace).ended
        invariant Run(cfg, trace).open == {} && done == Run(cfg, trace).rounds && left + done == rounds
        invariant Run(cfg, trace).rounds == 0 || Run(cfg, trace).offsets != []
        invariant status[cfg.entity].lastRun == old(status[cfg.entity].lastRun)
        decreases left
      {
        start, buffer, end, trace := Pass(cfg, trace, start, buffer, left, done);
        if end == Some(Finished) {
          return None, start, buffer, trace;
        } else if end.Some? {
          EndsInside(cfg, trace, end.value);
          return;
        }
        left, done := left - 1, done + 1;
      }
    }

    /**
     * One test of the `while` condition and, when it holds, one round.
     * `end` is None when the loop goes on, Finished when it ends normally,
     * and Unfinished when `left`, the rounds still allowed, is used up.
     */
    method Pass(cfg: Config, ghost trace: seq<Event>, start: Value, buffer: seq<Value>, left: nat, done: nat)
      returns (start': Value, buffer': seq<Value>, end: Option<Outcome>, ghost trace': seq<Event>)
      requires Valid() && Session(cfg, trace, start, buffer) && !Run(cfg, trace).ended
      requires cfg.maxWorkers > 0 && done == Run(cfg, trace).rounds
      requires Run(cfg, trace).open == {} && (Run(cfg, trace).rounds == 0 || Run(cfg, trace).offsets != [])
      modifies status[cfg.entity], db[cfg.entity]
      ensures trace <= trace' && Session(cfg, trace', start', buffer')
      ensures status[cfg.entity].lastRun == old(status[cfg.entity].lastRun)
      ensures end.None? || end == Some(Finished) ==> !Run(cfg, trace').ended && Run(cfg, trace').open == {}
      ensures end.None? ==> left > 0 && Run(cfg, trace').offsets != [] && Run(cfg, trace').rounds == done + 1
      ensures end == Some(Finished) ==>
                cfg.entry + Run(cfg, trace').flushed >= cfg.total
                || (Run(cfg, trace').rounds > 0 && Run(cfg, trace').offsets == [])
      ensures end == Some(Stopped) ==> trace' != [] && trace'[|trace'| - 1] == StopSeen
      ensures end == Some(Failed) ==> trace' != [] && trace'[|trace'| - 1] == Crash
      ensures end == Some(Unfinished) ==> !Run(cfg, trace').ended && left == 0 && Run(cfg, trace').rounds == done
      ensures old(status[cfg.entity].progress) >= cfg.total ==> end == Some(Finished) && trace' == trace
    {
      start', buffer', trace' := start, buffer, trace;
      if status[cfg.entity].progress >= cfg.total {
        return start', buffer', Some(Finished), trace';
      }
      var stop;
      stop, trace' := ObserveStop(cfg, trace, start, buffer);
      if stop {
        return start', buffer', Some(Stopped), trace';
      }
      if left == 0 {
        return start', buffer', Some(Unfinished), trace';
      }
      start', buffer', end, trace' := Round(cfg, trace', start', buffer', done);
    }

    /** After the loop: the final flush when the buffer is not empty. */
    method Conclude(cfg: Config, ghost trace: seq<Event>, start: Value, buffer: seq<Value>)
      returns (outcome: Outcome, buffer': seq<Value>, ghost trace': seq<Event>)
      requires Valid() && Session(cfg, trace, start, buffer) && !Run(cfg, trace).ended
      requires Run(cfg, trace).open == {} && cfg.maxWorkers > 0
      requires cfg.entry + Run(cfg, trace).flushed >= cfg.total
               || (Run(cfg, trace).rounds > 0 && Run(cfg, trace).offsets == [])
      modifies status[cfg.entity], db[cfg.entity]
      ensures trace <= trace' && Session(cfg, trace', start, buffer')
      ensures status[cfg.entity].lastRun == old(status[cfg.entity].lastRun)
      ensures outcome == Finished || outcome == Stopped
      ensures EndsAs(cfg, trace', outcome)
    {
      if trace != [] {
        LiveTraceLast(cfg, trace);
      }
      outcome, buffer', trace' := Finished, buffer, trace;
      if buffer != [] {
        var stopped, committed;
        stopped, committed, trace' := FlushRest(cfg, trace, start, buffer);
        if stopped {
          outcome := Stopped;
        } else {
          buffer' := [];
        }
      }
    }

    /**
     * What a finished `sync_entity` call left behind. The count is taken once,
     * and `last_run` is the clock reading. `running` stays true exactly when
     * a bound ran out (Unfinished): the page bound of the count, or all
     * `rounds` rounds ran; `stop_requested` is false on every other exit.
     * Without a count nothing was synced. With one, the session ran on the
     * parameters given, from the resume point (the local count when a max id
     * exists, 0 otherwise) and the table as it was. Progress and table are
     * what its trace leads to, `total` is the count, and the trace shows how
     * the session ended; with no workers it failed at once.
     */
    ghost predicate Synced(e: Entity, batchSize: int, maxWorkers: int, env: Env, rounds: nat, table0: Table,
                           outcome: Outcome, count: Option<int>, cfg: Config, trace: seq<Event>)
      requires Valid()
      reads status[e], db[e]
    {
      && count == CountResult(e, env.countReply, env.countPages, env.pageLimit)
      && status[e].lastRun == Some(env.now)
      && (outcome == Unfinished <==> status[e].running)
      && (outcome != Unfinished ==> !status[e].stopRequested)
      && (count.None? ==> outcome == Unfinished && trace == [] && db[e].rows == table0)
      && (count.Some? ==>
            && cfg == Config(e, batchSize, maxWorkers, count.value, env.maxId, env.remote,
                             if env.maxId.Some? then env.localCount else 0, table0)
            && Recorded(cfg, trace, status[e], db[e]) && status[e].total == cfg.total
            && (outcome != Unfinished ==> EndsAs(cfg, trace, outcome))
            && (outcome == Unfinished ==> Run(cfg, trace).rounds == rounds)
            && (maxWorkers <= 0 ==> outcome == Failed && trace == [Crash]))
    }

    /**
     * `sync_entity`: the flags are set, the remote total counted and the
     * resume point read; then rounds of at most `max_workers` fetches run
     * while progress is below the total and no stop was requested; a final
     * flush writes what is left unless a stop was requested; the flags are
     * cleared at the end whatever happened. `rounds` bounds the rounds run.
     */
    method SyncEntity(e: Entity, batchSize: int, maxWorkers: int, env: Env, rounds: nat)
      returns (outcome: Outcome, count: Option<int>, cfg: Config, ghost trace: seq<Event>)
      requires Valid()
      modifies status[e], db[e]
      ensures Synced(e, batchSize, maxWorkers, env, rounds, old(db[e].rows), outcome, count, cfg, trace)
      ensures count.None? ==>
                status[e].Snapshot()
                == old(status[e].Snapshot()).(running := true, lastRun := Some(env.now), stopRequested := false)
    {
      count, cfg := Prepare(e, batchSize, maxWorkers, env);
      trace := [];
      if count.None? {
        return Unfinished, count, cfg, trace;
      }
      var start, buffer;
      outcome, start, buffer, trace := RunSession(cfg, rounds);
      if outcome != Unfinished {
        status[e].running, status[e].stopRequested := false, false;
      }
    }

    /**
     * The head of `sync_entity`: the flags are set, the remote total is
     * counted and, when a count is known, the total and the resume point
     * (progress and `filter[>ID]`) are taken from the table.
     */
    method Prepare(e: Entity, batchSize: int, maxWorkers: int, env: Env)
      returns (count: Option<int>, cfg: Config)
      requires Valid()
      modifies status[e]
      ensures count == CountResult(e, env.countReply, env.countPages, env.pageLimit)
      ensures count.None? ==>
                status[e].Snapshot()
                == old(status[e].Snapshot()).(running := true, lastRun := Some(env.now), stopRequested := false)
      ensures count.Some? ==>
                && cfg.entity == e && cfg.batchSize == batchSize && cfg.maxWorkers == maxWorkers
                && cfg.total == count.value && cfg.since == env.maxId && cfg.remote == env.remote
                && cfg.entry == (if env.maxId.Some? then env.localCount else 0) && cfg.table == db[e].rows
                && Session(cfg, [], Int(0), [])
                && status[e].lastRun == Some(env.now) && !status[e].stopRequested
    {
      var st := status[e];
      st.running, st.lastRun, st.stopRequested := true, Some(env.now), false;
      count := RemoteCount(e, env.countReply, env.countPages, env.pageLimit);
      cfg := Config(e, batchSize, maxWorkers, count.GetOr(0), env.maxId, env.remote, 0, db[e].rows);
      if count.None? {
        return;
      }
      st.total := count.value;
      var entry := if env.maxId.Some? then env.localCount else 0;
      st.progress := entry;
      cfg := cfg.(entry := entry);
      assert Run(cfg, []) == Initial(cfg);
    }
  }
}
