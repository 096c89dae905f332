/** The store of relay/store.py: the staged request buffer, and the server rows. */
module RequestLog {
  import opened QueueModel
  import opened Subsequences

  const REQUEST_BUFFER_MAX := 10_000

  /** batch: records taken by a flush whose transaction has not ended yet.
      enqueued: history, every record ever staged. */
  datatype LogState<R> = LogState(
    buffer: seq<R>, batch: seq<R>, inserted: seq<R>, dropped: nat, enqueued: seq<R>)

  datatype LogEvent<R> = Stage(record: R) | Take | Close(stored: bool)

  /** Over capacity the oldest record is shed and counted. */
  function Staged<R>(s: LogState<R>, record: R): LogState<R> {
    var full := |s.buffer| >= REQUEST_BUFFER_MAX;
    s.(buffer := (if full then s.buffer[1..] else s.buffer) + [record],
       dropped := if full then s.dropped + 1 else s.dropped,
       enqueued := s.enqueued + [record])
  }

  function Taken<R>(s: LogState<R>): LogState<R> {
    s.(batch := s.buffer, buffer := [])
  }

  /** The batch is inserted in one transaction, or dropped whole and counted. */
  function Closed<R>(s: LogState<R>, stored: bool): LogState<R> {
    if stored then s.(inserted := s.inserted + s.batch, batch := [])
    else s.(dropped := s.dropped + |s.batch|, batch := [])
  }

  /** One flusher: a batch is settled before the next is taken. */
  predicate LogLegal<R>(s: LogState<R>, ev: LogEvent<R>) {
    ev.Take? ==> |s.batch| == 0
  }

  function LogStep<R>(s: LogState<R>, ev: LogEvent<R>): LogState<R> {
    match ev
    case Stage(record) => Staged(s, record)
    case Take => Taken(s)
    case Close(stored) => Closed(s, stored)
  }

  ghost predicate Conserved<R>(s: LogState<R>) {
    && |s.enqueued| == |s.inserted| + s.dropped + |s.batch| + |s.buffer|
    && |s.buffer| <= REQUEST_BUFFER_MAX
    && s.buffer == s.enqueued[|s.enqueued| - |s.buffer|..]
    && Subsequence(s.inserted + s.batch + s.buffer, s.enqueued)
  }

  /** Records that an event may drop: the oldest one of a full buffer of 10 000, or a whole
      batch whose transaction failed. Counted from the event and the state it finds. */
  function DroppedBy<R>(s: LogState<R>, ev: LogEvent<R>): nat {
    match ev
    case Stage(_) => if |s.buffer| >= 10_000 then 1 else 0
    case Take => 0
    case Close(stored) => if stored then 0 else |s.batch|
  }

  function DroppedByAll<R>(s: LogState<R>, evs: seq<LogEvent<R>>): nat
    decreases |evs|
  {
    if evs == [] then 0 else DroppedBy(s, evs[0]) + DroppedByAll(LogStep(s, evs[0]), evs[1..])
  }

  lemma {:induction false} DropsAreCounted<R>(s: LogState<R>, evs: seq<LogEvent<R>>)
    ensures LogEnd(s, evs).dropped == s.dropped + DroppedByAll(s, evs)
    decreases |evs|
  {
    if evs != [] {
      DropsAreCounted(LogStep(s, evs[0]), evs[1..]);
    }
  }

  lemma StageConserves<R>(s: LogState<R>, record: R)
    requires Conserved(s)
    ensures Conserved(Staged(s, record))
  {
    hide Subsequence;
    var front := s.inserted + s.batch;
    var kept := if |s.buffer| >= REQUEST_BUFFER_MAX then s.buffer[1..] else s.buffer;
    assert Subsequence(front + kept, s.enqueued) by {
      if |s.buffer| >= REQUEST_BUFFER_MAX {
        SubsequenceDropMiddle(front, [s.buffer[0]], kept);
        assert front + [s.buffer[0]] + kept == front + s.buffer;
        SubsequenceTrans(front + kept, front + s.buffer, s.enqueued);
      }
    }
    SubsequenceSnoc(front + kept, s.enqueued, record);
    assert front + kept + [record] == s.inserted + s.batch + (kept + [record]);
  }

  lemma CloseConserves<R>(s: LogState<R>, stored: bool)
    requires Conserved(s)
    ensures Conserved(Closed(s, stored))
  {
    hide Subsequence;
    if stored {
      assert s.inserted + s.batch + [] + s.buffer == s.inserted + s.batch + s.buffer;
    } else {
      SubsequenceDropMiddle(s.inserted, s.batch, s.buffer);
      SubsequenceTrans(s.inserted + s.buffer, s.inserted + s.batch + s.buffer, s.enqueued);
      assert s.inserted + [] + s.buffer == s.inserted + s.buffer;
    }
  }

  lemma LogStepConserves<R>(s: LogState<R>, ev: LogEvent<R>)
    requires Conserved(s) && LogLegal(s, ev)
    ensures Conserved(LogStep(s, ev))
  {
    hide Subsequence;
    match ev
    case Stage(record) => StageConserves(s, record);
    case Take => assert s.inserted + s.buffer + [] == s.inserted + [] + s.buffer;
    case Close(stored) => CloseConserves(s, stored);
  }

  ghost predicate LogRun<R>(s: LogState<R>, evs: seq<LogEvent<R>>)
    decreases |evs|
  {
    evs == [] || (LogLegal(s, evs[0]) && LogRun(LogStep(s, evs[0]), evs[1..]))
  }

  ghost function LogEnd<R>(s: LogState<R>, evs: seq<LogEvent<R>>): LogState<R>
    decreases |evs|
  {
    if evs == [] then s else LogEnd(LogStep(s, evs[0]), evs[1..])
  }

  lemma {:induction false} LogRunConserves<R>(s: LogState<R>, evs: seq<LogEvent<R>>)
    requires Conserved(s) && LogRun(s, evs)
    ensures Conserved(LogEnd(s, evs))
    decreases |evs|
  {
    hide LogStep, LogLegal, Conserved;
    if evs != [] {
      LogStepConserves(s, evs[0]);
      LogRunConserves(LogStep(s, evs[0]), evs[1..]);
    }
  }

  function EmptyLog<R>(): LogState<R> {
    LogState([], [], [], 0, [])
  }

  /** After any mix of stagings and flushes, successful or not and with stagings in the middle
      of a flush: every record staged is inserted, counted as dropped, in the batch being
      written, or buffered; only a full buffer and failed transactions drop records; the buffer
      is bounded and holds the latest records; rows, batch and buffer together are in the order
      in which the records were staged, and all of them if nothing was dropped. */
  lemma RequestsAreConserved<R>(evs: seq<LogEvent<R>>)
    requires LogRun(EmptyLog(), evs)
    ensures var s := LogEnd<R>(EmptyLog(), evs);
      && |s.enqueued| == |s.inserted| + s.dropped + |s.batch| + |s.buffer|
      && s.dropped == DroppedByAll(EmptyLog<R>(), evs)
      && |s.buffer| <= 10_000 && s.buffer == s.enqueued[|s.enqueued| - |s.buffer|..]
      && Subsequence(s.inserted + s.batch + s.buffer, s.enqueued)
      && (DroppedByAll(EmptyLog<R>(), evs) == 0 ==> s.inserted + s.batch + s.buffer == s.enqueued)
  {
    hide LogEnd, LogRun, DroppedByAll;
    var none: seq<R> := [];
    assert none + none + none == none;
    LogRunConserves<R>(EmptyLog(), evs);
    DropsAreCounted<R>(EmptyLog(), evs);
    var s := LogEnd<R>(EmptyLog(), evs);
    SubsequenceLength(s.inserted + s.batch + s.buffer, s.enqueued);
  }
}

module Stores {
  import opened QueueModel
  import opened ServerModel
  import opened ServerRuns
  import opened RequestLog

  /** R: the type of a request record. */
  class Store<R> {
    var rows: map<string, Row>          // server_runtime
    var requests: seq<R>                // the requests table
    var buffer: seq<R>
    var degraded: bool
    var droppedWrites: nat
    var droppedRequests: nat
    ghost var staged: seq<R>

    constructor ()
      ensures rows == map[] && Log() == EmptyLog() && !degraded && droppedWrites == 0
    {
      rows, requests, buffer, degraded := map[], [], [], false;
      droppedWrites, droppedRequests, staged := 0, 0, [];
    }

    ghost function Log(): LogState<R>
      reads this
    {
      LogState(buffer, [], requests, droppedRequests, staged)
    }

    /** Counts a dropped write, or ends the degraded mode. */
    method NoteWrite(w: Write)
      modifies this`degraded, this`droppedWrites
      ensures degraded == w.Dropped?
      ensures droppedWrites == old(droppedWrites) + if w.Dropped? then 1 else 0
    {
      if w.Dropped? {
        droppedWrites := droppedWrites + 1;
        if !degraded {
          degraded := true;
        }
      } else if degraded {
        degraded := false;
      }
    }

    /** Persists the named fields; a failed write is dropped. */
    method SetServerRuntime(name: string, u: Update, w: Write)
      modifies this`rows, this`degraded, this`droppedWrites
      ensures rows == if u != NO_UPDATE && w == Stored && name in old(rows)
                      then old(rows)[name := Updated(old(rows)[name], u)] else old(rows)
      ensures degraded == if u == NO_UPDATE then old(degraded) else w.Dropped?
      ensures droppedWrites == old(droppedWrites) + if u != NO_UPDATE && w.Dropped? then 1 else 0
    {
      if u == NO_UPDATE {
        return;
      }
      if w == Stored && name in rows {
        rows := rows[name := Updated(rows[name], u)];
      }
      NoteWrite(w);
    }

    /** Startup reconciliation: missing rows are created, existing ones are returned as they
        are and rows of other servers stay; on a failed transaction nothing changes and every
        server starts unowned. */
    method ReconcileServers(names: seq<string>, w: Write) returns (result: map<string, Row>)
      modifies this`rows, this`degraded, this`droppedWrites
      ensures forall n :: n in result <==> n in names
      ensures w == Stored ==>
                && (forall n :: n in rows <==> n in old(rows) || n in names)
                && (forall n :: n in old(rows) ==> n in rows && rows[n] == old(rows)[n])
                && (forall n :: n in names && n !in old(rows) ==> n in rows && rows[n] == NewRow())
                && (forall n :: n in result ==> n in rows && result[n] == rows[n])
      ensures w == Dropped ==> rows == old(rows) && forall n :: n in result ==> result[n] == NewRow()
      ensures degraded == w.Dropped? && droppedWrites == old(droppedWrites) + if w.Dropped? then 1 else 0
    {
      var table := rows;
      result := map[];
      for i := 0 to |names|
        invariant forall n :: n in result <==> n in names[..i]
        invariant forall n :: n in table <==> n in rows || n in names[..i]
        invariant rows == old(rows)
        invariant forall n :: n in rows ==> table[n] == rows[n]
        invariant forall n :: n in names[..i] && n !in rows ==> table[n] == NewRow()
        invariant forall n :: n in names[..i] ==> result[n] == table[n]
      {
        var name := names[i];
        assert names[..i + 1] == names[..i] + [name];
        if name !in table {
          table := table[name := NewRow()];
        }
        result := result[name := table[name]];
      }
      assert names[..|names|] == names;
      NoteWrite(w);
      if w == Stored {
        rows := table;
      } else {
        result := map n | n in result :: NewRow();
      }
    }

    method EnqueueRequest(record: R)
      modifies this`buffer, this`droppedRequests, this`staged
      ensures Log() == Staged(old(Log()), record)
      ensures |old(buffer)| < 10_000 ==> buffer == old(buffer) + [record] && droppedRequests == old(droppedRequests)
      ensures |old(buffer)| == 10_000 ==>
                buffer == old(buffer)[1..] + [record] && droppedRequests == old(droppedRequests) + 1
    {
      if |buffer| >= REQUEST_BUFFER_MAX {
        droppedRequests := droppedRequests + 1;
        buffer := buffer[1..];          // a bounded deque drops its oldest element
      }
      buffer := buffer + [record];
      staged := staged + [record];
    }

    /** Writes the staged buffer in one transaction; the number of rows written. */
    method FlushRequests(w: Write) returns (count: nat)
      modifies this
      ensures Log() == Closed(Taken(old(Log())), w == Stored)
      ensures requests == old(requests) + (if w == Stored then old(buffer) else [])
      ensures count == if w == Stored then |old(buffer)| else 0
      ensures buffer == [] && droppedRequests == old(droppedRequests) + if w == Dropped then |old(buffer)| else 0
      ensures rows == old(rows)
      ensures degraded == if old(buffer) == [] then old(degraded) else w.Dropped?
      ensures droppedWrites == old(droppedWrites) + if old(buffer) != [] && w.Dropped? then 1 else 0
    {
      var records := buffer;
      buffer := [];
      if |records| == 0 {
        assert requests + [] == requests;
        return 0;
      }
      NoteWrite(w);
      if w == Dropped {
        droppedRequests := droppedRequests + |records|;
        return 0;
      }
      requests := requests + records;
      return |records|;
    }
  }
}
