/** How a reader worker cuts one source file into batches. */
module BatchSlicing {
  import opened Prelude

  function Flatten<Row>(batches: seq<seq<Row>>): seq<Row> {
    if |batches| == 0 then [] else Flatten(batches[..|batches| - 1]) + batches[|batches| - 1]
  }

  lemma FlattenAppend<Row>(batches: seq<seq<Row>>, batch: seq<Row>)
    ensures Flatten(batches + [batch]) == Flatten(batches) + batch
  {
    assert (batches + [batch])[..|batches|] == batches;
  }

  lemma {:induction false} FlattenHead<Row>(batches: seq<seq<Row>>)
    requires |batches| > 0
    ensures Flatten(batches) == batches[0] + Flatten(batches[1..])
  {
    var n := |batches| - 1;
    if n > 0 {
      FlattenHead(batches[..n]);
      assert batches[..n][1..] == batches[1..][..n - 1];
    }
  }

  /** The batches of a file: full ones in order, and what is left over in a last one. */
  function Slices<Row>(rows: seq<Row>, size: Pos): seq<seq<Row>> {
    if |rows| == 0 then []
    else if |rows| <= size then [rows]
    else [rows[..size]] + Slices(rows[size..], size)
  }

  /** They concatenate to the rows in order; each is full, except that the last may be short, never empty. */
  lemma {:induction false} SlicesCover<Row>(rows: seq<Row>, size: Pos)
    ensures Flatten(Slices(rows, size)) == rows
    ensures var bs := Slices(rows, size); forall i :: 0 <= i < |bs| ==>
              0 < |bs[i]| <= size && (i < |bs| - 1 ==> |bs[i]| == size)
  {
    if |rows| > size {
      SlicesCover(rows[size..], size);
      var rest := Slices(rows[size..], size);
      FlattenHead([rows[..size]] + rest);
      assert ([rows[..size]] + rest)[1..] == rest;
    } else if |rows| > 0 {
      FlattenAppend([], rows);
      assert [] + [rows] == [rows];
    }
  }

  predicate AllFull<Row>(batches: seq<seq<Row>>, size: Pos) {
    forall i :: 0 <= i < |batches| ==> |batches[i]| == size
  }

  /** Full batches that concatenate to a prefix of the rows are the first slices of the file, whatever
      reads they were made from; with the left-over batch they are all of them. */
  lemma {:induction false} FirstSlices<Row>(batches: seq<seq<Row>>, last: seq<Row>, rows: seq<Row>, size: Pos)
    requires AllFull(batches, size) && Flatten(batches) + last <= rows && |last| < size
    ensures batches <= Slices(rows, size)
    ensures Flatten(batches) + last == rows ==> Slices(rows, size) == batches + if last == [] then [] else [last]
    decreases |batches|
  {
    if |batches| == 0 {
      assert Flatten(batches) + last == last;
    } else {
      var tail := batches[1..];
      FlattenHead(batches);
      assert Flatten(batches) + last == batches[0] + (Flatten(tail) + last);
      assert rows[..size] == batches[0];
      assert Flatten(tail) + last <= rows[size..];
      FirstSlices(tail, last, rows[size..], size);
      assert batches == [batches[0]] + tail;
      if |rows| <= size {
        assert rows == batches[0] && Flatten(tail) + last == [];
        assert Slices(rows[size..], size) == [];
      }
    }
  }

  lemma Moved<Row>(open: seq<Row>, left: seq<Row>, take: nat)
    requires take <= |left|
    ensures (open + left[..take]) + left[take..] == open + left
  {
  }

  lemma Sent<Row>(emitted: seq<seq<Row>>, open: seq<Row>, left: seq<Row>)
    ensures Flatten(emitted + [open]) + ([] + left) == Flatten(emitted) + (open + left)
  {
    FlattenAppend(emitted, open);
  }

  lemma Consumed<Row>(sent: seq<Row>, batch: seq<Row>, rows: seq<Row>, from: nat, to: nat)
    requires from <= to <= |rows| && sent + batch == rows[..from]
    ensures sent + (batch + rows[from..to]) == rows[..to]
  {
    assert rows[..from] + rows[from..to] == rows[..to];
    assert sent + (batch + rows[from..to]) == (sent + batch) + rows[from..to];
  }

  datatype Operation = Open | Read | ReaderClose | Close

  datatype Status = More | EndOfFile | Failed

  /** What the file does when asked for rows: at most limit of them, an error, or the news that there are
      no more, which it may also keep for a later call. */
  datatype Answer = Answer(limit: nat, fails: bool, reportsEnd: bool)

  /** What opening and closing the file and its decoder returns. */
  datatype Handles = Handles(opens: bool, decodes: bool, readerCloses: bool, fileCloses: bool)

  /** One call of readFile: the file, the worker's flag, and the batches sent so far. The file answers
      `answers` in turn and then as much as it is asked for. Time advances arbitrarily with every
      observation; the pool is cancelled at cancelAt, if at all. `accepts` says which channel the sending
      select takes when both are ready. */
  class FileReader<Row> {
    const rows: seq<Row>
    const batchSize: Pos
    const handles: Handles
    const cancelAt: Option<nat>
    const waits: nat -> nat
    const accepts: nat -> bool
    var answers: seq<Answer>
    var position: nat
    var now: nat
    var blocked: bool
    var emitted: seq<seq<Row>>

    constructor (rows: seq<Row>, batchSize: Pos, handles: Handles, answers: seq<Answer>, now: nat,
                 cancelAt: Option<nat>, waits: nat -> nat, accepts: nat -> bool)
      ensures this.rows == rows && this.batchSize == batchSize && this.handles == handles && this.answers == answers
      ensures this.cancelAt == cancelAt && this.waits == waits && this.accepts == accepts && this.now == now
      ensures position == 0 && !blocked && emitted == []
    {
      this.rows, this.batchSize, this.handles, this.answers := rows, batchSize, handles, answers;
      this.cancelAt, this.waits, this.accepts, this.now := cancelAt, waits, accepts, now;
      position, blocked, emitted := 0, false, [];
    }

    predicate Cancelled()
      reads `now
    {
      cancelAt.Some? && now >= cancelAt.value
    }

    method ObserveCancelled() returns (cancelled: bool)
      modifies `now
      ensures now >= old(now) && cancelled == Cancelled()
    {
      now := now + waits(now);
      cancelled := Cancelled();
    }

    method Next(asked: Pos) returns (chunk: seq<Row>, status: Status)
      requires position <= |rows|
      modifies `answers, `position, `now
      ensures old(position) <= position <= |rows| && chunk == rows[old(position)..position] && |chunk| <= asked
      ensures status.EndOfFile? ==> position == |rows|
      ensures now >= old(now)
      ensures status.More? ==> |answers| < |old(answers)| || (|answers| == |old(answers)| && position > old(position))
    {
      now := now + waits(now);
      var answer := if |answers| > 0 then answers[0] else Answer(asked, false, true);
      answers := if |answers| > 0 then answers[1..] else [];
      var left := |rows| - position;
      var n := if answer.limit <= asked && answer.limit <= left then answer.limit
               else if asked <= left then asked else left;
      chunk := rows[position..position + n];
      position := position + n;
      status := if answer.fails then Failed else if position == |rows| && answer.reportsEnd then EndOfFile else More;
    }

    /** Sends or, only when the pool is cancelled, gives up; the blocked mark is off again afterwards. */
    method SendBatch(batch: seq<Row>) returns (sent: bool)
      modifies `now, `blocked, `emitted
      ensures now >= old(now) && !blocked
      ensures sent ==> emitted == old(emitted) + [batch]
      ensures !sent ==> emitted == old(emitted) && Cancelled()
    {
      blocked := false;
      var cancelled := ObserveCancelled();
      if cancelled { return false; }
      if accepts(now) {
        emitted := emitted + [batch];
        return true;
      }
      blocked := true;
      now := now + waits(now);
      sent := accepts(now) || !Cancelled();
      if sent {
        emitted := emitted + [batch];
      }
      blocked := false;
    }

    /** Appends the rows to the batch in hand and sends each batch that fills up. */
    method AppendRows(batch: seq<Row>, chunk: seq<Row>) returns (open: seq<Row>, sent: bool)
      requires |batch| < batchSize && AllFull(emitted, batchSize)
      modifies `now, `blocked, `emitted
      ensures now >= old(now) && AllFull(emitted, batchSize) && |open| < batchSize
      ensures sent ==> Flatten(emitted) + open == Flatten(old(emitted)) + (batch + chunk)
      ensures !sent ==> Cancelled() && Flatten(emitted) <= Flatten(old(emitted)) + (batch + chunk)
    {
      ghost var total := Flatten(emitted) + (batch + chunk);
      open := batch;
      var left := chunk;
      while |left| > 0
        invariant now >= old(now) && AllFull(emitted, batchSize) && |open| < batchSize
        invariant Flatten(emitted) + (open + left) == total
        decreases |left|
      {
        var cancelled := ObserveCancelled();
        if cancelled {
          return [], false;
        }
        var remaining := batchSize - |open|;
        var take := if remaining <= |left| then remaining else |left|;
        Moved(open, left, take);
        open, left := open + left[..take], left[take..];
        if |open| == batchSize {
          Sent(emitted, open, left);
          var accepted := SendBatch(open);
          if !accepted {
            return [], false;
          }
          open := [];
        }
      }
      assert open + left == open;
      return open, true;
    }

    /** Reads the whole file. Whatever the lengths of the reads: the batches sent are the first slices of
        the file; all of them when no error is reported and the pool is not cancelled; after a read error,
        every batch that the rows read so far could fill. */
    method ReadFile() returns (error: Option<Operation>)
      requires position == 0 && emitted == []
      modifies `answers, `position, `now, `blocked, `emitted
      ensures position <= |rows| && now >= old(now)
      ensures emitted <= Slices(rows, batchSize)
      ensures error.None? && !Cancelled() ==> emitted == Slices(rows, batchSize)
      ensures error == Some(Open) ==> emitted == []
      ensures error == Some(Read) ==> AllFull(emitted, batchSize) && 0 <= position - |Flatten(emitted)| < batchSize
      ensures error == Some(ReaderClose) ==> emitted == Slices(rows, batchSize)
      ensures error == Some(Close) ==> emitted == if handles.decodes then Slices(rows, batchSize) else []
    {
      if !handles.opens { return Some(Open); }
      if !handles.decodes {
        var cancelled := ObserveCancelled();
        return Some(if !handles.fileCloses && !cancelled then Close else Open);
      }
      var batch: seq<Row> := [];
      var status, sendStopped := More, false;
      var cancelled := ObserveCancelled();
      while !cancelled && status.More?
        invariant position <= |rows| && now >= old(now)
        invariant AllFull(emitted, batchSize) && |batch| < batchSize
        invariant !sendStopped ==> Flatten(emitted) + batch == rows[..position]
        invariant Flatten(emitted) <= rows
        invariant cancelled || sendStopped ==> Cancelled()
        invariant status.EndOfFile? ==> position == |rows|
        invariant sendStopped ==> cancelled && !status.Failed?
        decreases !cancelled && status.More?, |answers|, |rows| - position
      {
        ghost var from := position;
        var chunk;
        chunk, status := Next(batchSize - |batch|);
        if |chunk| > 0 {
          var sent;
          Consumed(Flatten(emitted), batch, rows, from, position);
          batch, sent := AppendRows(batch, chunk);
          sendStopped := !sent;
        }
        if sendStopped {
          cancelled, status := true, More;
        } else if status.More? {
          cancelled := ObserveCancelled();
        }
      }
      FirstSlices(emitted, [], rows, batchSize);
      var failed := status.Failed?;
      cancelled := ObserveCancelled();
      if !failed && !sendStopped && !cancelled {
        FirstSlices(emitted, batch, rows, batchSize);
        if |batch| > 0 {
          var sent := SendBatch(batch);
          sendStopped := !sent;
        }
      }
      cancelled := ObserveCancelled();
      if failed { return Some(Read); }
      if !handles.readerCloses && !cancelled { return Some(ReaderClose); }
      if !handles.fileCloses && !cancelled { return Some(Close); }
      return None;
    }
  }
}
