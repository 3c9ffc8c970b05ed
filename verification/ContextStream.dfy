/** Streaming of alert context: the server sends scanned rows in batches of 100, the client keeps the events
    it asked for. */
module ContextStream {
  import opened Common

  const BATCH_SIZE: nat := 100

  datatype Row = Row(eventId: string, body: string)

  datatype Batch = Batch(index: int, events: seq<Row>)

  /** The rows that scanned; a row that does not scan is logged and skipped. */
  function Scanned(rows: seq<Option<Row>>): seq<Row> {
    if rows == [] then []
    else
      var init, r := Scanned(rows[..|rows| - 1]), rows[|rows| - 1];
      if r.Some? then init + [r.value] else init
  }

  function Flatten(batches: seq<Batch>): seq<Row> {
    if batches == [] then [] else Flatten(batches[..|batches| - 1]) + batches[|batches| - 1].events
  }

  /** Numbered from one, and every batch but possibly the last is full; none is empty. */
  predicate WellCut(batches: seq<Batch>) {
    forall i :: 0 <= i < |batches| ==>
      && batches[i].index == i + 1
      && 0 < |batches[i].events| <= 100
      && (i < |batches| - 1 ==> |batches[i].events| == 100)
  }

  predicate AllFull(batches: seq<Batch>) {
    forall i :: 0 <= i < |batches| ==> batches[i].index == i + 1 && |batches[i].events| == BATCH_SIZE
  }

  lemma FlattenAppend(batches: seq<Batch>, b: Batch)
    ensures Flatten(batches + [b]) == Flatten(batches) + b.events
  {
    assert (batches + [b])[..|batches|] == batches;
  }

  lemma ScannedAppend(rows: seq<Option<Row>>, i: nat)
    requires i < |rows|
    ensures Scanned(rows[..i + 1]) == if rows[i].Some? then Scanned(rows[..i]) + [rows[i].value] else Scanned(rows[..i])
  {
    assert rows[..i + 1][..i] == rows[..i];
  }

  /** How far the loop has come: `sent` holds full batches only, and `batch` what came after them. */
  predicate Progress(sent: seq<Batch>, batch: seq<Row>, index: int, done: seq<Row>, lost: nat) {
    && AllFull(sent) && index == |sent| + 1 && |sent| <= lost
    && |Flatten(sent)| == 100 * |sent|
    && Flatten(sent) + batch == done
  }

  /** `stream.Send`: sends number `lost` and later fail. */
  method Send(sent: seq<Batch>, b: Batch, lost: nat) returns (sent': seq<Batch>, ok: bool)
    ensures ok <==> |sent| != lost
    ensures sent' == (if ok then sent + [b] else sent)
    ensures Flatten(sent') == if ok then Flatten(sent) + b.events else Flatten(sent)
  {
    FlattenAppend(sent, b);
    if |sent| == lost { return sent, false; }
    return sent + [b], true;
  }

  /** One scanned row joins the batch, which goes out when it is full. */
  method Collect(sent: seq<Batch>, batch: seq<Row>, index: int, row: Row, ghost done: seq<Row>, lost: nat)
    returns (sent': seq<Batch>, batch': seq<Row>, index': int, ok: bool)
    requires Progress(sent, batch, index, done, lost) && |batch| < BATCH_SIZE
    ensures ok ==> Progress(sent', batch', index', done + [row], lost) && |batch'| < BATCH_SIZE
    ensures !ok ==> sent' == sent && |sent| == lost && |batch| == BATCH_SIZE - 1
  {
    sent', batch', index', ok := sent, batch + [row], index, true;
    assert Flatten(sent) + batch' == done + [row];
    if |batch'| >= BATCH_SIZE {
      sent', ok := Send(sent, Batch(index, batch'), lost);
      if ok { batch', index' := [], index + 1; }
    }
  }

  /** A full batch that cannot be sent is a row beyond what fits in `lost` batches. */
  lemma SendFailed(rows: seq<Option<Row>>, i: nat, sent: seq<Batch>, batch: seq<Row>, index: int, lost: nat)
    requires i < |rows| && rows[i].Some?
    requires Progress(sent, batch, index, Scanned(rows[..i]), lost) && |sent| == lost && |batch| == BATCH_SIZE - 1
    ensures Flatten(sent) < Scanned(rows) && BATCH_SIZE * lost < |Scanned(rows)|
  {
    ScannedAppend(rows, i);
    ScannedPrefix(rows, i + 1);
  }

  /** The rest goes out after the last row. */
  method Finish(sent: seq<Batch>, batch: seq<Row>, index: int, ghost done: seq<Row>, lost: nat)
    returns (sent': seq<Batch>, ok: bool)
    requires Progress(sent, batch, index, done, lost) && |batch| < BATCH_SIZE
    ensures WellCut(sent') && (ok <==> BATCH_SIZE * lost >= |done|)
    ensures if ok then Flatten(sent') == done else sent' == sent && |sent| == lost && Flatten(sent) < done
  {
    sent', ok := sent, true;
    if |batch| > 0 {
      sent', ok := Send(sent, Batch(index, batch), lost);
    }
  }

  /** The batching loop. A failed send ends the stream with an error: what was sent before it is then whole
      batches of a proper prefix. */
  method FetchAlertContext(rows: seq<Option<Row>>, lost: nat) returns (sent: seq<Batch>, ok: bool)
    ensures WellCut(sent)
    ensures ok ==> Flatten(sent) == Scanned(rows)
    ensures !ok ==> |sent| == lost && AllFull(sent) && Flatten(sent) < Scanned(rows)
    ensures ok <==> BATCH_SIZE * lost >= |Scanned(rows)|
  {
    sent := [];
    var batch: seq<Row>, index := [], 1;
    for i := 0 to |rows|
      invariant Progress(sent, batch, index, Scanned(rows[..i]), lost) && |batch| < BATCH_SIZE
    {
      ScannedAppend(rows, i);
      if rows[i].None? { continue; }
      var sent', batch', index', sentAll := Collect(sent, batch, index, rows[i].value, Scanned(rows[..i]), lost);
      if !sentAll {
        SendFailed(rows, i, sent, batch, index, lost);
        return sent, false;
      }
      sent, batch, index := sent', batch', index';
    }
    assert rows[..|rows|] == rows;
    sent, ok := Finish(sent, batch, index, Scanned(rows), lost);
  }

  lemma {:induction false} ScannedPrefix(rows: seq<Option<Row>>, i: nat)
    requires i <= |rows|
    ensures Scanned(rows[..i]) <= Scanned(rows)
    decreases |rows| - i
  {
    if i == |rows| {
      assert rows[..i] == rows;
    } else {
      ScannedAppend(rows, i);
      ScannedPrefix(rows, i + 1);
    }
  }

  // ---------------------------------------------------------------- the client

  predicate Wanted(ids: seq<string>, r: Row) { ids == [] || r.eventId in ids }

  function Requested(ids: seq<string>, rows: seq<Row>): seq<Row> {
    if rows == [] then []
    else
      var init, r := Requested(ids, rows[..|rows| - 1]), rows[|rows| - 1];
      if Wanted(ids, r) then init + [r] else init
  }

  lemma {:induction false} RequestedConcat(ids: seq<string>, a: seq<Row>, b: seq<Row>)
    ensures Requested(ids, a + b) == Requested(ids, a) + Requested(ids, b)
  {
    if b == [] {
      assert a + b == a;
    } else {
      RequestedConcat(ids, a, b[..|b| - 1]);
      assert (a + b)[..|a + b| - 1] == a + b[..|b| - 1];
    }
  }

  /** The evidence filter over the received batches. A stream error is raised, never turned into a result. */
  method FetchEvidence(ids: seq<string>, rows: seq<Option<Row>>, lost: nat) returns (events: Option<seq<Row>>)
    ensures events.Some? <==> BATCH_SIZE * lost >= |Scanned(rows)|
    ensures events.Some? ==> events.value == Requested(ids, Scanned(rows))
  {
    var batches, ok := FetchAlertContext(rows, lost);
    var kept: seq<Row> := [];
    for i := 0 to |batches|
      invariant kept == Requested(ids, Flatten(batches[..i]))
    {
      assert batches[..i + 1] == batches[..i] + [batches[i]];
      FlattenAppend(batches[..i], batches[i]);
      RequestedConcat(ids, Flatten(batches[..i]), batches[i].events);
      var part := KeepRequested(ids, batches[i].events);
      kept := kept + part;
    }
    assert batches[..|batches|] == batches;
    events := if ok then Some(kept) else None;
  }

  /** The inner loop: an event nobody asked for is rejected. */
  method KeepRequested(ids: seq<string>, events: seq<Row>) returns (kept: seq<Row>)
    ensures kept == Requested(ids, events)
  {
    kept := [];
    for i := 0 to |events|
      invariant kept == Requested(ids, events[..i])
    {
      assert events[..i + 1][..i] == events[..i];
      if ids != [] && events[i].eventId !in ids { continue; }
      kept := kept + [events[i]];
    }
    assert events[..|events|] == events;
  }

  /** Scanning skips exactly the rows that do not scan, and keeps the order of the others. */
  lemma {:induction false} ScannedPositions(rows: seq<Option<Row>>) returns (at: seq<nat>)
    ensures Rising(at) && forall i :: i in at <==> 0 <= i < |rows| && rows[i] != None
    ensures |Scanned(rows)| == |at|
    ensures forall k :: 0 <= k < |at| ==> at[k] < |rows| && rows[at[k]] == Some(Scanned(rows)[k])
  {
    at := [];
    if rows != [] {
      var n := |rows| - 1;
      at := ScannedPositions(rows[..n]);
      assert forall k :: 0 <= k < |at| ==> at[k] in at;
      if rows[n] != None {
        RisingAppend(at, n);
        at := at + [n];
      }
    }
  }

  /** The identifier is one of those asked for, unless none was. */
  predicate Asked(ids: seq<string>, id: string) { |ids| > 0 ==> exists i :: 0 <= i < |ids| && ids[i] == id }

  /** With identifiers named, no row with any other is returned. */
  lemma {:induction false} OnlyRequested(ids: seq<string>, rows: seq<Row>)
    requires |ids| > 0
    ensures forall k :: 0 <= k < |Requested(ids, rows)| ==> Requested(ids, rows)[k].eventId in ids
  {
    if rows != [] { OnlyRequested(ids, rows[..|rows| - 1]); }
  }

  /** The filter keeps exactly the rows whose identifier was asked for, in order; all of them if none was named. */
  lemma {:induction false} RequestedPositions(ids: seq<string>, rows: seq<Row>) returns (at: seq<nat>)
    ensures Rising(at) && forall i :: i in at <==> 0 <= i < |rows| && Asked(ids, rows[i].eventId)
    ensures |Requested(ids, rows)| == |at|
    ensures forall k :: 0 <= k < |at| ==> at[k] < |rows| && rows[at[k]] == Requested(ids, rows)[k]
  {
    at := [];
    if rows != [] {
      var n := |rows| - 1;
      at := RequestedPositions(ids, rows[..n]);
      assert forall k :: 0 <= k < |at| ==> at[k] in at;
      if Asked(ids, rows[n].eventId) {
        RisingAppend(at, n);
        at := at + [n];
      }
    }
  }

  /** The filter keeps order, keeps all requested rows and keeps no other. */
  lemma {:induction false} RequestedMeans(ids: seq<string>, rows: seq<Row>, r: Row)
    ensures multiset(Requested(ids, rows))[r] == if Wanted(ids, r) then multiset(rows)[r] else 0
  {
    if rows != [] {
      var init, x := rows[..|rows| - 1], rows[|rows| - 1];
      RequestedMeans(ids, init, r);
      assert rows == init + [x];
    }
  }
}
