/**
 * The exchange protocol: inputs go out, answers come back, and an answer that says it has more is
 * followed by continuation ticks until its input is drained.
 *
 * The stream below is not modelled; what it answers is an argument of each call, so every statement
 * is about every worker.  The transcript of a run is what reached the stream, with the answers.
 */
module Exchanges {
  import opened Wrappers
  import opened Schemas
  import opened CacheControls
  import Base64
  import Projections

  type Bytes = seq<byte>
  datatype Batch = Batch(schema: Schema, columns: seq<Bytes>)

  /** The directives are there as soon as one `vgi.cache.` key is. */
  datatype Metadata = Metadata(status: Option<string>, parentRow: Option<Bytes>, cache: Option<CacheControl>)

  type Validators = map<string, string>

  datatype Reply = Failed | Ended | Answer(batch: Batch, metadata: Metadata)

  datatype Item =
    | Input(batch: Batch, validators: Option<Validators>, reply: Reply)
    | Tick(schema: Schema, reply: Reply)
    | Close(failed: bool)
    | Cancel(failed: bool)

  const HAVE_MORE_OUTPUT := "HAVE_MORE_OUTPUT"

  /** What is fixed when the exchange is opened; the first `keep` emitted columns were asked for. */
  datatype Opening = Opening(emitted: Schema, keep: nat, validators: Option<Validators>)

  // ------------------------------------------------------------- the answers

  predicate SaysMore(md: Metadata) {
    md.status == Some(HAVE_MORE_OUTPUT)
  }

  predicate ContinuedReplyOk(md: Metadata, more: bool, tick: bool) {
    && !(tick && md.cache.Some?)
    && !(md.cache.Some? && md.cache.value.notModified && more)
  }

  predicate Accepted(o: Opening, reply: Reply, tick: bool) {
    && reply.Answer?
    && ContinuedReplyOk(reply.metadata, SaysMore(reply.metadata), tick)
    && reply.batch.schema == o.emitted
    && Base64.ParentRows(reply.metadata.parentRow).Ok?
  }

  predicate Ending(item: Item) {
    item.Close? || item.Cancel?
  }

  predicate ItemAccepted(o: Opening, item: Item) {
    !Ending(item) && Accepted(o, item.reply, item.Tick?)
  }

  /** The answer was accepted and promises more for the same input. */
  predicate MoreAfter(o: Opening, item: Item) {
    ItemAccepted(o, item) && SaysMore(item.reply.metadata)
  }

  /** The connection cannot be used again after this. */
  predicate Breaks(o: Opening, item: Item) {
    match item
    case Input(_, _, reply) => !reply.Ended? && !Accepted(o, reply, false)
    case Tick(_, reply) => !Accepted(o, reply, true)
    case Close(failed) => failed
    case Cancel(failed) => failed
  }

  /** The requested columns come first, so trimming keeps their order. */
  function Trimmed(o: Opening, b: Batch): Batch
    requires o.keep <= |b.schema| && |b.columns| == |b.schema|
  {
    Batch(b.schema[..o.keep], b.columns[..o.keep])
  }

  /** `b` is the first `keep` columns of the answer, each under its own name, in order. */
  predicate FirstColumns(answer: Batch, keep: nat, b: Batch) {
    && |b.schema| == |b.columns| == keep && keep <= |answer.schema| && keep <= |answer.columns|
    && forall i | 0 <= i < keep :: b.schema[i] == answer.schema[i] && b.columns[i] == answer.columns[i]
  }

  lemma TrimmedIsFirst(o: Opening, b: Batch)
    requires o.keep <= |b.schema| && |b.columns| == |b.schema|
    ensures FirstColumns(b, o.keep, Trimmed(o, b))
  {
  }

  predicate WellFormed(o: Opening, reply: Reply) {
    reply.Answer? ==> |reply.batch.columns| == |reply.batch.schema|
  }

  function SchemaOf(item: Item): Schema
    requires !Ending(item)
  {
    if item.Input? then item.batch.schema else item.schema
  }

  // ---------------------------------------------------------- the transcripts

  datatype Call =
    | SendCall(input: Batch, reply: Reply)
    | ContinueCall(reply: Reply)
    | CloseCall(failed: bool)
    | CancelCall(failed: bool)

  predicate Closed(w: seq<Item>) {
    w != [] && Ending(w[|w| - 1])
  }

  /** The schema of the input whose output is pending. */
  function Pending(o: Opening, w: seq<Item>): Option<Schema> {
    if w != [] && MoreAfter(o, w[|w| - 1]) then Some(SchemaOf(w[|w| - 1])) else None
  }

  /** What a call sends, if anything. */
  function Sent(o: Opening, w: seq<Item>, call: Call): seq<Item> {
    if Closed(w) then []
    else match call
      case SendCall(b, reply) =>
        if Pending(o, w).Some? then [] else [Input(b, if w == [] then o.validators else None, reply)]
      case ContinueCall(reply) =>
        if Pending(o, w).None? then [] else [Tick(Pending(o, w).value, reply)]
      case CloseCall(failed) => [Close(failed)]
      case CancelCall(failed) => [Cancel(failed)]
  }

  /** The transcript of a run. */
  function Transcript(o: Opening, calls: seq<Call>): seq<Item> {
    if calls == [] then []
    else
      var w := Transcript(o, calls[..|calls| - 1]);
      w + Sent(o, w, calls[|calls| - 1])
  }

  /** The answer a turn hands to its caller. */
  function TurnResult(o: Opening, reply: Reply, tick: bool): Result<Option<Batch>>
    requires WellFormed(o, reply) && o.keep <= |o.emitted|
  {
    if reply.Failed? then Err("stream failed")
    else if reply.Ended? then (if tick then Err("output was truncated") else Ok(None))
    else if Accepted(o, reply, tick) then Ok(Some(Trimmed(o, reply.batch)))
    else Err("answer refused")
  }

  /**
   * If the answer has the columns that go on the wire, those requested and then those only a filter reads,
   * and the requested ones are kept, what the caller gets is the requested projection.
   */
  lemma CallerGetsProjection(o: Opening, reply: Reply, tick: bool, full: seq<Bytes>, projection: seq<i64>,
                             filters: Option<seq<i64>>)
    requires WellFormed(o, reply) && o.keep <= |o.emitted| && Accepted(o, reply, tick)
    requires Projections.Within(projection, |full|)
             && (filters.Some? ==> Projections.Within(filters.value, |full|)) && o.keep == |projection|
    requires var wire := Projections.Wire(Some(projection), filters).value;
             Projections.Within(wire, |full|) && reply.batch.columns == Projections.Project(full, wire)
    ensures var r := TurnResult(o, reply, tick);
            && r.Ok? && r.value.Some? && r.value.value.columns == Projections.Project(full, projection)
            && r.value.value.schema == o.emitted[..|projection|]
  {
    Projections.TrimGivesRequested(full, projection, filters);
  }

  function LatestRows(o: Opening, w: seq<Item>): Option<seq<i32>> {
    if w == [] then None
    else if ItemAccepted(o, w[|w| - 1]) then Base64.ParentRows(w[|w| - 1].reply.metadata.parentRow).value
    else LatestRows(o, w[..|w| - 1])
  }

  function LatestCache(o: Opening, w: seq<Item>): Option<CacheControl> {
    if w == [] then None
    else if ItemAccepted(o, w[|w| - 1]) && w[|w| - 1].reply.metadata.cache.Some? then w[|w| - 1].reply.metadata.cache
    else LatestCache(o, w[..|w| - 1])
  }

  predicate Unbroken(o: Opening, w: seq<Item>) {
    forall i | 0 <= i < |w| :: !Breaks(o, w[i])
  }

  // -------------------------------------------------------------- the client

  class Exchange {
    const opening: Opening
    ghost const startReusable: bool
    var pendingMore: Option<Schema>
    var closed: bool
    var firstInputMetadata: Option<Validators>
    var connectionReusable: bool
    var parentRows: Option<seq<i32>>
    var lastCacheControl: Option<CacheControl>
    ghost var wire: seq<Item>

    /** Every field is what the transcript says it is. */
    ghost predicate Valid()
      reads this
    {
      && opening.keep <= |opening.emitted|
      && closed == Closed(wire)
      && pendingMore == Pending(opening, wire)
      && connectionReusable == (startReusable && Unbroken(opening, wire))
      && (wire == [] ==> firstInputMetadata == opening.validators)
      && (wire != [] && !closed ==> firstInputMetadata.None?)
      && parentRows == LatestRows(opening, wire)
      && lastCacheControl == LatestCache(opening, wire)
    }

    constructor (o: Opening, reusable: bool)
      requires o.keep <= |o.emitted|
      ensures Valid() && opening == o && startReusable == reusable && wire == []
    {
      opening, startReusable := o, reusable;
      pendingMore, closed, firstInputMetadata, connectionReusable := None, false, o.validators, reusable;
      parentRows, lastCacheControl, wire := None, None, [];
    }

    method Send(input: Batch, reply: Reply) returns (r: Result<Option<Batch>>)
      requires Valid() && WellFormed(opening, reply)
      modifies this
      ensures Valid() && wire == old(wire) + Sent(opening, old(wire), SendCall(input, reply))
      ensures if old(closed) || old(pendingMore).Some? then r.Err? else r == TurnResult(opening, reply, false)
      ensures r.Err? ==> pendingMore == if old(pendingMore).Some? then old(pendingMore) else None
      ensures !old(closed) && old(pendingMore).None? ==>
                && (r == Ok(None) <==> reply.Ended?)
                && (r.Ok? && r.value.Some? <==>
                      && reply.Answer? && reply.batch.schema == opening.emitted
                      && !(reply.metadata.cache.Some? && reply.metadata.cache.value.notModified
                           && reply.metadata.status == Some("HAVE_MORE_OUTPUT"))
                      && Base64.ParentRows(reply.metadata.parentRow).Ok?)
                && connectionReusable == (old(connectionReusable) && r.Ok?)
      ensures r.Ok? && r.value.Some? ==>
                && FirstColumns(reply.batch, opening.keep, r.value.value)
                && pendingMore == (if reply.metadata.status == Some("HAVE_MORE_OUTPUT") then Some(input.schema)
                                   else None)
                && Base64.ParentRows(reply.metadata.parentRow) == Ok(parentRows)
                && lastCacheControl == (if reply.metadata.cache.Some? then reply.metadata.cache
                                        else old(lastCacheControl))
    {
      hide Base64.ParentRows, Unbroken;
      if pendingMore.Some? {
        return Err("send while the last input's output is pending");
      }
      var metadata := firstInputMetadata;
      firstInputMetadata := None;
      var more;
      UnbrokenStep(opening, wire, Input(input, metadata, reply));
      r, more := Turn(Input(input, metadata, reply));
      if more {
        pendingMore := Some(input.schema);
      }
    }

    method ContinueOutput(reply: Reply) returns (r: Result<Option<Batch>>)
      requires Valid() && WellFormed(opening, reply)
      modifies this
      ensures Valid() && wire == old(wire) + Sent(opening, old(wire), ContinueCall(reply))
      ensures if old(pendingMore).None? then r.Err? else r == TurnResult(opening, reply, true)
      ensures old(pendingMore).Some? ==>
                && (r.Ok? <==>
                      && reply.Answer? && reply.batch.schema == opening.emitted && reply.metadata.cache.None?
                      && Base64.ParentRows(reply.metadata.parentRow).Ok?)
                && connectionReusable == (old(connectionReusable) && r.Ok?)
      ensures r.Ok? ==>
                && r.value.Some? && FirstColumns(reply.batch, opening.keep, r.value.value)
                && pendingMore == (if reply.metadata.status == Some("HAVE_MORE_OUTPUT") then old(pendingMore) else None)
                && Base64.ParentRows(reply.metadata.parentRow) == Ok(parentRows)
                && lastCacheControl == old(lastCacheControl)
    {
      if pendingMore.None? {
        return Err("continue_output with no output pending");
      }
      var schema := pendingMore.value;
      var more;
      r, more := Turn(Tick(schema, reply));
      if more {
        pendingMore := Some(schema);
      }
    }

    /** Everything holds but the promise of more, which the caller records. */
    ghost predicate Turned(before: seq<Item>, item: Item)
      reads this
    {
      && wire == before + [item] && closed == Closed(wire) && pendingMore.None?
      && connectionReusable == (startReusable && Unbroken(opening, wire))
      && parentRows == LatestRows(opening, wire) && lastCacheControl == LatestCache(opening, wire)
    }

    /** One turn: send, then read and check the answer. */
    method Turn(item: Item) returns (r: Result<Option<Batch>>, more: bool)
      requires opening.keep <= |opening.emitted| && !Ending(item) && WellFormed(opening, item.reply)
      requires closed == Closed(wire) && (closed ==> pendingMore.None?)
      requires connectionReusable == (startReusable && Unbroken(opening, wire))
      requires parentRows == LatestRows(opening, wire) && lastCacheControl == LatestCache(opening, wire)
      modifies this
      ensures firstInputMetadata == old(firstInputMetadata)
      ensures old(closed) ==> r.Err? && !more && wire == old(wire) && closed && pendingMore.None?
                              && connectionReusable == old(connectionReusable) && parentRows == old(parentRows)
                                 && lastCacheControl == old(lastCacheControl)
      ensures !old(closed) ==>
                Turned(old(wire), item) && r == TurnResult(opening, item.reply, item.Tick?)
                  && more == MoreAfter(opening, item)
      ensures r.Ok? && r.value.Some? ==>
                item.reply.Answer? && FirstColumns(item.reply.batch, opening.keep, r.value.value)
    {
      hide Trimmed, FirstColumns, LatestRows, LatestCache, Unbroken;
      if closed {
        return Err("send after close"), false;
      }
      pendingMore := None;
      ghost var before := wire;
      wire := wire + [item];
      UnbrokenStep(opening, before, item);
      LatestStep(opening, before, item);
      var tick := item.Tick?;
      if item.reply.Failed? {
        connectionReusable := false;
        return Err("stream failed"), false;
      }
      if item.reply.Ended? {
        if tick {
          connectionReusable := false;
          return Err("output was truncated"), false;
        }
        return Ok(None), false;
      }
      var md := item.reply.metadata;
      more := SaysMore(md);
      var rows := Base64.ParentRows(md.parentRow);
      if !ContinuedReplyOk(md, more, tick) || item.reply.batch.schema != opening.emitted || rows.Err? {
        connectionReusable := false;
        return Err("answer refused"), false;
      }
      parentRows := rows.value;
      if md.cache.Some? {
        lastCacheControl := md.cache;
      }
      r := Ok(Some(Trimmed(opening, item.reply.batch)));
      TrimmedIsFirst(opening, item.reply.batch);
    }

    method CloseInput(fails: bool) returns (ok: bool)
      requires Valid()
      modifies this
      ensures Valid() && closed && wire == old(wire) + Sent(opening, old(wire), CloseCall(fails))
      ensures ok == (old(closed) || !fails)
    {
      if closed {
        return true;
      }
      closed := true;
      pendingMore := None;
      EndingStep(opening, wire, Close(fails));
      wire := wire + [Close(fails)];
      if fails {
        connectionReusable := false;
      }
      return !fails;
    }

    method CancelInput(fails: bool) returns (ok: bool)
      requires Valid()
      modifies this
      ensures Valid() && closed && wire == old(wire) + Sent(opening, old(wire), CancelCall(fails))
      ensures ok == (old(closed) || !fails)
    {
      if closed {
        return true;
      }
      closed := true;
      pendingMore := None;
      EndingStep(opening, wire, Cancel(fails));
      wire := wire + [Cancel(fails)];
      if fails {
        connectionReusable := false;
      }
      return !fails;
    }

    /** Going out of scope cancels an exchange nobody ended, and leaves the rest as it is. */
    method Drop(fails: bool)
      requires Valid()
      modifies this
      ensures closed && Closed(wire) && wire == old(wire) + Sent(opening, old(wire), CancelCall(fails))
      ensures connectionReusable == (startReusable && Unbroken(opening, wire))
    {
      if closed {
        return;
      }
      closed := true;
      EndingStep(opening, wire, Cancel(fails));
      wire := wire + [Cancel(fails)];
      if fails {
        connectionReusable := false;
      }
    }
  }

  lemma UnbrokenStep(o: Opening, w: seq<Item>, item: Item)
    ensures Unbroken(o, w + [item]) <==> Unbroken(o, w) && !Breaks(o, item)
  {
    assert forall i | 0 <= i < |w| :: (w + [item])[i] == w[i];
    assert (w + [item])[|w|] == item;
    if Unbroken(o, w + [item]) {
      forall i | 0 <= i < |w|
        ensures !Breaks(o, w[i])
      {
        assert !Breaks(o, (w + [item])[i]);
      }
    }
  }

  lemma LatestStep(o: Opening, w: seq<Item>, item: Item)
    ensures LatestRows(o, w + [item]) == if ItemAccepted(o, item)
            then Base64.ParentRows(item.reply.metadata.parentRow).value else LatestRows(o, w)
    ensures LatestCache(o, w + [item]) == if ItemAccepted(o, item) && item.reply.metadata.cache.Some?
            then item.reply.metadata.cache else LatestCache(o, w)
  {
    assert (w + [item])[..|w|] == w;
  }

  lemma EndingStep(o: Opening, w: seq<Item>, item: Item)
    requires Ending(item)
    ensures LatestRows(o, w + [item]) == LatestRows(o, w) && LatestCache(o, w + [item]) == LatestCache(o, w)
    ensures Pending(o, w + [item]).None? && Closed(w + [item])
    ensures Unbroken(o, w + [item]) <==> Unbroken(o, w) && !item.failed
  {
    LatestStep(o, w, item);
    UnbrokenStep(o, w, item);
  }

  // ----------------------------------------------------------- what runs keep

  /** An item may follow what was sent before it. */
  predicate Polite(o: Opening, w: seq<Item>, i: nat)
    requires i < |w|
  {
    && (i > 0 ==> !Ending(w[i - 1]))
    && match w[i]
       case Input(_, validators, _) =>
         && (i > 0 ==> !MoreAfter(o, w[i - 1]))
         && validators == if i == 0 then o.validators else None
       case Tick(schema, _) => i > 0 && MoreAfter(o, w[i - 1]) && schema == SchemaOf(w[i - 1])
       case Close(_) => true
       case Cancel(_) => true
  }

  ghost predicate AllPolite(o: Opening, w: seq<Item>) {
    forall i: nat | i < |w| :: Polite(o, w, i)
  }

  lemma PoliteStep(o: Opening, w: seq<Item>, call: Call)
    requires AllPolite(o, w)
    ensures AllPolite(o, w + Sent(o, w, call))
  {
    var v := w + Sent(o, w, call);
    forall i: nat | i < |v|
      ensures Polite(o, v, i)
    {
      if i < |w| {
        assert Polite(o, w, i);
      }
    }
  }

  /** Every run keeps the protocol, whatever the worker answers. */
  lemma {:induction false} RunIsPolite(o: Opening, calls: seq<Call>)
    ensures AllPolite(o, Transcript(o, calls))
  {
    if calls != [] {
      RunIsPolite(o, calls[..|calls| - 1]);
      PoliteStep(o, Transcript(o, calls[..|calls| - 1]), calls[|calls| - 1]);
    }
  }

  /** A tick belongs to one input: between the two are only ticks, and every answer in between said more. */
  lemma {:induction false} TickBelongsToInput(o: Opening, w: seq<Item>, i: nat) returns (j: nat)
    requires AllPolite(o, w) && i < |w| && w[i].Tick?
    ensures j < i && w[j].Input? && w[i].schema == w[j].batch.schema
    ensures forall k | j < k <= i :: w[k].Tick?
    ensures forall k | j <= k < i :: MoreAfter(o, w[k])
  {
    assert Polite(o, w, i);
    if w[i - 1].Input? {
      j := i - 1;
    } else {
      j := TickBelongsToInput(o, w, i - 1);
    }
  }

  /** Conditional validators ride the first input and no other. */
  lemma {:induction false} ValidatorsRideFirstInput(o: Opening, calls: seq<Call>, i: nat)
    requires i < |Transcript(o, calls)| && Transcript(o, calls)[i].Input?
    ensures Transcript(o, calls)[i].validators == if i == 0 then o.validators else None
  {
    RunIsPolite(o, calls);
    assert Polite(o, Transcript(o, calls), i);
  }

  lemma NothingAfterEnding(o: Opening, w: seq<Item>, i: nat)
    requires AllPolite(o, w) && 0 < i < |w|
    ensures !Ending(w[i - 1])
  {
    assert Polite(o, w, i);
  }

  /** A close or a cancel is the last thing to reach the stream, so there is at most one. */
  lemma {:induction false} EndingIsLast(o: Opening, calls: seq<Call>, i: nat)
    requires i < |Transcript(o, calls)| && Ending(Transcript(o, calls)[i])
    ensures i == |Transcript(o, calls)| - 1
  {
    RunIsPolite(o, calls);
    if i + 1 < |Transcript(o, calls)| {
      NothingAfterEnding(o, Transcript(o, calls), i + 1);
    }
  }

  /** A run that ends by dropping the exchange sends exactly one close or cancel, its last item. */
  lemma {:induction false} DroppedRunEndsOnce(o: Opening, calls: seq<Call>, failed: bool)
    ensures var w := Transcript(o, calls + [CancelCall(failed)]);
            Closed(w) && forall i | 0 <= i < |w| :: Ending(w[i]) <==> i == |w| - 1
  {
    var all := calls + [CancelCall(failed)];
    assert all[..|all| - 1] == calls;
    forall i | 0 <= i < |Transcript(o, all)| && Ending(Transcript(o, all)[i])
      ensures i == |Transcript(o, all)| - 1
    {
      EndingIsLast(o, all, i);
    }
  }

  /** A `not_modified` answer that is accepted is the only reply to its input. */
  lemma {:induction false} NotModifiedStandsAlone(o: Opening, calls: seq<Call>, i: nat)
    requires i < |Transcript(o, calls)| && ItemAccepted(o, Transcript(o, calls)[i])
    requires Transcript(o, calls)[i].reply.metadata.cache.Some?
             && Transcript(o, calls)[i].reply.metadata.cache.value.notModified
    ensures Transcript(o, calls)[i].Input?
    ensures i + 1 < |Transcript(o, calls)| ==> !Transcript(o, calls)[i + 1].Tick?
  {
    RunIsPolite(o, calls);
    if i + 1 < |Transcript(o, calls)| {
      assert Polite(o, Transcript(o, calls), i + 1);
    }
  }

  /** Cache directives are taken from the first reply to an input only. */
  lemma {:induction false} DirectivesOnFirstReply(o: Opening, w: seq<Item>)
    requires LatestCache(o, w).Some?
    ensures exists i | 0 <= i < |w| ::
              w[i].Input? && ItemAccepted(o, w[i]) && w[i].reply.metadata.cache == LatestCache(o, w)
  {
    var last := w[|w| - 1];
    if !(ItemAccepted(o, last) && last.reply.metadata.cache.Some?) {
      DirectivesOnFirstReply(o, w[..|w| - 1]);
      var i :| 0 <= i < |w| - 1 && w[..|w| - 1][i].Input? && ItemAccepted(o, w[..|w| - 1][i])
            && w[..|w| - 1][i].reply.metadata.cache == LatestCache(o, w[..|w| - 1]);
      assert w[i].Input? && ItemAccepted(o, w[i]);
    }
  }

  /** The provenance and the directives an exchange reports are those of the last accepted answer that has any. */
  lemma {:induction false} LatestIsLast(o: Opening, w: seq<Item>, i: nat)
    requires i < |w| && ItemAccepted(o, w[i]) && forall k | i < k < |w| :: !ItemAccepted(o, w[k])
    ensures Base64.ParentRows(w[i].reply.metadata.parentRow) == Ok(LatestRows(o, w))
    ensures w[i].reply.metadata.cache.Some? ==> LatestCache(o, w) == w[i].reply.metadata.cache
    ensures w[i].reply.metadata.cache.None? ==> LatestCache(o, w) == LatestCache(o, w[..i])
  {
    if i < |w| - 1 {
      LatestIsLast(o, w[..|w| - 1], i);
      assert w[..|w| - 1][..i] == w[..i];
    }
  }

  lemma {:induction false} TranscriptGrows(o: Opening, calls: seq<Call>, more: seq<Call>)
    ensures Transcript(o, calls) <= Transcript(o, calls + more)
  {
    if more == [] {
      assert calls + more == calls;
    } else {
      TranscriptGrows(o, calls, more[..|more| - 1]);
      assert (calls + more)[..|calls + more| - 1] == calls + more[..|more| - 1];
    }
  }

  /** Once something broke the connection, nothing that follows mends it. */
  lemma {:induction false} BrokenStaysBroken(o: Opening, calls: seq<Call>, more: seq<Call>)
    requires !Unbroken(o, Transcript(o, calls))
    ensures !Unbroken(o, Transcript(o, calls + more))
  {
    TranscriptGrows(o, calls, more);
    var i :| 0 <= i < |Transcript(o, calls)| && Breaks(o, Transcript(o, calls)[i]);
    assert Breaks(o, Transcript(o, calls + more)[i]);
  }
}
