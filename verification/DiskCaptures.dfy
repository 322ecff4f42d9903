/** A capture in progress: one Arrow file per partition, in a temporary directory of its own. */
module DiskCaptures {
  import opened Schemas
  import opened Sums
  import opened DiskModel
  import opened DiskProtocol

  datatype Push = Accepted | SchemaDiffers | NoSuchPartition | TooLarge

  lemma RowsInAppend(batches: seq<Batch>, b: Batch)
    ensures RowsIn(batches + [b]) == RowsIn(batches) + |b.rows|
  {
    assert (batches + [b])[..|batches|] == batches;
  }

  /** A pushed batch adds its rows to the total, whichever partition it goes to. */
  lemma RowsAfterPush(content: Content, i: nat, b: Batch)
    requires i < |content.parts|
    ensures SumSeq(RowCounts(Pushed(content, i, b).parts)) == SumSeq(RowCounts(content.parts)) + |b.rows|
  {
    var counts := RowCounts(content.parts);
    CountsAfterPush(content, i, b);
    SumSeqUpdate(counts, i, counts[i] + |b.rows|);
  }

  lemma CountsAfterPush(content: Content, i: nat, b: Batch)
    requires i < |content.parts|
    ensures RowCounts(Pushed(content, i, b).parts)
            == RowCounts(content.parts)[i := RowCounts(content.parts)[i] + |b.rows|]
  {
    RowsInAppend(content.parts[i], b);
    var parts := Pushed(content, i, b).parts;
    forall k | 0 <= k < |parts|
      ensures RowCounts(parts)[k] == if k == i then RowsIn(content.parts[i]) + |b.rows| else RowsIn(content.parts[k])
    {
    }
  }

  lemma PushedSchemas(content: Content, i: nat, b: Batch)
    requires i < |content.parts| && b.schema == content.schema && OneSchema(content)
    ensures OneSchema(Pushed(content, i, b)) && |Pushed(content, i, b).parts| == |content.parts|
  {
  }

  /** Every batch has the declared schema. */
  predicate OneSchema(content: Content) {
    forall i, k | 0 <= i < |content.parts| && 0 <= k < |content.parts[i]| ::
      content.parts[i][k].schema == content.schema
  }

  lemma NoRowsYet(schema: Schema, partitions: nat)
    ensures SumSeq(RowCounts(EmptyContent(schema, partitions).parts)) == 0
  {
    var counts := RowCounts(EmptyContent(schema, partitions).parts);
    if partitions > 0 {
      NoRowsYet(schema, partitions - 1);
      assert counts[..partitions - 1] == RowCounts(EmptyContent(schema, partitions - 1).parts);
    }
  }

  class DiskCapture {
    const root: nat
    const generation: nat
    const codec: Codec
    const maxBytes: nat
    var content: Content
    var rows: nat
    var limitExceeded: bool

    /** The row counter is the number of rows captured, and every batch has the declared schema. */
    ghost predicate Valid()
      reads this
    {
      && |content.parts| > 0
      && rows == SumSeq(RowCounts(content.parts))
      && OneSchema(content)
    }

    lemma HasPartitions()
      requires Valid()
      ensures |content.parts| > 0
    {
    }

    constructor (root: nat, generation: nat, schema: Schema, partitions: nat, codec: Codec, maxBytes: nat)
      requires partitions > 0
      ensures Valid() && content == EmptyContent(schema, partitions) && !limitExceeded && rows == 0
      ensures content.schema == schema && |content.parts| == partitions && forall i | 0 <= i < partitions ::
                content.parts[i] == []
      ensures this.root == root && this.generation == generation && this.codec == codec && this.maxBytes == maxBytes
    {
      this.root, this.generation, this.codec, this.maxBytes := root, generation, codec, maxBytes;
      content, rows, limitExceeded := EmptyContent(schema, partitions), 0, false;
      NoRowsYet(schema, partitions);
    }

    /** `written` is what all files of the capture occupy after the write. */
    method PushBatch(partition: nat, batch: Batch, written: nat) returns (r: Push)
      requires Valid()
      modifies this
      ensures Valid()
      ensures r.SchemaDiffers? <==> batch.schema != old(content.schema)
      ensures r.NoSuchPartition? <==> batch.schema == old(content.schema) && partition >= |old(content.parts)|
      ensures r.SchemaDiffers? || r.NoSuchPartition? ==> content == old(content) && limitExceeded == old(limitExceeded)
      ensures r.Accepted? || r.TooLarge? ==>
                && partition < |old(content.parts)| && content == Pushed(old(content), partition, batch)
                && content.schema == old(content.schema)
                && content.parts == old(content.parts)[partition := old(content.parts)[partition] + [batch]]
                && (r.TooLarge? <==> written > maxBytes)
                && limitExceeded == (old(limitExceeded) || r.TooLarge?)
    {
      if batch.schema != content.schema {
        return SchemaDiffers;
      }
      if partition >= |content.parts| {
        return NoSuchPartition;
      }
      hide OneSchema, Pushed, RowCounts;
      RowsAfterPush(content, partition, batch);
      PushedSchemas(content, partition, batch);
      content := Pushed(content, partition, batch);
      rows := rows + |batch.rows|;
      if written > maxBytes {
        limitExceeded := true;
        return TooLarge;
      }
      return Accepted;
    }

    /** Closes every file; `lens` are their lengths. */
    method FinishParts(lens: seq<nat>) returns (parts: seq<PartRecord>)
      requires Valid() && |lens| == |content.parts|
      ensures forall key :: parts == ManifestOf(key, content, codec, lens).parts
    {
      parts := [];
      for i := 0 to |lens|
        invariant |parts| == i
        invariant forall k | 0 <= k < i :: parts[k] == PartRecordOf(content, lens, k)
      {
        var partRows := 0;
        for k := 0 to |content.parts[i]|
          invariant partRows == RowsIn(content.parts[i][..k])
        {
          RowsInAppend(content.parts[i][..k], content.parts[i][k]);
          assert content.parts[i][..k] + [content.parts[i][k]] == content.parts[i][..k + 1];
          partRows := partRows + |content.parts[i][k].rows|;
        }
        assert content.parts[i][..|content.parts[i]|] == content.parts[i];
        var sha := Sha256(PartOf(content, lens, i));
        parts := parts + [PartRecord(PartName(i), lens[i], partRows, |content.parts[i]|, sha)];
      }
    }
  }
}
