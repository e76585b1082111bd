/**
  What `solr_index` sends to Sunspot: the collection is read page by page
  at offsets 0, 5000, 10000, ... up to and including its count, each page
  is indexed as one batch, and one commit follows the last batch.
 */
module Reindex {
  import opened Documents
  import opened SearchIndex

  /** The page size `solr_index` always uses. */
  const BatchSize := 5000

  function Min(a: int, b: int): int {
    if a <= b then a else b
  }

  /** `limit(5000).skip(offset)`: the documents at positions offset up to offset + 5000. */
  function Page(coll: seq<Record>, offset: nat): (p: seq<Record>)
    ensures |p| <= BatchSize
  {
    if offset >= |coll| then [] else coll[offset..Min(offset + BatchSize, |coll|)]
  }

  /** The pages read from `offset` on, one per offset of `offset.step(count, 5000)`. */
  function BatchesFrom(coll: seq<Record>, offset: nat): (batches: seq<seq<Record>>)
    decreases |coll| - offset
  {
    if offset > |coll| then []
    else [Page(coll, offset)] + BatchesFrom(coll, offset + BatchSize)
  }

  /**
    The batches `solr_index` passes to `Sunspot.index`, in call order:
    `0.step(count, 5000)` visits count / 5000 + 1 offsets, and the batches
    joined are the collection in skip/limit order, nothing repeated and
    nothing skipped.
   */
  function Batches(coll: seq<Record>): (batches: seq<seq<Record>>)
    ensures |batches| == |coll| / BatchSize + 1
    ensures Flatten(batches) == coll
  {
    FlattenFrom(coll, 0);
    BatchCountFrom(coll, 0);
    assert coll[0..] == coll;
    BatchesFrom(coll, 0)
  }

  lemma {:induction false} BatchCountFrom(coll: seq<Record>, offset: nat)
    requires offset <= |coll|
    ensures |BatchesFrom(coll, offset)| == (|coll| - offset) / BatchSize + 1
    decreases |coll| - offset
  {
    if offset + BatchSize <= |coll| { BatchCountFrom(coll, offset + BatchSize); }
  }

  /** The batches laid end to end. */
  function Flatten(batches: seq<seq<Record>>): seq<Record> {
    if batches == [] then [] else batches[0] + Flatten(batches[1..])
  }

  /** One `Sunspot.index` call per batch. */
  function IndexCalls(batches: seq<seq<Record>>): (calls: seq<Call>)
  {
    seq(|batches|, i requires 0 <= i < |batches| => Index(batches[i]))
  }

  /** The whole log of one `solr_index` run: one index call per batch, in order, then the only commit. */
  function ReindexCalls(coll: seq<Record>): (calls: seq<Call>)
    ensures |calls| == |coll| / BatchSize + 2
    ensures forall i :: 0 <= i < |calls| ==> (calls[i].Commit? <==> i == |calls| - 1)
    ensures forall i :: 0 <= i < |calls| - 1 ==> calls[i] == Index(Batches(coll)[i])
  {
    IndexCalls(Batches(coll)) + [Commit]
  }

  /** One more offset of the run: its page is the next batch, and the log gains its index call. */
  lemma NextBatch(coll: seq<Record>, offset: nat, sent: seq<seq<Record>>, before: seq<Call>, log: seq<Call>)
    requires offset <= |coll| && sent + BatchesFrom(coll, offset) == BatchesFrom(coll, 0)
    requires log == before + IndexCalls(sent) + [Index(Page(coll, offset))]
    ensures (sent + [Page(coll, offset)]) + BatchesFrom(coll, offset + BatchSize) == BatchesFrom(coll, 0)
    ensures log == before + IndexCalls(sent + [Page(coll, offset)])
  {
    assert BatchesFrom(coll, offset) == [Page(coll, offset)] + BatchesFrom(coll, offset + BatchSize);
    assert IndexCalls(sent + [Page(coll, offset)]) == IndexCalls(sent) + [Index(Page(coll, offset))];
  }

  /** Once the offsets are past the count, the batches sent are all of them and the log ends with the commit. */
  lemma LastBatchSent(coll: seq<Record>, offset: nat, sent: seq<seq<Record>>)
    requires offset > |coll| && sent + BatchesFrom(coll, offset) == BatchesFrom(coll, 0)
    ensures IndexCalls(sent) + [Commit] == ReindexCalls(coll)
  {
    assert sent == Batches(coll);
  }

  /** The size of each batch. */
  function Sizes(batches: seq<seq<Record>>): (sizes: seq<nat>)
    ensures |sizes| == |batches|
  {
    seq(|batches|, i requires 0 <= i < |batches| => |batches[i]|)
  }

  lemma {:induction false} BatchSizeFrom(coll: seq<Record>, offset: nat, i: nat)
    requires i < |BatchesFrom(coll, offset)|
    ensures offset + i * BatchSize <= |coll|
    ensures |BatchesFrom(coll, offset)[i]| == Min(BatchSize, |coll| - (offset + i * BatchSize))
    decreases i
  {
    if i > 0 {
      BatchSizeFrom(coll, offset + BatchSize, i - 1);
    }
  }

  /** Batch i holds min(5000, count - 5000 * i) documents: full batches, then the remainder, never more than 5000. */
  lemma BatchSizes(coll: seq<Record>)
    ensures forall i :: 0 <= i < |Batches(coll)| ==>
      i * BatchSize <= |coll| && |Batches(coll)[i]| == Min(BatchSize, |coll| - i * BatchSize)
    ensures forall b :: b in Batches(coll) ==> |b| <= BatchSize
  {
    forall i | 0 <= i < |Batches(coll)|
      ensures i * BatchSize <= |coll| && |Batches(coll)[i]| == Min(BatchSize, |coll| - i * BatchSize)
    {
      BatchSizeFrom(coll, 0, i);
    }
  }

  /** The last batch is empty exactly when the count is a multiple of 5000, zero included. */
  lemma LastBatchEmpty(coll: seq<Record>)
    ensures Batches(coll)[|Batches(coll)| - 1] == [] <==> |coll| % BatchSize == 0
  {
    BatchSizes(coll);
  }

  /** An empty collection is indexed as one empty batch. */
  lemma EmptyCollection()
    ensures Batches([]) == [[]]
  {
    assert BatchesFrom([], BatchSize) == [];
  }

  /** A collection of 12000 documents is indexed in batches of 5000, 5000 and 2000. */
  lemma TwelveThousand(coll: seq<Record>)
    requires |coll| == 12000
    ensures Sizes(Batches(coll)) == [5000, 5000, 2000]
  {
    BatchSizes(coll);
  }

  lemma {:induction false} FlattenFrom(coll: seq<Record>, offset: nat)
    requires offset <= |coll|
    ensures Flatten(BatchesFrom(coll, offset)) == coll[offset..]
    decreases |coll| - offset
  {
    var bs := BatchesFrom(coll, offset);
    assert bs[1..] == BatchesFrom(coll, offset + BatchSize);
    if offset + BatchSize <= |coll| {
      FlattenFrom(coll, offset + BatchSize);
      assert coll[offset..] == coll[offset..offset + BatchSize] + coll[offset + BatchSize..];
    } else {
      assert Flatten(bs[1..]) == [];
    }
  }

  lemma ReplayOne(s: SolrState, c: Call)
    ensures Replay(s, [c]) == Apply(s, c)
  {
    assert [c][..0] == [];
  }

  lemma UnionAssociative<K, V>(x: map<K, V>, y: map<K, V>, z: map<K, V>)
    ensures x + y + z == x + (y + z)
  {
  }

  lemma {:induction false} ReplayIndexCalls(s: SolrState, batches: seq<seq<Record>>)
    ensures Replay(s, IndexCalls(batches)) == s.(staged := s.staged + Keyed(Flatten(batches)))
    decreases batches
  {
    if batches == [] {
      assert IndexCalls(batches) == [];
    } else {
      var first, rest := batches[0], batches[1..];
      assert IndexCalls(batches) == [Index(first)] + IndexCalls(rest);
      ReplayAppend(s, [Index(first)], IndexCalls(rest));
      ReplayOne(s, Index(first));
      var s1 := Apply(s, Index(first));
      assert s1 == s.(staged := s.staged + Keyed(first));
      ReplayIndexCalls(s1, rest);
      assert Replay(s, IndexCalls(batches)) == s1.(staged := s1.staged + Keyed(Flatten(rest)));
      assert Flatten(batches) == first + Flatten(rest);
      KeyedAppend(first, Flatten(rest));
      UnionAssociative(s.staged, Keyed(first), Keyed(Flatten(rest)));
      assert s1.staged + Keyed(Flatten(rest)) == s.staged + Keyed(Flatten(batches));
    }
  }

  /** While the batches are sent, searches see the index as it was before the run. */
  lemma StagedUntilCommit(s: SolrState, coll: seq<Record>, j: nat)
    requires j < |ReindexCalls(coll)|
    ensures Replay(s, ReindexCalls(coll)[..j]).visible == s.visible
  {
    var bs := Batches(coll);
    assert ReindexCalls(coll)[..j] == IndexCalls(bs[..j]);
    ReplayIndexCalls(s, bs[..j]);
  }

  /** After the run, searches see every document of the collection added to what was staged before. */
  lemma ReindexEffect(s: SolrState, coll: seq<Record>)
    ensures Replay(s, ReindexCalls(coll)).staged == s.staged + Keyed(coll)
    ensures Replay(s, ReindexCalls(coll)).visible == s.staged + Keyed(coll)
  {
    var bs := Batches(coll);
    assert ReindexCalls(coll)[..|ReindexCalls(coll)| - 1] == IndexCalls(bs);
    ReplayIndexCalls(s, bs);
  }

  /** With MongoDB's unique ids, after the run each document is visible under its own key. */
  lemma ReindexIndexesEveryDocument(s: SolrState, coll: seq<Record>, r: Record)
    requires UniqueIds(coll) && r in coll
    ensures Key(r) in Replay(s, ReindexCalls(coll)).visible
    ensures Replay(s, ReindexCalls(coll)).visible[Key(r)] == r
  {
    ReindexEffect(s, coll);
    KeyedUnique(coll, r);
  }
}
