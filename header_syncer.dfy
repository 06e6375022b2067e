/**
 * `HeaderSyncer.sync()`: builds the locator of one or two header hashes sent to the peer
 * to ask for the next headers, from the non-archived blocks of the block table.
 */
module HeaderSync {
  import opened Common

  /** A row of the block table. */
  datatype Block = Block(height: int, headerHash: Hash, archived: bool)

  datatype SyncError = NoCheckpointBlock

  datatype LocatorResult = Locator(hashes: seq<Hash>) | Failed(error: SyncError)

  /** How far below the tip the second locator hash is taken. */
  const HashCheckpointThreshold: int := 100

  /** An index into `blocks[1..]`, moved to the same row of `blocks`; `None` stays `None`. */
  function Shift(r: Option<nat>): Option<nat> {
    match r
    case None => None
    case Some(k) => Some(k + 1)
  }

  /**
   * The query for the checkpoint: the non-archived blocks sorted by height, first one.
   * Among blocks of equal height the earliest row is taken.
   */
  function CheckpointIndex(blocks: seq<Block>): (r: Option<nat>)
    ensures r.None? <==> forall i :: 0 <= i < |blocks| ==> blocks[i].archived
    ensures r.Some? ==> r.value < |blocks| && !blocks[r.value].archived
    ensures r.Some? ==> forall i :: 0 <= i < |blocks| && !blocks[i].archived ==> blocks[r.value].height <= blocks[i].height
  {
    if |blocks| == 0 then None
    else
      var rest := CheckpointIndex(blocks[1..]);
      if blocks[0].archived then Shift(rest)
      else match rest
        case None => Some(0)
        case Some(k) => if blocks[k + 1].height < blocks[0].height then Some(k + 1) else Some(0)
  }

  /**
   * The query for the tip: the non-archived blocks higher than `floor`, sorted by height,
   * last one. Among blocks of equal height the latest row is taken.
   */
  function HighestIndexAbove(blocks: seq<Block>, floor: int): (r: Option<nat>)
    ensures r.None? <==> forall i :: 0 <= i < |blocks| ==> blocks[i].archived || blocks[i].height <= floor
    ensures r.Some? ==> r.value < |blocks| && !blocks[r.value].archived && blocks[r.value].height > floor
    ensures r.Some? ==> forall i :: 0 <= i < |blocks| && !blocks[i].archived && blocks[i].height > floor ==>
      blocks[i].height <= blocks[r.value].height
  {
    if |blocks| == 0 then None
    else
      var rest := HighestIndexAbove(blocks[1..], floor);
      if blocks[0].archived || blocks[0].height <= floor then Shift(rest)
      else match rest
        case None => Some(0)
        case Some(k) => if blocks[k + 1].height < blocks[0].height then Some(0) else Some(k + 1)
  }

  /** The query for the look-back block: a non-archived block of exactly this height, first one. */
  function IndexAtHeight(blocks: seq<Block>, height: int): (r: Option<nat>)
    ensures r.None? <==> forall i :: 0 <= i < |blocks| ==> blocks[i].archived || blocks[i].height != height
    ensures r.Some? ==> r.value < |blocks| && !blocks[r.value].archived && blocks[r.value].height == height
  {
    if |blocks| == 0 then None
    else if !blocks[0].archived && blocks[0].height == height then Some(0)
    else Shift(IndexAtHeight(blocks[1..], height))
  }

  /**
   * The locator `sync()` sends: the tip's hash, then the look-back block's hash when the tip
   * is at least `HashCheckpointThreshold` above the checkpoint and that block is known, and
   * the checkpoint's hash whenever fewer than two hashes were collected.
   */
  function LocatorOf(blocks: seq<Block>): (r: LocatorResult)
    ensures r.Failed? <==> forall i :: 0 <= i < |blocks| ==> blocks[i].archived
    ensures r.Locator? ==> 1 <= |r.hashes| <= 2
    ensures r.Failed? ==> r.error == NoCheckpointBlock
  {
    match CheckpointIndex(blocks)
    case None => Failed(NoCheckpointBlock)
    case Some(c) => Locator(HashesAbove(blocks, c))
  }

  /** The hashes sent for checkpoint `c`: the checkpoint alone, or the tip and a second hash. */
  function HashesAbove(blocks: seq<Block>, c: nat): (r: seq<Hash>)
    requires c < |blocks|
    ensures 1 <= |r| <= 2
  {
    match HighestIndexAbove(blocks, blocks[c].height)
    case None => [blocks[c].headerHash]
    case Some(t) => [blocks[t].headerHash, SecondHash(blocks, c, t)]
  }

  /** The hash sent after tip `t`: the look-back block's when it applies, else checkpoint `c`'s. */
  function SecondHash(blocks: seq<Block>, c: nat, t: nat): Hash
    requires c < |blocks| && t < |blocks|
  {
    var back := IndexAtHeight(blocks, blocks[t].height - HashCheckpointThreshold + 1);
    if blocks[t].height - blocks[c].height >= HashCheckpointThreshold && back.Some?
    then blocks[back.value].headerHash
    else blocks[c].headerHash
  }

  /**
   * The hashes of a locator: the checkpoint alone when no block is above it; otherwise the tip,
   * then the block `HashCheckpointThreshold - 1` below the tip when the tip is at least
   * `HashCheckpointThreshold` above the checkpoint and that block is known, else the checkpoint.
   */
  lemma LocatorOfHashes(blocks: seq<Block>)
    ensures var r := LocatorOf(blocks);
      r.Locator? ==>
      var cp := blocks[CheckpointIndex(blocks).value];
      match HighestIndexAbove(blocks, cp.height)
      case None => r.hashes == [cp.headerHash]
      case Some(t) =>
        var tip := blocks[t];
        var back := IndexAtHeight(blocks, tip.height - HashCheckpointThreshold + 1);
        && |r.hashes| == 2
        && r.hashes[0] == tip.headerHash
        && (tip.height - cp.height >= HashCheckpointThreshold && back.Some? ==>
              r.hashes[1] == blocks[back.value].headerHash)
        && (tip.height - cp.height < HashCheckpointThreshold || back.None? ==>
              r.hashes[1] == cp.headerHash)
  {
    var checkpoint := CheckpointIndex(blocks);
    if checkpoint.Some? {
      var hashes := HashesAbove(blocks, checkpoint.value);
      assert LocatorOf(blocks) == Locator(hashes);
      var last := HighestIndexAbove(blocks, blocks[checkpoint.value].height);
      if last.Some? {
        assert hashes == [blocks[last.value].headerHash, SecondHash(blocks, checkpoint.value, last.value)];
      }
    }
  }

  /** A non-archived block no other non-archived block is above. */
  predicate Highest(blocks: seq<Block>, k: int) {
    && 0 <= k < |blocks|
    && !blocks[k].archived
    && forall i :: 0 <= i < |blocks| && !blocks[i].archived ==> blocks[i].height <= blocks[k].height
  }

  /** The first hash of a locator is that of a highest non-archived block. */
  lemma LocatorStartsAtHighest(blocks: seq<Block>)
    ensures LocatorOf(blocks).Locator? ==>
      exists k :: Highest(blocks, k) && blocks[k].headerHash == LocatorOf(blocks).hashes[0]
  {
    var r := LocatorOf(blocks);
    if r.Locator? {
      var c := CheckpointIndex(blocks).value;
      var k := match HighestIndexAbove(blocks, blocks[c].height)
        case None => c
        case Some(t) => t;
      assert blocks[k].headerHash == r.hashes[0];
      assert Highest(blocks, k);
    }
  }

  /** `sync()` builds the locator step by step, appending hash after hash. */
  method BuildLocator(blocks: seq<Block>) returns (r: LocatorResult)
    ensures r == LocatorOf(blocks)
  {
    var checkpoint := CheckpointIndex(blocks);
    if checkpoint.None? {
      return Failed(NoCheckpointBlock);
    }
    var checkpointBlock := blocks[checkpoint.value];
    var hashes: seq<Hash> := [];
    var last := HighestIndexAbove(blocks, checkpointBlock.height);
    if last.Some? {
      var lastBlock := blocks[last.value];
      hashes := hashes + [lastBlock.headerHash];
      if lastBlock.height - checkpointBlock.height >= HashCheckpointThreshold {
        var previous := IndexAtHeight(blocks, lastBlock.height - HashCheckpointThreshold + 1);
        if previous.Some? {
          hashes := hashes + [blocks[previous.value].headerHash];
        }
      }
      assert |hashes| == 2 ==> hashes[1] == SecondHash(blocks, checkpoint.value, last.value);
      assert HashesAbove(blocks, checkpoint.value) == [lastBlock.headerHash, SecondHash(blocks, checkpoint.value, last.value)];
    } else {
      assert HashesAbove(blocks, checkpoint.value) == [checkpointBlock.headerHash];
    }
    if |hashes| < 2 {
      hashes := hashes + [checkpointBlock.headerHash];
    }
    assert hashes == HashesAbove(blocks, checkpoint.value);
    r := Locator(hashes);
  }

  /** The peer manager, as far as header sync sees it: the header requests it was asked to send. */
  class PeerManager {
    var requestedHeaders: seq<seq<Hash>>

    constructor ()
      ensures requestedHeaders == []
    {
      requestedHeaders := [];
    }

    /** `requestHeaders(headerHashes:)`: the request is recorded; the network is not modelled. */
    method RequestHeaders(headerHashes: seq<Hash>)
      modifies this
      ensures requestedHeaders == old(requestedHeaders) + [headerHashes]
    {
      requestedHeaders := requestedHeaders + [headerHashes];
    }
  }

  class HeaderSyncer {
    const peerManager: PeerManager

    constructor (peerManager: PeerManager)
      ensures this.peerManager == peerManager
    {
      this.peerManager := peerManager;
    }

    /**
     * `sync()`: throws `noCheckpointBlock` without asking for anything, or asks the peer
     * manager once for the headers after the locator.
     */
    method Sync(blocks: seq<Block>) returns (r: Option<SyncError>)
      modifies peerManager
      ensures r.Some? <==> forall i :: 0 <= i < |blocks| ==> blocks[i].archived
      ensures r.Some? ==> peerManager.requestedHeaders == old(peerManager.requestedHeaders)
      ensures r.Some? ==> r == Some(LocatorOf(blocks).error)
      ensures r.None? ==> peerManager.requestedHeaders == old(peerManager.requestedHeaders) + [LocatorOf(blocks).hashes]
    {
      var locator := BuildLocator(blocks);
      match locator
      case Failed(e) =>
        r := Some(e);
      case Locator(hashes) =>
        peerManager.RequestHeaders(hashes);
        r := None;
    }
  }

  /** Checkpoint 100 and tip 250: the tip and the block at 151 are sent. */
  method WideLocatorExample() {
    var checkpoint, lookBack, tip := Block(100, [100], false), Block(151, [151], false), Block(250, [250], false);
    var blocks := [checkpoint, lookBack, tip];
    assert blocks[1..] == [lookBack, tip] && blocks[1..][1..] == [tip];
    assert blocks[0] == checkpoint && blocks[1] == lookBack && blocks[2] == tip;
    assert CheckpointIndex(blocks) == Some(0);
    assert HighestIndexAbove(blocks, 100) == Some(2);
    assert IndexAtHeight(blocks, 151) == Some(1);
    var r := BuildLocator(blocks);
    assert r == Locator([[250], [151]]);
  }

  /** Checkpoint 100 and tip 150: too close for a look-back, so the checkpoint is sent second. */
  method NarrowLocatorExample() {
    var blocks := [Block(100, [100], false), Block(150, [150], false)];
    assert CheckpointIndex(blocks) == Some(0);
    assert HighestIndexAbove(blocks, 100) == Some(1);
    var r := BuildLocator(blocks);
    assert r == Locator([[150], [100]]);
  }

  /** Checkpoint 100 and tip 200 with no block at 101: the checkpoint is sent second. */
  method MissingLookBackExample() {
    var blocks := [Block(200, [200], false), Block(100, [100], false)];
    assert CheckpointIndex(blocks) == Some(1);
    assert HighestIndexAbove(blocks, 100) == Some(0);
    assert IndexAtHeight(blocks, 101) == None;
    var r := BuildLocator(blocks);
    assert r == Locator([[200], [100]]);
  }

  /** Archived blocks are not candidates: only the checkpoint remains, and an empty table fails. */
  method ArchivedBlocksExample() {
    var blocks := [Block(100, [100], false), Block(250, [250], true)];
    assert CheckpointIndex(blocks) == Some(0);
    assert HighestIndexAbove(blocks, 100) == None;
    var r := BuildLocator(blocks);
    assert r == Locator([[100]]);
    var none := BuildLocator([Block(100, [100], true)]);
    assert none == Failed(NoCheckpointBlock);
  }
}
