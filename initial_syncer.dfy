/**
 * `InitialSyncer`: discovers the wallet's accounts one after another. For each account it
 * asks block discovery about the external chain and then the internal chain, registers the
 * keys found, stores the blocks found, and moves on to the next account until an account
 * with no blocks at all is met.
 */
module InitialSync {
  import opened Common

  /** A key the block discovery found activity for. */
  datatype PublicKey = PublicKey(account: nat, external: bool, index: nat, keyHash: Hash)

  /** A block that touches the wallet; two of them are the same block when their header hashes agree. */
  datatype BlockHash = BlockHash(headerHash: Hash, height: int, sequence: int)

  /** The cause of a failed discovery, as the collaborator reports it. */
  datatype DiscoveryError = DiscoveryError(code: int)

  /** What `discoverBlockHashes(account:external:)` (or the combination of two of them) yields. */
  datatype Discovery =
    | Discovered(keys: seq<PublicKey>, blockHashes: seq<BlockHash>)
    | DiscoveryFailed(error: DiscoveryError)

  // ---------------------------------------------------------------------------------------
  // Combining the two chains of one account

  function Hashes(s: seq<BlockHash>): set<Hash> {
    set x | x in s :: x.headerHash
  }

  /** No header hash occurs twice. */
  predicate DistinctHashes(s: seq<BlockHash>) {
    forall i, j :: 0 <= i < j < |s| ==> s[i].headerHash != s[j].headerHash
  }

  /** Heights never decrease along the sequence. */
  predicate SortedByHeight(s: seq<BlockHash>) {
    forall i, j :: 0 <= i < j < |s| ==> s[i].height <= s[j].height
  }

  /** `.unique`: the first block of each header hash, in their original order. */
  function Unique(s: seq<BlockHash>): (r: seq<BlockHash>)
    ensures |r| <= |s|
    ensures s != [] ==> r != [] && r[0] == s[0]
  {
    if s == [] then []
    else
      var r := Unique(s[..|s| - 1]);
      if s[|s| - 1].headerHash in Hashes(r) then r else r + [s[|s| - 1]]
  }

  lemma {:induction false} UniqueKeepsOnePerHash(s: seq<BlockHash>)
    ensures forall x :: x in Unique(s) ==> x in s
    ensures Hashes(Unique(s)) == Hashes(s)
    ensures DistinctHashes(Unique(s))
  {
    if s != [] {
      var init, last := s[..|s| - 1], s[|s| - 1];
      assert s == init + [last];
      UniqueKeepsOnePerHash(init);
      var r := Unique(init);
      assert Hashes(s) == Hashes(init) + {last.headerHash};
      if last.headerHash !in Hashes(r) {
        assert Hashes(r + [last]) == Hashes(r) + {last.headerHash};
        forall i | 0 <= i < |r| ensures r[i].headerHash != last.headerHash {
          assert r[i] in r;
        }
      }
    }
  }

  /** Puts `b` before the first block that is not lower than it. */
  function InsertByHeight(b: BlockHash, s: seq<BlockHash>): (r: seq<BlockHash>)
    ensures |r| == |s| + 1
  {
    if s == [] || b.height <= s[0].height then [b] + s
    else [s[0]] + InsertByHeight(b, s[1..])
  }

  lemma {:induction false} InsertByHeightPermutes(b: BlockHash, s: seq<BlockHash>)
    ensures multiset(InsertByHeight(b, s)) == multiset(s) + multiset{b}
    ensures forall x :: x in InsertByHeight(b, s) ==> x == b || x in s
  {
    if !(s == [] || b.height <= s[0].height) {
      InsertByHeightPermutes(b, s[1..]);
      assert s == [s[0]] + s[1..];
    }
    forall x | x in InsertByHeight(b, s) ensures x == b || x in s {
      assert x in multiset(InsertByHeight(b, s));
    }
  }

  lemma {:induction false} InsertByHeightSorted(b: BlockHash, s: seq<BlockHash>)
    requires SortedByHeight(s)
    ensures SortedByHeight(InsertByHeight(b, s))
  {
    if !(s == [] || b.height <= s[0].height) {
      var rest := InsertByHeight(b, s[1..]);
      InsertByHeightSorted(b, s[1..]);
      InsertByHeightPermutes(b, s[1..]);
      forall j | 0 <= j < |rest| ensures s[0].height <= rest[j].height {
        assert rest[j] in rest;
        if rest[j] != b {
          var k :| 0 <= k < |s[1..]| && s[1..][k] == rest[j];
          assert s[k + 1] == rest[j];
        }
      }
    }
  }

  lemma {:induction false} InsertByHeightDistinct(b: BlockHash, s: seq<BlockHash>)
    requires DistinctHashes(s) && b.headerHash !in Hashes(s)
    ensures DistinctHashes(InsertByHeight(b, s))
  {
    if s == [] || b.height <= s[0].height {
      forall j | 0 <= j < |s| ensures s[j].headerHash != b.headerHash {
        assert s[j] in s;
      }
    } else {
      var rest := InsertByHeight(b, s[1..]);
      assert Hashes(s[1..]) <= Hashes(s) by {
        forall x | x in s[1..] ensures x in s { }
      }
      InsertByHeightDistinct(b, s[1..]);
      InsertByHeightPermutes(b, s[1..]);
      assert s[0] in s;
      forall j | 0 <= j < |rest| ensures rest[j].headerHash != s[0].headerHash {
        assert rest[j] in rest;
        if rest[j] != b {
          var k :| 0 <= k < |s[1..]| && s[1..][k] == rest[j];
          assert s[k + 1] == rest[j];
        }
      }
    }
  }

  /** `.sorted { a, b in a.height < b.height }`, as a stable insertion sort. */
  function SortByHeight(s: seq<BlockHash>): (r: seq<BlockHash>)
    ensures |r| == |s|
  {
    if s == [] then [] else InsertByHeight(s[0], SortByHeight(s[1..]))
  }

  lemma {:induction false} SortByHeightPermutes(s: seq<BlockHash>)
    ensures multiset(SortByHeight(s)) == multiset(s)
    ensures SortedByHeight(SortByHeight(s))
  {
    if s != [] {
      var rest := SortByHeight(s[1..]);
      SortByHeightPermutes(s[1..]);
      InsertByHeightPermutes(s[0], rest);
      InsertByHeightSorted(s[0], rest);
      assert s == [s[0]] + s[1..];
    }
  }

  /** Distinct header hashes stay distinct once the head is dropped, and the head's hash is not among the rest. */
  lemma DistinctHashesTail(s: seq<BlockHash>)
    requires s != [] && DistinctHashes(s)
    ensures DistinctHashes(s[1..])
    ensures s[0].headerHash !in Hashes(s[1..])
  {
    forall i, j | 0 <= i < j < |s[1..]| ensures s[1..][i].headerHash != s[1..][j].headerHash {
      assert s[1..][i] == s[i + 1] && s[1..][j] == s[j + 1];
    }
    forall x | x in s[1..] ensures x.headerHash != s[0].headerHash {
      var k :| 0 <= k < |s[1..]| && s[1..][k] == x;
      assert s[k + 1] == x;
    }
  }

  lemma {:induction false} SortByHeightDistinct(s: seq<BlockHash>)
    requires DistinctHashes(s)
    ensures DistinctHashes(SortByHeight(s))
  {
    if s != [] {
      var rest := SortByHeight(s[1..]);
      DistinctHashesTail(s);
      SortByHeightDistinct(s[1..]);
      SortByHeightPermutes(s[1..]);
      assert Hashes(rest) == Hashes(s[1..]) by {
        forall x | x in rest ensures x in s[1..] {
          assert x in multiset(rest);
        }
        forall x | x in s[1..] ensures x in rest {
          assert x in multiset(s[1..]);
        }
      }
      InsertByHeightDistinct(s[0], rest);
    }
  }

  /**
   * The `map` step of `sync(forAccount:)`: `concat` waits for the external chain, then the
   * internal one, and the first failure fails the whole; on success the keys are external
   * then internal, and the blocks are those of `.unique` sorted by height.
   */
  function Combine(external: Discovery, internal: Discovery): (r: Discovery)
    ensures r.DiscoveryFailed? <==> external.DiscoveryFailed? || internal.DiscoveryFailed?
    ensures r.Discovered? ==> |r.blockHashes| <= |external.blockHashes| + |internal.blockHashes|
    ensures r.Discovered? && external.blockHashes + internal.blockHashes != [] ==> r.blockHashes != []
  {
    if external.DiscoveryFailed? then external
    else if internal.DiscoveryFailed? then internal
    else Discovered(external.keys + internal.keys, SortByHeight(Unique(external.blockHashes + internal.blockHashes)))
  }

  /**
   * The combination fails with the first failure; otherwise its keys are external then internal,
   * and its blocks are sorted by height, distinct by header hash, drawn from both chains and
   * cover every header hash of both.
   */
  lemma CombineMerges(external: Discovery, internal: Discovery)
    ensures external.DiscoveryFailed? ==> Combine(external, internal) == external
    ensures external.Discovered? && internal.DiscoveryFailed? ==> Combine(external, internal) == internal
    ensures external.Discovered? && internal.Discovered? ==>
      var r := Combine(external, internal);
      && r.Discovered?
      && r.keys == external.keys + internal.keys
      && SortedByHeight(r.blockHashes)
      && DistinctHashes(r.blockHashes)
      && (forall x :: x in r.blockHashes ==> x in external.blockHashes + internal.blockHashes)
      && Hashes(r.blockHashes) == Hashes(external.blockHashes + internal.blockHashes)
  {
    if external.Discovered? && internal.Discovered? {
      var all := external.blockHashes + internal.blockHashes;
      var unique := Unique(all);
      UniqueKeepsOnePerHash(all);
      SortByHeightPermutes(unique);
      SortByHeightDistinct(unique);
      var sorted := SortByHeight(unique);
      assert forall x :: x in sorted ==> x in multiset(unique);
      assert Hashes(sorted) == Hashes(unique) by {
        forall h | h in Hashes(unique) ensures h in Hashes(sorted) {
          var x :| x in unique && x.headerHash == h;
          assert x in multiset(sorted);
        }
      }
    }
  }

  /** Combined blocks are empty exactly when neither chain found any. */
  lemma CombineEmptyIffNoBlocks(external: Discovery, internal: Discovery)
    requires external.Discovered? && internal.Discovered?
    ensures Combine(external, internal).blockHashes == [] <==>
      external.blockHashes == [] && internal.blockHashes == []
  {
    var r := Combine(external, internal);
    var all := external.blockHashes + internal.blockHashes;
    CombineMerges(external, internal);
    if all != [] {
      assert all[0] in all;
      assert all[0].headerHash in Hashes(r.blockHashes);
    }
  }

  // ---------------------------------------------------------------------------------------
  // The syncer and what its collaborators see

  /** The delegate's callbacks. */
  datatype Callback = SyncSucceeded | SyncFailed(error: DiscoveryError)

  /** A batch the block-hash storage accepts: non-empty, distinct by header hash, lowest first. */
  predicate StorableBatch(s: seq<BlockHash>) {
    s != [] && DistinctHashes(s) && SortedByHeight(s)
  }

  /** One call the syncer makes to a collaborator. */
  datatype Call =
    | Query(account: nat)                  // discovery of both chains of `account` is started
    | AddKeys(keys: seq<PublicKey>)        // `publicKeyManager.addKeys`
    | Store(batch: seq<BlockHash>)         // `storage.add(blockHashes:)`
    | Notify(callback: Callback)           // `delegate?.onSyncSuccess()` or `onSyncFailed(error:)`
    | ErrorStored(error: DiscoveryError)   // `errorStorage?.add(apiError:)`

  /**
   * What the collaborators have seen: the accounts whose discovery was started, the key lists
   * given to `addKeys`, the block lists given to `storage.add`, the delegate callbacks and the
   * errors handed to the error storage, each in call order, and all calls in the order made.
   */
  datatype Trace = Trace(
    queried: seq<nat>,
    addedKeys: seq<seq<PublicKey>>,
    stored: seq<seq<BlockHash>>,
    callbacks: seq<Callback>,
    errors: seq<DiscoveryError>,
    calls: seq<Call>)
  {
    function Then(next: Trace): Trace {
      Trace(queried + next.queried, addedKeys + next.addedKeys, stored + next.stored,
            callbacks + next.callbacks, errors + next.errors, calls + next.calls)
    }
  }

  const NoCalls := Trace([], [], [], [], [], [])

  /** The combined discovery of each account, as `handle(forAccount:)` and `handle(error:)` receive it. */
  type Results = nat -> Discovery

  /** Account `a` combines `discover(a, true)`, its external chain, with `discover(a, false)`, its internal one. */
  function Combined(discover: (nat, bool) -> Discovery): (r: Results)
    ensures forall a: nat :: r(a).DiscoveryFailed? <==> discover(a, true).DiscoveryFailed? || discover(a, false).DiscoveryFailed?
  {
    (a: nat) => Combine(discover(a, true), discover(a, false))
  }

  /** The account's discovery found blocks, so the syncer stores them and moves on to the next account. */
  predicate MovesOn(result: Discovery) {
    result.Discovered? && result.blockHashes != []
  }

  predicate Continues(results: Results, a: nat) {
    MovesOn(results(a))
  }

  /** The calls made when the combined discovery `result` of account `a` arrives. */
  function StepOf(result: Discovery, a: nat): (r: Trace)
    ensures |r.queried| + |r.callbacks| == 1
    ensures r.queried != [] <==> MovesOn(result)
    ensures r.errors != [] <==> result.DiscoveryFailed?
    ensures |r.addedKeys| == (if result.Discovered? then 1 else 0)
  {
    match result
    case DiscoveryFailed(e) => Trace([], [], [], [SyncFailed(e)], [e], [ErrorStored(e), Notify(SyncFailed(e))])
    case Discovered(keys, hashes) =>
      if hashes == [] then Trace([], [keys], [], [SyncSucceeded], [], [AddKeys(keys), Notify(SyncSucceeded)])
      else Trace([a + 1], [keys], [hashes], [], [], [AddKeys(keys), Store(hashes), Query(a + 1)])
  }

  function Step(results: Results, a: nat): Trace {
    StepOf(results(a), a)
  }

  /**
   * What the collaborators see once discovery for `account` has been started and its results,
   * and those of the accounts after it, arrive in turn, `fuel` of them at most.
   */
  function Discover(results: Results, account: nat, fuel: nat): (r: Trace)
    ensures |r.queried| <= fuel
    ensures |r.stored| == |r.queried|
    decreases fuel
  {
    if fuel == 0 then NoCalls
    else if Continues(results, account) then Step(results, account).Then(Discover(results, account + 1, fuel - 1))
    else Step(results, account)
  }

  /** The accounts started after `account` follow it one by one. */
  predicate QueriedInOrder(t: Trace, account: nat) {
    forall i :: 0 <= i < |t.queried| ==> t.queried[i] == account + 1 + i
  }

  /** Accounts are started one after another, each after the one before. */
  lemma {:induction false} DiscoverQueriesInOrder(results: Results, account: nat, fuel: nat)
    ensures QueriedInOrder(Discover(results, account, fuel), account)
    decreases fuel
  {
    var t := Discover(results, account, fuel);
    if fuel > 0 && Continues(results, account) {
      var rest := Discover(results, account + 1, fuel - 1);
      DiscoverQueriesInOrder(results, account + 1, fuel - 1);
      assert QueriedInOrder(rest, account + 1);
      assert t.queried == [account + 1] + rest.queried;
      forall i | 0 <= i < |t.queried| ensures t.queried[i] == account + 1 + i {
        if i > 0 {
          assert t.queried[i] == rest.queried[i - 1];
        }
      }
    }
  }

  /** The keys of a successful discovery. */
  function KeysOf(result: Discovery): Option<seq<PublicKey>> {
    match result
    case Discovered(keys, _) => Some(keys)
    case DiscoveryFailed(_) => None
  }

  /** The blocks of a successful discovery. */
  function BlocksOf(result: Discovery): Option<seq<BlockHash>> {
    match result
    case Discovered(_, hashes) => Some(hashes)
    case DiscoveryFailed(_) => None
  }

  /** The `i`-th `addKeys` call registers the keys discovered for account `account + i`. */
  predicate KeysInOrder(results: Results, t: Trace, account: nat) {
    forall i :: 0 <= i < |t.addedKeys| ==> KeysOf(results(account + i)) == Some(t.addedKeys[i])
  }

  /** The `i`-th `storage.add` call stores the blocks discovered for account `account + i`. */
  predicate BatchesInOrder(results: Results, t: Trace, account: nat) {
    forall i :: 0 <= i < |t.stored| ==> BlocksOf(results(account + i)) == Some(t.stored[i])
  }

  /** Every stored batch is non-empty, distinct by header hash and lowest first. */
  predicate BatchesStorable(t: Trace) {
    forall i :: 0 <= i < |t.stored| ==> StorableBatch(t.stored[i])
  }

  /** What one account that moves on contributes to the run. */
  lemma StepThatMovesOn(results: Results, a: nat)
    requires Continues(results, a)
    ensures var r := results(a);
      && Step(results, a) == Trace([a + 1], [r.keys], [r.blockHashes], [], [],
                                   [AddKeys(r.keys), Store(r.blockHashes), Query(a + 1)])
      && KeysOf(r) == Some(r.keys)
      && BlocksOf(r) == Some(r.blockHashes)
  {
  }

  /** Every `addKeys` call registers the keys discovered for its own account. */
  lemma {:induction false} DiscoverRegistersKeysInOrder(results: Results, account: nat, fuel: nat)
    ensures KeysInOrder(results, Discover(results, account, fuel), account)
    decreases fuel
  {
    var t := Discover(results, account, fuel);
    if fuel > 0 {
      var r := results(account);
      if Continues(results, account) {
        var rest := Discover(results, account + 1, fuel - 1);
        DiscoverRegistersKeysInOrder(results, account + 1, fuel - 1);
        StepThatMovesOn(results, account);
        assert t.addedKeys == [r.keys] + rest.addedKeys;
        forall i | 0 <= i < |t.addedKeys| ensures KeysOf(results(account + i)) == Some(t.addedKeys[i]) {
          if i > 0 {
            assert t.addedKeys[i] == rest.addedKeys[i - 1];
            assert account + i == account + 1 + (i - 1);
          }
        }
      } else if r.Discovered? {
        assert t.addedKeys == [r.keys];
      }
    }
  }

  /** Every `storage.add` call stores the blocks discovered for its own account. */
  lemma {:induction false} DiscoverStoresBatchesInOrder(results: Results, account: nat, fuel: nat)
    ensures BatchesInOrder(results, Discover(results, account, fuel), account)
    decreases fuel
  {
    var t := Discover(results, account, fuel);
    if fuel > 0 && Continues(results, account) {
      var rest := Discover(results, account + 1, fuel - 1);
      DiscoverStoresBatchesInOrder(results, account + 1, fuel - 1);
      StepThatMovesOn(results, account);
      assert t.stored == [results(account).blockHashes] + rest.stored;
      forall i | 0 <= i < |t.stored| ensures BlocksOf(results(account + i)) == Some(t.stored[i]) {
        if i > 0 {
          assert t.stored[i] == rest.stored[i - 1];
          assert account + i == account + 1 + (i - 1);
        }
      }
    }
  }

  /**
   * How a discovery run ends: still waiting for an account when the fuel runs out; successful
   * at the first account with no blocks (its keys are registered, nothing is stored, no further
   * account is started); or failed at an account whose discovery failed (nothing of it is
   * registered or stored, the error is stored once). At most one callback is made.
   */
  lemma {:induction false} DiscoverOutcome(results: Results, account: nat, fuel: nat)
    ensures var t := Discover(results, account, fuel);
      && |t.stored| == |t.queried|
      && |t.callbacks| <= 1
      && (t.callbacks == [] <==> |t.queried| == fuel)
      && (t.callbacks == [] ==> |t.addedKeys| == |t.queried| && t.errors == [])
      && (t.callbacks == [SyncSucceeded] ==> |t.addedKeys| == |t.queried| + 1 && t.errors == [])
      && (|t.callbacks| == 1 && t.callbacks[0].SyncFailed? ==>
            |t.addedKeys| == |t.queried| && t.errors == [t.callbacks[0].error])
    decreases fuel
  {
    if fuel > 0 && Continues(results, account) {
      DiscoverOutcome(results, account + 1, fuel - 1);
    }
  }

  /**
   * The account a run ends at is the last account started (the one after the last account whose
   * blocks were stored): a success means that account found no blocks, a failure means its
   * discovery failed with the error reported.
   */
  lemma {:induction false} DiscoverEndsAt(results: Results, account: nat, fuel: nat)
    ensures var t := Discover(results, account, fuel);
      var last := account + |t.queried|;
      && (t.callbacks == [SyncSucceeded] ==> results(last).Discovered? && results(last).blockHashes == [])
      && (|t.callbacks| == 1 && t.callbacks[0].SyncFailed? ==> results(last) == DiscoveryFailed(t.callbacks[0].error))
    decreases fuel
  {
    if fuel > 0 && Continues(results, account) {
      DiscoverEndsAt(results, account + 1, fuel - 1);
      var rest := Discover(results, account + 1, fuel - 1);
      var t := Discover(results, account, fuel);
      StepThatMovesOn(results, account);
      assert t.callbacks == rest.callbacks;
      assert |t.queried| == 1 + |rest.queried|;
    }
  }

  /** The accounts of the `Query` calls, in order. */
  function QueriesIn(calls: seq<Call>): seq<nat> {
    if calls == [] then []
    else (if calls[0].Query? then [calls[0].account] else []) + QueriesIn(calls[1..])
  }

  /** The key lists of the `AddKeys` calls, in order. */
  function KeysIn(calls: seq<Call>): seq<seq<PublicKey>> {
    if calls == [] then []
    else (if calls[0].AddKeys? then [calls[0].keys] else []) + KeysIn(calls[1..])
  }

  /** The batches of the `Store` calls, in order. */
  function BatchesIn(calls: seq<Call>): seq<seq<BlockHash>> {
    if calls == [] then []
    else (if calls[0].Store? then [calls[0].batch] else []) + BatchesIn(calls[1..])
  }

  /** The delegate callbacks, in order. */
  function CallbacksIn(calls: seq<Call>): seq<Callback> {
    if calls == [] then []
    else (if calls[0].Notify? then [calls[0].callback] else []) + CallbacksIn(calls[1..])
  }

  /** The errors handed to the error storage, in order. */
  function ErrorsIn(calls: seq<Call>): seq<DiscoveryError> {
    if calls == [] then []
    else (if calls[0].ErrorStored? then [calls[0].error] else []) + ErrorsIn(calls[1..])
  }

  /** What each collaborator saw is the part of the call sequence addressed to it. */
  predicate Projects(t: Trace) {
    && t.queried == QueriesIn(t.calls)
    && t.addedKeys == KeysIn(t.calls)
    && t.stored == BatchesIn(t.calls)
    && t.callbacks == CallbacksIn(t.calls)
    && t.errors == ErrorsIn(t.calls)
  }

  /** Every account start comes right after an `AddKeys` call and a non-empty `Store` call. */
  predicate QueriesFollowStores(calls: seq<Call>) {
    forall i :: 0 <= i < |calls| && calls[i].Query? ==>
      2 <= i && calls[i - 2].AddKeys? && calls[i - 1].Store? && calls[i - 1].batch != []
  }

  /** Nothing is called after the delegate is told the outcome. */
  predicate NotifiesLast(calls: seq<Call>) {
    forall i :: 0 <= i < |calls| && calls[i].Notify? ==> i == |calls| - 1
  }

  lemma {:induction false} QueriesConcat(a: seq<Call>, b: seq<Call>)
    ensures QueriesIn(a + b) == QueriesIn(a) + QueriesIn(b)
  {
    if a == [] {
      assert a + b == b;
    } else {
      var head := if a[0].Query? then [a[0].account] else [];
      calc {
        QueriesIn(a + b);
      == { assert (a + b)[0] == a[0] && (a + b)[1..] == a[1..] + b; }
        head + QueriesIn(a[1..] + b);
      == { QueriesConcat(a[1..], b); }
        head + (QueriesIn(a[1..]) + QueriesIn(b));
      ==
        (head + QueriesIn(a[1..])) + QueriesIn(b);
      }
    }
  }

  lemma {:induction false} KeysConcat(a: seq<Call>, b: seq<Call>)
    ensures KeysIn(a + b) == KeysIn(a) + KeysIn(b)
  {
    if a == [] {
      assert a + b == b;
    } else {
      var head := if a[0].AddKeys? then [a[0].keys] else [];
      calc {
        KeysIn(a + b);
      == { assert (a + b)[0] == a[0] && (a + b)[1..] == a[1..] + b; }
        head + KeysIn(a[1..] + b);
      == { KeysConcat(a[1..], b); }
        head + (KeysIn(a[1..]) + KeysIn(b));
      ==
        (head + KeysIn(a[1..])) + KeysIn(b);
      }
    }
  }

  lemma {:induction false} BatchesConcat(a: seq<Call>, b: seq<Call>)
    ensures BatchesIn(a + b) == BatchesIn(a) + BatchesIn(b)
  {
    if a == [] {
      assert a + b == b;
    } else {
      var head := if a[0].Store? then [a[0].batch] else [];
      calc {
        BatchesIn(a + b);
      == { assert (a + b)[0] == a[0] && (a + b)[1..] == a[1..] + b; }
        head + BatchesIn(a[1..] + b);
      == { BatchesConcat(a[1..], b); }
        head + (BatchesIn(a[1..]) + BatchesIn(b));
      ==
        (head + BatchesIn(a[1..])) + BatchesIn(b);
      }
    }
  }

  lemma {:induction false} CallbacksConcat(a: seq<Call>, b: seq<Call>)
    ensures CallbacksIn(a + b) == CallbacksIn(a) + CallbacksIn(b)
  {
    if a == [] {
      assert a + b == b;
    } else {
      var head := if a[0].Notify? then [a[0].callback] else [];
      calc {
        CallbacksIn(a + b);
      == { assert (a + b)[0] == a[0] && (a + b)[1..] == a[1..] + b; }
        head + CallbacksIn(a[1..] + b);
      == { CallbacksConcat(a[1..], b); }
        head + (CallbacksIn(a[1..]) + CallbacksIn(b));
      ==
        (head + CallbacksIn(a[1..])) + CallbacksIn(b);
      }
    }
  }

  lemma {:induction false} ErrorsConcat(a: seq<Call>, b: seq<Call>)
    ensures ErrorsIn(a + b) == ErrorsIn(a) + ErrorsIn(b)
  {
    if a == [] {
      assert a + b == b;
    } else {
      var head := if a[0].ErrorStored? then [a[0].error] else [];
      calc {
        ErrorsIn(a + b);
      == { assert (a + b)[0] == a[0] && (a + b)[1..] == a[1..] + b; }
        head + ErrorsIn(a[1..] + b);
      == { ErrorsConcat(a[1..], b); }
        head + (ErrorsIn(a[1..]) + ErrorsIn(b));
      ==
        (head + ErrorsIn(a[1..])) + ErrorsIn(b);
      }
    }
  }

  /** The views of a call followed by more calls. */
  lemma ViewsCons(c: Call, rest: seq<Call>)
    ensures QueriesIn([c] + rest) == (if c.Query? then [c.account] else []) + QueriesIn(rest)
    ensures KeysIn([c] + rest) == (if c.AddKeys? then [c.keys] else []) + KeysIn(rest)
    ensures BatchesIn([c] + rest) == (if c.Store? then [c.batch] else []) + BatchesIn(rest)
    ensures CallbacksIn([c] + rest) == (if c.Notify? then [c.callback] else []) + CallbacksIn(rest)
    ensures ErrorsIn([c] + rest) == (if c.ErrorStored? then [c.error] else []) + ErrorsIn(rest)
  {
    assert ([c] + rest)[1..] == rest;
  }

  /** One account's step makes its calls in the order of `handle(forAccount:)` and `handle(error:)`. */
  lemma StepCallsInOrder(result: Discovery, a: nat)
    ensures var t := StepOf(result, a);
      Projects(t) && QueriesFollowStores(t.calls) && NotifiesLast(t.calls)
  {
    match result
    case DiscoveryFailed(e) => FailedStepCallsInOrder(e, a);
    case Discovered(keys, hashes) =>
      if hashes == [] {
        FinalStepCallsInOrder(keys, a);
      } else {
        MovingStepProjects(keys, hashes, a);
        MovingStepCallsInOrder(keys, hashes, a);
      }
  }

  /** `handle(error:)`: the error is stored, then the delegate is told. */
  lemma FailedStepCallsInOrder(e: DiscoveryError, a: nat)
    ensures var t := StepOf(DiscoveryFailed(e), a);
      Projects(t) && QueriesFollowStores(t.calls) && NotifiesLast(t.calls)
  {
    var first, last := ErrorStored(e), Notify(SyncFailed(e));
    ViewsCons(last, []);
    assert [last] == [last] + [];
    ViewsCons(first, [last]);
    assert [first, last] == [first] + [last];
  }

  /** `handle(forAccount:)` without blocks: the keys are added, then the delegate is told. */
  lemma FinalStepCallsInOrder(keys: seq<PublicKey>, a: nat)
    ensures var t := StepOf(Discovered(keys, []), a);
      Projects(t) && QueriesFollowStores(t.calls) && NotifiesLast(t.calls)
  {
    var first, last := AddKeys(keys), Notify(SyncSucceeded);
    ViewsCons(last, []);
    assert [last] == [last] + [];
    ViewsCons(first, [last]);
    assert [first, last] == [first] + [last];
  }

  /** `handle(forAccount:)` with blocks: the keys are added, the blocks stored, the next account started. */
  lemma MovingStepCallsInOrder(keys: seq<PublicKey>, hashes: seq<BlockHash>, a: nat)
    requires hashes != []
    ensures var t := StepOf(Discovered(keys, hashes), a);
      QueriesFollowStores(t.calls) && NotifiesLast(t.calls)
  {
  }

  /** The views of a step with blocks: one account started, one key list, one batch. */
  lemma MovingStepProjects(keys: seq<PublicKey>, hashes: seq<BlockHash>, a: nat)
    requires hashes != []
    ensures Projects(StepOf(Discovered(keys, hashes), a))
  {
    var query, store, add := Query(a + 1), Store(hashes), AddKeys(keys);
    ViewsCons(query, []);
    assert [query] == [query] + [];
    ViewsCons(store, [query]);
    assert [store, query] == [store] + [query];
    ViewsCons(add, [store, query]);
    assert [add, store, query] == [add] + [store, query];
  }

  /**
   * Over a whole run the per-collaborator logs are views of one call sequence, in which every
   * account is started right after the previous account's keys were added and its blocks
   * stored, and the delegate's callback is the last call.
   */
  lemma {:induction false} DiscoverCallsInOrder(results: Results, account: nat, fuel: nat)
    ensures var t := Discover(results, account, fuel);
      Projects(t) && QueriesFollowStores(t.calls) && NotifiesLast(t.calls)
    decreases fuel
  {
    if fuel > 0 {
      var step := Step(results, account);
      StepCallsInOrder(results(account), account);
      if Continues(results, account) {
        var rest := Discover(results, account + 1, fuel - 1);
        var t := Discover(results, account, fuel);
        DiscoverCallsInOrder(results, account + 1, fuel - 1);
        QueriesConcat(step.calls, rest.calls);
        KeysConcat(step.calls, rest.calls);
        BatchesConcat(step.calls, rest.calls);
        CallbacksConcat(step.calls, rest.calls);
        ErrorsConcat(step.calls, rest.calls);
        assert t.calls == step.calls + rest.calls;
        assert |step.calls| == 3 && !step.calls[0].Notify? && !step.calls[1].Notify? && !step.calls[2].Notify?;
        forall i | 0 <= i < |t.calls| && t.calls[i].Query?
          ensures 2 <= i && t.calls[i - 2].AddKeys? && t.calls[i - 1].Store? && t.calls[i - 1].batch != []
        {
          if i >= 3 {
            assert t.calls[i] == rest.calls[i - 3];
            assert t.calls[i - 2] == rest.calls[i - 5] && t.calls[i - 1] == rest.calls[i - 4];
          }
        }
        forall i | 0 <= i < |t.calls| && t.calls[i].Notify? ensures i == |t.calls| - 1 {
          assert t.calls[i] == rest.calls[i - 3];
        }
      }
    }
  }

  /** The external keys then the internal keys of account `a`, when both its discoveries succeed. */
  function ChainKeys(discover: (nat, bool) -> Discovery, a: nat): Option<seq<PublicKey>> {
    if discover(a, true).Discovered? && discover(a, false).Discovered?
    then Some(discover(a, true).keys + discover(a, false).keys)
    else None
  }

  /** Every `addKeys` call registers the external then the internal keys of its own account. */
  lemma RegistersChainKeys(discover: (nat, bool) -> Discovery, account: nat, fuel: nat)
    ensures var t := Discover(Combined(discover), account, fuel);
      forall i :: 0 <= i < |t.addedKeys| ==> ChainKeys(discover, account + i) == Some(t.addedKeys[i])
  {
    var t := Discover(Combined(discover), account, fuel);
    DiscoverRegistersKeysInOrder(Combined(discover), account, fuel);
    forall i | 0 <= i < |t.addedKeys| ensures ChainKeys(discover, account + i) == Some(t.addedKeys[i]) {
      var a := account + i;
      assert KeysOf(Combined(discover)(a)) == Some(t.addedKeys[i]);
      CombineMerges(discover(a, true), discover(a, false));
    }
  }

  /** Only well-formed batches reach the block-hash storage. */
  lemma {:induction false} StoresStorableBatches(discover: (nat, bool) -> Discovery, account: nat, fuel: nat)
    ensures BatchesStorable(Discover(Combined(discover), account, fuel))
    decreases fuel
  {
    var results := Combined(discover);
    var t := Discover(results, account, fuel);
    if fuel > 0 && Continues(results, account) {
      var rest := Discover(results, account + 1, fuel - 1);
      StoresStorableBatches(discover, account + 1, fuel - 1);
      StepThatMovesOn(results, account);
      CombineMerges(discover(account, true), discover(account, false));
      assert t.stored == [results(account).blockHashes] + rest.stored;
      forall i | 0 <= i < |t.stored| ensures StorableBatch(t.stored[i]) {
        if i > 0 {
          assert t.stored[i] == rest.stored[i - 1];
        }
      }
    }
  }

  /**
   * A run succeeds at the first account both of whose chains were discovered with no blocks,
   * and fails with the error of the external chain if that failed, otherwise of the internal one.
   */
  lemma EndsAtChains(discover: (nat, bool) -> Discovery, account: nat, fuel: nat)
    ensures var t := Discover(Combined(discover), account, fuel);
      var last := account + |t.queried|;
      var external := discover(last, true);
      var internal := discover(last, false);
      && (t.callbacks == [SyncSucceeded] ==>
            external.Discovered? && internal.Discovered? && external.blockHashes == [] && internal.blockHashes == [])
      && (|t.callbacks| == 1 && t.callbacks[0].SyncFailed? ==>
            (if external.DiscoveryFailed? then external else internal) == DiscoveryFailed(t.callbacks[0].error))
  {
    var t := Discover(Combined(discover), account, fuel);
    var last := account + |t.queried|;
    DiscoverEndsAt(Combined(discover), account, fuel);
    assert Combined(discover)(last) == Combine(discover(last, true), discover(last, false));
    CombineMerges(discover(last, true), discover(last, false));
    if discover(last, true).Discovered? && discover(last, false).Discovered? {
      CombineEmptyIffNoBlocks(discover(last, true), discover(last, false));
    }
  }

  class InitialSyncer {
    /** The accounts whose discovery is subscribed in the dispose bag and has not completed. */
    var live: multiset<nat>
    var queried: seq<nat>
    var addedKeys: seq<seq<PublicKey>>
    var stored: seq<seq<BlockHash>>
    var callbacks: seq<Callback>
    var errors: seq<DiscoveryError>
    var calls: seq<Call>

    function Log(): Trace
      reads this
    {
      Trace(queried, addedKeys, stored, callbacks, errors, calls)
    }

    /** The block-hash storage only ever receives well-formed batches. */
    ghost predicate Valid()
      reads this
    {
      forall i :: 0 <= i < |stored| ==> StorableBatch(stored[i])
    }

    constructor ()
      ensures Valid()
      ensures live == multiset{} && Log() == NoCalls
    {
      live := multiset{};
      queried, addedKeys, stored, callbacks, errors, calls := [], [], [], [], [], [];
    }

    /** `sync(forAccount:)`: subscribes to the discovery of `account`. */
    method SyncForAccount(account: nat)
      requires Valid()
      modifies this
      ensures Valid()
      ensures live == old(live) + multiset{account}
      ensures Log() == old(Log()).Then(Trace([account], [], [], [], [], [Query(account)]))
    {
      queried := queried + [account];
      calls := calls + [Query(account)];
      live := live + multiset{account};
    }

    /** `sync()`: discovery starts at account 0. */
    method Sync()
      requires Valid()
      modifies this
      ensures Valid()
      ensures live == old(live) + multiset{0}
      ensures Log() == old(Log()).Then(Trace([0], [], [], [], [], [Query(0)]))
    {
      SyncForAccount(0);
    }

    /** `terminate()`: a fresh dispose bag; every pending discovery is dropped, nothing else changes. */
    method Terminate()
      requires Valid()
      modifies this
      ensures Valid()
      ensures live == multiset{}
      ensures Log() == old(Log())
    {
      live := multiset{};
    }

    /** `handle(forAccount:keys:blockHashes:)`. */
    method HandleAccount(account: nat, keys: seq<PublicKey>, blockHashes: seq<BlockHash>)
      requires Valid()
      requires blockHashes != [] ==> StorableBatch(blockHashes)
      modifies this
      ensures Valid()
      ensures blockHashes == [] ==>
        && live == old(live)
        && Log() == old(Log()).Then(Trace([], [keys], [], [SyncSucceeded], [], [AddKeys(keys), Notify(SyncSucceeded)]))
      ensures blockHashes != [] ==>
        && live == old(live) + multiset{account + 1}
        && Log() == old(Log()).Then(Trace([account + 1], [keys], [blockHashes], [], [],
                                          [AddKeys(keys), Store(blockHashes), Query(account + 1)]))
    {
      addedKeys := addedKeys + [keys];
      calls := calls + [AddKeys(keys)];
      if blockHashes == [] {
        callbacks := callbacks + [SyncSucceeded];
        calls := calls + [Notify(SyncSucceeded)];
      } else {
        stored := stored + [blockHashes];
        calls := calls + [Store(blockHashes)];
        SyncForAccount(account + 1);
      }
    }

    /** `handle(error:)`: the error is stored and the delegate told once. */
    method HandleError(error: DiscoveryError)
      requires Valid()
      modifies this
      ensures Valid()
      ensures live == old(live)
      ensures Log() == old(Log()).Then(Trace([], [], [], [SyncFailed(error)], [error], [ErrorStored(error), Notify(SyncFailed(error))]))
    {
      errors := errors + [error];
      calls := calls + [ErrorStored(error)];
      callbacks := callbacks + [SyncFailed(error)];
      calls := calls + [Notify(SyncFailed(error))];
    }

    /**
     * The subscription for `account` completes with the external and internal discoveries.
     * A subscription dropped by `terminate()` delivers nothing.
     */
    method Deliver(account: nat, external: Discovery, internal: Discovery)
      requires Valid()
      modifies this
      ensures Valid()
      ensures account !in old(live) ==> live == old(live) && Log() == old(Log())
      ensures account in old(live) ==>
        && Log() == old(Log()).Then(StepOf(Combine(external, internal), account))
        && live == old(live) - multiset{account} + (if MovesOn(Combine(external, internal)) then multiset{account + 1} else multiset{})
    {
      if account !in live {
        return;
      }
      live := live - multiset{account};
      var result := Combine(external, internal);
      CombineMerges(external, internal);
      match result
      case DiscoveryFailed(e) =>
        HandleError(e);
      case Discovered(keys, hashes) =>
        HandleAccount(account, keys, hashes);
    }

    /** The subscription for a live `account` completes with what block discovery finds for it. */
    method DeliverDiscovered(discover: (nat, bool) -> Discovery, account: nat) returns (movesOn: bool)
      requires Valid() && account in live
      modifies this
      ensures Valid()
      ensures movesOn == Continues(Combined(discover), account)
      ensures Log() == old(Log()).Then(Step(Combined(discover), account))
      ensures live == old(live) - multiset{account} + (if movesOn then multiset{account + 1} else multiset{})
    {
      var external := discover(account, true);
      var internal := discover(account, false);
      Deliver(account, external, internal);
      movesOn := MovesOn(Combine(external, internal));
    }

    /**
     * The discoveries of `account` and of the accounts it leads to arrive in turn, at most
     * `fuel` of them: the collaborators see exactly what `Discover` describes, and the
     * subscription of `account` is replaced by the one `PendingAfter` names.
     */
    method RunFrom(discover: (nat, bool) -> Discovery, account: nat, fuel: nat)
      requires Valid() && account in live
      modifies this
      ensures Valid()
      ensures Log() == old(Log()).Then(Discover(Combined(discover), account, fuel))
      ensures live == old(live) - multiset{account} + PendingAfter(Combined(discover), account, fuel)
      decreases fuel
    {
      if fuel == 0 {
        ThenNoCalls(Log());
        PendingKept(old(live), account);
        return;
      }
      ghost var before := Log();
      var movesOn := DeliverDiscovered(discover, account);
      if movesOn {
        RunFrom(discover, account + 1, fuel - 1);
        ThenAssociates(before, Step(Combined(discover), account), Discover(Combined(discover), account + 1, fuel - 1));
        PendingHandedOn(old(live), account, account + 1, PendingAfter(Combined(discover), account + 1, fuel - 1));
      }
    }

    /** `sync()`, then the discoveries arriving one account after another. */
    method Run(discover: (nat, bool) -> Discovery, fuel: nat)
      requires Valid()
      modifies this
      ensures Valid()
      ensures Log() == old(Log()).Then(Trace([0], [], [], [], [], [Query(0)])).Then(Discover(Combined(discover), 0, fuel))
      ensures var t := Discover(Combined(discover), 0, fuel);
        live == old(live) + (if t.callbacks == [] then multiset{|t.queried|} else multiset{})
    {
      Sync();
      RunFrom(discover, 0, fuel);
      PendingAfterLastStarted(Combined(discover), 0, fuel);
      PendingHandedOn(old(live), 0, 0, PendingAfter(Combined(discover), 0, fuel));
    }
  }

  /** After `terminate()`, a discovery that completes late changes nothing. */
  method TerminateDropsPendingDiscovery(keys: seq<PublicKey>, blockHashes: seq<BlockHash>) {
    var syncer := new InitialSyncer();
    syncer.Sync();
    assert syncer.Log() == Trace([0], [], [], [], [], [Query(0)]);
    syncer.Terminate();
    syncer.Deliver(0, Discovered(keys, blockHashes), Discovered([], []));
    assert syncer.live == multiset{};
    assert syncer.Log() == Trace([0], [], [], [], [], [Query(0)]);
  }

  /** The subscription left pending once the discoveries of `account` on, `fuel` of them at most, have arrived. */
  function PendingAfter(results: Results, account: nat, fuel: nat): (r: multiset<nat>)
    ensures |r| <= 1
    ensures forall a :: a in r ==> account <= a <= account + fuel
    decreases fuel
  {
    if fuel == 0 then multiset{account}
    else if Continues(results, account) then PendingAfter(results, account + 1, fuel - 1)
    else multiset{}
  }

  /**
   * Only a run that has not called back leaves a subscription, for the last account started (the
   * one after the last account whose blocks were stored).
   */
  lemma {:induction false} PendingAfterLastStarted(results: Results, account: nat, fuel: nat)
    ensures var t := Discover(results, account, fuel);
      PendingAfter(results, account, fuel) ==
        if t.callbacks == [] then multiset{account + |t.queried|} else multiset{}
    decreases fuel
  {
    if fuel > 0 && Continues(results, account) {
      PendingAfterLastStarted(results, account + 1, fuel - 1);
      StepThatMovesOn(results, account);
      var t := Discover(results, account, fuel);
      var rest := Discover(results, account + 1, fuel - 1);
      assert t.callbacks == rest.callbacks && |t.queried| == 1 + |rest.queried|;
    }
  }

  /** A pending account taken out and put back leaves the subscriptions as they were. */
  lemma PendingKept(live: multiset<nat>, a: nat)
    requires a in live
    ensures live - multiset{a} + multiset{a} == live
  {
  }

  /** Handing the subscription on from `a` to `b`, which then completes with `rest`. */
  lemma PendingHandedOn(live: multiset<nat>, a: nat, b: nat, rest: multiset<nat>)
    ensures live - multiset{a} + multiset{b} - multiset{b} + rest == live - multiset{a} + rest
  {
  }

  lemma ThenNoCalls(t: Trace)
    ensures t.Then(NoCalls) == t
  {
    assert t.Then(NoCalls).queried == t.queried;
  }

  lemma ThenAssociates(a: Trace, b: Trace, c: Trace)
    ensures a.Then(b).Then(c) == a.Then(b.Then(c))
  {
    assert a.Then(b).Then(c).queried == a.Then(b.Then(c)).queried;
  }
}
