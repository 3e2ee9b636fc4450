/** The canonical chain marker: for every burn height of the window, in ascending
    order, mark the sortition winner and give every other commit a provisional
    Stacks height; then mark the declared canonical tip and its ancestors. */
module Canonical {
  import opened Common
  import opened CommitGraph

  /** One row of the `snapshots` table. */
  datatype Snapshot = Snapshot(
    winningBlockTxid: string,
    stacksBlockHeight: int,
    consensusHash: string,
    canonicalStacksTipHash: string)

  /** One row of the chain state's `payments` table. */
  datatype Payment = Payment(blockHash: string, coinbase: int, txFeesAnchored: int, txFeesStreamed: int)

  /** The chain state tables the marker reads: payments by consensus hash, and
      block costs and size (the `block_headers` table) by block hash. */
  datatype ChainState = ChainState(payments: map<string, Payment>, headers: map<string, Costs>)

  /** The ways the Python function raises. */
  datatype MarkError =
    | MissingSnapshot(height: nat)       // `fetchone()` returned no row
    | UnboundBlockHash(commit: Hash)     // `block_hash` read before any assignment
    | ParentHeightNone(commit: Hash)     // `None + 1`
    | UnknownCanonicalTip(tip: string)   // `commits[canonical_tip]` raises KeyError

  // ---------------------------------------------------------------------------
  // The burn heights of a graph, ascending and without repeats

  predicate Increasing(s: seq<nat>) {
    forall i, j :: 0 <= i < j < |s| ==> s[i] < s[j]
  }

  function Insert(s: seq<nat>, x: nat): (r: seq<nat>)
    requires Increasing(s)
    ensures Increasing(r)
    ensures forall y :: y in r <==> y in s || y == x
  {
    if s == [] then [x]
    else if x < s[0] then [x] + s
    else if x == s[0] then s
    else
      var t := Insert(s[1..], x);
      assert forall k :: 0 <= k < |t| ==> t[k] in s[1..] || t[k] == x;
      assert forall k :: 0 <= k < |s[1..]| ==> s[0] < s[1..][k];
      [s[0]] + t
  }

  /** `sorted(set(...))` over the burn heights of the listed commits. */
  function SortedHeights(order: seq<Hash>, commits: map<Hash, Commit>): (r: seq<nat>)
    requires forall i :: 0 <= i < |order| ==> order[i] in commits
    ensures Increasing(r)
    ensures forall x :: x in r <==> exists i :: 0 <= i < |order| && commits[order[i]].burnBlockHeight == x
  {
    if order == [] then []
    else
      var n := |order| - 1;
      var rest := SortedHeights(order[..n], commits);
      assert forall i :: 0 <= i < n ==> order[..n][i] == order[i];
      Insert(rest, commits[order[n]].burnBlockHeight)
  }

  // ---------------------------------------------------------------------------
  // Reference definitions of the marked state

  /** The commit won its sortition: its txid is the one the snapshot of its burn
      height declares. */
  predicate Wins(g0: Graph, snaps: map<nat, Snapshot>, h: Hash)
    requires h in g0.commits
  {
    var c := g0.commits[h];
    c.burnBlockHeight in snaps && c.txid == snaps[c.burnBlockHeight].winningBlockTxid
  }

  /** The Stacks height a commit ends up with: the snapshot's for a winner; one
      more than its parent's for any other commit with a parent; none otherwise
      (also none when the parent has none, where the Python code raises). */
  function Provisional(g0: Graph, snaps: map<nat, Snapshot>, h: Hash): Option<int>
    requires h in g0.commits && ParentsPrecede(g0)
    decreases g0.commits[h].burnBlockHeight
  {
    var c := g0.commits[h];
    if Wins(g0, snaps, h) then Some(snaps[c.burnBlockHeight].stacksBlockHeight)
    else match c.parent
      case None => None
      case Some(p) =>
        match Provisional(g0, snaps, p)
        case None => None
        case Some(x) => Some(x + 1)
  }

  /** No winner among the processed commits `done` builds on `h`. */
  ghost predicate NoWinningChild(g0: Graph, snaps: map<nat, Snapshot>, done: set<Hash>, h: Hash) {
    forall k :: k in done && k in g0.commits && Wins(g0, snaps, k) ==> g0.commits[k].parent != Some(h)
  }

  /** The fields the marker never writes. */
  predicate SameIdentity(c0: Commit, c: Commit) {
    && c.blockHeaderHash == c0.blockHeaderHash && c.txid == c0.txid && c.sender == c0.sender
    && c.burnBlockHeight == c0.burnBlockHeight && c.spend == c0.spend
    && c.sortitionId == c0.sortitionId && c.parent == c0.parent
  }

  // ---------------------------------------------------------------------------
  // The function-local `block_hash`, carried from one winner to the next

  /** The first position of `h` in `s`. */
  function IndexOf(s: seq<Hash>, h: Hash): (i: nat)
    requires h in s
    ensures i < |s| && s[i] == h
  {
    if s[0] == h then 0 else 1 + IndexOf(s[1..], h)
  }

  /** The position of a commit in the dictionary order. */
  function Pos(g0: Graph, h: Hash): (i: nat)
    requires Valid(g0) && h in g0.commits
    ensures i < |g0.order| && g0.order[i] == h
  {
    IndexOf(g0.order, h)
  }

  /** `k` is processed before `h`: in an earlier round, or earlier in the
      dictionary within the same round. */
  ghost predicate Before(g0: Graph, k: Hash, h: Hash)
    requires Valid(g0) && k in g0.commits && h in g0.commits
  {
    var a, b := g0.commits[k].burnBlockHeight, g0.commits[h].burnBlockHeight;
    a < b || (a == b && Pos(g0, k) < Pos(g0, h))
  }

  /** The commits processed before `h`. */
  ghost function Preceding(g0: Graph, h: Hash): set<Hash>
    requires Valid(g0) && h in g0.commits
  {
    set k | k in g0.commits && Before(g0, k, h)
  }

  /** What processing `h` assigns to `block_hash`: the block hash of the payments
      row, for a winner of a processed block whose consensus hash has one. */
  function Assigned(g0: Graph, snaps: map<nat, Snapshot>, cs: ChainState, h: Hash): Option<string>
    requires h in g0.commits
  {
    if Wins(g0, snaps, h) then
      var snap := snaps[g0.commits[h].burnBlockHeight];
      if snap.stacksBlockHeight > 0 && snap.consensusHash in cs.payments
      then Some(cs.payments[snap.consensusHash].blockHash) else None
    else None
  }

  /** `k` is the last commit of `done` to assign `block_hash`. */
  ghost predicate LastAssigner(g0: Graph, snaps: map<nat, Snapshot>, cs: ChainState, done: set<Hash>, k: Hash)
    requires Valid(g0) && done <= g0.commits.Keys
  {
    && k in done && Assigned(g0, snaps, cs, k).Some?
    && forall k' :: k' in done && Assigned(g0, snaps, cs, k').Some? ==> !Before(g0, k, k')
  }

  /** The value of `block_hash` once the commits `done` have been processed:
      what the last of them to assign it assigned; None while it is unbound. */
  ghost function LastAssigned(g0: Graph, snaps: map<nat, Snapshot>, cs: ChainState, done: set<Hash>): Option<string>
    requires Valid(g0) && done <= g0.commits.Keys
  {
    if exists k :: LastAssigner(g0, snaps, cs, done, k) then
      var k :| LastAssigner(g0, snaps, cs, done, k); Assigned(g0, snaps, cs, k)
    else None
  }

  /** Two commits processed in the same run are processed one after the other. */
  lemma BeforeTotal(g0: Graph, k: Hash, h: Hash)
    requires Valid(g0) && k in g0.commits && h in g0.commits && k != h
    ensures Before(g0, k, h) != Before(g0, h, k)
  {
    assert g0.order[Pos(g0, k)] != g0.order[Pos(g0, h)];
  }

  /** There is at most one last assigner. */
  lemma LastAssignerUnique(g0: Graph, snaps: map<nat, Snapshot>, cs: ChainState, done: set<Hash>, k1: Hash, k2: Hash)
    requires Valid(g0) && done <= g0.commits.Keys
    requires LastAssigner(g0, snaps, cs, done, k1) && LastAssigner(g0, snaps, cs, done, k2)
    ensures k1 == k2
  {
    if k1 != k2 {
      BeforeTotal(g0, k1, k2);
    }
  }

  /** When some commit of `done` assigns `block_hash`, one of them is the last. */
  lemma {:induction false} LastAssignerExists(g0: Graph, snaps: map<nat, Snapshot>, cs: ChainState,
                                              done: set<Hash>, k: Hash)
    requires Valid(g0) && done <= g0.commits.Keys
    requires k in done && Assigned(g0, snaps, cs, k).Some?
    ensures exists m :: LastAssigner(g0, snaps, cs, done, m)
    decreases |done|
  {
    var rest := done - {k};
    if k' :| k' in rest && Assigned(g0, snaps, cs, k').Some? {
      LastAssignerExists(g0, snaps, cs, rest, k');
      var m :| LastAssigner(g0, snaps, cs, rest, m);
      BeforeTotal(g0, k, m);
      if Before(g0, k, m) {
        assert LastAssigner(g0, snaps, cs, done, m);
      } else {
        assert LastAssigner(g0, snaps, cs, done, k);
      }
    } else {
      assert LastAssigner(g0, snaps, cs, done, k);
    }
  }

  /** `block_hash` is unbound exactly when no processed commit has assigned it. */
  lemma LastAssignedNone(g0: Graph, snaps: map<nat, Snapshot>, cs: ChainState, done: set<Hash>)
    requires Valid(g0) && done <= g0.commits.Keys
    ensures LastAssigned(g0, snaps, cs, done).None? <==>
              forall k :: k in done ==> Assigned(g0, snaps, cs, k).None?
  {
    if k :| k in done && Assigned(g0, snaps, cs, k).Some? {
      LastAssignerExists(g0, snaps, cs, done, k);
    }
  }

  /** Processing one more commit, later than all processed so far, leaves
      `block_hash` at what it assigns, or unchanged when it assigns nothing. */
  lemma AssignStep(g0: Graph, snaps: map<nat, Snapshot>, cs: ChainState, done: set<Hash>, h: Hash)
    requires Valid(g0) && done <= g0.commits.Keys && h in g0.commits && h !in done
    requires forall k :: k in done ==> Before(g0, k, h)
    ensures LastAssigned(g0, snaps, cs, done + {h}) ==
              if Assigned(g0, snaps, cs, h).Some? then Assigned(g0, snaps, cs, h)
              else LastAssigned(g0, snaps, cs, done)
  {
    var done' := done + {h};
    if Assigned(g0, snaps, cs, h).Some? {
      forall k' | k' in done' && Assigned(g0, snaps, cs, k').Some? ensures !Before(g0, h, k') {
        if k' != h { BeforeTotal(g0, k', h); }
      }
      assert LastAssigner(g0, snaps, cs, done', h);
      var k :| LastAssigner(g0, snaps, cs, done', k);
      LastAssignerUnique(g0, snaps, cs, done', k, h);
    } else {
      forall k | LastAssigner(g0, snaps, cs, done', k) ensures LastAssigner(g0, snaps, cs, done, k) { }
      forall k | LastAssigner(g0, snaps, cs, done, k) ensures LastAssigner(g0, snaps, cs, done', k) { }
      if exists k :: LastAssigner(g0, snaps, cs, done, k) {
        var k1 :| LastAssigner(g0, snaps, cs, done', k1);
        var k2 :| LastAssigner(g0, snaps, cs, done, k2);
        LastAssignerUnique(g0, snaps, cs, done, k1, k2);
      }
    }
  }

  /** Earnings and costs of a commit after its round, with `last` the value
      `block_hash` had before it. A processed winner reads the payments row of its
      consensus hash, which also rebinds `block_hash`; the costs come from the
      header row of `block_hash`, which without a payments row is the stale value
      (and must be bound). Everything else keeps its defaults. */
  ghost predicate Enriched(c0: Commit, c: Commit, won: bool, snap: Snapshot, cs: ChainState, last: Option<string>) {
    if won && snap.stacksBlockHeight > 0 then
      var hash := if snap.consensusHash in cs.payments
                  then Some(cs.payments[snap.consensusHash].blockHash) else last;
      && hash.Some?
      && (if snap.consensusHash in cs.payments then
            var p := cs.payments[snap.consensusHash];
            && c.blockHash == Some(p.blockHash)
            && c.coinbaseEarned == p.coinbase
            && c.feesEarned == p.txFeesAnchored + p.txFeesStreamed
          else
            && c.blockHash == c0.blockHash && c.coinbaseEarned == c0.coinbaseEarned
            && c.feesEarned == c0.feesEarned)
      && c.costs == (if hash.value in cs.headers then cs.headers[hash.value] else c0.costs)
    else
      && c.blockHash == c0.blockHash && c.coinbaseEarned == c0.coinbaseEarned
      && c.feesEarned == c0.feesEarned && c.costs == c0.costs
  }

  /** Commit `h` after its round has been processed, with `done` the processed commits. */
  ghost predicate Marked(g0: Graph, snaps: map<nat, Snapshot>, cs: ChainState, done: set<Hash>, h: Hash, c: Commit)
    requires Valid(g0) && h in g0.commits && ParentsPrecede(g0)
  {
    var c0 := g0.commits[h];
    && c0.burnBlockHeight in snaps
    && SameIdentity(c0, c)
    && c.canonical == c0.canonical && c.tip == c0.tip && c.nextTip == c0.nextTip
    && c.won == Wins(g0, snaps, h)
    && c.stacksHeight == Provisional(g0, snaps, h)
    && c.potentialTip == (Wins(g0, snaps, h) && NoWinningChild(g0, snaps, done, h))
    && Enriched(c0, c, Wins(g0, snaps, h), snaps[c0.burnBlockHeight], cs,
                LastAssigned(g0, snaps, cs, Preceding(g0, h)))
    && (!Wins(g0, snaps, h) && c0.parent.Some? ==> Provisional(g0, snaps, c0.parent.value).Some?)
  }

  /** The graph `g` after processing the commits `done` of the original `g0`. */
  ghost predicate State(g0: Graph, g: Graph, snaps: map<nat, Snapshot>, cs: ChainState, done: set<Hash>)
    requires Valid(g0) && ParentsPrecede(g0)
  {
    && g.order == g0.order
    && g.commits.Keys == g0.commits.Keys
    && (forall h {:trigger Marked(g0, snaps, cs, done, h, g.commits[h])} ::
          h in g0.commits && h in done ==> Marked(g0, snaps, cs, done, h, g.commits[h]))
    && (forall h :: h in g0.commits && h !in done ==> g.commits[h] == g0.commits[h])
  }

  /** While round `H` runs, every commit of a lower burn height has been processed
      and none of a higher one. */
  ghost predicate Frontier(g0: Graph, done: set<Hash>, H: nat) {
    forall k :: k in g0.commits ==>
      && (g0.commits[k].burnBlockHeight < H ==> k in done)
      && (k in done ==> g0.commits[k].burnBlockHeight <= H)
  }

  /** Processing another commit `h` changes the marked state of a processed commit
      `k` only when `h` is a winner built on `k`. */
  lemma MarkedStable(g0: Graph, snaps: map<nat, Snapshot>, cs: ChainState, done: set<Hash>,
                     h: Hash, k: Hash, c: Commit)
    requires Valid(g0) && ParentsPrecede(g0) && h in g0.commits && k in g0.commits
    requires Marked(g0, snaps, cs, done, k, c)
    requires !(Wins(g0, snaps, h) && g0.commits[h].parent == Some(k))
    ensures Marked(g0, snaps, cs, done + {h}, k, c)
  {
    assert NoWinningChild(g0, snaps, done + {h}, k) == NoWinningChild(g0, snaps, done, k);
  }

  /** The parent of a processed winner is marked once its potential-tip flag is cleared. */
  lemma ParentUnflagged(g0: Graph, snaps: map<nat, Snapshot>, cs: ChainState, done: set<Hash>,
                        h: Hash, k: Hash, c: Commit)
    requires Valid(g0) && ParentsPrecede(g0) && h in g0.commits && k in g0.commits
    requires Marked(g0, snaps, cs, done, k, c)
    requires Wins(g0, snaps, h) && g0.commits[h].parent == Some(k)
    ensures Marked(g0, snaps, cs, done + {h}, k, c.(potentialTip := false))
  {
    assert !NoWinningChild(g0, snaps, done + {h}, k);
  }

  /** One iteration of the inner loop over the commits of round `H` (the body of
      the `for commit in filter(...)` loop) for the commit `h`. */
  method MarkCommit(ghost g0: Graph, g: Graph, snaps: map<nat, Snapshot>, cs: ChainState,
                    ghost done: set<Hash>, h: Hash, lastBlockHash: Option<string>)
    returns (g': Graph, last': Option<string>, err: Option<MarkError>)
    requires Valid(g0) && Unmarked(g0) && ParentsPrecede(g0)
    requires h in g0.commits && h !in done && g0.commits[h].burnBlockHeight in snaps
    requires Frontier(g0, done, g0.commits[h].burnBlockHeight)
    requires State(g0, g, snaps, cs, done)
    requires done == Preceding(g0, h) && lastBlockHash == LastAssigned(g0, snaps, cs, done)
    ensures err.None? ==> State(g0, g', snaps, cs, done + {h})
    ensures err.None? ==> last' == LastAssigned(g0, snaps, cs, done + {h})
    ensures err.Some? ==> RoundError(g0, snaps, cs, err.value)
                          && (err.value == ParentHeightNone(h) || err.value == UnboundBlockHash(h))
    ensures var snap := snaps[g0.commits[h].burnBlockHeight];
            err == Some(UnboundBlockHash(h)) <==>
              Wins(g0, snaps, h) && snap.stacksBlockHeight > 0 && snap.consensusHash !in cs.payments
              && lastBlockHash.None?
    ensures err == Some(ParentHeightNone(h)) <==>
              !Wins(g0, snaps, h) && g0.commits[h].parent.Some?
              && Provisional(g0, snaps, g0.commits[h].parent.value).None?
    // The block hash read by the costs look-up is the payments row's, or else the
    // one left over from an earlier winner of this run.
    ensures var snap := snaps[g0.commits[h].burnBlockHeight];
            last' == if Wins(g0, snaps, h) && snap.stacksBlockHeight > 0 && snap.consensusHash in cs.payments
                     then Some(cs.payments[snap.consensusHash].blockHash) else lastBlockHash
  {
    if snaps[g.commits[h].burnBlockHeight].winningBlockTxid == g.commits[h].txid {
      g', last', err := MarkWinner(g0, g, snaps, cs, done, h, lastBlockHash);
      assert err.Some? ==> err.value == UnboundBlockHash(h);
    } else {
      g', err := MarkLoser(g0, g, snaps, cs, done, h);
      last' := lastBlockHash;
    }
    AssignStep(g0, snaps, cs, done, h);
  }

  /** The winner branch: mark it won, a potential tip, at the snapshot's Stacks
      height; its parent stops being a potential tip; a processed winner gets its
      earnings and costs. */
  method MarkWinner(ghost g0: Graph, g: Graph, snaps: map<nat, Snapshot>, cs: ChainState,
                    ghost done: set<Hash>, h: Hash, lastBlockHash: Option<string>)
    returns (g': Graph, last': Option<string>, err: Option<MarkError>)
    requires Valid(g0) && Unmarked(g0) && ParentsPrecede(g0)
    requires h in g0.commits && h !in done && g0.commits[h].burnBlockHeight in snaps
    requires Frontier(g0, done, g0.commits[h].burnBlockHeight)
    requires State(g0, g, snaps, cs, done)
    requires Wins(g0, snaps, h)
    requires lastBlockHash == LastAssigned(g0, snaps, cs, Preceding(g0, h))
    ensures err.None? ==> State(g0, g', snaps, cs, done + {h})
    ensures err.None? || err == Some(UnboundBlockHash(h))
    ensures err == Some(UnboundBlockHash(h)) <==>
              var snap := snaps[g0.commits[h].burnBlockHeight];
              snap.stacksBlockHeight > 0 && snap.consensusHash !in cs.payments && lastBlockHash.None?
    ensures var snap := snaps[g0.commits[h].burnBlockHeight];
            last' == if snap.stacksBlockHeight > 0 && snap.consensusHash in cs.payments
                     then Some(cs.payments[snap.consensusHash].blockHash) else lastBlockHash
  {
    assert g.commits[h] == g0.commits[h] && g0.commits[h].blockHeaderHash == h;
    ghost var c';
    g', last', err, c' := CrownWinner(g, h, snaps[g.commits[h].burnBlockHeight], cs, lastBlockHash);
    if err.None? {
      ProveWinnerStep(g0, g, g', snaps, cs, done, h, c');
    }
  }

  /** `commits` with the parent `par` (when present) no longer a potential tip. */
  function ClearParent(commits: map<Hash, Commit>, par: Option<Hash>): (r: map<Hash, Commit>)
    ensures r.Keys == commits.Keys
    ensures forall k | k in commits && Some(k) != par :: r[k] == commits[k]
    ensures par.Some? && par.value in commits ==> r[par.value] == commits[par.value].(potentialTip := false)
  {
    if par.Some? && par.value in commits then commits[par.value := commits[par.value].(potentialTip := false)]
    else commits
  }

  /** The updates `mark_canonical_blocks` makes for a winning commit `h` of snapshot `snap`. */
  method CrownWinner(g: Graph, h: Hash, snap: Snapshot, cs: ChainState, lastBlockHash: Option<string>)
    returns (g': Graph, last': Option<string>, err: Option<MarkError>, ghost c': Commit)
    requires h in g.commits
    ensures err.None? || err == Some(UnboundBlockHash(g.commits[h].blockHeaderHash))
    ensures err.Some? <==> snap.stacksBlockHeight > 0 && snap.consensusHash !in cs.payments && lastBlockHash.None?
    ensures last' == if snap.stacksBlockHeight > 0 && snap.consensusHash in cs.payments
                     then Some(cs.payments[snap.consensusHash].blockHash) else lastBlockHash
    ensures err.None? ==> g' == Graph(g.order, ClearParent(g.commits, g.commits[h].parent)[h := c'])
    ensures err.None? ==> Crowned(g.commits[h], c', snap, cs, lastBlockHash)
  {
    var c := g.commits[h];
    var commits := g.commits;
    if c.parent.Some? && c.parent.value in commits {
      var p := c.parent.value;
      commits := commits[p := commits[p].(potentialTip := false)];
    }
    var winner;
    winner, last', err := CrownCommit(c, snap, cs, lastBlockHash);
    g', c' := g, winner;
    if err.None? {
      g' := Graph(g.order, commits[h := winner]);
    }
  }

  /** The winning commit `c` enriched from the chain state and flagged as won and a potential tip. */
  method CrownCommit(c: Commit, snap: Snapshot, cs: ChainState, lastBlockHash: Option<string>)
    returns (c': Commit, last': Option<string>, err: Option<MarkError>)
    ensures err.None? || err == Some(UnboundBlockHash(c.blockHeaderHash))
    ensures err.Some? <==> snap.stacksBlockHeight > 0 && snap.consensusHash !in cs.payments && lastBlockHash.None?
    ensures last' == if snap.stacksBlockHeight > 0 && snap.consensusHash in cs.payments
                     then Some(cs.payments[snap.consensusHash].blockHash) else lastBlockHash
    ensures err.None? ==> Crowned(c, c', snap, cs, lastBlockHash)
  {
    var enriched;
    enriched, last', err := Enrich(c, snap, cs, lastBlockHash);
    c' := enriched.(won := true, potentialTip := true, stacksHeight := Some(snap.stacksBlockHeight));
  }

  /** `c` is the winner `c0` after `mark_canonical_blocks` enriched and flagged it,
      with `last` the value of `block_hash` before. */
  ghost predicate Crowned(c0: Commit, c: Commit, snap: Snapshot, cs: ChainState, last: Option<string>) {
    && Enriched(c0, c, true, snap, cs, last)
    && c == c0.(won := true, potentialTip := true, stacksHeight := Some(snap.stacksBlockHeight),
                blockHash := c.blockHash, coinbaseEarned := c.coinbaseEarned,
                feesEarned := c.feesEarned, costs := c.costs)
  }

  /** The earnings and costs look-ups for a winner (Python lines 245-285):
      `lastBlockHash` is the function-local `block_hash` as left by earlier
      iterations, None while it is still unbound. */
  method Enrich(c: Commit, snap: Snapshot, cs: ChainState, lastBlockHash: Option<string>)
    returns (c': Commit, last': Option<string>, err: Option<MarkError>)
    ensures err.None? || err == Some(UnboundBlockHash(c.blockHeaderHash))
    ensures err.Some? <==>
              snap.stacksBlockHeight > 0 && snap.consensusHash !in cs.payments && lastBlockHash.None?
    ensures last' == if snap.stacksBlockHeight > 0 && snap.consensusHash in cs.payments
                     then Some(cs.payments[snap.consensusHash].blockHash) else lastBlockHash
    ensures err.None? ==> Enriched(c, c', true, snap, cs, lastBlockHash)
    ensures err.None? ==> c' == c.(blockHash := c'.blockHash, coinbaseEarned := c'.coinbaseEarned,
                                   feesEarned := c'.feesEarned, costs := c'.costs)
  {
    c', last', err := c, lastBlockHash, None;
    if snap.stacksBlockHeight > 0 {
      if snap.consensusHash in cs.payments {
        var pay := cs.payments[snap.consensusHash];
        last' := Some(pay.blockHash);
        c' := c'.(blockHash := Some(pay.blockHash), coinbaseEarned := pay.coinbase,
                  feesEarned := pay.txFeesAnchored + pay.txFeesStreamed);
      }
      if last'.None? {
        err := Some(UnboundBlockHash(c.blockHeaderHash));
        return;
      }
      if last'.value in cs.headers {
        c' := c'.(costs := cs.headers[last'.value]);
      }
    }
  }

  /** A winner marked as the Python code marks it satisfies `Marked`. */
  lemma WinnerMarked(g0: Graph, snaps: map<nat, Snapshot>, cs: ChainState, done: set<Hash>, h: Hash, c: Commit)
    requires Valid(g0) && ParentsPrecede(g0) && h in g0.commits && h !in done && g0.commits[h].burnBlockHeight in snaps
    requires Frontier(g0, done, g0.commits[h].burnBlockHeight)
    requires Wins(g0, snaps, h)
    requires Enriched(g0.commits[h], c, true, snaps[g0.commits[h].burnBlockHeight], cs,
                      LastAssigned(g0, snaps, cs, Preceding(g0, h)))
    requires c == g0.commits[h].(won := true, potentialTip := true,
                                 stacksHeight := Some(snaps[g0.commits[h].burnBlockHeight].stacksBlockHeight),
                                 blockHash := c.blockHash, coinbaseEarned := c.coinbaseEarned,
                                 feesEarned := c.feesEarned, costs := c.costs)
    ensures Marked(g0, snaps, cs, done + {h}, h, c)
  {
    NoChildYet(g0, snaps, done, h);
  }

  /** Any other commit: with a parent in the window it is placed one Stacks block
      above that parent (raising when the parent has no Stacks height). */
  method MarkLoser(ghost g0: Graph, g: Graph, snaps: map<nat, Snapshot>, cs: ChainState,
                   ghost done: set<Hash>, h: Hash)
    returns (g': Graph, err: Option<MarkError>)
    requires Valid(g0) && Unmarked(g0) && ParentsPrecede(g0)
    requires h in g0.commits && h !in done && g0.commits[h].burnBlockHeight in snaps
    requires Frontier(g0, done, g0.commits[h].burnBlockHeight)
    requires State(g0, g, snaps, cs, done)
    requires !Wins(g0, snaps, h)
    ensures err.None? ==> State(g0, g', snaps, cs, done + {h})
    ensures err.None? || err == Some(ParentHeightNone(h))
    ensures err == Some(ParentHeightNone(h)) <==>
              g0.commits[h].parent.Some? && Provisional(g0, snaps, g0.commits[h].parent.value).None?
  {
    LoserParent(g0, g, snaps, cs, done, h);
    ghost var c';
    g', err, c' := SetLoserHeight(g, h);
    if err.None? {
      LoserMarkedIn(g0, g, snaps, cs, done, h, c');
      ProveOtherStep(g0, g, g', snaps, cs, done, h, c');
    }
  }

  /** The commit `SetLoserHeight` produces for a loser is marked. */
  lemma LoserMarkedIn(g0: Graph, g: Graph, snaps: map<nat, Snapshot>, cs: ChainState,
                      done: set<Hash>, h: Hash, c: Commit)
    requires Valid(g0) && Unmarked(g0) && ParentsPrecede(g0)
    requires h in g0.commits && g0.commits[h].burnBlockHeight in snaps && !Wins(g0, snaps, h)
    requires h in g.commits && g.commits[h] == g0.commits[h]
    requires var par := g.commits[h].parent;
             par.Some? ==> par.value in g0.commits && par.value in g.commits
                           && g.commits[par.value].stacksHeight == Provisional(g0, snaps, par.value)
    requires var par := g.commits[h].parent;
             !(par.Some? && par.value in g.commits && g.commits[par.value].stacksHeight.None?)
    requires var par := g.commits[h].parent;
             par.Some? && par.value in g.commits ==>
               c == g.commits[h].(stacksHeight := Some(g.commits[par.value].stacksHeight.value + 1))
    requires var par := g.commits[h].parent;
             !(par.Some? && par.value in g.commits) ==> c == g.commits[h]
    ensures Marked(g0, snaps, cs, done + {h}, h, c)
  {
    var par := g.commits[h].parent;
    LoserMarked(g0, snaps, cs, done, h, g.commits[h], if par.Some? then g.commits[par.value].stacksHeight else None, c);
  }

  /** A losing commit `h` takes the Stacks height after its parent's, when it has a parent in the window. */
  method SetLoserHeight(g: Graph, h: Hash) returns (g': Graph, err: Option<MarkError>, ghost c': Commit)
    requires h in g.commits
    ensures var par := g.commits[h].parent;
            err.Some? <==> par.Some? && par.value in g.commits && g.commits[par.value].stacksHeight.None?
    ensures err.None? || err == Some(ParentHeightNone(h))
    ensures err.None? ==> g' == Graph(g.order, g.commits[h := c'])
    ensures var par := g.commits[h].parent;
            err.None? && par.Some? && par.value in g.commits ==>
              c' == g.commits[h].(stacksHeight := Some(g.commits[par.value].stacksHeight.value + 1))
    ensures var par := g.commits[h].parent;
            !(par.Some? && par.value in g.commits) ==> c' == g.commits[h]
  {
    var c := g.commits[h];
    g', err, c' := g, None, c;
    if c.parent.Some? && c.parent.value in g.commits {
      var pc := g.commits[c.parent.value];
      if pc.stacksHeight.None? {
        err := Some(ParentHeightNone(h));
        return;
      }
      var loser := c.(stacksHeight := Some(pc.stacksHeight.value + 1));
      g', c' := Graph(g.order, g.commits[h := loser]), loser;
    }
    assert g.commits[h := c] == g.commits;
  }

  /** The parent of a commit at the frontier is already marked, with its provisional Stacks height. */
  lemma LoserParent(g0: Graph, g: Graph, snaps: map<nat, Snapshot>, cs: ChainState, done: set<Hash>, h: Hash)
    requires Valid(g0) && ParentsPrecede(g0)
    requires h in g0.commits && h !in done && Frontier(g0, done, g0.commits[h].burnBlockHeight)
    requires State(g0, g, snaps, cs, done)
    ensures h in g.commits && g.commits[h] == g0.commits[h]
    ensures var par := g.commits[h].parent;
            par.Some? ==> par.value in g0.commits && par.value in g.commits
                          && g.commits[par.value].stacksHeight == Provisional(g0, snaps, par.value)
  {
    if g0.commits[h].parent.Some? {
      var p := g0.commits[h].parent.value;
      assert p in done;
      assert Marked(g0, snaps, cs, done, p, g.commits[p]);
    }
  }

  /** A losing commit takes its parent's provisional Stacks height plus one, and nothing else changes. */
  lemma LoserMarked(g0: Graph, snaps: map<nat, Snapshot>, cs: ChainState, done: set<Hash>, h: Hash,
                    c0: Commit, parentHeight: Option<int>, c: Commit)
    requires Valid(g0) && Unmarked(g0) && ParentsPrecede(g0)
    requires h in g0.commits && g0.commits[h].burnBlockHeight in snaps
    requires !Wins(g0, snaps, h) && c0 == g0.commits[h]
    requires c0.parent.Some? ==>
               && parentHeight == Provisional(g0, snaps, c0.parent.value) && parentHeight.Some?
               && c == c0.(stacksHeight := Some(parentHeight.value + 1))
    requires c0.parent.None? ==> c == c0
    ensures Marked(g0, snaps, cs, done + {h}, h, c)
  {
  }

  /** Nothing processed so far builds on the commit being processed. */
  lemma NoChildYet(g0: Graph, snaps: map<nat, Snapshot>, done: set<Hash>, h: Hash)
    requires ParentsPrecede(g0) && h in g0.commits && h !in done
    requires Frontier(g0, done, g0.commits[h].burnBlockHeight)
    ensures NoWinningChild(g0, snaps, done + {h}, h)
  {
  }

  /** The marked state after the winner `h` has been marked as the Python code
      marks it (`c` is its new value; its parent loses `potentialTip`). */
  lemma ProveWinnerStep(g0: Graph, g: Graph, g': Graph, snaps: map<nat, Snapshot>, cs: ChainState,
                        done: set<Hash>, h: Hash, c: Commit)
    requires Valid(g0) && Unmarked(g0) && ParentsPrecede(g0)
    requires h in g0.commits && h !in done && g0.commits[h].burnBlockHeight in snaps
    requires Frontier(g0, done, g0.commits[h].burnBlockHeight)
    requires State(g0, g, snaps, cs, done)
    requires Wins(g0, snaps, h)
    requires Enriched(g0.commits[h], c, true, snaps[g0.commits[h].burnBlockHeight], cs,
                      LastAssigned(g0, snaps, cs, Preceding(g0, h)))
    requires c == g0.commits[h].(won := true, potentialTip := true,
                                 stacksHeight := Some(snaps[g0.commits[h].burnBlockHeight].stacksBlockHeight),
                                 blockHash := c.blockHash, coinbaseEarned := c.coinbaseEarned,
                                 feesEarned := c.feesEarned, costs := c.costs)
    requires g'.order == g.order
    requires g'.commits == (var par := g0.commits[h].parent;
                            if par.Some? && par.value in g.commits
                            then g.commits[par.value := g.commits[par.value].(potentialTip := false)]
                            else g.commits)[h := c]
    ensures State(g0, g', snaps, cs, done + {h})
  {
    WinnerMarked(g0, snaps, cs, done, h, c);
    forall k | k in g0.commits && k in done + {h}
      ensures Marked(g0, snaps, cs, done + {h}, k, g'.commits[k])
    {
      if k != h {
        assert Marked(g0, snaps, cs, done, k, g.commits[k]);
        if Some(k) == g0.commits[h].parent {
          ParentUnflagged(g0, snaps, cs, done, h, k, g.commits[k]);
        } else {
          MarkedStable(g0, snaps, cs, done, h, k, g.commits[k]);
        }
      }
    }
  }

  lemma ProveOtherStep(g0: Graph, g: Graph, g': Graph, snaps: map<nat, Snapshot>, cs: ChainState,
                       done: set<Hash>, h: Hash, c: Commit)
    requires Valid(g0) && Unmarked(g0) && ParentsPrecede(g0)
    requires h in g0.commits && h !in done && g0.commits[h].burnBlockHeight in snaps
    requires State(g0, g, snaps, cs, done)
    requires !Wins(g0, snaps, h)
    requires g' == Graph(g.order, g.commits[h := c])
    requires Marked(g0, snaps, cs, done + {h}, h, c)
    ensures State(g0, g', snaps, cs, done + {h})
  {
    forall k | k in g0.commits && k in done
      ensures Marked(g0, snaps, cs, done + {h}, k, g'.commits[k])
    {
      MarkedStable(g0, snaps, cs, done, h, k, g.commits[k]);
    }
  }

  /** The inner loop of one round: every commit of burn height `H`, in dictionary order. */
  method MarkRound(ghost g0: Graph, g: Graph, snaps: map<nat, Snapshot>, cs: ChainState, H: nat,
                   lastBlockHash: Option<string>, ghost done: set<Hash>)
    returns (g': Graph, last': Option<string>, err: Option<MarkError>, ghost done': set<Hash>)
    requires Valid(g0) && Unmarked(g0) && ParentsPrecede(g0) && H in snaps
    requires State(g0, g, snaps, cs, done)
    requires done <= g0.commits.Keys
    requires forall k :: k in g0.commits ==> (k in done <==> g0.commits[k].burnBlockHeight < H)
    requires lastBlockHash == LastAssigned(g0, snaps, cs, done)
    ensures done' <= g0.commits.Keys
    ensures err.None? ==> State(g0, g', snaps, cs, done') && last' == LastAssigned(g0, snaps, cs, done')
    ensures err.None? ==> forall k :: k in g0.commits ==> (k in done' <==> g0.commits[k].burnBlockHeight <= H)
    ensures err.Some? ==> RoundError(g0, snaps, cs, err.value)
  {
    g', last', err, done' := g, lastBlockHash, None, done;
    var i := 0;
    while i < |g.order|
      invariant 0 <= i <= |g.order| == |g0.order| && err.None?
      invariant RoundAt(g0, g', snaps, cs, H, i, last', done')
    {
      g', last', err, done' := RoundVisit(g0, g', snaps, cs, H, i, last', done');
      if err.Some? {
        return;
      }
      i := i + 1;
    }
    assert g0.order[..i] == g0.order;
  }

  /** The round loop over burn height `H` has visited the first `i` commits of
      the dictionary: the processed commits are those of earlier rounds and
      those of this round among the first `i`, and `last` is `block_hash`. */
  ghost predicate RoundAt(g0: Graph, g: Graph, snaps: map<nat, Snapshot>, cs: ChainState, H: nat, i: nat,
                          last: Option<string>, done: set<Hash>)
    requires Valid(g0) && ParentsPrecede(g0) && i <= |g0.order|
  {
    && State(g0, g, snaps, cs, done)
    && done <= g0.commits.Keys && last == LastAssigned(g0, snaps, cs, done)
    && forall k :: k in g0.commits ==>
         (k in done <==> g0.commits[k].burnBlockHeight < H
                         || (g0.commits[k].burnBlockHeight == H && k in g0.order[..i]))
  }

  /** One iteration of the round loop: the commit at position `i` is processed
      when it belongs to round `H`, and skipped otherwise. */
  method RoundVisit(ghost g0: Graph, g: Graph, snaps: map<nat, Snapshot>, cs: ChainState, H: nat, i: nat,
                    last: Option<string>, ghost done: set<Hash>)
    returns (g': Graph, last': Option<string>, err: Option<MarkError>, ghost done': set<Hash>)
    requires Valid(g0) && Unmarked(g0) && ParentsPrecede(g0) && H in snaps && i < |g0.order|
    requires RoundAt(g0, g, snaps, cs, H, i, last, done)
    ensures done' <= g0.commits.Keys
    ensures err.None? ==> RoundAt(g0, g', snaps, cs, H, i + 1, last', done')
    ensures err.Some? ==> RoundError(g0, snaps, cs, err.value)
  {
    g', last', err, done' := g, last, None, done;
    var h := g.order[i];
    RoundStep(g0, done, H, i);
    assert g.commits[h].burnBlockHeight == g0.commits[h].burnBlockHeight by {
      if h in done { assert Marked(g0, snaps, cs, done, h, g.commits[h]); }
    }
    if g.commits[h].burnBlockHeight == H {
      g', last', err := MarkCommit(g0, g, snaps, cs, done, h, last);
      if err.None? {
        done' := done + {h};
      }
    }
  }

  /** The bookkeeping of one step of the round loop: the commit at position `i`
      is unprocessed, the frontier holds, and adding it (when it belongs to the
      round) extends the processed prefix by one. */
  lemma RoundStep(g0: Graph, done: set<Hash>, H: nat, i: nat)
    requires Valid(g0) && i < |g0.order| && done <= g0.commits.Keys
    requires forall k :: k in g0.commits ==>
               (k in done <==> g0.commits[k].burnBlockHeight < H
                               || (g0.commits[k].burnBlockHeight == H && k in g0.order[..i]))
    ensures g0.order[i] in g0.commits
    ensures g0.commits[g0.order[i]].burnBlockHeight == H ==> g0.order[i] !in done
    ensures Frontier(g0, done, H)
    ensures g0.commits[g0.order[i]].burnBlockHeight == H ==> done == Preceding(g0, g0.order[i])
    ensures var h := g0.order[i];
            var done' := if g0.commits[h].burnBlockHeight == H then done + {h} else done;
            forall k :: k in g0.commits ==>
              (k in done' <==> g0.commits[k].burnBlockHeight < H
                               || (g0.commits[k].burnBlockHeight == H && k in g0.order[..i + 1]))
  {
    var h := g0.order[i];
    assert g0.order[..i + 1] == g0.order[..i] + [h];
    assert forall j :: 0 <= j < i ==> g0.order[..i][j] != h;
    if g0.commits[h].burnBlockHeight == H {
      assert Pos(g0, h) == i by { PosOf(g0, i); }
      forall k | k in g0.commits ensures k in done <==> Before(g0, k, h) {
        PosOf(g0, Pos(g0, k));
        if k in g0.order[..i] {
          var j :| 0 <= j < i && g0.order[..i][j] == k;
          PosOf(g0, j);
        }
      }
    }
  }

  /** The position of the commit at index `i` of the dictionary order is `i`. */
  lemma PosOf(g0: Graph, i: nat)
    requires Valid(g0) && i < |g0.order|
    ensures Pos(g0, g0.order[i]) == i
  {
    var j := Pos(g0, g0.order[i]);
    assert g0.order[j] == g0.order[i];
  }

  /** The conditions under which the rounds raise. */
  ghost predicate RoundError(g0: Graph, snaps: map<nat, Snapshot>, cs: ChainState, e: MarkError)
    requires Valid(g0) && ParentsPrecede(g0)
  {
    match e
    case ParentHeightNone(h) =>
      && h in g0.commits && g0.commits[h].burnBlockHeight in snaps
      && !Wins(g0, snaps, h) && g0.commits[h].parent.Some?
      && Provisional(g0, snaps, g0.commits[h].parent.value).None?
    case UnboundBlockHash(h) =>
      && h in g0.commits && Wins(g0, snaps, h)
      && snaps[g0.commits[h].burnBlockHeight].stacksBlockHeight > 0
      && snaps[g0.commits[h].burnBlockHeight].consensusHash !in cs.payments
      && LastAssigned(g0, snaps, cs, Preceding(g0, h)).None?
    case MissingSnapshot(x) =>
      x !in snaps && exists k :: k in g0.commits && g0.commits[k].burnBlockHeight == x
    case UnknownCanonicalTip(_) => false
  }

  // ---------------------------------------------------------------------------
  // The canonical path

  /** `h` and every commit reached from it by following parent links. */
  ghost function Ancestry(g0: Graph, h: Hash): set<Hash>
    requires ParentsPrecede(g0) && h in g0.commits
    decreases g0.commits[h].burnBlockHeight
  {
    {h} + match g0.commits[h].parent
          case None => {}
          case Some(p) => Ancestry(g0, p)
  }

  ghost function AncestryOf(g0: Graph, h: Option<Hash>): set<Hash>
    requires ParentsPrecede(g0) && (h.Some? ==> h.value in g0.commits)
  {
    if h.None? then {} else Ancestry(g0, h.value)
  }

  /** Every ancestor is a commit of the window no higher than where the walk started. */
  lemma {:induction false} AncestryBelow(g0: Graph, h: Hash, k: Hash)
    requires ParentsPrecede(g0) && h in g0.commits && k in Ancestry(g0, h)
    ensures k in g0.commits && g0.commits[k].burnBlockHeight <= g0.commits[h].burnBlockHeight
    decreases g0.commits[h].burnBlockHeight
  {
    if k != h {
      AncestryBelow(g0, g0.commits[h].parent.value, k);
    }
  }

  /** The ancestry of a commit's parent is closed under parents and does not contain it. */
  lemma {:induction false} AncestryClosed(g0: Graph, t: Hash, h: Hash)
    requires ParentsPrecede(g0) && t in g0.commits && h in Ancestry(g0, t)
    ensures h in g0.commits
    ensures g0.commits[h].parent.Some? ==> g0.commits[h].parent.value in Ancestry(g0, t)
    ensures h !in AncestryOf(g0, g0.commits[h].parent)
    decreases g0.commits[t].burnBlockHeight
  {
    AncestryBelow(g0, t, h);
    if h != t {
      AncestryClosed(g0, g0.commits[t].parent.value, h);
    }
    if g0.commits[h].parent.Some? && h in AncestryOf(g0, g0.commits[h].parent) {
      AncestryBelow(g0, g0.commits[h].parent.value, h);
    }
  }

  /** The state the marker leaves: every commit as its round left it (see `Marked`,
      with every commit processed), the declared tip flagged as the tip, and the
      canonical flag on exactly the tip's ancestry. */
  ghost predicate Final(g0: Graph, g: Graph, snaps: map<nat, Snapshot>, cs: ChainState, t: Hash)
    requires Valid(g0) && ParentsPrecede(g0)
  {
    && t in g0.commits
    && g.order == g0.order
    && g.commits.Keys == g0.commits.Keys
    && forall h :: h in g0.commits ==>
         && Marked(g0, snaps, cs, g0.commits.Keys, h, g.commits[h].(canonical := false, tip := false))
         && g.commits[h].canonical == (h in Ancestry(g0, t))
         && g.commits[h].tip == (h == t)
  }

  /** On success no winner read an unbound `block_hash`: a processed winner
      without a payments row comes after some commit that assigned it. */
  lemma FinalBlockHashBound(g0: Graph, g: Graph, snaps: map<nat, Snapshot>, cs: ChainState, t: Hash, h: Hash)
    requires Valid(g0) && ParentsPrecede(g0) && Final(g0, g, snaps, cs, t)
    requires h in g0.commits && Wins(g0, snaps, h)
    requires snaps[g0.commits[h].burnBlockHeight].stacksBlockHeight > 0
    requires snaps[g0.commits[h].burnBlockHeight].consensusHash !in cs.payments
    ensures exists k :: k in Preceding(g0, h) && Assigned(g0, snaps, cs, k).Some?
  {
    assert Marked(g0, snaps, cs, g0.commits.Keys, h, g.commits[h].(canonical := false, tip := false));
    LastAssignedNone(g0, snaps, cs, Preceding(g0, h));
  }

  /** What the walk has done so far: the tip is flagged, and the canonical flag is
      on the tip's ancestors except those still ahead of the walk at `cur`. */
  ghost predicate Walked(g0: Graph, gr: Graph, g: Graph, t: Hash, cur: Option<Hash>)
    requires ParentsPrecede(g0) && t in g0.commits && (cur.Some? ==> cur.value in g0.commits)
  {
    && g.order == gr.order && g.commits.Keys == gr.commits.Keys
    && forall k :: k in gr.commits ==>
         g.commits[k] == gr.commits[k].(canonical := k in Ancestry(g0, t) && k !in AncestryOf(g0, cur),
                                        tip := k == t)
  }

  /** `g` has the keys and parent links of `g0`. */
  ghost predicate SameLinks(g0: Graph, g: Graph) {
    && g.commits.Keys == g0.commits.Keys
    && forall k :: k in g0.commits ==> g.commits[k].parent == g0.commits[k].parent
  }

  lemma StateLinks(g0: Graph, g: Graph, snaps: map<nat, Snapshot>, cs: ChainState, done: set<Hash>)
    requires Valid(g0) && Unmarked(g0) && ParentsPrecede(g0) && State(g0, g, snaps, cs, done)
    ensures SameLinks(g0, g)
  {
    forall k | k in g0.commits ensures g.commits[k].parent == g0.commits[k].parent {
      if k in done {
        MarkedUnflagged(g0, snaps, cs, done, k, g.commits[k]);
      }
    }
  }

  /** Flag the tip, then walk parent links from it flagging every commit canonical. */
  method MarkCanonicalPath(ghost g0: Graph, ghost snaps: map<nat, Snapshot>, ghost cs: ChainState,
                           gr: Graph, t: Hash)
    returns (g: Graph)
    requires Valid(g0) && Unmarked(g0) && ParentsPrecede(g0) && t in g0.commits
    requires State(g0, gr, snaps, cs, g0.commits.Keys)
    ensures Final(g0, g, snaps, cs, t)
  {
    g := Graph(gr.order, gr.commits[t := gr.commits[t].(tip := true)]);
    var cur: Option<Hash> := Some(t);
    WalkStart(g0, snaps, cs, gr, g, t);
    StateLinks(g0, gr, snaps, cs, g0.commits.Keys);
    while cur.Some?
      invariant cur.Some? ==> cur.value in g0.commits && cur.value in Ancestry(g0, t)
      invariant SameLinks(g0, gr)
      invariant Walked(g0, gr, g, t, cur)
      decreases if cur.Some? then g0.commits[cur.value].burnBlockHeight + 1 else 0
    {
      var h := cur.value;
      var g' := Graph(g.order, g.commits[h := g.commits[h].(canonical := true)]);
      WalkStep(g0, gr, g, g', t, h);
      PathStep(g0, t, h);
      g := g';
      cur := g.commits[h].parent;
    }
    WalkEnd(g0, snaps, cs, gr, g, t);
  }

  lemma WalkStart(g0: Graph, snaps: map<nat, Snapshot>, cs: ChainState, gr: Graph, g: Graph, t: Hash)
    requires Valid(g0) && Unmarked(g0) && ParentsPrecede(g0) && t in g0.commits
    requires State(g0, gr, snaps, cs, g0.commits.Keys)
    requires g == Graph(gr.order, gr.commits[t := gr.commits[t].(tip := true)])
    ensures Walked(g0, gr, g, t, Some(t))
  {
    forall k | k in gr.commits
      ensures g.commits[k] == gr.commits[k].(canonical := k in Ancestry(g0, t) && k !in AncestryOf(g0, Some(t)),
                                             tip := k == t)
    {
      MarkedUnflagged(g0, snaps, cs, g0.commits.Keys, k, gr.commits[k]);
    }
  }

  /** Marking a commit never sets its tip or canonical flag, nor changes its parent. */
  lemma MarkedUnflagged(g0: Graph, snaps: map<nat, Snapshot>, cs: ChainState, done: set<Hash>, h: Hash, c: Commit)
    requires Valid(g0) && Unmarked(g0) && ParentsPrecede(g0) && h in g0.commits
    requires Marked(g0, snaps, cs, done, h, c)
    ensures !c.canonical && !c.tip && c.parent == g0.commits[h].parent
  {
  }

  lemma WalkStep(g0: Graph, gr: Graph, g: Graph, g': Graph, t: Hash, h: Hash)
    requires ParentsPrecede(g0) && t in g0.commits && h in g0.commits && h in Ancestry(g0, t)
    requires SameLinks(g0, gr) && Walked(g0, gr, g, t, Some(h))
    requires g' == Graph(g.order, g.commits[h := g.commits[h].(canonical := true)])
    ensures g'.commits[h].parent == g0.commits[h].parent
    ensures Walked(g0, gr, g', t, g0.commits[h].parent)
  {
    PathStep(g0, t, h);
    var next := g0.commits[h].parent;
    forall k | k in gr.commits
      ensures g'.commits[k] == gr.commits[k].(canonical := k in Ancestry(g0, t) && k !in AncestryOf(g0, next),
                                              tip := k == t)
    {
      WalkedEntry(g0, gr, g, g', t, h, k);
    }
  }

  lemma WalkedEntry(g0: Graph, gr: Graph, g: Graph, g': Graph, t: Hash, h: Hash, k: Hash)
    requires ParentsPrecede(g0) && t in g0.commits && h in g0.commits && h in Ancestry(g0, t)
    requires Walked(g0, gr, g, t, Some(h)) && k in gr.commits
    requires h !in AncestryOf(g0, g0.commits[h].parent) && h in g.commits
    requires g' == Graph(g.order, g.commits[h := g.commits[h].(canonical := true)])
    ensures g'.commits[k] == gr.commits[k].(canonical := k in Ancestry(g0, t) && k !in AncestryOf(g0, g0.commits[h].parent),
                                            tip := k == t)
  {
    if k != h {
      assert g'.commits[k] == g.commits[k];
      OffPath(g0, h, k);
    }
  }

  /** Below `h`, the ancestry of `h` and that of its parent agree. */
  lemma OffPath(g0: Graph, h: Hash, k: Hash)
    requires ParentsPrecede(g0) && h in g0.commits && k != h
    ensures (k in Ancestry(g0, h)) == (k in AncestryOf(g0, g0.commits[h].parent))
  {
  }

  /** The parent of a commit on the path from `t` is on that path too, and lower. */
  lemma PathStep(g0: Graph, t: Hash, h: Hash)
    requires ParentsPrecede(g0) && t in g0.commits && h in g0.commits && h in Ancestry(g0, t)
    ensures h !in AncestryOf(g0, g0.commits[h].parent)
    ensures g0.commits[h].parent.Some? ==>
              && g0.commits[h].parent.value in g0.commits
              && g0.commits[h].parent.value in Ancestry(g0, t)
              && g0.commits[g0.commits[h].parent.value].burnBlockHeight < g0.commits[h].burnBlockHeight
  {
    AncestryClosed(g0, t, h);
  }

  lemma WalkEnd(g0: Graph, snaps: map<nat, Snapshot>, cs: ChainState, gr: Graph, g: Graph, t: Hash)
    requires Valid(g0) && Unmarked(g0) && ParentsPrecede(g0) && t in g0.commits
    requires State(g0, gr, snaps, cs, g0.commits.Keys)
    requires Walked(g0, gr, g, t, None)
    ensures Final(g0, g, snaps, cs, t)
  {
    forall h | h in g0.commits
      ensures Marked(g0, snaps, cs, g0.commits.Keys, h, g.commits[h].(canonical := false, tip := false))
    {
      assert Marked(g0, snaps, cs, g0.commits.Keys, h, gr.commits[h]);
      assert g.commits[h].(canonical := false, tip := false) == gr.commits[h];
    }
  }

  /** Consecutive prefixes of an increasing sequence cut it at its `j`-th element. */
  lemma PrefixCut(hs: seq<nat>, j: nat, x: nat)
    requires Increasing(hs) && j < |hs| && x in hs
    ensures x in hs[..j] <==> x < hs[j]
    ensures x in hs[..j + 1] <==> x <= hs[j]
  {
    var i :| 0 <= i < |hs| && hs[i] == x;
    assert hs[..j + 1] == hs[..j] + [hs[j]];
    if i < j { assert hs[..j][i] == x; }
    if x in hs[..j] {
      var i' :| 0 <= i' < j && hs[..j][i'] == x;
      assert hs[i'] == x;
    }
  }

  /** Every burn height of the graph is among its sorted heights, and each height
      in the list belongs to some commit. */
  lemma SortedHeightsComplete(g0: Graph, hs: seq<nat>)
    requires Valid(g0) && hs == SortedHeights(g0.order, g0.commits)
    ensures forall k :: k in g0.commits ==> g0.commits[k].burnBlockHeight in hs
    ensures forall x :: x in hs ==> exists k :: k in g0.commits && g0.commits[k].burnBlockHeight == x
  {
    forall k | k in g0.commits ensures g0.commits[k].burnBlockHeight in hs {
      var i :| 0 <= i < |g0.order| && g0.order[i] == k;
    }
    forall x | x in hs ensures exists k :: k in g0.commits && g0.commits[k].burnBlockHeight == x {
      var i :| 0 <= i < |g0.order| && g0.commits[g0.order[i]].burnBlockHeight == x;
      assert g0.order[i] in g0.commits;
    }
  }

  lemma HeightsCut(g0: Graph, hs: seq<nat>, j: nat)
    requires Increasing(hs) && j < |hs|
    requires forall k :: k in g0.commits ==> g0.commits[k].burnBlockHeight in hs
    ensures forall k :: k in g0.commits ==>
              && (g0.commits[k].burnBlockHeight in hs[..j] <==> g0.commits[k].burnBlockHeight < hs[j])
              && (g0.commits[k].burnBlockHeight in hs[..j + 1] <==> g0.commits[k].burnBlockHeight <= hs[j])
  {
    forall k | k in g0.commits
      ensures g0.commits[k].burnBlockHeight in hs[..j] <==> g0.commits[k].burnBlockHeight < hs[j]
      ensures g0.commits[k].burnBlockHeight in hs[..j + 1] <==> g0.commits[k].burnBlockHeight <= hs[j]
    {
      PrefixCut(hs, j, g0.commits[k].burnBlockHeight);
    }
  }

  /** The processed commits are exactly those whose burn height is among the
      first `j` sorted heights. */
  ghost predicate DoneUpTo(g0: Graph, hs: seq<nat>, j: nat, done: set<Hash>)
    requires j <= |hs|
  {
    && done <= g0.commits.Keys
    && forall k :: k in g0.commits ==> (k in done <==> g0.commits[k].burnBlockHeight in hs[..j])
  }

  /** One iteration of the loop over burn heights: look up the snapshot, then run the round. */
  method MarkHeight(ghost g0: Graph, g: Graph, snaps: map<nat, Snapshot>, cs: ChainState, hs: seq<nat>, j: nat,
                    lastBlockHash: Option<string>, ghost done: set<Hash>)
    returns (g': Graph, last': Option<string>, err: Option<MarkError>, ghost done': set<Hash>)
    requires Valid(g0) && Unmarked(g0) && ParentsPrecede(g0)
    requires hs == SortedHeights(g0.order, g0.commits) && j < |hs|
    requires State(g0, g, snaps, cs, done) && DoneUpTo(g0, hs, j, done)
    requires lastBlockHash == LastAssigned(g0, snaps, cs, done)
    ensures err.None? ==> State(g0, g', snaps, cs, done') && DoneUpTo(g0, hs, j + 1, done')
    ensures err.None? ==> last' == LastAssigned(g0, snaps, cs, done')
    ensures err.Some? ==> RoundError(g0, snaps, cs, err.value)
  {
    SortedHeightsComplete(g0, hs);
    var H := hs[j];
    if H !in snaps {
      assert H in hs;
      return g, lastBlockHash, Some(MissingSnapshot(H)), done;
    }
    HeightsCut(g0, hs, j);
    g', last', err, done' := MarkRound(g0, g, snaps, cs, H, lastBlockHash, done);
  }

  /** The loop over the burn heights of the window, ascending. */
  method MarkRounds(g0: Graph, snaps: map<nat, Snapshot>, cs: ChainState)
    returns (g: Graph, err: Option<MarkError>)
    requires Valid(g0) && Unmarked(g0) && ParentsPrecede(g0)
    ensures err.None? ==> State(g0, g, snaps, cs, g0.commits.Keys)
    ensures err.Some? ==> RoundError(g0, snaps, cs, err.value)
  {
    var hs := SortedHeights(g0.order, g0.commits);
    g, err := g0, None;
    ghost var done: set<Hash> := {};
    var last: Option<string> := None;
    LastAssignedNone(g0, snaps, cs, done);
    var j := 0;
    while j < |hs|
      invariant 0 <= j <= |hs| && err.None?
      invariant State(g0, g, snaps, cs, done) && DoneUpTo(g0, hs, j, done)
      invariant last == LastAssigned(g0, snaps, cs, done)
    {
      g, last, err, done := MarkHeight(g0, g, snaps, cs, hs, j, last, done);
      if err.Some? {
        return;
      }
      j := j + 1;
    }
    AllDone(g0, hs, done);
  }

  lemma AllDone(g0: Graph, hs: seq<nat>, done: set<Hash>)
    requires Valid(g0) && hs == SortedHeights(g0.order, g0.commits) && DoneUpTo(g0, hs, |hs|, done)
    ensures done == g0.commits.Keys
  {
    SortedHeightsComplete(g0, hs);
    assert hs[..|hs|] == hs;
  }

  /** mark_canonical_blocks: the rounds in ascending burn height, then the canonical
      path from the tip the snapshot at `startBlock` declares. `snaps` stands for
      the `snapshots` table and `cs` for the chain state tables. */
  method MarkCanonicalBlocks(g0: Graph, snaps: map<nat, Snapshot>, cs: ChainState, startBlock: nat)
    returns (g: Graph, result: Result<Hash, MarkError>)
    requires Valid(g0) && Unmarked(g0) && ParentsPrecede(g0)
    ensures result.Ok? ==>
              && startBlock in snaps && result.value == snaps[startBlock].canonicalStacksTipHash
              && Final(g0, g, snaps, cs, result.value)
    ensures result.Err? ==>
              match result.error
              case MissingSnapshot(x) =>
                x !in snaps && (x == startBlock || exists k :: k in g0.commits && g0.commits[k].burnBlockHeight == x)
              case UnknownCanonicalTip(t) =>
                startBlock in snaps && t == snaps[startBlock].canonicalStacksTipHash && t !in g0.commits
              case _ => RoundError(g0, snaps, cs, result.error)
  {
    var err;
    g, err := MarkRounds(g0, snaps, cs);
    if err.Some? {
      return g, Err(err.value);
    }
    if startBlock !in snaps {
      return g, Err(MissingSnapshot(startBlock));
    }
    var tip := snaps[startBlock].canonicalStacksTipHash;
    if |tip| == 0 || tip !in g.commits {
      return g, Err(UnknownCanonicalTip(tip));
    }
    g := MarkCanonicalPath(g0, snaps, cs, g, tip);
    result := Ok(tip);
  }
}
