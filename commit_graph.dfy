/** The commit graph builder: one pass over the block-commit records of a window,
    sorted by ascending burn height, producing the commits keyed by header hash
    (in Python dict insertion order) and the total spend per sortition. */
module CommitGraph {
  import opened Common

  /** One row of the `block_commits` query. */
  datatype Record = Record(
    blockHeaderHash: Hash,
    txid: string,
    apparentSender: string,
    sortitionId: string,
    vtxindex: nat,
    blockHeight: nat,
    burnFee: int,
    parentBlockPtr: nat,
    parentVtxindex: nat)

  /** The execution costs of a processed block, all zero until enrichment. */
  datatype Costs = Costs(
    readLength: int, readCount: int, writeLength: int, writeCount: int,
    runtime: int, blockSize: int)

  const ZeroCosts := Costs(0, 0, 0, 0, 0, 0)

  /** A block commit with the enrichment fields the canonical marker and the fork
      scorer set later. */
  datatype Commit = Commit(
    blockHeaderHash: Hash,
    txid: string,
    sender: string,
    burnBlockHeight: nat,
    spend: int,
    sortitionId: string,
    parent: Option<Hash>,
    stacksHeight: Option<int>,
    blockHash: Option<string>,
    won: bool,
    canonical: bool,
    tip: bool,
    coinbaseEarned: int,
    feesEarned: int,
    costs: Costs,
    potentialTip: bool,
    nextTip: bool)

  /** An insertion-ordered dictionary from header hash to commit: `order` lists
      every key once, in the order it was first inserted. */
  datatype Graph = Graph(order: seq<Hash>, commits: map<Hash, Commit>)

  predicate Distinct(s: seq<Hash>) {
    forall i, j :: 0 <= i < j < |s| ==> s[i] != s[j]
  }

  predicate Valid(g: Graph) {
    && Distinct(g.order)
    && (forall h :: h in g.commits ==> h in g.order)
    && (forall i :: 0 <= i < |g.order| ==> g.order[i] in g.commits)
    && (forall h :: h in g.commits ==> g.commits[h].blockHeaderHash == h)
  }

  /** Parent links point to a commit of the window with a strictly lower burn height. */
  predicate ParentsPrecede(g: Graph) {
    forall h :: h in g.commits && g.commits[h].parent.Some? ==>
      && g.commits[h].parent.value in g.commits
      && g.commits[g.commits[h].parent.value].burnBlockHeight < g.commits[h].burnBlockHeight
  }

  /** No enrichment has happened yet: the state right after the builder. */
  predicate Unmarked(g: Graph) {
    forall h :: h in g.commits ==>
      var c := g.commits[h];
      && c.stacksHeight == None && c.blockHash == None
      && !c.won && !c.canonical && !c.tip && !c.potentialTip && !c.nextTip
      && c.coinbaseEarned == 0 && c.feesEarned == 0 && c.costs == ZeroCosts
  }

  /** The `(height, vtxindex)` key a record is indexed under. */
  function Key(r: Record): (nat, nat) {
    (r.blockHeight, r.vtxindex)
  }

  /** The key a record's parent is looked up under. */
  function ParentKey(r: Record): (nat, nat) {
    (r.parentBlockPtr, r.parentVtxindex)
  }

  function Lookup(m: map<(nat, nat), Hash>, k: (nat, nat)): Option<Hash> {
    if k in m then Some(m[k]) else None
  }

  /** A fresh commit for a record: the sender loses its surrounding quotes and the
      burn fee becomes the spend. */
  function NewCommit(r: Record, parent: Option<Hash>): (c: Commit)
    ensures c.blockHeaderHash == r.blockHeaderHash && c.burnBlockHeight == r.blockHeight
    ensures c.spend == r.burnFee && c.parent == parent && c.txid == r.txid
    ensures c.sender == StripQuotes(r.apparentSender) && c.sortitionId == r.sortitionId
    ensures c.stacksHeight.None? && c.blockHash.None? && c.costs == ZeroCosts
    ensures c.coinbaseEarned == 0 && c.feesEarned == 0
    ensures !c.won && !c.canonical && !c.tip && !c.potentialTip && !c.nextTip
  {
    Commit(r.blockHeaderHash, r.txid, StripQuotes(r.apparentSender), r.blockHeight,
           r.burnFee, r.sortitionId, parent, None, None, false, false, false, 0, 0,
           ZeroCosts, false, false)
  }

  /** The `(height, vtxindex) -> hash` index after scanning `rs`. */
  function Index(rs: seq<Record>): map<(nat, nat), Hash> {
    if rs == [] then map[]
    else Index(rs[..|rs| - 1])[Key(rs[|rs| - 1]) := rs[|rs| - 1].blockHeaderHash]
  }

  /** The parent the builder resolves for record `i`: a look-up in the index of
      the records scanned before it. */
  function ResolveParent(rs: seq<Record>, i: nat): Option<Hash>
    requires i < |rs|
  {
    Lookup(Index(rs[..i]), ParentKey(rs[i]))
  }

  /** The commits dictionary after scanning `rs`. */
  function Build(rs: seq<Record>): Graph
  {
    if rs == [] then Graph([], map[])
    else
      var prev := Build(rs[..|rs| - 1]);
      var r := rs[|rs| - 1];
      var c := NewCommit(r, ResolveParent(rs, |rs| - 1));
      Graph(if r.blockHeaderHash in prev.commits then prev.order else prev.order + [r.blockHeaderHash],
            prev.commits[r.blockHeaderHash := c])
  }

  /** The per-sortition totals dictionary after scanning `rs`. */
  function Sats(rs: seq<Record>): map<string, int> {
    if rs == [] then map[]
    else
      var prev := Sats(rs[..|rs| - 1]);
      var r := rs[|rs| - 1];
      prev[r.sortitionId := (if r.sortitionId in prev then prev[r.sortitionId] else 0) + r.burnFee]
  }

  /** The sum of the burn fees of the records of sortition `s`, front to back. */
  function SumFees(rs: seq<Record>, s: string): int {
    if rs == [] then 0
    else (if rs[0].sortitionId == s then rs[0].burnFee else 0) + SumFees(rs[1..], s)
  }

  /** get_block_commits_with_parents, from the point where the query result is in hand. */
  method BuildCommitGraph(records: seq<Record>) returns (g: Graph, sortitionSats: map<string, int>)
    ensures g == Build(records) && sortitionSats == Sats(records)
  {
    var parentHashes: map<(nat, nat), Hash> := map[];
    var order: seq<Hash> := [];
    var commits: map<Hash, Commit> := map[];
    sortitionSats := map[];
    var i := 0;
    while i < |records|
      invariant 0 <= i <= |records|
      invariant parentHashes == Index(records[..i])
      invariant Graph(order, commits) == Build(records[..i])
      invariant sortitionSats == Sats(records[..i])
    {
      var r := records[i];
      assert records[..i + 1][..i] == records[..i];
      var parent := Lookup(parentHashes, ParentKey(r));
      if r.blockHeaderHash !in commits {
        order := order + [r.blockHeaderHash];
      }
      commits := commits[r.blockHeaderHash := NewCommit(r, parent)];
      parentHashes := parentHashes[Key(r) := r.blockHeaderHash];
      var sofar := if r.sortitionId in sortitionSats then sortitionSats[r.sortitionId] else 0;
      sortitionSats := sortitionSats[r.sortitionId := sofar + r.burnFee];
      i := i + 1;
    }
    assert records[..i] == records;
    g := Graph(order, commits);
  }

  // ---------------------------------------------------------------------------
  // What the builder computes

  /** The dictionary is well formed and nothing in it is marked yet. */
  lemma {:induction false} BuildValid(rs: seq<Record>)
    ensures Valid(Build(rs)) && Unmarked(Build(rs))
  {
    if rs != [] {
      BuildValid(rs[..|rs| - 1]);
    }
  }

  /** The index holds a key exactly when some scanned record has that key, and
      then it holds the hash of the LAST such record: a later duplicate key shadows
      the earlier one. */
  lemma {:induction false} IndexIsLatest(rs: seq<Record>, k: (nat, nat))
    ensures k in Index(rs) <==> exists j :: 0 <= j < |rs| && Key(rs[j]) == k
    ensures forall j :: 0 <= j < |rs| && Key(rs[j]) == k
                        && (forall j' :: j < j' < |rs| ==> Key(rs[j']) != k)
                        ==> k in Index(rs) && Index(rs)[k] == rs[j].blockHeaderHash
  {
    IndexKeys(rs, k);
    forall j | 0 <= j < |rs| && Key(rs[j]) == k && (forall j' :: j < j' < |rs| ==> Key(rs[j']) != k)
      ensures k in Index(rs) && Index(rs)[k] == rs[j].blockHeaderHash
    {
      IndexLatest(rs, k, j);
    }
  }

  /** A key is in the index exactly when some scanned record has it. */
  lemma {:induction false} IndexKeys(rs: seq<Record>, k: (nat, nat))
    ensures k in Index(rs) <==> exists j :: 0 <= j < |rs| && Key(rs[j]) == k
  {
    if rs != [] {
      var n := |rs| - 1;
      IndexKeys(rs[..n], k);
      if k in Index(rs[..n]) {
        var j :| 0 <= j < n && Key(rs[..n][j]) == k;
        assert Key(rs[j]) == k;
      }
      if exists j :: 0 <= j < |rs| && Key(rs[j]) == k {
        var j :| 0 <= j < |rs| && Key(rs[j]) == k;
        if j < n { assert Key(rs[..n][j]) == k; }
      }
    }
  }

  /** The last scanned record with a key is the one the index holds for it. */
  lemma {:induction false} IndexLatest(rs: seq<Record>, k: (nat, nat), j: nat)
    requires j < |rs| && Key(rs[j]) == k
    requires forall j' :: j < j' < |rs| ==> Key(rs[j']) != k
    ensures k in Index(rs) && Index(rs)[k] == rs[j].blockHeaderHash
  {
    var n := |rs| - 1;
    if j < n {
      assert Key(rs[..n][j]) == k;
      assert forall j' :: j < j' < n ==> Key(rs[..n][j']) != k;
      IndexLatest(rs[..n], k, j);
    }
  }

  /** Every hash in the index belongs to a scanned record indexed under that key. */
  lemma {:induction false} IndexValues(rs: seq<Record>, k: (nat, nat))
    requires k in Index(rs)
    ensures exists j :: 0 <= j < |rs| && Key(rs[j]) == k && rs[j].blockHeaderHash == Index(rs)[k]
  {
    var n := |rs| - 1;
    if Key(rs[n]) != k {
      IndexValues(rs[..n], k);
      var j :| 0 <= j < n && Key(rs[..n][j]) == k && rs[..n][j].blockHeaderHash == Index(rs[..n])[k];
      assert Key(rs[j]) == k && rs[j].blockHeaderHash == Index(rs)[k];
    }
  }

  /** The dictionary has one entry per distinct header hash of the scanned records. */
  lemma {:induction false} BuildKeys(rs: seq<Record>, h: Hash)
    ensures h in Build(rs).commits <==> exists j :: 0 <= j < |rs| && rs[j].blockHeaderHash == h
  {
    if rs != [] {
      var n := |rs| - 1;
      BuildKeys(rs[..n], h);
      if h in Build(rs[..n]).commits {
        var j :| 0 <= j < n && rs[..n][j].blockHeaderHash == h;
        assert rs[j].blockHeaderHash == h;
      }
      if exists j :: 0 <= j < |rs| && rs[j].blockHeaderHash == h {
        var j :| 0 <= j < |rs| && rs[j].blockHeaderHash == h;
        if j < n { assert rs[..n][j].blockHeaderHash == h; }
      }
    }
  }

  /** The entry for a hash is the commit built from the LAST record carrying it,
      with the parent resolved against the records scanned before that record. */
  lemma {:induction false} BuildEntry(rs: seq<Record>, j: nat)
    requires j < |rs|
    requires forall j' :: j < j' < |rs| ==> rs[j'].blockHeaderHash != rs[j].blockHeaderHash
    ensures rs[j].blockHeaderHash in Build(rs).commits
    ensures Build(rs).commits[rs[j].blockHeaderHash] == NewCommit(rs[j], ResolveParent(rs, j))
  {
    var n := |rs| - 1;
    if j < n {
      var rs' := rs[..n];
      assert rs'[j] == rs[j];
      assert forall j' :: j < j' < n ==> rs'[j'].blockHeaderHash != rs[j].blockHeaderHash;
      BuildEntry(rs', j);
      assert rs'[..j] == rs[..j];
    }
  }

  lemma {:induction false} SumFeesAppend(rs: seq<Record>, r: Record, s: string)
    ensures SumFees(rs + [r], s) == SumFees(rs, s) + (if r.sortitionId == s then r.burnFee else 0)
  {
    if rs != [] {
      assert (rs + [r])[1..] == rs[1..] + [r];
      SumFeesAppend(rs[1..], r, s);
    }
  }

  /** Round totals: a sortition has a total exactly when some record belongs to
      it, and the total is the sum of the burn fees of all its records. */
  lemma {:induction false} SatsAreSums(rs: seq<Record>, s: string)
    ensures s in Sats(rs) <==> exists j :: 0 <= j < |rs| && rs[j].sortitionId == s
    ensures s in Sats(rs) ==> Sats(rs)[s] == SumFees(rs, s)
  {
    if rs != [] {
      var n := |rs| - 1;
      SatsAreSums(rs[..n], s);
      SumFeesAppend(rs[..n], rs[n], s);
      assert rs[..n] + [rs[n]] == rs;
      if s in Sats(rs[..n]) {
        var j :| 0 <= j < n && rs[..n][j].sortitionId == s;
        assert rs[j].sortitionId == s;
      } else {
        SumFeesNone(rs[..n], s);
      }
      if exists j :: 0 <= j < |rs| && rs[j].sortitionId == s {
        var j :| 0 <= j < |rs| && rs[j].sortitionId == s;
        if j < n { assert rs[..n][j].sortitionId == s; }
      }
    }
  }

  lemma {:induction false} SumFeesNone(rs: seq<Record>, s: string)
    requires forall j :: 0 <= j < |rs| ==> rs[j].sortitionId != s
    ensures SumFees(rs, s) == 0
  {
    if rs != [] {
      SumFeesNone(rs[1..], s);
    }
  }

  predicate UniqueHashes(rs: seq<Record>) {
    forall i, j :: 0 <= i < j < |rs| ==> rs[i].blockHeaderHash != rs[j].blockHeaderHash
  }

  /** Every record points at a strictly earlier burn block, as the chain requires. */
  predicate ParentPtrsBackwards(rs: seq<Record>) {
    forall i :: 0 <= i < |rs| ==> rs[i].parentBlockPtr < rs[i].blockHeight
  }

  /** With distinct header hashes and parent pointers into earlier burn blocks, the
      builder yields a graph whose parent links stay in the window and go strictly
      down in burn height, so following them always ends at a window root. */
  lemma BuildParentsPrecede(rs: seq<Record>)
    requires UniqueHashes(rs) && ParentPtrsBackwards(rs)
    ensures ParentsPrecede(Build(rs))
  {
    var g := Build(rs);
    forall h | h in g.commits && g.commits[h].parent.Some?
      ensures g.commits[h].parent.value in g.commits
      ensures g.commits[g.commits[h].parent.value].burnBlockHeight < g.commits[h].burnBlockHeight
    {
      BuildKeys(rs, h);
      var j :| 0 <= j < |rs| && rs[j].blockHeaderHash == h;
      BuildEntry(rs, j);
      var p := g.commits[h].parent.value;
      assert ResolveParent(rs, j) == Some(p);
      IndexValues(rs[..j], ParentKey(rs[j]));
      var i :| 0 <= i < j && Key(rs[..j][i]) == ParentKey(rs[j]) && rs[..j][i].blockHeaderHash == p;
      assert rs[i].blockHeaderHash == p;
      BuildKeys(rs, p);
      BuildEntry(rs, i);
    }
  }
}
