/** The mining simulator: honest miners extend the longest chain, colluding
    miners extend their own tip until it falls more than `gap` blocks behind. */
module MinerSim {
  import opened Common

  /** A simulated block; `id` is its index in the chain's list of blocks. */
  datatype Block = Block(id: nat, minerId: string, parent: Option<nat>, height: nat)

  const Genesis: Block := Block(0, "genesis", None, 0)

  /** A side branch from `base` (on the branch's ancestry) up to `tip`. */
  datatype Fork = Fork(base: Block, tip: Block)

  function Depth(f: Fork): int {
    f.tip.height - f.base.height
  }

  /** Block 0 is the genesis; every later block points to an earlier one and sits one above it. */
  ghost predicate WellFormed(blocks: seq<Block>) {
    && |blocks| >= 1
    && blocks[0] == Genesis
    && forall i {:trigger blocks[i].parent} | 0 < i < |blocks| ::
      && blocks[i].id == i
      && blocks[i].parent.Some?
      && blocks[i].parent.value < i
      && blocks[i].height == blocks[blocks[i].parent.value].height + 1
  }

  /** The ids met walking from block `i` through the parent links: `i` first, genesis last. */
  ghost function Chain(blocks: seq<Block>, i: nat): (c: seq<nat>)
    requires WellFormed(blocks) && i < |blocks|
    ensures forall j | 0 <= j < |c| :: c[j] <= i
    decreases i
  {
    if i == 0 then [0] else [i] + Chain(blocks, blocks[i].parent.value)
  }

  /** The walk from a block has one entry per height and ends at genesis. */
  lemma {:induction false} ChainShape(blocks: seq<Block>, i: nat)
    requires WellFormed(blocks) && i < |blocks|
    ensures |Chain(blocks, i)| == blocks[i].height + 1
    ensures Chain(blocks, i)[0] == i && Chain(blocks, i)[|Chain(blocks, i)| - 1] == 0
    ensures forall a :: a in Chain(blocks, i) ==> a <= i && (a != i ==> blocks[a].height < blocks[i].height)
    decreases i
  {
    if i > 0 {
      ChainShape(blocks, blocks[i].parent.value);
    }
  }

  /** Appending a block does not change the walk from an existing block. */
  lemma {:induction false} ChainAppend(blocks: seq<Block>, b: Block, i: nat)
    requires WellFormed(blocks) && WellFormed(blocks + [b]) && i < |blocks|
    ensures Chain(blocks + [b], i) == Chain(blocks, i)
    decreases i
  {
    if i > 0 {
      ChainAppend(blocks, b, blocks[i].parent.value);
    }
  }

  /** `tip` has the greatest height, and is the first block to reach it. */
  ghost predicate TipMaximal(blocks: seq<Block>, tip: nat) {
    && tip < |blocks|
    && (forall i | 0 <= i < |blocks| :: blocks[i].height <= blocks[tip].height)
    && (forall i | 0 <= i < tip :: blocks[i].height < blocks[tip].height)
  }

  /** Each recorded fork is keyed by its tip, and its base is a block strictly below that tip on its walk. */
  ghost predicate ForksRecorded(blocks: seq<Block>, forks: map<nat, Fork>)
    requires WellFormed(blocks)
  {
    forall k | k in forks :: ForkEntry(blocks, k, forks[k])
  }

  ghost predicate ForkEntry(blocks: seq<Block>, k: nat, f: Fork)
    requires WellFormed(blocks)
  {
    && k < |blocks|
    && f.tip == blocks[k]
    && f.base.id < k
    && blocks[f.base.id] == f.base
    && f.base.id in Chain(blocks, k)
  }

  /** Every recorded fork is at least one block deep. */
  lemma ForkDepthPositive(blocks: seq<Block>, forks: map<nat, Fork>, k: nat)
    requires WellFormed(blocks) && ForksRecorded(blocks, forks) && k in forks
    ensures Depth(forks[k]) >= 1
  {
    assert ForkEntry(blocks, k, forks[k]);
    ChainShape(blocks, k);
  }

  /** `get_longest_colluding_chain`: the colluding tip, unless it is more than `gap` below the tip. */
  function ColludingParent(blocks: seq<Block>, tip: nat, colludingTip: nat, gap: int): (p: nat)
    requires tip < |blocks| && colludingTip < |blocks|
    ensures p == tip || p == colludingTip
    ensures p != tip ==> blocks[tip].height <= blocks[colludingTip].height + gap
    ensures blocks[tip].height > blocks[colludingTip].height + gap ==> p == tip
    ensures blocks[tip].height <= blocks[colludingTip].height + gap ==> p == colludingTip
  {
    if blocks[tip].height > blocks[colludingTip].height + gap then tip else colludingTip
  }

  /** The fork table after block `n` (child of `parent`) is appended while `tip` is the tip. */
  function NextForks(blocks: seq<Block>, forks: map<nat, Fork>, tip: nat, parent: nat, b: Block): map<nat, Fork>
    requires parent < |blocks| && tip < |blocks|
  {
    if parent != tip && b.height <= blocks[tip].height then
      if parent in forks then (forks - {parent})[b.id := Fork(forks[parent].base, b)]
      else forks[b.id := Fork(blocks[parent], b)]
    else forks
  }

  /** The fields of a `Blockchain` as a value. */
  datatype ChainView = ChainView(blocks: seq<Block>, tip: nat, colludingTip: nat, forks: map<nat, Fork>)

  /** Both tips name blocks of the chain. */
  predicate TipsIn(v: ChainView) {
    v.tip < |v.blocks| && v.colludingTip < |v.blocks|
  }

  /** The block a miner with strategy `s` builds on in the chain `v`. */
  function Choose(v: ChainView, s: Strategy): (p: nat)
    requires TipsIn(v)
    ensures p < |v.blocks|
    ensures s.Honest? ==> p == v.tip
    ensures s.Colluding? ==> p == ColludingParent(v.blocks, v.tip, v.colludingTip, s.gap)
  {
    match s
    case Honest => v.tip
    case Colluding(gap) => ColludingParent(v.blocks, v.tip, v.colludingTip, gap)
  }

  /** The chain `v` after `add_block` appends a child of `parent` mined by `minerId`. */
  function Append(v: ChainView, minerId: string, colluding: bool, parent: nat): (v': ChainView)
    requires TipsIn(v) && parent < |v.blocks|
    ensures TipsIn(v') && v'.blocks == v.blocks + [Block(|v.blocks|, minerId, Some(parent), v.blocks[parent].height + 1)]
    ensures v'.forks == NextForks(v.blocks, v.forks, v.tip, parent, v'.blocks[|v.blocks|])
  {
    var n := |v.blocks|;
    var b := Block(n, minerId, Some(parent), v.blocks[parent].height + 1);
    ChainView(v.blocks + [b],
              if b.height > v.blocks[v.tip].height then n else v.tip,
              if colluding && b.height > v.blocks[v.colludingTip].height then n else v.colludingTip,
              NextForks(v.blocks, v.forks, v.tip, parent, b))
  }

  /** The chain's invariant: well formed, the tip maximal, the colluding tip a block, the forks recorded. */
  ghost predicate Sound(v: ChainView) {
    && WellFormed(v.blocks)
    && TipMaximal(v.blocks, v.tip)
    && v.colludingTip < |v.blocks|
    && ForksRecorded(v.blocks, v.forks)
  }

  /** The simulated chain (`Blockchain`); the Graphviz drawing is not modelled. */
  class Blockchain {
    var blocks: seq<Block>
    var tip: nat
    var colludingTip: nat
    var forks: map<nat, Fork>

    ghost predicate Valid()
      reads this
    {
      Sound(View())
    }

    constructor ()
      ensures Valid()
      ensures blocks == [Genesis] && tip == 0 && colludingTip == 0 && forks == map[]
    {
      blocks := [Genesis];
      tip := 0;
      colludingTip := 0;
      forks := map[];
    }

    function View(): (v: ChainView)
      reads this
      ensures v.blocks == blocks && v.tip == tip && v.colludingTip == colludingTip && v.forks == forks
    {
      ChainView(blocks, tip, colludingTip, forks)
    }

    /** `get_longest_chain` */
    function LongestChain(): (p: nat)
      reads this
      requires Valid()
      ensures p < |blocks| && forall i | 0 <= i < |blocks| :: blocks[i].height <= blocks[p].height
    {
      tip
    }

    /** `get_longest_colluding_chain` */
    function LongestColludingChain(gap: int): (p: nat)
      reads this
      requires Valid()
      ensures p < |blocks|
      ensures blocks[tip].height > blocks[colludingTip].height + gap ==> p == tip
      ensures blocks[tip].height <= blocks[colludingTip].height + gap ==> p == colludingTip
    {
      ColludingParent(blocks, tip, colludingTip, gap)
    }

    /** `add_block`: append a child of `parent` mined by `minerId`, then update forks and tips. */
    method AddBlock(minerId: string, colluding: bool, parent: nat)
      requires Valid() && parent < |blocks|
      modifies this
      ensures Valid()
      ensures View() == Append(old(View()), minerId, colluding, parent)
    {
      AppendSound(View(), minerId, colluding, parent);
      var v := Append(View(), minerId, colluding, parent);
      blocks, tip, colludingTip, forks := v.blocks, v.tip, v.colludingTip, v.forks;
    }

    /** The counts of `print_statistics`: how many blocks each miner has on the walk from the tip. */
    method IncludedBlocks(minerIds: seq<string>) returns (included: map<string, nat>)
      requires Valid()
      ensures Counted(blocks, Chain(blocks, tip), minerIds, included)
    {
      included := CountIncluded(blocks, tip, minerIds);
    }
  }

  /** The walk of `print_statistics` from block `tip` back to genesis, counting blocks per miner. */
  method CountIncluded(blocks: seq<Block>, tip: nat, minerIds: seq<string>) returns (included: map<string, nat>)
    requires WellFormed(blocks) && tip < |blocks|
    ensures Counted(blocks, Chain(blocks, tip), minerIds, included)
  {
    included := map m | m in minerIds :: 0;
    ghost var walked: seq<nat> := [];
    var cur: Option<nat> := Some(tip);
    WalkStart(blocks, tip, minerIds);
    while cur.Some?
      invariant Walking(blocks, tip, walked, cur)
      invariant Counted(blocks, walked, minerIds, included)
      decreases if cur.Some? then cur.value + 1 else 0
    {
      var block := blocks[cur.value];
      WalkStep(blocks, tip, walked, cur.value);
      CountedStep(blocks, walked, minerIds, included, cur.value);
      included := CountBlock(included, block.minerId);
      walked := walked + [cur.value];
      cur := block.parent;
    }
    WalkEnd(blocks, tip, walked, minerIds, included);
  }

  /** `included[m] += 1`, adding `m` with 0 first when it is missing. */
  function Bump(included: map<string, nat>, m: string): (r: map<string, nat>)
    ensures r.Keys == included.Keys + {m}
    ensures r[m] == (if m in included then included[m] else 0) + 1
    ensures forall k | k in included && k != m :: r[k] == included[k]
  {
    included[m := (if m in included then included[m] else 0) + 1]
  }

  method CountBlock(included: map<string, nat>, m: string) returns (included': map<string, nat>)
    ensures included' == Bump(included, m)
  {
    included' := included;
    if m !in included' {
      included' := included'[m := 0];
    }
    included' := included'[m := included'[m] + 1];
  }

  lemma WalkStart(blocks: seq<Block>, tip: nat, minerIds: seq<string>)
    requires WellFormed(blocks) && tip < |blocks|
    ensures Walking(blocks, tip, [], Some(tip))
    ensures Counted(blocks, [], minerIds, map m | m in minerIds :: 0)
  {
    assert [] + Chain(blocks, tip) == Chain(blocks, tip);
    assert Producers(blocks, []) == [];
  }

  lemma WalkEnd(blocks: seq<Block>, tip: nat, walked: seq<nat>, minerIds: seq<string>, included: map<string, nat>)
    requires Walking(blocks, tip, walked, None) && Counted(blocks, walked, minerIds, included)
    ensures Counted(blocks, Chain(blocks, tip), minerIds, included)
  {
    assert walked + [] == walked;
  }

  /** Walking from `tip`, the ids `walked` are behind and the walk from `cur` is ahead. */
  ghost predicate Walking(blocks: seq<Block>, tip: nat, walked: seq<nat>, cur: Option<nat>) {
    && WellFormed(blocks) && tip < |blocks|
    && (cur.Some? ==> cur.value < |blocks|)
    && (forall j | 0 <= j < |walked| :: walked[j] < |blocks|)
    && Chain(blocks, tip) == walked + (if cur.Some? then Chain(blocks, cur.value) else [])
  }

  lemma WalkStep(blocks: seq<Block>, tip: nat, walked: seq<nat>, i: nat)
    requires Walking(blocks, tip, walked, Some(i))
    ensures Walking(blocks, tip, walked + [i], blocks[i].parent)
  {
    if i > 0 {
      assert Chain(blocks, i) == [i] + Chain(blocks, blocks[i].parent.value);
    }
  }

  /** `included` counts, for the miners `minerIds` and every miner of `ids`, the blocks of `ids` each mined. */
  ghost predicate Counted(blocks: seq<Block>, ids: seq<nat>, minerIds: seq<string>, included: map<string, nat>) {
    && (forall j | 0 <= j < |ids| :: ids[j] < |blocks|)
    && (forall m :: m in included <==> m in minerIds || m in Producers(blocks, ids))
    && (forall m | m in included :: included[m] == multiset(Producers(blocks, ids))[m])
  }

  lemma CountedStep(blocks: seq<Block>, ids: seq<nat>, minerIds: seq<string>, included: map<string, nat>, i: nat)
    requires Counted(blocks, ids, minerIds, included) && i < |blocks|
    ensures Counted(blocks, ids + [i], minerIds, Bump(included, blocks[i].minerId))
  {
    ProducersSnoc(blocks, ids, i);
  }

  /** The miners of the blocks `ids`, in order. */
  ghost function Producers(blocks: seq<Block>, ids: seq<nat>): seq<string>
    requires forall j | 0 <= j < |ids| :: ids[j] < |blocks|
  {
    seq(|ids|, j requires 0 <= j < |ids| => blocks[ids[j]].minerId)
  }

  lemma ProducersSnoc(blocks: seq<Block>, ids: seq<nat>, i: nat)
    requires forall j | 0 <= j < |ids| :: ids[j] < |blocks|
    requires i < |blocks|
    ensures Producers(blocks, ids + [i]) == Producers(blocks, ids) + [blocks[i].minerId]
  {
  }

  /** The counts of the walk from the tip add up to one block per height, genesis included. */
  lemma IncludedTotal(blocks: seq<Block>, tip: nat)
    requires WellFormed(blocks) && tip < |blocks|
    ensures |multiset(Producers(blocks, Chain(blocks, tip)))| == blocks[tip].height + 1
    ensures multiset(Producers(blocks, Chain(blocks, tip)))["genesis"] >= 1
  {
    ChainShape(blocks, tip);
    var c := Chain(blocks, tip);
    assert Producers(blocks, c)[|c| - 1] == "genesis";
  }

  lemma ChainsKept(blocks: seq<Block>, b: Block)
    requires WellFormed(blocks) && WellFormed(blocks + [b])
    ensures forall i | 0 <= i < |blocks| :: Chain(blocks + [b], i) == Chain(blocks, i)
  {
    forall i | 0 <= i < |blocks|
      ensures Chain(blocks + [b], i) == Chain(blocks, i)
    {
      ChainAppend(blocks, b, i);
    }
  }

  /** A child of an existing block, one above it and numbered next, keeps the blocks well formed. */
  lemma AppendWellFormed(blocks: seq<Block>, parent: nat, b: Block)
    requires WellFormed(blocks) && parent < |blocks|
    requires b == Block(|blocks|, b.minerId, Some(parent), blocks[parent].height + 1)
    ensures WellFormed(blocks + [b])
  {
    var nb := blocks + [b];
    forall i | 0 < i < |nb|
      ensures nb[i].id == i && nb[i].parent.Some? && nb[i].parent.value < i
      ensures nb[i].height == nb[nb[i].parent.value].height + 1
    {
      if i < |blocks| {
        assert nb[i] == blocks[i];
      }
    }
  }

  /** `add_block` keeps every recorded fork well-founded, old and new. */
  lemma ForksKept(blocks: seq<Block>, forks: map<nat, Fork>, tip: nat, parent: nat, b: Block)
    requires WellFormed(blocks) && ForksRecorded(blocks, forks)
    requires parent < |blocks| && tip < |blocks|
    requires b == Block(|blocks|, b.minerId, Some(parent), blocks[parent].height + 1)
    requires WellFormed(blocks + [b])
    ensures ForksRecorded(blocks + [b], NextForks(blocks, forks, tip, parent, b))
  {
    var nb := blocks + [b];
    var nf := NextForks(blocks, forks, tip, parent, b);
    ChainsKept(blocks, b);
    assert Chain(nb, b.id) == [b.id] + Chain(blocks, parent);
    forall k | k in nf
      ensures ForkEntry(nb, k, nf[k])
    {
      if k == b.id {
        if parent != tip && b.height <= blocks[tip].height && parent in forks {
          assert ForkEntry(blocks, parent, forks[parent]);
        }
      } else {
        assert k in forks && nf[k] == forks[k];
        assert ForkEntry(blocks, k, forks[k]);
        assert nb[k] == blocks[k];
      }
    }
  }

  /** `add_block` keeps the chain's invariant: the blocks stay well formed, the tip
      stays maximal, and the fork table stays recorded. */
  lemma AppendSound(v: ChainView, minerId: string, colluding: bool, parent: nat)
    requires Sound(v) && parent < |v.blocks|
    ensures Sound(Append(v, minerId, colluding, parent))
  {
    var b := Block(|v.blocks|, minerId, Some(parent), v.blocks[parent].height + 1);
    var w := Append(v, minerId, colluding, parent);
    assert w.blocks == v.blocks + [b];
    assert WellFormed(w.blocks) by {
      AppendWellFormed(v.blocks, parent, b);
    }
    assert TipMaximal(w.blocks, w.tip) by {
      assert w.tip == if b.height > v.blocks[v.tip].height then |v.blocks| else v.tip;
    }
    assert ForksRecorded(w.blocks, w.forks) by {
      assert w.forks == NextForks(v.blocks, v.forks, v.tip, parent, b);
      ForksKept(v.blocks, v.forks, v.tip, parent, b);
    }
  }

  // ---------------------------------------------------------------------------
  // Miners

  function DigitChar(d: nat): char
    requires d < 10
  {
    "0123456789"[d]
  }

  /** `str(n)` for a natural number. */
  function Decimal(n: nat): (s: string)
    ensures |s| >= 1
    decreases n
  {
    if n < 10 then [DigitChar(n)] else Decimal(n / 10) + [DigitChar(n % 10)]
  }

  datatype Strategy = Honest | Colluding(gap: int)

  /** `HonestMiner` and `ColludingMiner`: an id, a parent-selection rule and a count of mined blocks. */
  class Miner {
    const minerId: string
    const strategy: Strategy
    var blocksMined: nat

    constructor HonestMiner(i: int)
      ensures minerId == "H" + (if i < 0 then "-" + Decimal(-i) else Decimal(i))
      ensures strategy == Honest && blocksMined == 0
    {
      minerId := "H" + (if i < 0 then "-" + Decimal(-i) else Decimal(i));
      strategy := Honest;
      blocksMined := 0;
    }

    constructor ColludingMiner(i: int, gap: int)
      ensures minerId == "C" + (if i < 0 then "-" + Decimal(-i) else Decimal(i))
      ensures strategy == Colluding(gap) && blocksMined == 0
    {
      minerId := "C" + (if i < 0 then "-" + Decimal(-i) else Decimal(i));
      strategy := Colluding(gap);
      blocksMined := 0;
    }

    /** The block this miner builds on. */
    function ParentIn(chain: Blockchain): (p: nat)
      reads chain
      requires chain.Valid()
      ensures p < |chain.blocks|
      ensures strategy.Honest? ==> p == chain.tip
      ensures strategy.Colluding? ==> p == ColludingParent(chain.blocks, chain.tip, chain.colludingTip, strategy.gap)
      ensures p == Choose(chain.View(), strategy)
    {
      match strategy
      case Honest => chain.LongestChain()
      case Colluding(gap) => chain.LongestColludingChain(gap)
    }

    /** `mine_block`: append one block on the chosen parent and count it. */
    method MineBlock(chain: Blockchain)
      requires chain.Valid()
      modifies this, chain
      ensures chain.Valid()
      ensures blocksMined == old(blocksMined) + 1
      ensures chain.View() == Append(old(chain.View()), minerId, strategy.Colluding?, Choose(old(chain.View()), strategy))
    {
      var parent := ParentIn(chain);
      chain.AddBlock(minerId, strategy.Colluding?, parent);
      blocksMined := blocksMined + 1;
    }
  }

  /** How often `k` occurs in `s`. */
  function Occurrences(s: seq<nat>, k: nat): nat {
    if s == [] then 0 else Occurrences(s[..|s| - 1], k) + (if s[|s| - 1] == k then 1 else 0)
  }

  lemma OccurrencesSnoc(s: seq<nat>, r: nat)
    requires r < |s|
    ensures forall k :: Occurrences(s[..r + 1], k) == Occurrences(s[..r], k) + (if s[r] == k then 1 else 0)
  {
    assert s[..r + 1][..r] == s[..r];
  }

  /** The chain after the first `r` rounds of a simulation in which round `q` is
      won by miner `picks[q]`, with the given ids and strategies. */
  ghost function Run(ids: seq<string>, strategies: seq<Strategy>, picks: seq<nat>, r: nat): (v: ChainView)
    requires |ids| == |strategies| && r <= |picks| && forall q | 0 <= q < |picks| :: picks[q] < |ids|
    ensures TipsIn(v) && |v.blocks| == r + 1
  {
    if r == 0 then ChainView([Genesis], 0, 0, map[])
    else
      var v := Run(ids, strategies, picks, r - 1);
      var m := picks[r - 1];
      Append(v, ids[m], strategies[m].Colluding?, Choose(v, strategies[m]))
  }

  /** Round `r` appends one block to the chain as round `r - 1` left it. */
  lemma RunNext(ids: seq<string>, strategies: seq<Strategy>, picks: seq<nat>, r: nat)
    requires |ids| == |strategies| && r < |picks| && forall q | 0 <= q < |picks| :: picks[q] < |ids|
    ensures var v := Run(ids, strategies, picks, r);
            var m := picks[r];
            Run(ids, strategies, picks, r + 1) == Append(v, ids[m], strategies[m].Colluding?, Choose(v, strategies[m]))
  {
  }

  /** Later rounds only append: the first `m + 1` blocks are those after round `m`. */
  lemma {:induction false} RunPrefix(ids: seq<string>, strategies: seq<Strategy>, picks: seq<nat>, n: nat, m: nat)
    requires |ids| == |strategies| && n <= |picks| && forall q | 0 <= q < |picks| :: picks[q] < |ids|
    requires m <= n
    ensures Run(ids, strategies, picks, n).blocks[..m + 1] == Run(ids, strategies, picks, m).blocks
    decreases n
  {
    if m < n {
      RunPrefix(ids, strategies, picks, n - 1, m);
      var v := Run(ids, strategies, picks, n - 1);
      assert Run(ids, strategies, picks, n).blocks[..m + 1] == v.blocks[..m + 1];
    } else {
      assert Run(ids, strategies, picks, n).blocks[..m + 1] == Run(ids, strategies, picks, n).blocks;
    }
  }

  /** Block `q + 1` is the one round `q` adds: mined by the miner picked for that
      round, on the block that miner's strategy chooses in the chain as it then stood. */
  lemma RunBlocks(ids: seq<string>, strategies: seq<Strategy>, picks: seq<nat>, q: nat)
    requires |ids| == |strategies| && forall k | 0 <= k < |picks| :: picks[k] < |ids|
    requires q < |picks|
    ensures var v := Run(ids, strategies, picks, q);
            var s := strategies[picks[q]];
            var p := Choose(v, s);
            Run(ids, strategies, picks, |picks|).blocks[q + 1]
              == Block(q + 1, ids[picks[q]], Some(p), v.blocks[p].height + 1)
  {
    var v := Run(ids, strategies, picks, q);
    var s := strategies[picks[q]];
    var p := Choose(v, s);
    RunNext(ids, strategies, picks, q);
    var u := Run(ids, strategies, picks, q + 1).blocks;
    assert u == v.blocks + [Block(q + 1, ids[picks[q]], Some(p), v.blocks[p].height + 1)];
    RunPrefix(ids, strategies, picks, |picks|, q + 1);
    var w := Run(ids, strategies, picks, |picks|).blocks;
    assert w[q + 1] == w[..q + 2][q + 1] == u[q + 1];
  }

  /** Every round keeps the chain's invariant. */
  lemma {:induction false} RunSound(ids: seq<string>, strategies: seq<Strategy>, picks: seq<nat>, r: nat)
    requires |ids| == |strategies| && r <= |picks| && forall q | 0 <= q < |picks| :: picks[q] < |ids|
    ensures Sound(Run(ids, strategies, picks, r))
  {
    if r > 0 {
      RunSound(ids, strategies, picks, r - 1);
      var v := Run(ids, strategies, picks, r - 1);
      var m := picks[r - 1];
      AppendSound(v, ids[m], strategies[m].Colluding?, Choose(v, strategies[m]));
    }
  }

  /** With honest miners only, every block extends the tip: the chain is a single
      line, the newest block is the tip, and no fork is ever recorded. */
  lemma {:induction false} HonestNoForks(ids: seq<string>, strategies: seq<Strategy>, picks: seq<nat>, r: nat)
    requires |ids| == |strategies| && r <= |picks| && forall q | 0 <= q < |picks| :: picks[q] < |ids|
    requires forall k | 0 <= k < |strategies| :: strategies[k].Honest?
    ensures var v := Run(ids, strategies, picks, r);
            v.tip == r && v.blocks[r].height == r && v.forks == map[]
  {
    if r > 0 {
      HonestNoForks(ids, strategies, picks, r - 1);
    }
  }

  /** The ids of `miners`, in order. */
  function Ids(miners: seq<Miner>): (ids: seq<string>)
    ensures |ids| == |miners| && forall k | 0 <= k < |miners| :: ids[k] == miners[k].minerId
  {
    seq(|miners|, k requires 0 <= k < |miners| => miners[k].minerId)
  }

  /** The strategies of `miners`, in order. */
  function Strategies(miners: seq<Miner>): (ss: seq<Strategy>)
    ensures |ss| == |miners| && forall k | 0 <= k < |miners| :: ss[k] == miners[k].strategy
  {
    seq(|miners|, k requires 0 <= k < |miners| => miners[k].strategy)
  }

  /** The state of `simulate_mining` after `r` rounds: the chain is the run of the
      first `r` picks, and each miner has mined once per round it was picked in,
      on top of the `mined` blocks it started with. */
  ghost predicate Mined(miners: seq<Miner>, picks: seq<nat>, r: nat, chain: Blockchain, mined: seq<nat>)
    reads chain, miners
  {
    && r <= |picks| && (forall q | 0 <= q < |picks| :: picks[q] < |miners|)
    && chain.View() == Run(Ids(miners), Strategies(miners), picks, r)
    && |mined| == |miners|
    && forall k | 0 <= k < |miners| :: miners[k].blocksMined == mined[k] + Occurrences(picks[..r], k)
  }

  /** Round `r` of `simulate_mining`: the miner picked for it mines a block on `chain`. */
  method MineRound(miners: seq<Miner>, picks: seq<nat>, r: nat, chain: Blockchain, ghost mined: seq<nat>)
    requires r < |picks| && Mined(miners, picks, r, chain, mined)
    requires forall a, b | 0 <= a < b < |miners| :: miners[a] != miners[b]
    modifies miners[picks[r]], chain
    ensures Mined(miners, picks, r + 1, chain, mined)
  {
    ghost var ids, strategies := Ids(miners), Strategies(miners);
    OccurrencesSnoc(picks, r);
    RunSound(ids, strategies, picks, r);
    RunNext(ids, strategies, picks, r);
    miners[picks[r]].MineBlock(chain);
  }

  /** `simulate_mining`, with the random choice of each round given as `picks`. */
  method SimulateMining(miners: seq<Miner>, picks: seq<nat>) returns (chain: Blockchain)
    requires forall r | 0 <= r < |picks| :: picks[r] < |miners|
    requires forall a, b | 0 <= a < b < |miners| :: miners[a] != miners[b]
    modifies miners
    ensures fresh(chain) && chain.Valid()
    ensures chain.View() == Run(Ids(miners), Strategies(miners), picks, |picks|)
    ensures forall k | 0 <= k < |miners| :: miners[k].blocksMined == old(miners[k].blocksMined) + Occurrences(picks, k)
  {
    ghost var mined: seq<nat> := seq(|miners|, k requires 0 <= k < |miners| reads miners => miners[k].blocksMined);
    chain := new Blockchain();
    var r := 0;
    while r < |picks|
      invariant r <= |picks| && fresh(chain) && Mined(miners, picks, r, chain, mined)
      invariant forall k | 0 <= k < |miners| :: mined[k] == old(miners[k].blocksMined)
    {
      MineRound(miners, picks, r, chain, mined);
      r := r + 1;
    }
    assert picks[..r] == picks;
    RunSound(Ids(miners), Strategies(miners), picks, r);
  }
}
