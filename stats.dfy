/** Mining statistics over the commit window: per-group counts, spend, fees and
    earnings, per-block totals, the list of miners and the orphan rate. */
module Stats {
  import opened Common
  import opened CommitGraph
  import opened MinerConfig

  /** The per-group accumulator (`zero_stats` and its updates). */
  datatype GroupStats = GroupStats(
    commits: nat, wins: nat, canonical: nat,
    spend: int, btcFees: int,
    coinbaseEarned: int, feesEarned: int,
    spendByBlock: map<nat, int>)

  const ZeroStats: GroupStats := GroupStats(0, 0, 0, 0, 0, 0, 0, map[])

  /** One entry of the `miners` table of the report. */
  datatype MinerEntry = MinerEntry(address: string, name: string, group: string, color: string, tracked: bool, known: bool)

  /** What `collect_stats` gathers before the per-group figures are computed. */
  datatype Collected = Collected(
    groupStats: map<string, GroupStats>,
    blocks: set<nat>,
    miners: map<string, MinerEntry>,
    spendByBlock: map<nat, int>,
    earnByBlock: map<nat, int>,
    orphans: nat,
    totalBlocks: nat)

  /** The Bitcoin fee of a commit transaction; a missing or zero fee counts as 0. */
  function Fee(fees: map<string, int>, txid: string): (r: int)
    ensures txid !in fees ==> r == 0
    ensures txid in fees ==> r == fees[txid]
  {
    if txid in fees then fees[txid] else 0
  }

  /** `d.get(k, 0)` */
  function Get(m: map<nat, int>, k: nat): int {
    if k in m then m[k] else 0
  }

  function MinerOf(cfg: Config, sender: string): (m: MinerEntry)
    ensures m.address == sender && m.group == Group(cfg, sender)
    ensures m.known == IsKnown(cfg, sender) && m.tracked == IsTracked(cfg, sender)
  {
    MinerEntry(sender, Name(cfg, sender), Group(cfg, sender), Color(cfg, sender),
               IsTracked(cfg, sender), IsKnown(cfg, sender))
  }

  /** The miners table's entry for a sender the configuration does not list. */
  lemma UnknownSenderEntry(cfg: Config, sender: string)
    requires sender !in cfg.miners
    ensures MinerOf(cfg, sender) == MinerEntry(sender, Prefix8(sender), OtherGroup, DefaultColor, false, false)
  {
    UnknownMiner(cfg, sender);
  }

  /** A tracked sender's entry is known and listed under the tracked group. */
  lemma TrackedSenderEntry(cfg: Config, sender: string)
    requires IsTracked(cfg, sender)
    ensures MinerOf(cfg, sender).known && MinerOf(cfg, sender).group == cfg.trackedGroup.value
  {
    TrackedInTrackedGroup(cfg, sender);
  }

  /** The window's commits in insertion order. */
  function CommitsOf(g: Graph): (cs: seq<Commit>)
    requires Valid(g)
    ensures |cs| == |g.order|
    ensures forall i :: 0 <= i < |cs| ==> cs[i] == g.commits[g.order[i]]
  {
    seq(|g.order|, i requires 0 <= i < |g.order| => g.commits[g.order[i]])
  }

  // ---------------------------------------------------------------------------
  // Reference definitions over a sequence of commits

  function Init(cs: seq<Commit>): seq<Commit>
    requires cs != []
  {
    cs[..|cs| - 1]
  }

  function Last(cs: seq<Commit>): Commit
    requires cs != []
  {
    cs[|cs| - 1]
  }

  function Heights(cs: seq<Commit>): set<nat> {
    if cs == [] then {} else Heights(Init(cs)) + {Last(cs).burnBlockHeight}
  }

  function Senders(cs: seq<Commit>): set<string> {
    if cs == [] then {} else Senders(Init(cs)) + {Last(cs).sender}
  }

  function GroupsOf(cfg: Config, cs: seq<Commit>): set<string> {
    if cs == [] then {} else GroupsOf(cfg, Init(cs)) + {Group(cfg, Last(cs).sender)}
  }

  /** The commits whose sender belongs to group `grp`, in order. */
  function InGroup(cfg: Config, cs: seq<Commit>, grp: string): seq<Commit> {
    if cs == [] then []
    else if Group(cfg, Last(cs).sender) == grp then InGroup(cfg, Init(cs), grp) + [Last(cs)]
    else InGroup(cfg, Init(cs), grp)
  }

  function NumWon(cs: seq<Commit>): nat {
    if cs == [] then 0 else NumWon(Init(cs)) + (if Last(cs).won then 1 else 0)
  }

  function NumCanonicalWins(cs: seq<Commit>): nat {
    if cs == [] then 0 else NumCanonicalWins(Init(cs)) + (if Last(cs).won && Last(cs).canonical then 1 else 0)
  }

  function NumOrphans(cs: seq<Commit>): nat {
    if cs == [] then 0 else NumOrphans(Init(cs)) + (if Last(cs).won && !Last(cs).canonical then 1 else 0)
  }

  function TotalSpend(cs: seq<Commit>): int {
    if cs == [] then 0 else TotalSpend(Init(cs)) + Last(cs).spend
  }

  function TotalFees(fees: map<string, int>, cs: seq<Commit>): int {
    if cs == [] then 0 else TotalFees(fees, Init(cs)) + Fee(fees, Last(cs).txid)
  }

  /** Coinbase earned by the canonical winners only. */
  function CanonicalCoinbase(cs: seq<Commit>): int {
    if cs == [] then 0
    else CanonicalCoinbase(Init(cs)) + (if Last(cs).won && Last(cs).canonical then Last(cs).coinbaseEarned else 0)
  }

  /** Transaction fees earned by the canonical winners only. */
  function CanonicalFeesEarned(cs: seq<Commit>): int {
    if cs == [] then 0
    else CanonicalFeesEarned(Init(cs)) + (if Last(cs).won && Last(cs).canonical then Last(cs).feesEarned else 0)
  }

  /** Spend plus Bitcoin fee of the commits at burn height `b`. */
  function SpendAt(fees: map<string, int>, cs: seq<Commit>, b: nat): int {
    if cs == [] then 0
    else SpendAt(fees, Init(cs), b)
         + (if Last(cs).burnBlockHeight == b then Last(cs).spend + Fee(fees, Last(cs).txid) else 0)
  }

  /** Earnings (coinbase plus fees, of every commit) at burn height `b`. */
  function EarnAt(cs: seq<Commit>, b: nat): int {
    if cs == [] then 0
    else EarnAt(Init(cs), b)
         + (if Last(cs).burnBlockHeight == b then Last(cs).coinbaseEarned + Last(cs).feesEarned else 0)
  }

  /** `m` holds, for every burn height of `cs` and no other, the spend plus fees there. */
  ghost predicate SpendTable(fees: map<string, int>, m: map<nat, int>, cs: seq<Commit>) {
    && m.Keys == Heights(cs)
    && (forall b :: b in m ==> m[b] == SpendAt(fees, cs, b))
  }

  /** `m` holds, for every burn height of `cs` and no other, the earnings there. */
  ghost predicate EarnTable(m: map<nat, int>, cs: seq<Commit>) {
    && m.Keys == Heights(cs)
    && (forall b :: b in m ==> m[b] == EarnAt(cs, b))
  }

  /** `s` is the statistics of the commits `cs`. */
  ghost predicate Describes(fees: map<string, int>, s: GroupStats, cs: seq<Commit>) {
    && s.commits == |cs| && s.wins == NumWon(cs) && s.canonical == NumCanonicalWins(cs)
    && s.spend == TotalSpend(cs) && s.btcFees == TotalFees(fees, cs)
    && s.coinbaseEarned == CanonicalCoinbase(cs) && s.feesEarned == CanonicalFeesEarned(cs)
    && SpendTable(fees, s.spendByBlock, cs)
  }

  /** `t` has an entry for every group of `cs` and no other, describing that group's commits. */
  ghost predicate GroupTable(cfg: Config, fees: map<string, int>, t: map<string, GroupStats>, cs: seq<Commit>) {
    && t.Keys == GroupsOf(cfg, cs)
    && (forall grp :: grp in t ==> Describes(fees, t[grp], InGroup(cfg, cs, grp)))
  }

  /** `m` has the entry of every sender of `cs` and no other. */
  ghost predicate MinerTable(cfg: Config, m: map<string, MinerEntry>, cs: seq<Commit>) {
    && m.Keys == Senders(cs)
    && (forall s :: s in m ==> m[s] == MinerOf(cfg, s))
  }

  /** `acc` is what `collect_stats` has gathered from the commits `cs`. */
  ghost predicate Gathered(cfg: Config, fees: map<string, int>, acc: Collected, cs: seq<Commit>) {
    && GroupTable(cfg, fees, acc.groupStats, cs)
    && acc.blocks == Heights(cs)
    && MinerTable(cfg, acc.miners, cs)
    && SpendTable(fees, acc.spendByBlock, cs)
    && EarnTable(acc.earnByBlock, cs)
    && acc.orphans == NumOrphans(cs)
    && acc.totalBlocks == NumWon(cs)
  }

  // ---------------------------------------------------------------------------
  // How the reference definitions grow by one commit

  lemma Snoc(cs: seq<Commit>, c: Commit)
    ensures Init(cs + [c]) == cs && Last(cs + [c]) == c
  {
    assert (cs + [c])[..|cs|] == cs;
  }

  lemma {:induction false} SpendAtOutside(fees: map<string, int>, cs: seq<Commit>, b: nat)
    requires b !in Heights(cs)
    ensures SpendAt(fees, cs, b) == 0
  {
    if cs != [] {
      SpendAtOutside(fees, Init(cs), b);
    }
  }

  lemma {:induction false} EarnAtOutside(cs: seq<Commit>, b: nat)
    requires b !in Heights(cs)
    ensures EarnAt(cs, b) == 0
  {
    if cs != [] {
      EarnAtOutside(Init(cs), b);
    }
  }

  lemma SpendTableSnoc(fees: map<string, int>, m: map<nat, int>, cs: seq<Commit>, c: Commit)
    requires SpendTable(fees, m, cs)
    ensures SpendTable(fees, m[c.burnBlockHeight := Get(m, c.burnBlockHeight) + c.spend + Fee(fees, c.txid)], cs + [c])
  {
    Snoc(cs, c);
    if c.burnBlockHeight !in Heights(cs) {
      SpendAtOutside(fees, cs, c.burnBlockHeight);
    }
  }

  lemma EarnTableSnoc(m: map<nat, int>, cs: seq<Commit>, c: Commit)
    requires EarnTable(m, cs)
    ensures EarnTable(m[c.burnBlockHeight := Get(m, c.burnBlockHeight) + c.coinbaseEarned + c.feesEarned], cs + [c])
  {
    Snoc(cs, c);
    if c.burnBlockHeight !in Heights(cs) {
      EarnAtOutside(cs, c.burnBlockHeight);
    }
  }

  lemma {:induction false} OutsideGroups(cfg: Config, cs: seq<Commit>, grp: string)
    requires grp !in GroupsOf(cfg, cs)
    ensures InGroup(cfg, cs, grp) == []
  {
    if cs != [] {
      OutsideGroups(cfg, Init(cs), grp);
    }
  }

  lemma InGroupSnoc(cfg: Config, cs: seq<Commit>, c: Commit, grp: string)
    ensures InGroup(cfg, cs + [c], grp)
         == if Group(cfg, c.sender) == grp then InGroup(cfg, cs, grp) + [c] else InGroup(cfg, cs, grp)
  {
    Snoc(cs, c);
  }

  lemma DescribesEmpty(fees: map<string, int>)
    ensures Describes(fees, ZeroStats, [])
  {
  }

  /** A group's statistics after one more of its commits, paying Bitcoin fee `fee`. */
  function AddCommit(s: GroupStats, c: Commit, fee: int): GroupStats {
    s.(commits := s.commits + 1,
       wins := s.wins + (if c.won then 1 else 0),
       canonical := s.canonical + (if c.won && c.canonical then 1 else 0),
       spend := s.spend + c.spend,
       btcFees := s.btcFees + fee,
       coinbaseEarned := s.coinbaseEarned + (if c.won && c.canonical then c.coinbaseEarned else 0),
       feesEarned := s.feesEarned + (if c.won && c.canonical then c.feesEarned else 0),
       spendByBlock := s.spendByBlock[c.burnBlockHeight :=
         Get(s.spendByBlock, c.burnBlockHeight) + c.spend + fee])
  }

  /** One more commit of the group: every count and sum moves by that commit's share. */
  lemma DescribesSnoc(fees: map<string, int>, s: GroupStats, cs: seq<Commit>, c: Commit)
    requires Describes(fees, s, cs)
    ensures Describes(fees, AddCommit(s, c, Fee(fees, c.txid)), cs + [c])
  {
    Snoc(cs, c);
    SpendTableSnoc(fees, s.spendByBlock, cs, c);
  }

  /** The group table after one more commit: only the commit's own group moves. */
  lemma GroupTableSnoc(cfg: Config, fees: map<string, int>, t: map<string, GroupStats>, cs: seq<Commit>, c: Commit)
    requires GroupTable(cfg, fees, t, cs)
    ensures var grp := Group(cfg, c.sender);
      GroupTable(cfg, fees, t[grp := AddCommit(if grp in t then t[grp] else ZeroStats, c, Fee(fees, c.txid))], cs + [c])
  {
    var grp := Group(cfg, c.sender);
    var s0 := if grp in t then t[grp] else ZeroStats;
    var t' := t[grp := AddCommit(s0, c, Fee(fees, c.txid))];
    assert GroupsOf(cfg, cs + [c]) == GroupsOf(cfg, cs) + {grp} by {
      Snoc(cs, c);
    }
    forall x | x in t'
      ensures Describes(fees, t'[x], InGroup(cfg, cs + [c], x))
    {
      InGroupSnoc(cfg, cs, c, x);
      if x == grp {
        assert Describes(fees, s0, InGroup(cfg, cs, grp)) by {
          if grp !in t {
            OutsideGroups(cfg, cs, grp);
          }
        }
        DescribesSnoc(fees, s0, InGroup(cfg, cs, grp), c);
      } else {
        assert t'[x] == t[x];
      }
    }
  }

  lemma MinersSnoc(cfg: Config, m: map<string, MinerEntry>, cs: seq<Commit>, c: Commit)
    requires MinerTable(cfg, m, cs)
    ensures MinerTable(cfg, if c.sender in m then m else m[c.sender := MinerOf(cfg, c.sender)], cs + [c])
  {
    Snoc(cs, c);
  }

  /** The accumulator after one more commit, as `collect_stats` updates it. */
  function Next(cfg: Config, fees: map<string, int>, acc: Collected, c: Commit): Collected {
    var h, grp, fee := c.burnBlockHeight, Group(cfg, c.sender), Fee(fees, c.txid);
    Collected(
      acc.groupStats[grp := AddCommit(if grp in acc.groupStats then acc.groupStats[grp] else ZeroStats, c, fee)],
      acc.blocks + {h},
      if c.sender in acc.miners then acc.miners else acc.miners[c.sender := MinerOf(cfg, c.sender)],
      acc.spendByBlock[h := Get(acc.spendByBlock, h) + c.spend + fee],
      acc.earnByBlock[h := Get(acc.earnByBlock, h) + c.coinbaseEarned + c.feesEarned],
      acc.orphans + (if c.won && !c.canonical then 1 else 0),
      acc.totalBlocks + (if c.won then 1 else 0))
  }

  const Empty: Collected := Collected(map[], {}, map[], map[], map[], 0, 0)

  /** The accumulator after the commits `cs`, in order. */
  function Collect(cfg: Config, fees: map<string, int>, cs: seq<Commit>): Collected {
    if cs == [] then Empty else Next(cfg, fees, Collect(cfg, fees, Init(cs)), Last(cs))
  }

  lemma {:induction false} CollectGroups(cfg: Config, fees: map<string, int>, cs: seq<Commit>)
    ensures GroupTable(cfg, fees, Collect(cfg, fees, cs).groupStats, cs)
  {
    if cs != [] {
      CollectGroups(cfg, fees, Init(cs));
      assert cs == Init(cs) + [Last(cs)];
      GroupTableSnoc(cfg, fees, Collect(cfg, fees, Init(cs)).groupStats, Init(cs), Last(cs));
    }
  }

  lemma {:induction false} CollectMiners(cfg: Config, fees: map<string, int>, cs: seq<Commit>)
    ensures MinerTable(cfg, Collect(cfg, fees, cs).miners, cs)
  {
    if cs != [] {
      CollectMiners(cfg, fees, Init(cs));
      assert cs == Init(cs) + [Last(cs)];
      MinersSnoc(cfg, Collect(cfg, fees, Init(cs)).miners, Init(cs), Last(cs));
    }
  }

  lemma {:induction false} CollectSpend(cfg: Config, fees: map<string, int>, cs: seq<Commit>)
    ensures SpendTable(fees, Collect(cfg, fees, cs).spendByBlock, cs)
  {
    if cs != [] {
      CollectSpend(cfg, fees, Init(cs));
      assert cs == Init(cs) + [Last(cs)];
      SpendTableSnoc(fees, Collect(cfg, fees, Init(cs)).spendByBlock, Init(cs), Last(cs));
    }
  }

  lemma {:induction false} CollectEarn(cfg: Config, fees: map<string, int>, cs: seq<Commit>)
    ensures EarnTable(Collect(cfg, fees, cs).earnByBlock, cs)
  {
    if cs != [] {
      CollectEarn(cfg, fees, Init(cs));
      assert cs == Init(cs) + [Last(cs)];
      EarnTableSnoc(Collect(cfg, fees, Init(cs)).earnByBlock, Init(cs), Last(cs));
    }
  }

  lemma {:induction false} CollectCounts(cfg: Config, fees: map<string, int>, cs: seq<Commit>)
    ensures var acc := Collect(cfg, fees, cs);
      acc.blocks == Heights(cs) && acc.orphans == NumOrphans(cs) && acc.totalBlocks == NumWon(cs)
  {
    if cs != [] {
      CollectCounts(cfg, fees, Init(cs));
    }
  }

  /** Everything gathered from the commits `cs` is what the reference definitions say. */
  lemma CollectGathered(cfg: Config, fees: map<string, int>, cs: seq<Commit>)
    ensures Gathered(cfg, fees, Collect(cfg, fees, cs), cs)
  {
    CollectGroups(cfg, fees, cs);
    CollectMiners(cfg, fees, cs);
    CollectSpend(cfg, fees, cs);
    CollectEarn(cfg, fees, cs);
    CollectCounts(cfg, fees, cs);
  }

  /** The updates `collect_stats` makes to the entry of the commit's group. */
  method AddToGroup(stats: GroupStats, c: Commit, fee: int) returns (stats': GroupStats)
    ensures stats' == AddCommit(stats, c, fee)
  {
    var h := c.burnBlockHeight;
    stats' := stats.(commits := stats.commits + 1, spend := stats.spend + c.spend);
    stats' := stats'.(btcFees := stats'.btcFees + fee);
    stats' := stats'.(spendByBlock := stats'.spendByBlock[h := Get(stats'.spendByBlock, h) + c.spend + fee]);
    if c.won {
      stats' := stats'.(wins := stats'.wins + 1);
      if c.canonical {
        stats' := stats'.(canonical := stats'.canonical + 1,
                          coinbaseEarned := stats'.coinbaseEarned + c.coinbaseEarned,
                          feesEarned := stats'.feesEarned + c.feesEarned);
      }
    }
  }

  /** The body of the `collect_stats` loop for one commit `c`. */
  method Accumulate(cfg: Config, fees: map<string, int>, acc: Collected, c: Commit) returns (acc': Collected)
    ensures acc' == Next(cfg, fees, acc, c)
  {
    var h := c.burnBlockHeight;
    var blocks := acc.blocks + {h};
    var grp := Group(cfg, c.sender);
    var fee := Fee(fees, c.txid);
    var stats := AddToGroup(if grp in acc.groupStats then acc.groupStats[grp] else ZeroStats, c, fee);
    var spendByBlock := acc.spendByBlock[h := Get(acc.spendByBlock, h) + c.spend + fee];
    var earnByBlock := acc.earnByBlock[h := Get(acc.earnByBlock, h) + c.coinbaseEarned + c.feesEarned];
    var orphans, totalBlocks := acc.orphans, acc.totalBlocks;
    if c.won {
      totalBlocks := totalBlocks + 1;
      if !c.canonical {
        orphans := orphans + 1;
      }
    }
    var miners := acc.miners;
    if c.sender !in miners {
      miners := miners[c.sender := MinerOf(cfg, c.sender)];
    }
    acc' := Collected(acc.groupStats[grp := stats], blocks, miners, spendByBlock, earnByBlock, orphans, totalBlocks);
  }

  lemma CollectStep(cfg: Config, fees: map<string, int>, cs: seq<Commit>, i: nat)
    requires i < |cs|
    ensures Collect(cfg, fees, cs[..i + 1]) == Next(cfg, fees, Collect(cfg, fees, cs[..i]), cs[i])
  {
    assert Init(cs[..i + 1]) == cs[..i];
  }

  /** `collect_stats` up to the per-group figures: one pass over the window. */
  method CollectStats(cfg: Config, fees: map<string, int>, g: Graph) returns (acc: Collected)
    requires Valid(g)
    ensures acc == Collect(cfg, fees, CommitsOf(g))
    ensures Gathered(cfg, fees, acc, CommitsOf(g))
  {
    ghost var cs := CommitsOf(g);
    acc := Empty;
    var i := 0;
    while i < |g.order|
      invariant 0 <= i <= |g.order|
      invariant acc == Collect(cfg, fees, cs[..i])
    {
      CollectStep(cfg, fees, cs, i);
      acc := Accumulate(cfg, fees, acc, g.commits[g.order[i]]);
      i := i + 1;
    }
    assert cs[..i] == cs;
    CollectGathered(cfg, fees, cs);
  }

  // ---------------------------------------------------------------------------
  // Counting facts

  /** Every win is either canonical or an orphan. */
  lemma {:induction false} WinsSplit(cs: seq<Commit>)
    ensures NumOrphans(cs) + NumCanonicalWins(cs) == NumWon(cs)
    ensures NumWon(cs) <= |cs|
  {
    if cs != [] {
      WinsSplit(Init(cs));
    }
  }

  /** Per group, canonical wins never exceed wins, and wins never exceed commits. */
  lemma GroupCounts(fees: map<string, int>, s: GroupStats, cs: seq<Commit>)
    requires Describes(fees, s, cs)
    ensures s.canonical <= s.wins <= s.commits
  {
    WinsSplit(cs);
  }

  /** Without a canonical winner nothing is earned. */
  lemma {:induction false} NoCanonicalNoEarnings(cs: seq<Commit>)
    requires NumCanonicalWins(cs) == 0
    ensures CanonicalCoinbase(cs) == 0 && CanonicalFeesEarned(cs) == 0
  {
    if cs != [] {
      NoCanonicalNoEarnings(Init(cs));
    }
  }

  /** A group appears only with at least one commit, hence at least one burn block. */
  lemma {:induction false} GroupsNeedBlocks(cfg: Config, cs: seq<Commit>)
    ensures GroupsOf(cfg, cs) != {} <==> Heights(cs) != {}
  {
    if cs != [] {
      assert Last(cs).burnBlockHeight in Heights(cs);
      assert Group(cfg, Last(cs).sender) in GroupsOf(cfg, cs);
    }
  }

  // ---------------------------------------------------------------------------
  // The figures of the report, with exact fractions in place of floats

  /** `num / den`, exactly. */
  datatype Ratio = Ratio(num: int, den: nat)

  /** The fraction lies between 0 and 1. */
  predicate InUnit(q: Ratio) {
    q.den > 0 && 0 <= q.num <= q.den
  }

  /** Python's `round` of `n / d`: to the nearest integer, ties to the even one. */
  function RoundHalfEven(n: int, d: int): (r: int)
    requires d > 0
    ensures 2 * (n - r * d) <= d && 2 * (r * d - n) <= d
    ensures 2 * (n - r * d) == d ==> r % 2 == 0
    ensures 2 * (r * d - n) == d ==> r % 2 == 0
  {
    var q, m := n / d, n % d;
    assert n == q * d + m;
    if 2 * m < d then q
    else if 2 * m > d then q + 1
    else if q % 2 == 0 then q
    else q + 1
  }

  /** `price_ratio`: Bitcoin paid per million micro-STX earned, or one of two markers. */
  datatype Price = PriceValue(ratio: Ratio) | PriceZero | PriceInfinite

  /** The entry of a group in the report (`compute_stats`). */
  datatype Computed = Computed(
    spend: int, btcFees: int, totalSpend: int,
    spendByBlock: map<nat, int>,
    coinbaseEarned: int, feesEarned: int,
    avgSpendPerBlock: int,
    winPercentage: Ratio, canonicalPercentage: Ratio, orphanRate: Ratio,
    priceRatio: Price,
    totalEarned: int)

  function ComputeStats(s: GroupStats, numBlocks: nat): (r: Computed)
    requires numBlocks > 0
    ensures r.totalSpend == r.spend + r.btcFees && r.totalEarned == r.coinbaseEarned + r.feesEarned
    ensures 2 * (s.spend - r.avgSpendPerBlock * numBlocks) <= numBlocks
    ensures 2 * (r.avgSpendPerBlock * numBlocks - s.spend) <= numBlocks
    ensures s.wins == 0 ==> r.orphanRate.num == 0
    ensures s.canonical <= s.wins ==> InUnit(r.orphanRate)
    ensures r.priceRatio.PriceValue? <==> r.totalEarned > 0
    ensures r.priceRatio.PriceInfinite? <==> r.totalEarned <= 0 && s.spend != 0
  {
    var totalEarned := s.coinbaseEarned + s.feesEarned;
    Computed(
      s.spend, s.btcFees, s.spend + s.btcFees,
      s.spendByBlock,
      s.coinbaseEarned, s.feesEarned,
      RoundHalfEven(s.spend, numBlocks),
      Ratio(s.wins, numBlocks), Ratio(s.canonical, numBlocks),
      if s.wins > 0 then Ratio(s.wins - s.canonical, s.wins) else Ratio(0, 1),
      if totalEarned > 0 then PriceValue(Ratio((s.spend + s.btcFees) * 1000000, totalEarned))
      else if s.spend == 0 then PriceZero
      else PriceInfinite,
      totalEarned)
  }

  /** The report `collect_stats` returns (the STX price aside). */
  datatype Report = Report(
    groupStats: map<string, Computed>,
    miners: map<string, MinerEntry>,
    spendByBlock: map<nat, int>,
    earnByBlock: map<nat, int>,
    orphanRate: Ratio)

  /** The overall orphan rate: orphans over winning commits, 0 without wins. */
  function OrphanRate(orphans: nat, totalBlocks: nat): (q: Ratio)
    ensures orphans <= totalBlocks ==> InUnit(q)
    ensures q.num == 0 <==> orphans == 0 || totalBlocks == 0
  {
    if totalBlocks > 0 then Ratio(orphans, totalBlocks) else Ratio(0, 1)
  }

  function Finish(acc: Collected): (rep: Report)
    requires acc.groupStats != map[] ==> acc.blocks != {}
    ensures rep.groupStats.Keys == acc.groupStats.Keys
    ensures rep.miners == acc.miners && rep.spendByBlock == acc.spendByBlock && rep.earnByBlock == acc.earnByBlock
  {
    var groups := if acc.blocks == {} then map[]
                  else map grp | grp in acc.groupStats :: ComputeStats(acc.groupStats[grp], |acc.blocks|);
    Report(groups, acc.miners, acc.spendByBlock, acc.earnByBlock, OrphanRate(acc.orphans, acc.totalBlocks))
  }

  /** What the report says about one group, in terms of that group's commits. */
  lemma GroupFigures(fees: map<string, int>, s: GroupStats, cs: seq<Commit>, numBlocks: nat)
    requires Describes(fees, s, cs) && numBlocks > 0
    ensures var r := ComputeStats(s, numBlocks);
      && r.totalSpend == TotalSpend(cs) + TotalFees(fees, cs)
      && r.totalEarned == CanonicalCoinbase(cs) + CanonicalFeesEarned(cs)
      && r.winPercentage == Ratio(NumWon(cs), numBlocks)
      && r.canonicalPercentage == Ratio(NumCanonicalWins(cs), numBlocks)
      && InUnit(r.orphanRate)
      && (NumWon(cs) > 0 ==> r.orphanRate == Ratio(NumOrphans(cs), NumWon(cs)))
      && (NumCanonicalWins(cs) == 0 ==> r.priceRatio == if TotalSpend(cs) == 0 then PriceZero else PriceInfinite)
  {
    WinsSplit(cs);
    if NumCanonicalWins(cs) == 0 {
      NoCanonicalNoEarnings(cs);
    }
  }

  /** `collect_stats`: gather over the window, then compute each group's figures. */
  method CollectReport(cfg: Config, fees: map<string, int>, g: Graph) returns (rep: Report)
    requires Valid(g)
    ensures var cs := CommitsOf(g);
      && rep.groupStats.Keys == GroupsOf(cfg, cs)
      && MinerTable(cfg, rep.miners, cs)
      && SpendTable(fees, rep.spendByBlock, cs)
      && EarnTable(rep.earnByBlock, cs)
      && InUnit(rep.orphanRate)
      && (NumWon(cs) > 0 ==> rep.orphanRate == Ratio(NumOrphans(cs), NumWon(cs)))
    ensures forall grp :: grp in rep.groupStats ==>
      && |Heights(CommitsOf(g))| > 0
      && grp in Collect(cfg, fees, CommitsOf(g)).groupStats
      && rep.groupStats[grp] == ComputeStats(Collect(cfg, fees, CommitsOf(g)).groupStats[grp], |Heights(CommitsOf(g))|)
      && Describes(fees, Collect(cfg, fees, CommitsOf(g)).groupStats[grp], InGroup(cfg, CommitsOf(g), grp))
  {
    var acc := CollectStats(cfg, fees, g);
    GroupsNeedBlocks(cfg, CommitsOf(g));
    WinsSplit(CommitsOf(g));
    rep := Finish(acc);
  }
}
