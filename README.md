# miner-sim, modelled in Dafny

miner-sim has two programs.

- `miner-vis.py` reads the block commits of a window of Bitcoin burn blocks. It links each commit to the commit it builds on and marks:
  - the commits that won their sortition, with their Stacks heights and earnings;
  - the canonical Stacks chain;
  - the branch head most likely to become canonical next.

  It then computes per-group mining statistics.
- `miner-sim.py` simulates honest and colluding miners. It builds a block tree and counts whose blocks end up on the longest chain.

This project models the core of both programs and proves properties about the model.

| file | module | models |
|---|---|---|
| `common.dfy` | `Common` | `Option`/`Result`, the header-hash type, the string slices the programs use |
| `miner_config.dfy` | `MinerConfig` | the miner configuration look-ups (known, tracked, colour, name, group) |
| `commit_graph.dfy` | `CommitGraph` | the commit record, the insertion-ordered commit dictionary, and the builder that resolves parents and sums spend per sortition |
| `canonical.dfy` | `Canonical` | the round-by-round marking of winners and losers, enrichment from the chain state, and the canonical-path walk |
| `fork_scorer.dfy` | `ForkScorer` | candidate branch heads, scoring to a common ancestor, and the choice of the next tip |
| `stats.dfy` | `Stats` | the statistics fold over the commits and the per-group figures (exact fractions instead of floats) |
| `miner_sim.dfy` | `MinerSim` | the simulated blockchain (a class), the two miner strategies, and the simulation loop |

**How the state is modelled:**
- The Python commit dictionary is mutated in place. Here it is a value, `Graph(order, commits)`:
  - `order` records dictionary insertion order;
  - each marking step takes a graph and returns the next one.
- Each step is specified against reference definitions:
  - `Provisional` gives the Stacks height a commit ends up with;
  - `Wins` says whether the commit won its sortition;
  - `Ancestry` is the canonical path.
- The simulator's `Blockchain` and miners are objects with mutable fields, so they are Dafny classes.

**Inputs that are outside the programs:**
- SQL rows become parameters:
  - the block-commit records;
  - the snapshots, keyed by burn height;
  - the payments rows, keyed by consensus hash;
  - the block-header costs, keyed by block hash.
- The Bitcoin fee lookup becomes a `txid -> fee` map.
- `random.choice` becomes a sequence of picked miner indices.

## Model

| member | source | states |
|---|---|---|
| Common.Prefix8 | miner-vis.py:66-67 | The short name is the first eight characters of the identifier, or all of it when shorter, and is a prefix of it. |
| Common.StripQuotes | miner-vis.py:106 | The sender is the apparent sender without its first and last character; shorter than two characters gives the empty string. |
| MinerConfig.IsTracked | miner-vis.py:37-46 | A miner is tracked exactly when a truthy tracked group is configured and the miner's group equals it; tracked implies known. |
| MinerConfig.Color | miner-vis.py:49-59 | A configured colour of the miner's group is the result. Without one (unknown miner, no group, unlisted group, no colour) the result is the default colour, and any other result is that configured colour. |
| MinerConfig.UnknownMiner | miner-vis.py:32-75 | A sender missing from the configuration is neither known nor tracked, falls in group "Other", is named by its eight-character prefix and gets the default colour. |
| MinerConfig.TrackedInTrackedGroup | miner-vis.py:37-46 | A tracked miner's group is the tracked group. |
| CommitGraph.NewCommit | miner-vis.py:199-209 | A fresh commit carries the record's hash, txid, burn height, burn fee, sortition id and resolved parent; its sender is the apparent sender with the quotes stripped; every marking field starts empty, false or zero. |
| CommitGraph.BuildCommitGraph | miner-vis.py:155-216 | The loop's graph and per-sortition totals equal the reference fold over the records. |
| CommitGraph.BuildValid | miner-vis.py:184-213 | The built dictionary lists every key once, in insertion order, and no commit is marked yet. |
| CommitGraph.IndexIsLatest | miner-vis.py:199-210 | A (height, vtxindex) key resolves exactly when some earlier record has it, and to the hash of the latest such record. |
| CommitGraph.IndexKeys | miner-vis.py:199-210 | A (height, vtxindex) key is in the parent index exactly when some scanned record has it. |
| CommitGraph.IndexLatest | miner-vis.py:199-210 | The index holds, for a key, the hash of the last scanned record with that key. |
| CommitGraph.IndexValues | miner-vis.py:210 | Every value of the parent index is the hash of a record with that key. |
| CommitGraph.BuildKeys | miner-vis.py:201 | The dictionary's keys are exactly the records' header hashes. |
| CommitGraph.BuildEntry | miner-vis.py:199-209 | The entry for a hash is the commit of the last record with that hash, with its parent resolved at that record. |
| CommitGraph.SatsAreSums | miner-vis.py:211-213 | A sortition has a total exactly when some record names it, and the total is the sum of those records' burn fees. |
| CommitGraph.SumFeesAppend | miner-vis.py:211-213 | Adding a record adds its burn fee to its own sortition's total only. |
| CommitGraph.SumFeesNone | miner-vis.py:211-213 | A sortition that no record names sums to zero. |
| CommitGraph.BuildParentsPrecede | miner-vis.py:159-210 | With unique hashes and parent pointers to lower heights, every parent is in the dictionary at a lower burn height. |
| Canonical.SortedHeights | miner-vis.py:223-225 | The rounds are the distinct burn heights of the commits, in increasing order. |
| Canonical.MarkCanonicalBlocks | miner-vis.py:219-304 | On success the result is the snapshot's canonical tip, and every commit is as `Marked` describes, including costs read through the exact (possibly stale) `block_hash`. The tip is flagged, and the canonical flag is on exactly the tip's ancestry. Each error names its cause: a missing snapshot, an unknown tip, a None parent height, or an unbound block hash at a winner that no earlier commit assigned it before. |
| Canonical.FinalBlockHashBound | miner-vis.py:245-273 | On success, every processed winner without a payments row comes after some commit that assigned `block_hash`, so the unbound-variable path was not taken. |
| Canonical.MarkRounds | miner-vis.py:223-290 | After all rounds every commit is marked per `Marked`, or the error raised is one `RoundError` allows. Between rounds `block_hash` is the value the last processed assigner left. |
| Canonical.MarkHeight | miner-vis.py:223-290 | Processing the j-th sorted height extends the processed set to the commits of that height, and returns `block_hash` as the last assigner among them left it. |
| Canonical.MarkRound | miner-vis.py:226-290 | One round marks exactly the commits of its burn height, keeping the marked state of earlier rounds; the returned `block_hash` is the one the last processed assigner left. |
| Canonical.RoundVisit | miner-vis.py:231-290 | Visiting the next commit of the dictionary processes it when it belongs to the round, and keeps the round's state: the processed set, the marks and `block_hash`. |
| Canonical.MarkCommit | miner-vis.py:231-290 | Processing one commit extends the marked state to it. The unbound-block-hash error is raised exactly for a processed winner without a payments row while `block_hash` is unbound, and the None-height error exactly for a loser whose parent has no height. `block_hash` becomes the payments row's hash or keeps its earlier value. |
| Canonical.MarkWinner | miner-vis.py:235-285 | A winner is marked and enriched, and its parent stops being a potential tip. The unbound-block-hash error happens exactly when the block was processed, has no payments row, and no earlier block hash exists. |
| Canonical.CrownWinner | miner-vis.py:235-285 | The winner update replaces the winner and clears its parent's potential-tip flag, and changes nothing else. |
| Canonical.CrownCommit | miner-vis.py:236-285 | The winner's own fields: won, potential tip, the snapshot's Stacks height, and the enrichment. |
| Canonical.Enrich | miner-vis.py:245-285 | Earnings come from the payments row of the consensus hash, and costs from the header row of the current block hash: the row's, or else the stale one carried in. An unbound hash is an error exactly when it would be read. Nothing else changes. |
| Canonical.AssignStep | miner-vis.py:245-264 | Processing a commit after all processed ones leaves `block_hash` at what it assigns, or unchanged when it assigns nothing. |
| Canonical.LastAssignedNone | miner-vis.py:245-273 | `block_hash` is unbound exactly when no processed commit has assigned it. |
| Canonical.LastAssignerExists | miner-vis.py:223-264 | When some processed commit assigned `block_hash`, there is a last one to do so. |
| Canonical.LastAssignerUnique | miner-vis.py:223-233 | There is only one last assigner, since processing order is total. |
| Canonical.BeforeTotal | miner-vis.py:223-233 | Of two different commits, exactly one is processed before the other (burn height first, then dictionary order). |
| Canonical.ClearParent | miner-vis.py:240-242 | Only the parent's potential-tip flag changes; the keys are kept. |
| Canonical.MarkLoser | miner-vis.py:287-290 | A losing commit gets its parent's Stacks height plus one. The error is raised exactly when the parent's height is None. |
| Canonical.SetLoserHeight | miner-vis.py:287-290 | A loser's update replaces only that commit, with the parent's height plus one, or leaves it as it was without a parent in the window. |
| Canonical.WinnerMarked | miner-vis.py:235-285 | The record a winner update produces is the `Marked` state of that commit. |
| Canonical.LoserMarked | miner-vis.py:287-290 | The record a loser update produces is the `Marked` state of that commit. |
| Canonical.MarkedStable | miner-vis.py:240-242 | Processing a commit that is not a winning child of `k` leaves `k`'s marked state valid. |
| Canonical.MarkedUnflagged | miner-vis.py:231-290 | The rounds never set a commit's tip or canonical flag, nor change its parent. |
| Canonical.RoundStep | miner-vis.py:231-233 | Commits of the round's height are taken in dictionary order; the processed set grows by the one visited and is exactly the set of commits processed before it. |
| Canonical.AllDone | miner-vis.py:223-225 | After the last height every commit has been processed. |
| Canonical.MarkCanonicalPath | miner-vis.py:298-302 | After the walk the tip alone is flagged as tip, and exactly the commits reached from it through parent links are canonical. |
| Canonical.AncestryBelow | miner-vis.py:300-302 | Every commit on the walk from a commit is in the window at a burn height no higher. |
| Canonical.AncestryClosed | miner-vis.py:300-302 | The walk stays in the window, is closed under parents, and never revisits a commit, so it ends. |
| Canonical.PathStep | miner-vis.py:300-302 | Each step of the walk moves to a parent of strictly lower burn height that is still on the tip's ancestry. |
| Canonical.WalkEnd | miner-vis.py:300-304 | A finished walk leaves the graph in the final state. |
| ForkScorer.Step | miner-vis.py:905 | `commits.get(parent)` gives the parent exactly when it is in the window, and None otherwise. |
| ForkScorer.MinHeight | miner-vis.py:891 | The minimum Stacks height over the tips is attained by one of them. |
| ForkScorer.MaxHeight | miner-vis.py:892 | The maximum Stacks height over the tips is attained by one of them. |
| ForkScorer.Level | miner-vis.py:895-906 | A tip is walked down to the minimum height, and its score is the initial penalty plus each visited commit's burn-minus-Stacks height. It fails exactly at the first ancestor off the window (walked out) or without a Stacks height. A tip already at the minimum stays in place. |
| ForkScorer.LevelOutcome | miner-vis.py:901-905 | Levelling has one outcome: one stopping depth, and either a levelled tip or one error there, never both. |
| ForkScorer.LevelAll | miner-vis.py:894-906 | The tips are levelled in order with their scores. On an error, all earlier tips were levelled and the next one fails exactly as `Level` describes. A single tip stays in place with depth 0. |
| ForkScorer.ScoreToCommonAncestor | miner-vis.py:884-927 | No tips gives None. Otherwise the outcome is exactly `Scored`: a levelling error of the first tip that fails, or the lock-step ending. That ending is the scores when the pointers meet, None when one leaves the window first, or the error of the first pointer without a Stacks height. A single tip scores 0. |
| ForkScorer.LockStepOutcome | miner-vis.py:909-925 | The lock-step phase has one ending: one number of rounds and one result. |
| ForkScorer.LockStepEarlier | miner-vis.py:909-925 | A phase that ended at some round was not still running at any later round. |
| ForkScorer.LockStepSameRound | miner-vis.py:909-925 | At one round the three endings exclude each other, and the raising commit is the first pointer without a height. |
| ForkScorer.Converge | miner-vis.py:909-927 | The lock-step loop ends exactly as `LockStep` describes for the number of rounds it ran. |
| ForkScorer.SteppingStart | miner-vis.py:894-908 | The levelled pointers and scores are the lock-step state before the first round. |
| ForkScorer.SteppingMet | miner-vis.py:909-927 | When the pointers meet, the running scores are the phase's result. |
| ForkScorer.Advance | miner-vis.py:912-925 | One round moves every pointer to its parent and adds the parent's cost to its tip's score. It ends the phase with None exactly when a pointer leaves the window, and with an error at the first pointer without a height. |
| ForkScorer.Parents | miner-vis.py:912-915 | The next pointers are the parents, each at a strictly lower burn height, which bounds the loop. |
| ForkScorer.AddCosts | miner-vis.py:922-925 | Adding each pointer's cost gives the next round's reference scores, or the error of the first pointer without a Stacks height. |
| ForkScorer.PointersMeet | miner-vis.py:909-911 | The loop condition "some pointer differs from the first" is the negation of "all tips meet at this round". |
| ForkScorer.CandidatesMembers | miner-vis.py:933-935 | A commit is a candidate exactly when it is a potential tip whose Stacks height reaches the window's minimum. |
| ForkScorer.CandidatesDistinct | miner-vis.py:931-935 | Candidates are listed in dictionary order, each once. |
| ForkScorer.SelectCandidates | miner-vis.py:931-935 | Gathering candidates fails exactly when some potential tip has no Stacks height (the comparison with None raises). |
| ForkScorer.FirstMin | miner-vis.py:939 | The next tip has the least score, and is the first such in candidate order. |
| ForkScorer.MarkNextTip | miner-vis.py:930-940 | With a canonical height and comparable tips, the candidates are those within the fork depth and the outcome is exactly `Scored` for them. With scores, exactly the first least-scoring candidate gets `next_tip`. On an error nothing changes; a None canonical height and an incomparable tip are errors. |
| ForkScorer.ScoreAndFlag | miner-vis.py:937-940 | Scoring the candidates and flagging the first least-scoring one: the scores are exactly `Scored`, and only the flagged commit changes. |
| ForkScorer.FlagNextTip | miner-vis.py:938-940 | Only the chosen commit's `next_tip` flag changes, and one is chosen exactly when there are scores. |
| ForkScorer.MarkedGraphScorable | miner-vis.py:930-934 | After canonical marking every potential tip has a Stacks height, so candidate selection cannot fail. |
| Stats.UnknownSenderEntry | miner-vis.py:549-557 | The miners-table entry of a sender the configuration does not list: its address prefix as name, group "Other", the default colour, neither tracked nor known. |
| Stats.TrackedSenderEntry | miner-vis.py:549-557 | A tracked sender's entry is known and listed under the tracked group. |
| Stats.CollectStats | miner-vis.py:491-559 | The loop's accumulators equal the fold `Collect`. That fold gathers exactly the per-group statistics, miners, per-block spend and earnings, orphans and wins of the commits. |
| Stats.Accumulate | miner-vis.py:500-559 | One loop iteration is one step of the fold. |
| Stats.AddToGroup | miner-vis.py:505-546 | The group accumulator adds one commit, its spend and fee, and a win or canonical win with its earnings. |
| Stats.CollectGroups | miner-vis.py:503-559 | Each group's statistics describe exactly the commits of that group. |
| Stats.CollectMiners | miner-vis.py:548-557 | The miners table has one entry per sender, built from the configuration. |
| Stats.CollectSpend | miner-vis.py:515-518 | The spend per block is the sum of spend plus fee over the commits of that height. |
| Stats.CollectEarn | miner-vis.py:527-532 | The earnings per block are the sum of coinbase plus fees earned over the commits of that height. |
| Stats.CollectCounts | miner-vis.py:501-538 | The blocks seen are the burn heights, orphans are the non-canonical winners, and the total is the number of winners. |
| Stats.DescribesSnoc | miner-vis.py:505-546 | Adding a commit to a group's statistics keeps them describing the group's commits. |
| Stats.WinsSplit | miner-vis.py:534-543 | Orphans plus canonical wins equal wins, which do not exceed the commits. |
| Stats.GroupCounts | miner-vis.py:507-543 | In each group, canonical wins do not exceed wins, and wins do not exceed commits. |
| Stats.NoCanonicalNoEarnings | miner-vis.py:542-546 | A group with no canonical win has earned no coinbase and no fees. |
| Stats.GroupsNeedBlocks | miner-vis.py:501-505 | There is a group exactly when there is a burn height, so the per-group division by the number of blocks is defined. |
| Stats.RoundHalfEven | miner-vis.py:476 | Python's `round`: within one half of the exact quotient, with ties going to the even integer. |
| Stats.ComputeStats | miner-vis.py:467-488 | The group's totals, and the average spend rounded to the nearest integer. The orphan rate is 0 without wins and otherwise lies in [0, 1]. The price is a value exactly when something was earned, and infinite exactly when nothing was earned but something was spent. |
| Stats.OrphanRate | miner-vis.py:575 | The overall orphan rate lies in [0, 1] and is zero exactly when there are no orphans or no wins. |
| Stats.Finish | miner-vis.py:561-577 | The report computes figures for exactly the collected groups and passes the other tables through. |
| Stats.GroupFigures | miner-vis.py:467-488 | A group's figures in terms of its commits. The total spend is spend plus fees. Earnings come from canonical wins only. Win and canonical percentages are over the number of blocks, the orphan rate is (wins - canonical) / wins, and without canonical wins the price is "0" or infinite. |
| Stats.CollectReport | miner-vis.py:491-577 | The report has a group entry per group that has commits, with that group's computed figures. The miner and per-block tables are as gathered, and the overall orphan rate is orphans over wins, in [0, 1]. |
| MinerSim.ChainShape | miner-sim.py:121-127 | Walking parent links from a block visits height + 1 blocks, from the block down to the genesis, with heights strictly decreasing. |
| MinerSim.ChainAppend | miner-sim.py:60-64 | Appending a block leaves every existing block's walk unchanged. |
| MinerSim.ForkDepthPositive | miner-sim.py:44-72 | Every recorded fork is at least one block deep. |
| MinerSim.ColludingParent | miner-sim.py:96-101 | The colluding parent is the colluding tip when the tip is at most `gap` above it, and the tip otherwise. |
| MinerSim.Choose | miner-sim.py:13-26 | An honest miner chooses the tip; a colluding miner chooses `ColludingParent` with its own gap. |
| MinerSim.Append | miner-sim.py:60-72 | `add_block` as a value: the new block is number `len(blocks)`, one above its parent, and the fork table moves as `NextForks` says. |
| MinerSim.Blockchain.constructor | miner-sim.py:52-58 | A new chain holds only the genesis, which is the tip and the colluding tip, with no forks. |
| MinerSim.Blockchain.LongestChain | miner-sim.py:93-94 | The tip has the greatest height of all blocks. |
| MinerSim.Blockchain.LongestColludingChain | miner-sim.py:96-101 | The colluding tip when the tip is at most `gap` above it, and the tip otherwise. |
| MinerSim.Blockchain.AddBlock | miner-sim.py:60-77 | The new chain is `Append` of the old: block `len(blocks)` one above its parent, the tip (and, for a colluding miner, the colluding tip) moved only on a strictly greater height, and a block off the tip that does not pass it extends or opens a fork. The chain stays valid. |
| MinerSim.AppendSound | miner-sim.py:60-77 | Appending a block preserves well-formedness, tip maximality, the colluding tip, and the fork table's invariant. |
| MinerSim.ForksKept | miner-sim.py:66-72 | A fork moved or opened by the new block has the new block as tip and a base on its walk. |
| MinerSim.Blockchain.IncludedBlocks | miner-sim.py:120-127 | The included-blocks count of each miner, listed or met on the walk, is the number of blocks it mined on the chain from the tip to the genesis. |
| MinerSim.CountIncluded | miner-sim.py:120-127 | The walk-and-count loop computes that multiset of producers. |
| MinerSim.Bump | miner-sim.py:124-126 | Counting a block adds its miner with count 0 if absent, then increments that miner only. |
| MinerSim.IncludedTotal | miner-sim.py:120-127 | The included counts add up to the tip's height + 1, and the genesis is counted. |
| MinerSim.Miner.HonestMiner | miner-sim.py:8-11 | An honest miner's identifier is "H" followed by its number, with no blocks mined. |
| MinerSim.Miner.ColludingMiner | miner-sim.py:19-23 | A colluding miner's identifier is "C" followed by its number; it keeps its gap and has no blocks mined. |
| MinerSim.Miner.ParentIn | miner-sim.py:13-26 | An honest miner builds on the tip; a colluding one on `ColludingParent` with its gap. |
| MinerSim.Miner.MineBlock | miner-sim.py:13-28 | Mining counts one block and leaves the chain as `Append` of the old one on the parent the strategy chooses: new tip, colluding tip and forks included. |
| MinerSim.OccurrencesSnoc | miner-sim.py:161-163 | One more round adds one to the count of the miner picked in it. |
| MinerSim.RunNext | miner-sim.py:161-163 | Round r appends one block, by the miner picked for it, to the chain as round r - 1 left it. |
| MinerSim.RunPrefix | miner-sim.py:161-163 | Later rounds only append: the chain after round m is a prefix of every later chain. |
| MinerSim.RunBlocks | miner-sim.py:161-163 | Block q + 1 is by the miner picked in round q, on the block that miner's strategy chose in the chain as it stood. |
| MinerSim.RunSound | miner-sim.py:158-165 | Every round keeps the chain's invariant. |
| MinerSim.HonestNoForks | miner-sim.py:158-165 | With honest miners only, the chain is a single line, the newest block is the tip, and no fork is recorded. |
| MinerSim.MineRound | miner-sim.py:161-163 | One round: the picked miner mines on the chain, which becomes the next run, and its count grows by one. |
| MinerSim.SimulateMining | miner-sim.py:158-165 | A fresh valid chain equal to the run of all picks (so each block is by the miner picked for its round, on the parent that miner chose). Each miner's mined count grows by the number of rounds that picked it. |

## Left out

- Database access (`sqlite3` queries in both sortition and chain-state databases) is not modelled; the query results are parameters.
- `get_bitcoin_fee` (miner-vis.py:423-452) is not modelled: its database cache and its HTTP lookup are I/O. `Stats.Fee` reads a given `txid -> fee` map instead, and a missing or failed lookup counts as 0, as at miner-vis.py:511-512.
- `Commit.get_fullness` (miner-vis.py:130-139) is not modelled: it is float arithmetic used only for display.
- Stats.ComputeStats: the percentages, the orphan rate and the price ratio are exact fractions, not floats, and the price's two-decimal string formatting is not modelled.
- Stats.CollectReport: the STX price read from `stx-price.txt` (miner-vis.py:565-568) is file I/O and is not part of the report.
- Canonical.Enrich: the JSON cost string is taken as already decoded into `Costs`; a malformed cost string is not modelled.
- Canonical.MarkCanonicalBlocks: the commit dictionary is threaded as a value from step to step rather than updated in place. No commit object is shared outside it, so no aliasing is lost.
- Rendering is not modelled: the graph drawing, HTML and SVG output, alerts, the web server and its lock, and command-line parsing in both programs.
- MinerSim.Blockchain.AddBlock: the Graphviz nodes and edges it draws (miner-sim.py:79-91) are not modelled.
- `Blockchain.print_statistics` (miner-sim.py:104-152) is modelled only for its included-blocks walk (`IncludedBlocks`). The fork counts, maximum depth, abandoned-block percentage and per-miner confirmation percentages are float and print output.
- `Fork.__gt__` (miner-sim.py:47-48) is not modelled: nothing calls it.
- MinerSim.SimulateMining: `random.choice` becomes the `picks` sequence of miner indices. The miners are required to be distinct objects, as the program constructs them.
- MinerSim.Miner.MineBlock: the two Python miner classes are one `Miner` class with a `Strategy` value, and the strategy chooses the parent.
- MinerSim.Miner.HonestMiner: the identifier formats the number in decimal as Python's f-string does, including a leading `-` for negative numbers.
- Canonical.MarkCanonicalBlocks: requires `ParentsPrecede`, which says every parent in the window lies at a strictly lower burn height. This precondition is what bounds the canonical walk. Data from the database meets it when header hashes are unique and every parent pointer names an earlier burn block (`CommitGraph.BuildParentsPrecede`). With a repeated header hash the dictionary entry can be overwritten, and the Python `while tip:` walk (miner-vis.py:300-302) could then cycle. That run is not modelled.
- ForkScorer.MarkNextTip: requires the same `ParentsPrecede`, for the same reason. The levelling and lock-step loops of miner-vis.py:901-925 move only to strictly lower burn heights under it.
- The `Hash` type holds non-empty strings only. The empty string is falsy in Python and would end the walk at miner-vis.py:300 and fail the `commit.parent and …` tests; database hashes are never empty.
- Stats.ComputeStats: `avg_spend_per_block` is rounded half-to-even from the exact quotient. Python rounds the float `spend / num_blocks` (miner-vis.py:476), which can differ once the spend is too large to be represented exactly as a double.
