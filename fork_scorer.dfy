/** The fork scorer: among the live branch heads near the canonical tip, predict
    the one most likely to become canonical next. */
module ForkScorer {
  import opened Common
  import opened CommitGraph
  import opened Canonical

  /** The ways the Python functions raise. */
  datatype ScoreError =
    | WalkedOutOfWindow(tip: Hash)   // `None.stacks_height` while levelling a tip
    | NoStacksHeight(commit: Hash)   // arithmetic or comparison on a None height

  // ---------------------------------------------------------------------------
  // Walking parent links

  /** `commits.get(commit.parent)`: the parent when it is in the window. */
  function Step(g: Graph, h: Hash): (r: Option<Hash>)
    requires h in g.commits
    ensures r.Some? ==> r.value in g.commits && g.commits[h].parent == r
    ensures g.commits[h].parent.Some? && g.commits[h].parent.value in g.commits ==> r == g.commits[h].parent
  {
    match g.commits[h].parent
    case None => None
    case Some(p) => if p in g.commits then Some(p) else None
  }

  /** The `n`-th ancestor of `h`, if the window reaches that far back. */
  function Walk(g: Graph, h: Hash, n: nat): (r: Option<Hash>)
    requires h in g.commits
    ensures r.Some? ==> r.value in g.commits
  {
    if n == 0 then Some(h)
    else match Walk(g, h, n - 1)
      case None => None
      case Some(x) => Step(g, x)
  }

  predicate HasHeight(g: Graph, x: Option<Hash>) {
    x.Some? && x.value in g.commits && g.commits[x.value].stacksHeight.Some?
  }

  function SH(g: Graph, h: Hash): int
    requires h in g.commits && g.commits[h].stacksHeight.Some?
  {
    g.commits[h].stacksHeight.value
  }

  /** The score a commit adds: how many burn blocks it lags behind its Stacks height. */
  function Cost(g: Graph, x: Option<Hash>): int {
    if HasHeight(g, x) then g.commits[x.value].burnBlockHeight - SH(g, x.value) else 0
  }

  /** The summed cost of the ancestors `a` (inclusive) to `b` (exclusive) of `h`. */
  function PathCost(g: Graph, h: Hash, a: nat, b: nat): int
    requires h in g.commits
    decreases b
  {
    if b <= a then 0 else PathCost(g, h, a, b - 1) + Cost(g, Walk(g, h, b - 1))
  }

  // ---------------------------------------------------------------------------
  // The candidate tips' Stacks heights

  predicate AllHaveHeights(g: Graph, tips: seq<Hash>) {
    forall i :: 0 <= i < |tips| ==> tips[i] in g.commits && g.commits[tips[i]].stacksHeight.Some?
  }

  function MinHeight(g: Graph, tips: seq<Hash>): (m: int)
    requires |tips| > 0 && AllHaveHeights(g, tips)
    ensures forall i :: 0 <= i < |tips| ==> m <= SH(g, tips[i])
    ensures exists i :: 0 <= i < |tips| && m == SH(g, tips[i])
  {
    if |tips| == 1 then SH(g, tips[0])
    else
      var m := MinHeight(g, tips[1..]);
      assert forall i :: 1 <= i < |tips| ==> tips[1..][i - 1] == tips[i];
      if SH(g, tips[0]) <= m then SH(g, tips[0]) else m
  }

  function MaxHeight(g: Graph, tips: seq<Hash>): (m: int)
    requires |tips| > 0 && AllHaveHeights(g, tips)
    ensures forall i :: 0 <= i < |tips| ==> SH(g, tips[i]) <= m
    ensures exists i :: 0 <= i < |tips| && m == SH(g, tips[i])
  {
    if |tips| == 1 then SH(g, tips[0])
    else
      var m := MaxHeight(g, tips[1..]);
      assert forall i :: 1 <= i < |tips| ==> tips[1..][i - 1] == tips[i];
      if SH(g, tips[0]) >= m then SH(g, tips[0]) else m
  }

  /** The starting score of a tip: its lag times its distance below the tallest tip. */
  function InitialScore(g: Graph, t: Hash, maxH: int): int
    requires t in g.commits && g.commits[t].stacksHeight.Some?
  {
    (g.commits[t].burnBlockHeight - SH(g, t)) * (maxH - SH(g, t))
  }

  /** The first `d` ancestors of `t` (from `t` itself) are above `minH`, and the
      `d`-th is at or below it: `d` is how far levelling walks `t`. */
  ghost predicate Levelled(g: Graph, t: Hash, d: nat, minH: int)
    requires t in g.commits
  {
    && HasHeight(g, Walk(g, t, d)) && SH(g, Walk(g, t, d).value) <= minH
    && forall e :: 0 <= e < d ==> HasHeight(g, Walk(g, t, e)) && SH(g, Walk(g, t, e).value) > minH
  }

  /** Levelling `t` raises at its `d`-th ancestor: every earlier one was above
      `minH`, and the `d`-th is off the window (`None.stacks_height`) or has no
      Stacks height to compare (`None > min_height`). */
  ghost predicate FailsAt(g: Graph, t: Hash, d: nat, minH: int, e: ScoreError)
    requires t in g.commits
  {
    && (forall k :: 0 <= k < d ==> HasHeight(g, Walk(g, t, k)) && SH(g, Walk(g, t, k).value) > minH)
    && if Walk(g, t, d).None? then e == WalkedOutOfWindow(t)
       else !HasHeight(g, Walk(g, t, d)) && e == NoStacksHeight(Walk(g, t, d).value)
  }

  /** Levelling `t` raises `e`. */
  ghost predicate LevelFails(g: Graph, t: Hash, minH: int, e: ScoreError)
    requires t in g.commits
  {
    exists d :: FailsAt(g, t, d, minH, e)
  }

  /** Levelling has one outcome: it stops at one depth, and either levels the tip
      there or raises one error there. */
  lemma LevelOutcome(g: Graph, t: Hash, minH: int, d1: nat, d2: nat, e1: ScoreError, e2: ScoreError)
    requires t in g.commits
    ensures Levelled(g, t, d1, minH) && Levelled(g, t, d2, minH) ==> d1 == d2
    ensures !(Levelled(g, t, d1, minH) && FailsAt(g, t, d2, minH, e2))
    ensures FailsAt(g, t, d1, minH, e1) && FailsAt(g, t, d2, minH, e2) ==> d1 == d2 && e1 == e2
  {
    var k := if d1 < d2 then d1 else d2;
    assert HasHeight(g, Walk(g, t, k)) || !HasHeight(g, Walk(g, t, k));
  }

  /** Levelling one tip: the `while commit.stacks_height > min_height` loop. */
  method Level(g: Graph, t: Hash, minH: int, maxH: int)
    returns (res: Result<Hash, ScoreError>, score: int, ghost d: nat)
    requires ParentsPrecede(g) && t in g.commits && g.commits[t].stacksHeight.Some?
    ensures res.Ok? ==> Levelled(g, t, d, minH) && Walk(g, t, d) == Some(res.value)
    ensures res.Ok? ==> score == InitialScore(g, t, maxH) + PathCost(g, t, 0, d)
    ensures res.Err? ==> FailsAt(g, t, d, minH, res.error)
    ensures SH(g, t) <= minH ==> res == Ok(t) && d == 0
    ensures res.Err? ==> LevelFails(g, t, minH, res.error)
    ensures res.Ok? ==> forall e :: !LevelFails(g, t, minH, e)
  {
    score := InitialScore(g, t, maxH);
    var cur: Option<Hash> := Some(t);
    d := 0;
    while true
      invariant cur == Walk(g, t, d)
      invariant forall e :: 0 <= e < d ==> HasHeight(g, Walk(g, t, e)) && SH(g, Walk(g, t, e).value) > minH
      invariant score == InitialScore(g, t, maxH) + PathCost(g, t, 0, d)
      decreases if cur.Some? then g.commits[cur.value].burnBlockHeight + 1 else 0
    {
      if cur.None? {
        assert FailsAt(g, t, d, minH, WalkedOutOfWindow(t));
        return Err(WalkedOutOfWindow(t)), score, d;
      }
      var c := g.commits[cur.value];
      if c.stacksHeight.None? {
        assert FailsAt(g, t, d, minH, NoStacksHeight(cur.value));
        return Err(NoStacksHeight(cur.value)), score, d;
      }
      if c.stacksHeight.value <= minH {
        assert Levelled(g, t, d, minH);
        forall e: ScoreError, d': nat ensures !FailsAt(g, t, d', minH, e) {
          LevelOutcome(g, t, minH, d, d', e, e);
        }
        return Ok(cur.value), score, d;
      }
      score := score + (c.burnBlockHeight - c.stacksHeight.value);
      cur := Step(g, cur.value);
      d := d + 1;
    }
  }

  // ---------------------------------------------------------------------------
  // Tracing the levelled tips back in lock-step

  /** After `r` lock-step rounds every levelled tip still has an ancestor in the window. */
  ghost predicate AllReach(g: Graph, tips: seq<Hash>, depth: seq<nat>, r: nat)
    requires AllHaveHeights(g, tips) && |depth| == |tips|
  {
    forall i :: 0 <= i < |tips| ==> Walk(g, tips[i], depth[i] + r).Some?
  }

  /** After `r` lock-step rounds every pointer rests on a commit with a Stacks height. */
  ghost predicate Heighted(g: Graph, tips: seq<Hash>, depth: seq<nat>, r: nat)
    requires AllHaveHeights(g, tips) && |depth| == |tips|
  {
    forall i :: 0 <= i < |tips| ==> HasHeight(g, Walk(g, tips[i], depth[i] + r))
  }

  /** After `r` lock-step rounds all levelled tips point at the same commit. */
  ghost predicate SameAt(g: Graph, tips: seq<Hash>, depth: seq<nat>, r: nat)
    requires AllHaveHeights(g, tips) && |depth| == |tips| && |tips| > 0
  {
    forall i :: 0 <= i < |tips| ==> Walk(g, tips[i], depth[i] + r) == Walk(g, tips[0], depth[0] + r)
  }

  /** After `r` rounds, `c` is the commit of the first pointer (in the tips' order)
      without a Stacks height: the one whose cost raises. */
  ghost predicate FirstUnheighted(g: Graph, tips: seq<Hash>, depth: seq<nat>, r: nat, c: Hash)
    requires AllHaveHeights(g, tips) && |depth| == |tips|
  {
    exists j :: 0 <= j < |tips| && Walk(g, tips[j], depth[j] + r) == Some(c) && !HasHeight(g, Some(c))
      && forall i :: 0 <= i < j ==> HasHeight(g, Walk(g, tips[i], depth[i] + r))
  }

  /** The score of the `i`-th tip after levelling and `rounds` lock-step rounds. */
  function Score(g: Graph, tips: seq<Hash>, depth: seq<nat>, rounds: nat, i: nat): int
    requires AllHaveHeights(g, tips) && |depth| == |tips| && i < |tips|
  {
    InitialScore(g, tips[i], MaxHeight(g, tips))
      + PathCost(g, tips[i], 0, depth[i])
      + PathCost(g, tips[i], depth[i] + 1, depth[i] + rounds + 1)
  }

  /** Before round `rounds`, the pointers never met and every commit they rested on
      had a Stacks height. */
  ghost predicate Apart(g: Graph, tips: seq<Hash>, depth: seq<nat>, rounds: nat)
    requires AllHaveHeights(g, tips) && |depth| == |tips| > 0
  {
    forall r :: 0 <= r < rounds ==> Heighted(g, tips, depth, r) && !SameAt(g, tips, depth, r)
  }

  /** How the lock-step phase ends after `rounds` rounds: the pointers meet with
      the scores of those rounds; one of them leaves the window (`None`); or, all
      still in the window, the first without a Stacks height raises. */
  ghost predicate LockStep(g: Graph, tips: seq<Hash>, depth: seq<nat>, rounds: nat,
                           res: Result<Option<seq<int>>, ScoreError>)
    requires AllHaveHeights(g, tips) && |depth| == |tips| > 0
  {
    && Apart(g, tips, depth, rounds)
    && match res
       case Ok(Some(s)) =>
         && Heighted(g, tips, depth, rounds) && SameAt(g, tips, depth, rounds)
         && |s| == |tips| && forall i :: 0 <= i < |tips| ==> s[i] == Score(g, tips, depth, rounds, i)
       case Ok(None) => !AllReach(g, tips, depth, rounds)
       case Err(e) =>
         AllReach(g, tips, depth, rounds) && e.NoStacksHeight? && FirstUnheighted(g, tips, depth, rounds, e.commit)
  }

  /** The whole of `get_score_to_common_ancestor`: no tips give `None`; otherwise
      the first `|depth|` tips are levelled, and either the next one fails to
      level, or all are and the lock-step phase ends as `LockStep` says. */
  ghost predicate Scored(g: Graph, tips: seq<Hash>, res: Result<Option<seq<int>>, ScoreError>,
                         depth: seq<nat>, rounds: nat)
    requires AllHaveHeights(g, tips)
  {
    if tips == [] then res == Ok(None)
    else
      && |depth| <= |tips|
      && (forall j :: 0 <= j < |depth| ==> Levelled(g, tips[j], depth[j], MinHeight(g, tips)))
      && if |depth| < |tips| then res.Err? && LevelFails(g, tips[|depth|], MinHeight(g, tips), res.error)
         else LockStep(g, tips, depth, rounds, res)
  }

  /** The lock-step phase has one outcome: one number of rounds, one result. */
  lemma {:induction false} LockStepOutcome(g: Graph, tips: seq<Hash>, depth: seq<nat>, r1: nat, r2: nat,
                                           res1: Result<Option<seq<int>>, ScoreError>,
                                           res2: Result<Option<seq<int>>, ScoreError>)
    requires AllHaveHeights(g, tips) && |depth| == |tips| > 0
    requires LockStep(g, tips, depth, r1, res1) && LockStep(g, tips, depth, r2, res2)
    ensures r1 == r2 && res1 == res2
  {
    if r1 < r2 {
      LockStepEarlier(g, tips, depth, r1, r2, res1);
      assert false;
    } else if r2 < r1 {
      LockStepEarlier(g, tips, depth, r2, r1, res2);
      assert false;
    } else {
      LockStepSameRound(g, tips, depth, r1, res1, res2);
    }
  }

  /** A phase that ended at round `r1` was not still running at any later round. */
  lemma LockStepEarlier(g: Graph, tips: seq<Hash>, depth: seq<nat>, r1: nat, r2: nat,
                        res1: Result<Option<seq<int>>, ScoreError>)
    requires AllHaveHeights(g, tips) && |depth| == |tips| > 0 && r1 < r2
    requires LockStep(g, tips, depth, r1, res1)
    ensures !Apart(g, tips, depth, r2)
  {
    assert !Heighted(g, tips, depth, r1) || SameAt(g, tips, depth, r1);
  }

  /** At one round the three endings exclude each other, and the raising commit is the first. */
  lemma LockStepSameRound(g: Graph, tips: seq<Hash>, depth: seq<nat>, r: nat,
                          res1: Result<Option<seq<int>>, ScoreError>, res2: Result<Option<seq<int>>, ScoreError>)
    requires AllHaveHeights(g, tips) && |depth| == |tips| > 0
    requires LockStep(g, tips, depth, r, res1) && LockStep(g, tips, depth, r, res2)
    ensures res1 == res2
  {
    if res1.Err? && res2.Err? {
      var c1, c2 := res1.error.commit, res2.error.commit;
      var j1 :| 0 <= j1 < |tips| && Walk(g, tips[j1], depth[j1] + r) == Some(c1) && !HasHeight(g, Some(c1))
        && forall i :: 0 <= i < j1 ==> HasHeight(g, Walk(g, tips[i], depth[i] + r));
      var j2 :| 0 <= j2 < |tips| && Walk(g, tips[j2], depth[j2] + r) == Some(c2) && !HasHeight(g, Some(c2))
        && forall i :: 0 <= i < j2 ==> HasHeight(g, Walk(g, tips[i], depth[i] + r));
      assert j1 == j2;
    } else if res1.Ok? && res1.value.Some? && res2.Ok? && res2.value.Some? {
      assert res1.value.value == res2.value.value;
    }
  }

  /** `get_score_to_common_ancestor`: level every tip down to the lowest tip's
      Stacks height, then walk all of them back together until they meet.
      The score table is keyed by the tips in their order, so it is kept as a
      sequence aligned with `tips`. `depth` holds how far each tip was levelled
      (up to the one that failed) and `rounds` how many lock-step rounds ran. */
  method ScoreToCommonAncestor(g: Graph, tips: seq<Hash>)
    returns (result: Result<Option<seq<int>>, ScoreError>, ghost depth: seq<nat>, ghost rounds: nat)
    requires ParentsPrecede(g) && AllHaveHeights(g, tips) && Distinct(tips)
    ensures Scored(g, tips, result, depth, rounds)
    ensures |tips| == 1 ==> result == Ok(Some([0]))
  {
    depth, rounds := [], 0;
    if tips == [] {
      return Ok(None), depth, rounds;
    }
    var levelled, scores, ptrs;
    levelled, scores, ptrs, depth := LevelAll(g, tips);
    if levelled.Err? {
      return Err(levelled.error), depth, rounds;
    }
    SteppingStart(g, tips, depth, ptrs, scores);
    result, rounds := Converge(g, tips, depth, ptrs, scores);
    if |tips| == 1 {
      assert MaxHeight(g, tips) == SH(g, tips[0]);
      assert Score(g, tips, depth, 0, 0) == 0;
      assert scores == [0];
      SteppingMet(g, tips, depth, 0, ptrs, scores);
      LockStepOutcome(g, tips, depth, 0, rounds, Ok(Some(scores)), result);
    }
  }

  /** The first `i` tips are levelled: pointer, depth and running score of each. */
  ghost predicate LevelledUpTo(g: Graph, tips: seq<Hash>, minH: int, maxH: int,
                               scores: seq<int>, ptrs: seq<Hash>, depth: seq<nat>, i: nat)
    requires ParentsPrecede(g) && AllHaveHeights(g, tips) && i <= |tips|
  {
    && |ptrs| == i && |depth| == i && |scores| == i
    && forall j :: 0 <= j < i ==>
      && Levelled(g, tips[j], depth[j], minH)
      && Walk(g, tips[j], depth[j]) == Some(ptrs[j])
      && scores[j] == InitialScore(g, tips[j], maxH) + PathCost(g, tips[j], 0, depth[j])
  }

  lemma LevelledSnoc(g: Graph, tips: seq<Hash>, minH: int, maxH: int,
                     scores: seq<int>, ptrs: seq<Hash>, depth: seq<nat>, i: nat, score: int, p: Hash, d: nat)
    requires ParentsPrecede(g) && AllHaveHeights(g, tips) && i < |tips|
    requires LevelledUpTo(g, tips, minH, maxH, scores, ptrs, depth, i)
    requires Levelled(g, tips[i], d, minH) && Walk(g, tips[i], d) == Some(p)
    requires score == InitialScore(g, tips[i], maxH) + PathCost(g, tips[i], 0, d)
    ensures LevelledUpTo(g, tips, minH, maxH, scores + [score], ptrs + [p], depth + [d], i + 1)
  {
  }

  /** With every tip levelled, each running score is the score after zero rounds. */
  lemma LevelledAll(g: Graph, tips: seq<Hash>, scores: seq<int>, ptrs: seq<Hash>, depth: seq<nat>)
    requires ParentsPrecede(g) && AllHaveHeights(g, tips) && |tips| > 0
    requires LevelledUpTo(g, tips, MinHeight(g, tips), MaxHeight(g, tips), scores, ptrs, depth, |tips|)
    ensures |ptrs| == |tips| == |depth| == |scores|
    ensures forall j :: 0 <= j < |tips| ==>
      && Levelled(g, tips[j], depth[j], MinHeight(g, tips))
      && Walk(g, tips[j], depth[j]) == Some(ptrs[j])
      && scores[j] == Score(g, tips, depth, 0, j)
  {
  }

  /** The levelling phase over all tips, in order: it stops at the first tip that fails. */
  method LevelAll(g: Graph, tips: seq<Hash>)
    returns (res: Result<(), ScoreError>, scores: seq<int>, ptrs: seq<Hash>, ghost depth: seq<nat>)
    requires ParentsPrecede(g) && AllHaveHeights(g, tips) && |tips| > 0
    ensures |tips| == 1 ==> res.Ok? && depth == [0]
    ensures |depth| <= |tips|
    ensures forall j :: 0 <= j < |depth| ==> Levelled(g, tips[j], depth[j], MinHeight(g, tips))
    ensures res.Err? ==> |depth| < |tips| && LevelFails(g, tips[|depth|], MinHeight(g, tips), res.error)
    ensures res.Ok? ==>
      && |ptrs| == |tips| == |depth| == |scores|
      && forall j :: 0 <= j < |tips| ==>
        && Walk(g, tips[j], depth[j]) == Some(ptrs[j])
        && scores[j] == Score(g, tips, depth, 0, j)
    ensures res.Err? ==> exists j :: 0 <= j < |tips| && LevelFails(g, tips[j], MinHeight(g, tips), res.error)
    ensures res.Ok? ==>
      && |ptrs| == |tips| == |scores|
      && forall j, e :: 0 <= j < |tips| ==> !LevelFails(g, tips[j], MinHeight(g, tips), e)
  {
    var minH, maxH := MinHeight(g, tips), MaxHeight(g, tips);
    scores, ptrs, depth := [], [], [];
    var i := 0;
    while i < |tips|
      invariant 0 <= i <= |tips|
      invariant LevelledUpTo(g, tips, minH, maxH, scores, ptrs, depth, i)
      invariant |tips| == 1 ==> depth == [0][..i]
      invariant forall j, e :: 0 <= j < i ==> !LevelFails(g, tips[j], minH, e)
    {
      if |tips| == 1 {
        assert minH == SH(g, tips[i]);
      }
      var r, score, d := Level(g, tips[i], minH, maxH);
      if r.Err? {
        assert LevelFails(g, tips[i], minH, r.error);
        return Err(r.error), scores, ptrs, depth;
      }
      LevelledSnoc(g, tips, minH, maxH, scores, ptrs, depth, i, score, r.value, d);
      scores, ptrs, depth := scores + [score], ptrs + [r.value], depth + [d];
      i := i + 1;
    }
    LevelledAll(g, tips, scores, ptrs, depth);
    res := Ok(());
  }

  /** `ptrs` are the levelled tips' ancestors after `r` lock-step rounds. */
  ghost predicate PointersAt(g: Graph, tips: seq<Hash>, depth: seq<nat>, r: nat, ptrs: seq<Hash>)
    requires AllHaveHeights(g, tips) && |depth| == |tips|
  {
    |ptrs| == |tips| && forall j :: 0 <= j < |tips| ==> Walk(g, tips[j], depth[j] + r) == Some(ptrs[j])
  }

  /** `scores` are the tips' scores after `r` lock-step rounds. */
  ghost predicate ScoresAt(g: Graph, tips: seq<Hash>, depth: seq<nat>, r: nat, scores: seq<int>)
    requires AllHaveHeights(g, tips) && |depth| == |tips|
  {
    |scores| == |tips| && forall j :: 0 <= j < |tips| ==> scores[j] == Score(g, tips, depth, r, j)
  }

  lemma PointersMeet(g: Graph, tips: seq<Hash>, depth: seq<nat>, r: nat, ptrs: seq<Hash>)
    requires AllHaveHeights(g, tips) && |depth| == |tips| > 0
    requires PointersAt(g, tips, depth, r, ptrs)
    ensures AllReach(g, tips, depth, r)
    ensures SameAt(g, tips, depth, r) <==> forall j :: 0 <= j < |ptrs| ==> ptrs[j] == ptrs[0]
  {
  }

  lemma ApartSnoc(g: Graph, tips: seq<Hash>, depth: seq<nat>, rounds: nat)
    requires AllHaveHeights(g, tips) && |depth| == |tips| > 0
    requires Apart(g, tips, depth, rounds)
    requires Heighted(g, tips, depth, rounds) && !SameAt(g, tips, depth, rounds)
    ensures Apart(g, tips, depth, rounds + 1)
  {
  }

  /** The lock-step loop's state after `rounds` rounds: the pointers, the scores,
      and the rounds before, none of which met or lacked a Stacks height. */
  ghost predicate Stepping(g: Graph, tips: seq<Hash>, depth: seq<nat>, rounds: nat, ptrs: seq<Hash>, scores: seq<int>)
    requires AllHaveHeights(g, tips) && |depth| == |tips| > 0
  {
    && PointersAt(g, tips, depth, rounds, ptrs)
    && Apart(g, tips, depth, rounds) && Heighted(g, tips, depth, rounds)
    && ScoresAt(g, tips, depth, rounds, scores)
  }

  /** `any(commit != first ...)`: some pointer differs from the first one. */
  predicate Diverged(ptrs: seq<Hash>)
    requires |ptrs| > 0
  {
    exists j :: 0 <= j < |ptrs| && ptrs[j] != ptrs[0]
  }

  /** The lock-step phase: the scores when the pointers met, `None` when one of
      them walked out of the window first. */
  method Converge(g: Graph, tips: seq<Hash>, ghost depth: seq<nat>, ptrs0: seq<Hash>, scores0: seq<int>)
    returns (res: Result<Option<seq<int>>, ScoreError>, ghost rounds: nat)
    requires ParentsPrecede(g) && AllHaveHeights(g, tips)
    requires |ptrs0| == |tips| == |depth| == |scores0| > 0
    requires Stepping(g, tips, depth, 0, ptrs0, scores0)
    ensures LockStep(g, tips, depth, rounds, res)
    ensures exists r :: LockStep(g, tips, depth, r, res)
  {
    var ptrs, scores := ptrs0, scores0;
    rounds := 0;
    while Diverged(ptrs)
      invariant |ptrs| == |scores| == |tips| && Stepping(g, tips, depth, rounds, ptrs, scores)
      decreases g.commits[ptrs[0]].burnBlockHeight
    {
      var r;
      r, ptrs, scores := Advance(g, tips, depth, rounds, ptrs, scores);
      rounds := rounds + 1;
      if r.Err? {
        return Err(r.error), rounds;
      }
      if !r.value {
        return Ok(None), rounds;
      }
    }
    SteppingMet(g, tips, depth, rounds, ptrs, scores);
    res := Ok(Some(scores));
  }

  /** The levelled tips start the lock-step phase: their pointers, their scores,
      and Stacks heights at every pointer. */
  lemma SteppingStart(g: Graph, tips: seq<Hash>, depth: seq<nat>, ptrs: seq<Hash>, scores: seq<int>)
    requires AllHaveHeights(g, tips) && |tips| > 0
    requires |ptrs| == |tips| == |depth| == |scores|
    requires forall j :: 0 <= j < |depth| ==> Levelled(g, tips[j], depth[j], MinHeight(g, tips))
    requires forall j :: 0 <= j < |tips| ==>
        && Walk(g, tips[j], depth[j]) == Some(ptrs[j])
        && scores[j] == Score(g, tips, depth, 0, j)
    ensures Stepping(g, tips, depth, 0, ptrs, scores)
  {
  }

  /** Pointers that no longer differ have met: the phase ends with the scores. */
  lemma SteppingMet(g: Graph, tips: seq<Hash>, depth: seq<nat>, rounds: nat, ptrs: seq<Hash>, scores: seq<int>)
    requires AllHaveHeights(g, tips) && |depth| == |tips| > 0
    requires |ptrs| == |scores| == |tips| && Stepping(g, tips, depth, rounds, ptrs, scores) && !Diverged(ptrs)
    ensures LockStep(g, tips, depth, rounds, Ok(Some(scores)))
  {
    PointersMeet(g, tips, depth, rounds, ptrs);
  }

  lemma WalkSucc(g: Graph, t: Hash, n: nat)
    requires t in g.commits && Walk(g, t, n).Some?
    ensures Walk(g, t, n + 1) == Step(g, Walk(g, t, n).value)
  {
  }

  lemma ScoreSucc(g: Graph, tips: seq<Hash>, depth: seq<nat>, rounds: nat, j: nat)
    requires AllHaveHeights(g, tips) && |depth| == |tips| && j < |tips|
    ensures Score(g, tips, depth, rounds + 1, j)
         == Score(g, tips, depth, rounds, j) + Cost(g, Walk(g, tips[j], depth[j] + rounds + 1))
  {
  }

  /** One lock-step round: every pointer moves to its parent; the round reports
      `false` when some pointer walked out of the window, and otherwise adds
      each new commit's cost to its tip's score. */
  method Advance(g: Graph, tips: seq<Hash>, ghost depth: seq<nat>, ghost rounds: nat,
                 ptrs: seq<Hash>, scores: seq<int>)
    returns (res: Result<bool, ScoreError>, ptrs': seq<Hash>, scores': seq<int>)
    requires ParentsPrecede(g) && AllHaveHeights(g, tips)
    requires |ptrs| == |tips| == |depth| == |scores| > 0
    requires Stepping(g, tips, depth, rounds, ptrs, scores) && Diverged(ptrs)
    ensures res == Ok(false) ==> LockStep(g, tips, depth, rounds + 1, Ok(None))
    ensures res.Err? ==> LockStep(g, tips, depth, rounds + 1, Err(res.error))
    ensures res == Ok(true) ==>
      && |ptrs'| == |scores'| == |tips| && Stepping(g, tips, depth, rounds + 1, ptrs', scores')
      && ptrs'[0] in g.commits && ptrs[0] in g.commits
      && g.commits[ptrs'[0]].burnBlockHeight < g.commits[ptrs[0]].burnBlockHeight
  {
    PointersMeet(g, tips, depth, rounds, ptrs);
    ApartSnoc(g, tips, depth, rounds);
    var next := Parents(g, tips, depth, rounds, ptrs);
    if exists j :: 0 <= j < |next| && next[j].None? {
      var j :| 0 <= j < |next| && next[j].None?;
      assert Walk(g, tips[j], depth[j] + rounds + 1).None?;
      return Ok(false), ptrs, scores;
    }
    ptrs' := seq(|next|, j requires 0 <= j < |next| && next[j].Some? => next[j].value);
    assert forall j :: 0 <= j < |tips| ==> next[j] == Some(ptrs'[j]);
    res, scores' := AddCosts(g, tips, depth, rounds, ptrs', scores);
  }

  /** The pointers' parents, `commits.get(commit.parent)` for each. */
  method Parents(g: Graph, tips: seq<Hash>, ghost depth: seq<nat>, ghost rounds: nat, ptrs: seq<Hash>)
    returns (next: seq<Option<Hash>>)
    requires ParentsPrecede(g) && AllHaveHeights(g, tips)
    requires |ptrs| == |tips| == |depth| > 0
    requires forall j :: 0 <= j < |tips| ==> Walk(g, tips[j], depth[j] + rounds) == Some(ptrs[j])
    ensures |next| == |tips|
    ensures forall j :: 0 <= j < |tips| ==> Walk(g, tips[j], depth[j] + rounds + 1) == next[j]
    ensures next[0].Some? ==>
      && ptrs[0] in g.commits && next[0].value in g.commits
      && g.commits[next[0].value].burnBlockHeight < g.commits[ptrs[0]].burnBlockHeight
  {
    next := seq(|ptrs|, j requires 0 <= j < |ptrs| && ptrs[j] in g.commits => Step(g, ptrs[j]));
    forall j | 0 <= j < |tips|
      ensures Walk(g, tips[j], depth[j] + rounds + 1) == next[j]
    {
      WalkSucc(g, tips[j], depth[j] + rounds);
    }
  }

  /** The score update of a lock-step round: each tip, in order, gains the cost
      of the commit its pointer now rests on; the first commit without a Stacks
      height raises. */
  method AddCosts(g: Graph, tips: seq<Hash>, ghost depth: seq<nat>, ghost rounds: nat,
                  ptrs: seq<Hash>, scores: seq<int>)
    returns (res: Result<bool, ScoreError>, scores': seq<int>)
    requires AllHaveHeights(g, tips)
    requires |ptrs| == |tips| == |depth| == |scores|
    requires forall j :: 0 <= j < |tips| ==> Walk(g, tips[j], depth[j] + rounds + 1) == Some(ptrs[j])
    requires ScoresAt(g, tips, depth, rounds, scores)
    ensures res.Err? ==> res.error.NoStacksHeight? && FirstUnheighted(g, tips, depth, rounds + 1, res.error.commit)
    ensures res.Ok? ==> res.value && Heighted(g, tips, depth, rounds + 1) && ScoresAt(g, tips, depth, rounds + 1, scores')
  {
    scores' := scores;
    var i := 0;
    while i < |tips|
      invariant 0 <= i <= |tips| && |scores'| == |tips|
      invariant forall j :: 0 <= j < i ==> HasHeight(g, Walk(g, tips[j], depth[j] + rounds + 1))
      invariant forall j :: 0 <= j < i ==> scores'[j] == Score(g, tips, depth, rounds + 1, j)
      invariant forall j :: i <= j < |tips| ==> scores'[j] == scores[j]
    {
      var c := g.commits[ptrs[i]];
      if c.stacksHeight.None? {
        return Err(NoStacksHeight(ptrs[i])), scores';
      }
      ScoreSucc(g, tips, depth, rounds, i);
      scores' := scores'[i := scores'[i] + (c.burnBlockHeight - c.stacksHeight.value)];
      i := i + 1;
    }
    res := Ok(true);
  }

  // ---------------------------------------------------------------------------
  // Choosing the next tip

  /** A commit competes for next tip: it is a branch head close enough to the canonical tip. */
  predicate IsCandidate(c: Commit, minH: int) {
    c.potentialTip && c.stacksHeight.Some? && c.stacksHeight.value >= minH
  }

  /** The branch heads at or above `minH`, in the window's order. */
  function Candidates(g: Graph, order: seq<Hash>, minH: int): (tips: seq<Hash>)
    requires forall i :: 0 <= i < |order| ==> order[i] in g.commits
    ensures AllHaveHeights(g, tips)
  {
    if order == [] then []
    else
      var rest := Candidates(g, order[..|order| - 1], minH);
      var h := order[|order| - 1];
      if IsCandidate(g.commits[h], minH) then rest + [h] else rest
  }

  lemma {:induction false} CandidatesMembers(g: Graph, order: seq<Hash>, minH: int, h: Hash)
    requires forall i :: 0 <= i < |order| ==> order[i] in g.commits
    ensures h in Candidates(g, order, minH) <==> h in order && IsCandidate(g.commits[h], minH)
  {
    if order != [] {
      var pre := order[..|order| - 1];
      CandidatesMembers(g, pre, minH, h);
      assert order == pre + [order[|order| - 1]];
    }
  }

  lemma {:induction false} CandidatesDistinct(g: Graph, order: seq<Hash>, minH: int)
    requires forall i :: 0 <= i < |order| ==> order[i] in g.commits
    requires Distinct(order)
    ensures Distinct(Candidates(g, order, minH))
  {
    if order != [] {
      var pre := order[..|order| - 1];
      var h := order[|order| - 1];
      CandidatesDistinct(g, pre, minH);
      CandidatesMembers(g, pre, minH, h);
      assert forall i :: 0 <= i < |pre| ==> pre[i] == order[i];
    }
  }

  /** A potential tip with no Stacks height, which `mark_next_tip` cannot compare. */
  predicate Incomparable(c: Commit) {
    c.potentialTip && c.stacksHeight.None?
  }

  /** The candidate-collecting loop of `mark_next_tip`. */
  method SelectCandidates(g: Graph, minH: int) returns (res: Result<seq<Hash>, ScoreError>)
    requires Valid(g)
    ensures res.Ok? <==> forall i :: 0 <= i < |g.order| ==> !Incomparable(g.commits[g.order[i]])
    ensures res.Ok? ==> res.value == Candidates(g, g.order, minH)
    ensures res.Err? ==> res.error.NoStacksHeight? && res.error.commit in g.commits
                         && Incomparable(g.commits[res.error.commit])
  {
    var tips := [];
    var i := 0;
    while i < |g.order|
      invariant 0 <= i <= |g.order|
      invariant tips == Candidates(g, g.order[..i], minH)
      invariant forall j :: 0 <= j < i ==> !Incomparable(g.commits[g.order[j]])
    {
      var h := g.order[i];
      var c := g.commits[h];
      if c.potentialTip && c.stacksHeight.None? {
        return Err(NoStacksHeight(h));
      }
      assert g.order[..i + 1][..i] == g.order[..i];
      if c.potentialTip && c.stacksHeight.value >= minH {
        tips := tips + [h];
      }
      i := i + 1;
    }
    assert g.order[..i] == g.order;
    res := Ok(tips);
  }

  /** `min(scores, key=scores.get)`: the first position holding the least score. */
  function FirstMin(scores: seq<int>): (k: nat)
    requires |scores| > 0
    ensures k < |scores|
    ensures forall j :: 0 <= j < |scores| ==> scores[k] <= scores[j]
    ensures forall j :: 0 <= j < k ==> scores[k] < scores[j]
  {
    if |scores| == 1 then 0
    else
      var k := FirstMin(scores[..|scores| - 1]);
      assert forall j :: 0 <= j < |scores| - 1 ==> scores[..|scores| - 1][j] == scores[j];
      if scores[|scores| - 1] < scores[k] then |scores| - 1 else k
  }

  /** `mark_next_tip`: score the branch heads within `maxForkDepth` Stacks blocks
      of the canonical tip and flag the best one as the predicted next tip.
      `tips` and `scores` are the candidates and the score table computed on the
      way; `depth` and `rounds` are those of the scoring walk. */
  method MarkNextTip(g: Graph, canonicalTip: Hash, maxForkDepth: int)
    returns (g': Graph, result: Result<Option<Hash>, ScoreError>, tips: seq<Hash>, scores: Option<seq<int>>,
             ghost depth: seq<nat>, ghost rounds: nat)
    requires Valid(g) && ParentsPrecede(g) && canonicalTip in g.commits
    ensures g.commits[canonicalTip].stacksHeight.None? ==> result == Err(NoStacksHeight(canonicalTip))
    ensures g.commits[canonicalTip].stacksHeight.Some?
            && (exists i :: 0 <= i < |g.order| && Incomparable(g.commits[g.order[i]])) ==>
      && result.Err? && result.error.NoStacksHeight? && result.error.commit in g.commits
      && Incomparable(g.commits[result.error.commit])
    ensures result.Err? ==> g' == g
    ensures g.commits[canonicalTip].stacksHeight.Some?
            && (forall i :: 0 <= i < |g.order| ==> !Incomparable(g.commits[g.order[i]])) ==>
      && tips == Candidates(g, g.order, SH(g, canonicalTip) - maxForkDepth)
      && Scored(g, tips, if result.Ok? then Ok(scores) else Err(result.error), depth, rounds)
    ensures result.Ok? ==>
      && g.commits[canonicalTip].stacksHeight.Some?
      && tips == Candidates(g, g.order, SH(g, canonicalTip) - maxForkDepth)
    ensures result.Ok? ==>
      && g'.order == g.order && g'.commits.Keys == g.commits.Keys
      && forall h :: h in g.commits ==>
           g'.commits[h] == if result.value == Some(h) then g.commits[h].(nextTip := true) else g.commits[h]
    ensures result.Ok? && tips == [] ==> result.value.None?
    ensures result.Ok? && |tips| == 1 ==> result.value == Some(tips[0])
    ensures result.Ok? && result.value.Some? ==>
      && scores.Some? && |scores.value| == |tips| > 0
      && result.value.value == tips[FirstMin(scores.value)]
    ensures result.Ok? && result.value.None? && tips != [] ==> scores.None?
  {
    g', tips, scores, depth, rounds := g, [], None, [], 0;
    var canonical := g.commits[canonicalTip];
    if canonical.stacksHeight.None? {
      g', result := g, Err(NoStacksHeight(canonicalTip));
      return;
    }
    var minH := canonical.stacksHeight.value - maxForkDepth;
    var selected := SelectCandidates(g, minH);
    if selected.Err? {
      g', result := g, Err(selected.error);
      return;
    }
    tips := selected.value;
    assert minH == SH(g, canonicalTip) - maxForkDepth;
    CandidatesDistinct(g, g.order, minH);
    g', result, scores, depth, rounds := ScoreAndFlag(g, tips);
  }

  /** Scores the selected tips and flags the cheapest one as the next tip. */
  method ScoreAndFlag(g: Graph, tips: seq<Hash>)
    returns (g': Graph, result: Result<Option<Hash>, ScoreError>, scores: Option<seq<int>>,
             ghost depth: seq<nat>, ghost rounds: nat)
    requires ParentsPrecede(g) && AllHaveHeights(g, tips) && Distinct(tips)
    ensures result.Err? ==> g' == g
    ensures Scored(g, tips, if result.Ok? then Ok(scores) else Err(result.error), depth, rounds)
    ensures result.Ok? ==>
      && g'.order == g.order && g'.commits.Keys == g.commits.Keys
      && forall h :: h in g.commits ==>
           g'.commits[h] == if result.value == Some(h) then g.commits[h].(nextTip := true) else g.commits[h]
    ensures result.Ok? && tips == [] ==> result.value.None?
    ensures result.Ok? && |tips| == 1 ==> result.value == Some(tips[0])
    ensures result.Ok? && result.value.Some? ==>
      && scores.Some? && |scores.value| == |tips| > 0
      && result.value.value == tips[FirstMin(scores.value)]
    ensures result.Ok? && result.value.None? && tips != [] ==> scores.None?
  {
    scores := None;
    var scored;
    scored, depth, rounds := ScoreToCommonAncestor(g, tips);
    if scored.Err? {
      g', result := g, Err(scored.error);
      assert Err(result.error) == scored;
      return;
    }
    scores := scored.value;
    assert Scored(g, tips, Ok(scores), depth, rounds);
    g', result := FlagNextTip(g, tips, scores);
  }

  /** `if scores: commits[min(scores, key=scores.get)].next_tip = True`. */
  method FlagNextTip(g: Graph, tips: seq<Hash>, scores: Option<seq<int>>)
    returns (g': Graph, result: Result<Option<Hash>, ScoreError>)
    requires forall i :: 0 <= i < |tips| ==> tips[i] in g.commits
    requires scores.Some? ==> |scores.value| == |tips|
    ensures result.Ok?
    ensures g'.order == g.order && g'.commits.Keys == g.commits.Keys
    ensures forall h :: h in g.commits ==>
      g'.commits[h] == if result.value == Some(h) then g.commits[h].(nextTip := true) else g.commits[h]
    ensures result.value.Some? <==> scores.Some? && |tips| > 0
    ensures result.value.Some? ==> result.value.value == tips[FirstMin(scores.value)]
  {
    if scores.None? || |scores.value| == 0 {
      return g, Ok(None);
    }
    var next := tips[FirstMin(scores.value)];
    g' := g.(commits := g.commits[next := g.commits[next].(nextTip := true)]);
    result := Ok(Some(next));
  }

  /** The marker's output is a graph the fork scorer accepts: same order and
      links, and every branch head carries a Stacks height. */
  lemma MarkedGraphScorable(g0: Graph, g: Graph, snaps: map<nat, Snapshot>, cs: ChainState, t: Hash)
    requires Valid(g0) && ParentsPrecede(g0) && Final(g0, g, snaps, cs, t)
    ensures Valid(g) && ParentsPrecede(g) && t in g.commits
    ensures forall h :: h in g.commits ==> !Incomparable(g.commits[h])
  {
    forall h | h in g.commits
      ensures SameIdentity(g0.commits[h], g.commits[h])
      ensures g.commits[h].potentialTip ==> g.commits[h].stacksHeight.Some?
    {
      assert Marked(g0, snaps, cs, g0.commits.Keys, h, g.commits[h].(canonical := false, tip := false));
    }
  }
}
