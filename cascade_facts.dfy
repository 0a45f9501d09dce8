/**
 * What the cascade guarantees: the local effect of one detonation, the
 * explosion queue never holding a coordinate twice, every queued entry carrying
 * the initial player, the tally staying equal to the board's sums, the total
 * number of orbs never growing, only the initial player gaining cells, and a
 * stable board whenever the loop ends with an empty queue.
 */
module CascadeFacts {
  import opened Wrappers
  import opened Grid
  import opened Cascade

  ghost predicate NoDuplicates(q: seq<Entry>) {
    forall i, j :: 0 <= i < j < |q| ==> q[i].pos != q[j].pos
  }

  ghost predicate AllBy(q: seq<Entry>, p: Player) {
    forall i :: 0 <= i < |q| ==> q[i].player == p
  }

  /** Every cell over its capacity is waiting in the queue. */
  ghost predicate OverCapacityQueued(g: Grid, q: seq<Entry>)
    requires Shaped(g)
  {
    forall r, c :: InBounds(r, c) && g[r][c].orbs > Capacity(r, c) ==> InQueue(q, Pos(r, c))
  }

  /** The same, except possibly for the cell at x. */
  ghost predicate OverCapacityQueuedBut(g: Grid, q: seq<Entry>, x: Pos)
    requires Shaped(g)
  {
    forall r, c :: InBounds(r, c) && g[r][c].orbs > Capacity(r, c) ==> InQueue(q, Pos(r, c)) || Pos(r, c) == x
  }

  /** Every cell that differs from g0 is empty or owned by p. */
  ghost predicate OnlyConvertedTo(g0: Grid, g: Grid, p: Player)
    requires Shaped(g0) && Shaped(g)
  {
    forall r, c :: InBounds(r, c) ==> g[r][c] == g0[r][c] || g[r][c].owner != Some(Other(p))
  }

  /** The board invariants that a step from (g, t) to (g', t') keeps. */
  ghost predicate Preserves(g: Grid, t: Tally, g': Grid, t': Tally, p: Player, g0: Grid)
    requires Shaped(g) && Shaped(g') && Shaped(g0)
  {
    && (WellFormed(g) ==> WellFormed(g'))
    && (WellFormed(g) && Consistent(g, t) ==> Consistent(g', t'))
    && (OnlyConvertedTo(g0, g, p) ==> OnlyConvertedTo(g0, g', p))
  }

  lemma PreservesTransitive(g1: Grid, t1: Tally, g2: Grid, t2: Tally, g3: Grid, t3: Tally, p: Player, g0: Grid)
    requires Shaped(g1) && Shaped(g2) && Shaped(g3) && Shaped(g0)
    requires Preserves(g1, t1, g2, t2, p, g0) && Preserves(g2, t2, g3, t3, p, g0)
    ensures Preserves(g1, t1, g3, t3, p, g0)
  {
  }

  // ---------------------------------------------------------------------
  // One neighbour

  lemma MergeIntoTally(st: CascadeState, n: Pos, p: Player)
    requires Shaped(st.grid) && Inside(n)
    requires WellFormed(st.grid) && Consistent(st.grid, st.counts)
    ensures Consistent(MergeInto(st, n, p).grid, MergeInto(st, n, p).counts)
  {
    var st' := MergeInto(st, n, p);
    var prior := At(st.grid, n);
    var merged := Cell(Some(p), prior.orbs + 1);
    SetAtSum(st.grid, n, merged, OrbsOf(P1));
    SetAtSum(st.grid, n, merged, OrbsOf(P2));
    if prior.owner.Some? && prior.owner != Some(p) {
      GridSumBoundsCell(st.grid, n.r, n.c, OrbsOf(prior.owner.value));
    }
  }

  /** A merge keeps the board invariants and adds exactly one orb. */
  lemma MergeIntoBoard(st: CascadeState, n: Pos, p: Player, g0: Grid)
    requires Shaped(st.grid) && Shaped(g0) && Inside(n)
    ensures var st' := MergeInto(st, n, p);
      && Preserves(st.grid, st.counts, st'.grid, st'.counts, p, g0)
      && GridSum(st'.grid, AllOrbs) == GridSum(st.grid, AllOrbs) + 1
  {
    var st' := MergeInto(st, n, p);
    var prior := At(st.grid, n);
    SetAtSum(st.grid, n, Cell(Some(p), prior.orbs + 1), AllOrbs);
    if WellFormed(st.grid) && Consistent(st.grid, st.counts) {
      MergeIntoTally(st, n, p);
    }
    if OnlyConvertedTo(g0, st.grid, p) {
      forall r, c | InBounds(r, c)
        ensures st'.grid[r][c] == g0[r][c] || st'.grid[r][c].owner != Some(Other(p))
      {
        assert At(st'.grid, Pos(r, c)) == if Pos(r, c) == n then Cell(Some(p), prior.orbs + 1) else At(st.grid, Pos(r, c));
      }
    }
    if WellFormed(st.grid) {
      forall r, c | InBounds(r, c)
        ensures st'.grid[r][c].owner == None <==> st'.grid[r][c].orbs == 0
      {
        assert At(st'.grid, Pos(r, c)) == if Pos(r, c) == n then Cell(Some(p), prior.orbs + 1) else At(st.grid, Pos(r, c));
      }
    }
  }

  /** A merge keeps the queue free of repeats, of one player, and covering every cell over capacity. */
  lemma MergeIntoQueue(st: CascadeState, n: Pos, p: Player)
    requires Shaped(st.grid) && Inside(n)
    ensures var st' := MergeInto(st, n, p);
      && (NoDuplicates(st.queue) ==> NoDuplicates(st'.queue))
      && (AllBy(st.queue, p) ==> AllBy(st'.queue, p))
      && (OverCapacityQueued(st.grid, st.queue) ==> OverCapacityQueued(st'.grid, st'.queue))
  {
    var st' := MergeInto(st, n, p);
    if NoDuplicates(st.queue) && |st'.queue| > |st.queue| {
      forall i, j | 0 <= i < j < |st'.queue|
        ensures st'.queue[i].pos != st'.queue[j].pos
      {
        if j == |st.queue| {
          assert !InQueue(st.queue, n);
        }
      }
    }
    if OverCapacityQueued(st.grid, st.queue) {
      forall r, c | InBounds(r, c) && st'.grid[r][c].orbs > Capacity(r, c)
        ensures InQueue(st'.queue, Pos(r, c))
      {
        if Pos(r, c) == n {
          if |st'.queue| > |st.queue| {
            assert st'.queue[|st.queue|].pos == n;
          } else {
            assert InQueue(st.queue, n);
            AppendedKeepsQueued(st.queue, st'.queue, n);
          }
        } else {
          assert At(st'.grid, Pos(r, c)) == At(st.grid, Pos(r, c));
          AppendedKeepsQueued(st.queue, st'.queue, Pos(r, c));
        }
      }
    }
  }

  // ---------------------------------------------------------------------
  // All neighbours of one detonation

  ghost predicate AllInside(ns: seq<Pos>) {
    forall i :: 0 <= i < |ns| ==> Inside(ns[i])
  }

  lemma {:induction false} DistributeKeeps(st: CascadeState, ns: seq<Pos>, p: Player, g0: Grid)
    requires Shaped(st.grid) && Shaped(g0) && AllInside(ns)
    ensures var st' := Distribute(st, ns, p);
      && Preserves(st.grid, st.counts, st'.grid, st'.counts, p, g0)
      && (NoDuplicates(st.queue) ==> NoDuplicates(st'.queue))
      && (AllBy(st.queue, p) ==> AllBy(st'.queue, p))
      && (OverCapacityQueued(st.grid, st.queue) ==> OverCapacityQueued(st'.grid, st'.queue))
      && GridSum(st'.grid, AllOrbs) == GridSum(st.grid, AllOrbs) + |ns|
    decreases |ns|
  {
    if ns != [] {
      var st1 := MergeInto(st, ns[0], p);
      MergeIntoBoard(st, ns[0], p, g0);
      MergeIntoQueue(st, ns[0], p);
      DistributeKeeps(st1, ns[1..], p, g0);
      var st' := Distribute(st1, ns[1..], p);
      PreservesTransitive(st.grid, st.counts, st1.grid, st1.counts, st'.grid, st'.counts, p, g0);
    }
  }

  /** Each listed neighbour gains exactly one orb and the player's ownership; nothing else changes. */
  lemma {:induction false} DistributeEffect(st: CascadeState, ns: seq<Pos>, p: Player)
    requires Shaped(st.grid) && AllInside(ns) && DistinctPositions(ns)
    ensures forall q :: Inside(q) ==>
      At(Distribute(st, ns, p).grid, q) == if q in ns then Cell(Some(p), At(st.grid, q).orbs + 1) else At(st.grid, q)
    decreases |ns|
  {
    if ns != [] {
      var st1 := MergeInto(st, ns[0], p);
      DistributeEffect(st1, ns[1..], p);
      forall q | Inside(q)
        ensures At(Distribute(st, ns, p).grid, q) ==
          if q in ns then Cell(Some(p), At(st.grid, q).orbs + 1) else At(st.grid, q)
      {
        assert q in ns <==> q == ns[0] || q in ns[1..];
      }
    }
  }

  // ---------------------------------------------------------------------
  // One queue entry

  lemma NeighborsInside(r: int, c: int)
    ensures AllInside(Neighbors(r, c)) && DistinctPositions(Neighbors(r, c))
  {
    NeighborsDistinct(r, c);
  }

  lemma ClearTally(st: CascadeState, e: Entry)
    requires Shaped(st.grid) && Detonates(st, e)
    requires WellFormed(st.grid) && Consistent(st.grid, st.counts)
    ensures Consistent(Clear(st, e).grid, Clear(st, e).counts)
  {
    var cell := At(st.grid, e.pos);
    assert cell.owner.Some?;
    GridSumBoundsCell(st.grid, e.pos.r, e.pos.c, OrbsOf(cell.owner.value));
    SetAtSum(st.grid, e.pos, Empty, OrbsOf(P1));
    SetAtSum(st.grid, e.pos, Empty, OrbsOf(P2));
  }

  lemma ClearKeeps(st: CascadeState, e: Entry, p: Player, g0: Grid)
    requires Shaped(st.grid) && Shaped(g0) && Detonates(st, e)
    ensures var st' := Clear(st, e);
      && Preserves(st.grid, st.counts, st'.grid, st'.counts, p, g0)
      && (OverCapacityQueuedBut(st.grid, st.queue, e.pos) ==> OverCapacityQueued(st'.grid, st'.queue))
      && GridSum(st'.grid, AllOrbs) == GridSum(st.grid, AllOrbs) - At(st.grid, e.pos).orbs
  {
    var st' := Clear(st, e);
    SetAtSum(st.grid, e.pos, Empty, AllOrbs);
    if WellFormed(st.grid) && Consistent(st.grid, st.counts) {
      ClearTally(st, e);
    }
    forall r, c | InBounds(r, c)
      ensures st'.grid[r][c] == if Pos(r, c) == e.pos then Empty else st.grid[r][c]
    {
      assert At(st'.grid, Pos(r, c)) == if Pos(r, c) == e.pos then Empty else At(st.grid, Pos(r, c));
    }
  }

  lemma DetonateKeeps(st: CascadeState, e: Entry, p: Player, g0: Grid)
    requires Shaped(st.grid) && Shaped(g0) && e.player == p
    ensures var st' := Detonate(st, e);
      && Preserves(st.grid, st.counts, st'.grid, st'.counts, p, g0)
      && (NoDuplicates(st.queue) ==> NoDuplicates(st'.queue))
      && (AllBy(st.queue, p) ==> AllBy(st'.queue, p))
      && (OverCapacityQueuedBut(st.grid, st.queue, e.pos) && e.pos !in st.processed ==>
            OverCapacityQueued(st'.grid, st'.queue))
      && GridSum(st'.grid, AllOrbs) <= GridSum(st.grid, AllOrbs)
  {
    if Detonates(st, e) {
      var cleared := Clear(st, e);
      var ns := Neighbors(e.pos.r, e.pos.c);
      ClearKeeps(st, e, p, g0);
      NeighborsInside(e.pos.r, e.pos.c);
      NeighborCountIsCapacityPlusOne(e.pos.r, e.pos.c);
      DistributeKeeps(cleared, ns, p, g0);
      var st' := Distribute(cleared, ns, p);
      PreservesTransitive(st.grid, st.counts, cleared.grid, cleared.counts, st'.grid, st'.counts, p, g0);
    } else if OverCapacityQueuedBut(st.grid, st.queue, e.pos) && e.pos !in st.processed {
      assert OverCapacityQueued(st.grid, st.queue);
    }
  }

  /**
   * A popped entry detonates only if its cell was not detonated earlier in the
   * wave and is over its capacity; the cell is then emptied and each neighbour
   * gains exactly one orb and the exploding player's ownership.  Otherwise the
   * board is untouched.
   */
  lemma DetonateEffect(st: CascadeState, e: Entry)
    requires Shaped(st.grid)
    ensures forall q :: Inside(q) ==>
      At(Detonate(st, e).grid, q) == (
        if !Detonates(st, e) then At(st.grid, q)
        else if q == e.pos then Empty
        else if q in Neighbors(e.pos.r, e.pos.c) then Cell(Some(e.player), At(st.grid, q).orbs + 1)
        else At(st.grid, q))
  {
    if Detonates(st, e) {
      NeighborsInside(e.pos.r, e.pos.c);
      NeighborsDistinct(e.pos.r, e.pos.c);
      DistributeEffect(Clear(st, e), Neighbors(e.pos.r, e.pos.c), e.player);
    }
  }

  // ---------------------------------------------------------------------
  // A wave and the whole loop

  lemma QueuedAfterShift(q: seq<Entry>, x: Pos)
    requires |q| > 0 && InQueue(q, x) && x != q[0].pos
    ensures InQueue(q[1..], x)
  {
    var i :| 0 <= i < |q| && q[i].pos == x;
    assert q[1..][i - 1] == q[i];
  }

  /** The queue holds each coordinate at most once, every entry by player p. */
  ghost predicate QueueOk(q: seq<Entry>, p: Player) {
    NoDuplicates(q) && AllBy(q, p)
  }

  /** What a run of the loop from st to st' keeps: the board invariants, the queue's shape, no orb created. */
  ghost predicate Keeps(st: CascadeState, st': CascadeState, p: Player, g0: Grid)
    requires Shaped(st.grid) && Shaped(st'.grid) && Shaped(g0)
  {
    && Preserves(st.grid, st.counts, st'.grid, st'.counts, p, g0)
    && QueueOk(st'.queue, p)
    && (OverCapacityQueued(st.grid, st.queue) ==> OverCapacityQueued(st'.grid, st'.queue))
    && GridSum(st'.grid, AllOrbs) <= GridSum(st.grid, AllOrbs)
  }

  lemma KeepsTransitive(st1: CascadeState, st2: CascadeState, st3: CascadeState, p: Player, g0: Grid)
    requires Shaped(st1.grid) && Shaped(st2.grid) && Shaped(st3.grid) && Shaped(g0)
    requires Keeps(st1, st2, p, g0) && Keeps(st2, st3, p, g0)
    ensures Keeps(st1, st3, p, g0)
  {
    PreservesTransitive(st1.grid, st1.counts, st2.grid, st2.counts, st3.grid, st3.counts, p, g0);
  }

  lemma KeepsReflexive(st: CascadeState, st': CascadeState, p: Player, g0: Grid)
    requires Shaped(st.grid) && Shaped(g0) && QueueOk(st.queue, p)
    requires st'.grid == st.grid && st'.counts == st.counts && st'.queue == st.queue
    ensures Shaped(st'.grid) && Keeps(st, st', p, g0)
  {
  }

  /** The first entry of the remaining wave is shifted off and processed. */
  lemma WaveStep(st: CascadeState, k: nat, p: Player, g0: Grid)
    requires Shaped(st.grid) && Shaped(g0) && 0 < k <= |st.queue|
    requires QueueOk(st.queue, p)
    requires forall i :: 0 <= i < k ==> st.queue[i].pos !in st.processed
    ensures var st1 := Detonate(st.(queue := st.queue[1..]), st.queue[0]);
      && Keeps(st, st1, p, g0)
      && (forall i :: 0 <= i < k - 1 ==> st1.queue[i].pos !in st1.processed)
  {
    var e := st.queue[0];
    var popped := st.(queue := st.queue[1..]);
    var st1 := Detonate(popped, e);
    DetonateKeeps(popped, e, p, g0);
    if OverCapacityQueued(st.grid, st.queue) {
      forall r, c | InBounds(r, c) && st.grid[r][c].orbs > Capacity(r, c)
        ensures InQueue(popped.queue, Pos(r, c)) || Pos(r, c) == e.pos
      {
        if Pos(r, c) != e.pos {
          QueuedAfterShift(st.queue, Pos(r, c));
        }
      }
    }
    forall i | 0 <= i < k - 1
      ensures st1.queue[i].pos !in st1.processed
    {
      assert st1.queue[i] == st1.queue[..|popped.queue|][i] == st.queue[i + 1];
    }
  }

  lemma {:induction false} RunWaveKeeps(st: CascadeState, k: nat, p: Player, g0: Grid)
    requires Shaped(st.grid) && Shaped(g0) && k <= |st.queue|
    requires QueueOk(st.queue, p)
    requires forall i :: 0 <= i < k ==> st.queue[i].pos !in st.processed
    ensures Keeps(st, RunWave(st, k), p, g0)
    decreases k
  {
    if k > 0 {
      WaveStep(st, k, p, g0);
      var st1 := Detonate(st.(queue := st.queue[1..]), st.queue[0]);
      RunWaveKeeps(st1, k - 1, p, g0);
      KeepsTransitive(st, st1, RunWave(st1, k - 1), p, g0);
    }
  }

  lemma {:induction false} RunKeeps(st: CascadeState, p: Player, g0: Grid)
    requires Shaped(st.grid) && Shaped(g0) && st.steps <= MAX_EXPLOSION_STEPS
    requires QueueOk(st.queue, p)
    ensures Keeps(st, Run(st), p, g0)
    decreases MAX_EXPLOSION_STEPS - st.steps
  {
    if |st.queue| == 0 || st.steps + 1 > MAX_EXPLOSION_STEPS {
      KeepsReflexive(st, Run(st), p, g0);
    } else {
      var wave := st.(steps := st.steps + 1, processed := {});
      var st1 := RunWave(wave, |st.queue|);
      assert NextWave(st) == st1;
      RunNextWave(st);
      RunWaveKeeps(wave, |st.queue|, p, g0);
      RunKeeps(st1, p, g0);
      KeepsTransitive(st, st1, Run(st1), p, g0);
    }
  }

  /** Every cell except possibly x is within its capacity. */
  ghost predicate StableBut(g: Grid, x: Pos)
    requires Shaped(g)
  {
    forall r, c :: InBounds(r, c) && Pos(r, c) != x ==> g[r][c].orbs <= Capacity(r, c)
  }

  /**
   * The cascade's guarantees.  The number of orbs on the board never grows; the
   * queue ends without a repeated coordinate and holds only entries of the
   * initial player; every cell that changed is empty or owned by that player; a
   * well-formed board stays well-formed and a tally that agreed with it still
   * agrees.  The loop gives up only after exactly MAX_EXPLOSION_STEPS waves; if
   * it ends with an empty queue and every cell but the start was within
   * capacity at the beginning, no cell is over capacity at the end.
   */
  lemma CascadeGuarantees(g: Grid, counts: Tally, start: Pos, p: Player)
    requires Shaped(g)
    ensures var fin := RunCascade(g, counts, start, p);
      && GridSum(fin.grid, AllOrbs) <= GridSum(g, AllOrbs)
      && NoDuplicates(fin.queue) && AllBy(fin.queue, p)
      && OnlyConvertedTo(g, fin.grid, p)
      && (WellFormed(g) ==> WellFormed(fin.grid))
      && (WellFormed(g) && Consistent(g, counts) ==> Consistent(fin.grid, fin.counts))
      && fin.steps <= MAX_EXPLOSION_STEPS + 1
      && (|fin.queue| != 0 ==> fin.steps == MAX_EXPLOSION_STEPS + 1)
      && (StableBut(g, start) && |fin.queue| == 0 ==> Stable(fin.grid))
  {
    var st := Start(g, counts, start, p);
    RunKeeps(st, p, g);
    var fin := Run(st);
    if StableBut(g, start) {
      assert OverCapacityQueued(g, st.queue) by {
        forall r, c | InBounds(r, c) && g[r][c].orbs > Capacity(r, c)
          ensures InQueue(st.queue, Pos(r, c))
        {
          assert st.queue[0].pos == Pos(r, c);
        }
      }
      if |fin.queue| == 0 {
        assert Stable(fin.grid);
      }
    }
  }

  /** The cascade takes cells only from the opponent of the player who set it off. */
  lemma CascadeOnlyConverts(g: Grid, counts: Tally, start: Pos, p: Player)
    requires Shaped(g)
    ensures OnlyConvertedTo(g, RunCascade(g, counts, start, p).grid, p)
  {
    RunKeeps(Start(g, counts, start, p), p, g);
  }

  // ---------------------------------------------------------------------
  // addOrbAndExplode

  /**
   * On a cell that is empty or already the player's, placing an orb updates the
   * board and tally exactly as a neighbour receiving one from a detonation.
   * (On an opponent's cell the two differ: a detonation credits the captured
   * orbs to the new owner's tally, a placement does not; no move of the game
   * places on an opponent's cell.)
   */
  lemma PlaceIsMerge(b: Board, pos: Pos, p: Player)
    requires Shaped(b.grid) && Inside(pos) && At(b.grid, pos).owner != Some(Other(p))
    ensures var st' := MergeInto(CascadeState(b.grid, b.counts, [], {}, 0), pos, p);
      Place(b, pos, p) == Board(st'.grid, st'.counts)
  {
    var st' := MergeInto(CascadeState(b.grid, b.counts, [], {}, 0), pos, p);
    var prior := At(b.grid, pos);
    assert prior.owner == None || prior.owner == Some(p) by {
      if prior.owner.Some? {
        assert prior.owner.value == p || prior.owner.value == Other(p);
      }
    }
    assert st'.grid == SetAt(b.grid, pos, Cell(Some(p), prior.orbs + 1));
    assert st'.counts == b.counts[p := Count(b.counts, p) + 1];
  }

  /**
   * Placement keeps the board well formed and the tally in agreement with it,
   * adds exactly one orb, and leaves every other cell as it was.
   */
  lemma PlaceKeeps(b: Board, pos: Pos, p: Player)
    requires Shaped(b.grid) && Inside(pos) && At(b.grid, pos).owner != Some(Other(p))
    ensures var b' := Place(b, pos, p);
      && At(b'.grid, pos) == Cell(Some(p), At(b.grid, pos).orbs + 1)
      && (forall q :: Inside(q) && q != pos ==> At(b'.grid, q) == At(b.grid, q))
      && (WellFormed(b.grid) ==> WellFormed(b'.grid))
      && (WellFormed(b.grid) && Consistent(b.grid, b.counts) ==> Consistent(b'.grid, b'.counts))
      && GridSum(b'.grid, AllOrbs) == GridSum(b.grid, AllOrbs) + 1
      && (Stable(b.grid) ==> StableBut(b'.grid, pos))
  {
    var st := CascadeState(b.grid, b.counts, [], {}, 0);
    PlaceIsMerge(b, pos, p);
    MergeIntoBoard(st, pos, p, b.grid);
  }

  /** The cascade triggered by a placement gave up with entries still queued. */
  ghost predicate CascadeAborted(b: Board, pos: Pos, p: Player)
    requires Shaped(b.grid)
  {
    Inside(pos) &&
    var placed := Place(b, pos, p);
    At(placed.grid, pos).orbs > Capacity(pos.r, pos.c) &&
    |RunCascade(placed.grid, placed.counts, pos, p).queue| != 0
  }

  /**
   * `addOrbAndExplode` on a cell that is empty or the player's own keeps the
   * board well formed and the tally in agreement with it, adds at most one orb
   * to the board, gives no cell to the opponent, and leaves a stable board
   * stable unless the cascade ran out of waves.
   */
  lemma AddOrbGuarantees(b: Board, pos: Pos, p: Player)
    requires Shaped(b.grid) && (Inside(pos) ==> At(b.grid, pos).owner != Some(Other(p)))
    ensures var b' := AddOrb(b, pos, p);
      && (WellFormed(b.grid) ==> WellFormed(b'.grid))
      && (WellFormed(b.grid) && Consistent(b.grid, b.counts) ==> Consistent(b'.grid, b'.counts))
      && GridSum(b'.grid, AllOrbs) <= GridSum(b.grid, AllOrbs) + 1
      && OnlyConvertedTo(b.grid, b'.grid, p)
      && (Stable(b.grid) && !CascadeAborted(b, pos, p) ==> Stable(b'.grid))
  {
    if Inside(pos) {
      var placed := Place(b, pos, p);
      PlaceKeeps(b, pos, p);
      assert OnlyConvertedTo(b.grid, placed.grid, p) by {
        forall r, c | InBounds(r, c)
          ensures placed.grid[r][c] == b.grid[r][c] || placed.grid[r][c].owner != Some(Other(p))
        {
          assert At(placed.grid, Pos(r, c)) == placed.grid[r][c];
        }
      }
      if At(placed.grid, pos).orbs > Capacity(pos.r, pos.c) {
        var fin := RunCascade(placed.grid, placed.counts, pos, p);
        CascadeGuarantees(placed.grid, placed.counts, pos, p);
        assert OnlyConvertedTo(b.grid, fin.grid, p) by {
          forall r, c | InBounds(r, c)
            ensures fin.grid[r][c] == b.grid[r][c] || fin.grid[r][c].owner != Some(Other(p))
          {
            assert fin.grid[r][c] == placed.grid[r][c] || fin.grid[r][c].owner != Some(Other(p));
          }
        }
      } else if Stable(b.grid) {
        assert Stable(placed.grid) by {
          forall r, c | InBounds(r, c)
            ensures placed.grid[r][c].orbs <= Capacity(r, c)
          {
            if Pos(r, c) == pos {
              assert placed.grid[r][c] == At(placed.grid, pos);
            }
          }
        }
      }
    } else {
      assert OnlyConvertedTo(b.grid, b.grid, p);
    }
  }
}
