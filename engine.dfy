/**
 * The explosion cascade as the game runs it: in place on an 8 x 10 array of
 * cells, with the queue, the per-wave set of detonated cells and the wave
 * counter as local variables.  Each method is proved to leave the array and the
 * tally exactly as the value-level definitions of `Cascade` say.
 */
module Engine {
  import opened Wrappers
  import opened Grid
  import opened Cascade

  /** The array has the board's dimensions. */
  predicate Sized(a: array2<Cell>) {
    a.Length0 == ROWS && a.Length1 == COLS
  }

  /** The board held by the array, as a value. */
  function Snapshot(a: array2<Cell>): (g: Grid)
    requires Sized(a)
    reads a
    ensures Shaped(g)
    ensures forall r, c :: InBounds(r, c) ==> g[r][c] == a[r, c]
  {
    seq(ROWS, r requires 0 <= r < ROWS reads a => seq(COLS, c requires 0 <= c < COLS reads a => a[r, c]))
  }

  /** Overwrite one cell of the array. */
  method Put(a: array2<Cell>, p: Pos, x: Cell)
    requires Sized(a) && Inside(p)
    modifies a
    ensures Snapshot(a) == SetAt(old(Snapshot(a)), p, x)
  {
    ghost var before := Snapshot(a);
    a[p.r, p.c] := x;
    ghost var after := Snapshot(a);
    ghost var expected := SetAt(before, p, x);
    forall r | 0 <= r < ROWS
      ensures after[r] == expected[r]
    {
      assert forall c :: 0 <= c < COLS ==> after[r][c] == At(expected, Pos(r, c));
    }
  }

  /** One neighbour receives an orb from a detonation (script.js:287-308). */
  method MergeNeighbor(a: array2<Cell>, counts: Tally, queue: seq<Entry>, n: Pos, p: Player, ghost processed: set<Pos>, ghost steps: nat)
    returns (counts': Tally, queue': seq<Entry>)
    requires Sized(a)
    modifies a
    ensures CascadeState(Snapshot(a), counts', queue', processed, steps)
         == MergeInto(CascadeState(old(Snapshot(a)), counts, queue, processed, steps), n, p)
  {
    counts', queue' := counts, queue;
    if !Inside(n) {
      return;
    }
    var neighborOldOwner := a[n.r, n.c].owner;
    var neighborOldOrbs := a[n.r, n.c].orbs;
    if neighborOldOwner.Some? && neighborOldOwner != Some(p) {
      counts' := counts'[neighborOldOwner.value := Max0(Count(counts', neighborOldOwner.value) - neighborOldOrbs)];
      counts' := counts'[p := Count(counts', p) + neighborOldOrbs];
    }
    counts' := counts'[p := Count(counts', p) + 1];
    Put(a, n, Cell(Some(p), neighborOldOrbs + 1));
    if neighborOldOrbs + 1 > Capacity(n.r, n.c) && !InQueue(queue', n) {
      queue' := queue' + [Entry(n, p)];
    }
  }

  /** The neighbours of a detonated cell receive their orbs in order (script.js:286-309). */
  method MergeNeighbors(a: array2<Cell>, counts: Tally, queue: seq<Entry>, ns: seq<Pos>, p: Player, ghost processed: set<Pos>, ghost steps: nat)
    returns (counts': Tally, queue': seq<Entry>)
    requires Sized(a)
    modifies a
    ensures CascadeState(Snapshot(a), counts', queue', processed, steps)
         == Distribute(CascadeState(old(Snapshot(a)), counts, queue, processed, steps), ns, p)
  {
    counts', queue' := counts, queue;
    ghost var start := CascadeState(Snapshot(a), counts, queue, processed, steps);
    var j := 0;
    while j < |ns|
      invariant 0 <= j <= |ns|
      invariant Distribute(CascadeState(Snapshot(a), counts', queue', processed, steps), ns[j..], p)
             == Distribute(start, ns, p)
    {
      ghost var cur := CascadeState(Snapshot(a), counts', queue', processed, steps);
      assert ns[j..][1..] == ns[j + 1..];
      assert Distribute(cur, ns[j..], p) == Distribute(MergeInto(cur, ns[j], p), ns[j + 1..], p);
      counts', queue' := MergeNeighbor(a, counts', queue', ns[j], p, processed, steps);
      j := j + 1;
    }
  }

  /** The body of the wave loop for one entry already shifted off the queue (script.js:271-309). */
  method ProcessEntry(a: array2<Cell>, counts: Tally, queue: seq<Entry>, processed: set<Pos>, e: Entry, ghost steps: nat)
    returns (counts': Tally, queue': seq<Entry>, processed': set<Pos>)
    requires Sized(a)
    modifies a
    ensures CascadeState(Snapshot(a), counts', queue', processed', steps)
         == Detonate(CascadeState(old(Snapshot(a)), counts, queue, processed, steps), e)
  {
    ghost var st0 := CascadeState(Snapshot(a), counts, queue, processed, steps);
    counts', queue', processed' := counts, queue, processed;
    if e.pos in processed' {
      return;
    }
    if !Inside(e.pos) || a[e.pos.r, e.pos.c].orbs == 0 || a[e.pos.r, e.pos.c].orbs <= Capacity(e.pos.r, e.pos.c) {
      return;
    }
    assert Detonates(st0, e);
    processed' := processed' + {e.pos};
    var orbsInCell := a[e.pos.r, e.pos.c].orbs;
    var owner := a[e.pos.r, e.pos.c].owner;
    if owner.Some? && Count(counts', owner.value) != 0 {
      counts' := counts'[owner.value := Max0(Count(counts', owner.value) - orbsInCell)];
    }
    Put(a, e.pos, Empty);
    assert CascadeState(Snapshot(a), counts', queue', processed', steps) == Clear(st0, e);
    counts', queue' := MergeNeighbors(a, counts', queue', Neighbors(e.pos.r, e.pos.c), e.player, processed', steps);
  }

  /** One wave: the first k entries of the queue are shifted off and processed (script.js:265-310). */
  method RunOneWave(a: array2<Cell>, counts: Tally, queue: seq<Entry>, k: nat, ghost steps: nat)
    returns (counts': Tally, queue': seq<Entry>, processed': set<Pos>)
    requires Sized(a) && k <= |queue|
    modifies a
    ensures CascadeState(Snapshot(a), counts', queue', processed', steps)
         == RunWave(CascadeState(old(Snapshot(a)), counts, queue, {}, steps), k)
  {
    counts', queue', processed' := counts, queue, {};
    ghost var waveStart := CascadeState(Snapshot(a), counts, queue, {}, steps);
    var i := 0;
    while i < k
      invariant 0 <= i <= k && k - i <= |queue'|
      invariant RunWave(CascadeState(Snapshot(a), counts', queue', processed', steps), k - i) == RunWave(waveStart, k)
    {
      ghost var cur := CascadeState(Snapshot(a), counts', queue', processed', steps);
      assert RunWave(cur, k - i) == RunWave(Detonate(cur.(queue := cur.queue[1..]), cur.queue[0]), k - i - 1);
      var e := queue'[0];
      queue' := queue'[1..];
      counts', queue', processed' := ProcessEntry(a, counts', queue', processed', e, steps);
      i := i + 1;
    }
  }

  /**
   * An orb of player p placed at pos (script.js:241-245, and on the copy the
   * hard computer simulates, script.js:401-403): the cell becomes p's with one
   * orb more, and the tally moves a captured cell's orbs to p and counts the new one.
   */
  method PlaceOrb(a: array2<Cell>, counts: Tally, pos: Pos, p: Player) returns (counts': Tally)
    requires Sized(a) && Inside(pos)
    modifies a
    ensures Board(Snapshot(a), counts') == Place(Board(old(Snapshot(a)), counts), pos, p)
  {
    var oldOwner := a[pos.r, pos.c].owner;
    var oldOrbs := a[pos.r, pos.c].orbs;
    Put(a, pos, Cell(Some(p), oldOrbs + 1));
    counts' := counts;
    if oldOwner.Some? && oldOwner != Some(p) {
      counts' := counts'[oldOwner.value := Max0(Count(counts', oldOwner.value) - oldOrbs)];
    }
    counts' := counts'[p := Count(counts', p) + 1];
  }

  /**
   * `runExplosionSimulation(boardData, counts, startR, startC, initialPlayer, _)`
   * (script.js:258-316): the array ends as the board of `RunCascade` and the
   * returned tally is its tally.
   */
  method RunExplosionSimulation(a: array2<Cell>, counts: Tally, startR: int, startC: int, initialPlayer: Player)
    returns (counts': Tally)
    requires Sized(a)
    modifies a
    ensures var fin := RunCascade(old(Snapshot(a)), counts, Pos(startR, startC), initialPlayer);
      Snapshot(a) == fin.grid && counts' == fin.counts
  {
    var explosionQueue := [Entry(Pos(startR, startC), initialPlayer)];
    var steps := 0;
    var processedInStep: set<Pos> := {};
    counts' := counts;
    ghost var target := RunCascade(Snapshot(a), counts, Pos(startR, startC), initialPlayer);
    while |explosionQueue| > 0
      invariant steps <= MAX_EXPLOSION_STEPS
      invariant Run(CascadeState(Snapshot(a), counts', explosionQueue, processedInStep, steps)) == target
      decreases MAX_EXPLOSION_STEPS - steps
    {
      ghost var before := CascadeState(Snapshot(a), counts', explosionQueue, processedInStep, steps);
      steps := steps + 1;
      if steps > MAX_EXPLOSION_STEPS {
        assert Run(before) == before.(steps := steps);
        break;
      }
      RunNextWave(before);
      assert before.(steps := before.steps + 1, processed := {}) == CascadeState(Snapshot(a), counts', explosionQueue, {}, steps);
      assert NextWave(before) == RunWave(CascadeState(Snapshot(a), counts', explosionQueue, {}, steps), |explosionQueue|);
      counts', explosionQueue, processedInStep := RunOneWave(a, counts', explosionQueue, |explosionQueue|, steps);
    }
  }
}
