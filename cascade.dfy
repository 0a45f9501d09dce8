/**
 * The placement of one orb and the explosion cascade, as functions on values.
 *
 * The cascade follows `runExplosionSimulation` step by step: a FIFO queue of
 * entries `{r, c, explodingPlayer}`, seeded with the placed cell; the loop runs
 * wave by wave, each wave taking as many entries as the queue held when the wave
 * began; an entry detonates only if its cell was not already detonated in this
 * wave and holds more orbs than its capacity; a detonation empties the cell and
 * gives every neighbour, in the order up, down, left, right, one orb and the
 * exploding player's ownership, adjusting the tally as it goes; a neighbour
 * pushed over its capacity is appended to the queue unless its coordinate is
 * already queued.  The loop stops when the queue is empty or when the wave
 * counter passes `MAX_EXPLOSION_STEPS`.
 *
 * The imperative version over an array-backed board is `Engine`, proved equal
 * to `RunCascade` below.
 */
module Cascade {
  import opened Wrappers
  import opened Grid

  /** One queue item `{r, c, explodingPlayer}`. */
  datatype Entry = Entry(pos: Pos, player: Player)

  /**
   * The variables of the cascade loop: the board, the tally, the explosion
   * queue, the set of cells detonated in the current wave, and the wave counter.
   */
  datatype CascadeState = CascadeState(grid: Grid, counts: Tally, queue: seq<Entry>, processed: set<Pos>, steps: nat)

  /** `explosionQueue.some(item => item.r === nr && item.c === nc)` */
  predicate InQueue(q: seq<Entry>, p: Pos) {
    exists i :: 0 <= i < |q| && q[i].pos == p
  }

  /** q only grew at its back since it was q0. */
  ghost predicate Appended(q0: seq<Entry>, q: seq<Entry>) {
    |q0| <= |q| && q[..|q0|] == q0
  }

  lemma AppendedTransitive(q0: seq<Entry>, q1: seq<Entry>, q2: seq<Entry>)
    requires Appended(q0, q1) && Appended(q1, q2)
    ensures Appended(q0, q2)
  {
    assert q2[..|q0|] == q2[..|q1|][..|q0|];
  }

  lemma AppendedKeepsQueued(q0: seq<Entry>, q: seq<Entry>, p: Pos)
    requires Appended(q0, q) && InQueue(q0, p)
    ensures InQueue(q, p)
  {
    var i :| 0 <= i < |q0| && q0[i].pos == p;
    assert q[i] == q[..|q0|][i];
  }

  lemma AppendedDrop(q0: seq<Entry>, q: seq<Entry>, j: nat)
    requires Appended(q0, q) && j <= |q0|
    ensures Appended(q0[j..], q[j..])
  {
    assert q[j..][..|q0| - j] == q[..|q0|][j..];
  }

  /** One neighbour receives an orb from a detonation by player p (script.js:289-308). */
  function MergeInto(st: CascadeState, n: Pos, p: Player): (st': CascadeState)
    requires Shaped(st.grid)
    ensures Shaped(st'.grid) && st'.processed == st.processed && st'.steps == st.steps
    ensures Appended(st.queue, st'.queue)
  {
    if !Inside(n) then st
    else
      var prior := At(st.grid, n);
      var t := if prior.owner.Some? && prior.owner != Some(p) then
                 var t0 := st.counts[prior.owner.value := Max0(Count(st.counts, prior.owner.value) - prior.orbs)];
                 t0[p := Count(t0, p) + prior.orbs]
               else st.counts;
      var merged := Cell(Some(p), prior.orbs + 1);
      var q := if merged.orbs > Capacity(n.r, n.c) && !InQueue(st.queue, n)
               then st.queue + [Entry(n, p)] else st.queue;
      assert q[..|st.queue|] == st.queue;
      st.(grid := SetAt(st.grid, n, merged), counts := t[p := Count(t, p) + 1], queue := q)
  }

  /** The neighbours receive their orbs one after the other, in the given order. */
  function Distribute(st: CascadeState, ns: seq<Pos>, p: Player): (st': CascadeState)
    requires Shaped(st.grid)
    ensures Shaped(st'.grid) && st'.processed == st.processed && st'.steps == st.steps
    ensures Appended(st.queue, st'.queue)
    decreases |ns|
  {
    if ns == [] then st
    else
      var st1 := MergeInto(st, ns[0], p);
      var st' := Distribute(st1, ns[1..], p);
      AppendedTransitive(st.queue, st1.queue, st'.queue);
      st'
  }

  /** Whether a popped entry detonates (script.js:272-274). */
  predicate Detonates(st: CascadeState, e: Entry)
    requires Shaped(st.grid)
  {
    && e.pos !in st.processed
    && Inside(e.pos)
    && At(st.grid, e.pos).orbs != 0
    && At(st.grid, e.pos).orbs > Capacity(e.pos.r, e.pos.c)
  }

  /** The detonating cell is recorded, its orbs leave its owner's tally and it is emptied (script.js:276-283). */
  function Clear(st: CascadeState, e: Entry): (st': CascadeState)
    requires Shaped(st.grid) && Detonates(st, e)
    ensures Shaped(st'.grid) && st'.queue == st.queue && st'.steps == st.steps
  {
    var cell := At(st.grid, e.pos);
    var t := if cell.owner.Some? && Count(st.counts, cell.owner.value) != 0
             then st.counts[cell.owner.value := Max0(Count(st.counts, cell.owner.value) - cell.orbs)]
             else st.counts;
    st.(grid := SetAt(st.grid, e.pos, Empty), counts := t, processed := st.processed + {e.pos})
  }

  /** Processing of one entry already shifted off the queue (script.js:270-309). */
  function Detonate(st: CascadeState, e: Entry): (st': CascadeState)
    requires Shaped(st.grid)
    ensures Shaped(st'.grid) && st'.steps == st.steps
    ensures st'.processed <= st.processed + {e.pos}
    ensures Appended(st.queue, st'.queue)
  {
    if !Detonates(st, e) then st
    else Distribute(Clear(st, e), Neighbors(e.pos.r, e.pos.c), e.player)
  }

  /** The remaining k entries of the current wave are shifted and processed in order. */
  function RunWave(st: CascadeState, k: nat): (st': CascadeState)
    requires Shaped(st.grid) && k <= |st.queue|
    ensures Shaped(st'.grid) && st'.steps == st.steps
    decreases k
  {
    if k == 0 then st
    else RunWave(Detonate(st.(queue := st.queue[1..]), st.queue[0]), k - 1)
  }

  /** A wave of k entries consumes exactly the first k entries of the queue and only appends to it. */
  lemma {:induction false} RunWaveConsumes(st: CascadeState, k: nat)
    requires Shaped(st.grid) && k <= |st.queue|
    ensures Appended(st.queue[k..], RunWave(st, k).queue)
    decreases k
  {
    if k > 0 {
      var st1 := Detonate(st.(queue := st.queue[1..]), st.queue[0]);
      RunWaveConsumes(st1, k - 1);
      AppendedDrop(st.queue[1..], st1.queue, k - 1);
      assert st.queue[1..][k - 1..] == st.queue[k..];
      AppendedTransitive(st.queue[k..], st1.queue[k - 1..], RunWave(st1, k - 1).queue);
    }
  }

  /**
   * The outer loop: one wave per iteration, broken off once the counter passes
   * the ceiling.  It ends with an empty queue exactly when it never passed the
   * ceiling, and a broken-off loop has counted MAX_EXPLOSION_STEPS + 1.
   */
  function Run(st: CascadeState): (st': CascadeState)
    requires Shaped(st.grid) && st.steps <= MAX_EXPLOSION_STEPS
    ensures Shaped(st'.grid)
    ensures st.steps <= st'.steps <= MAX_EXPLOSION_STEPS + 1
    ensures |st'.queue| == 0 <==> st'.steps <= MAX_EXPLOSION_STEPS
    decreases MAX_EXPLOSION_STEPS - st.steps
  {
    if |st.queue| == 0 then st
    else if st.steps + 1 > MAX_EXPLOSION_STEPS then st.(steps := st.steps + 1)
    else Run(NextWave(st))
  }

  /** One iteration of the outer loop: the counter goes up, the per-wave set is cleared, and a wave runs over the current queue. */
  function NextWave(st: CascadeState): (st': CascadeState)
    requires Shaped(st.grid)
    ensures Shaped(st'.grid) && st'.steps == st.steps + 1
  {
    RunWave(st.(steps := st.steps + 1, processed := {}), |st.queue|)
  }

  /** One iteration of the outer loop, for the imperative version's loop invariant. */
  lemma RunNextWave(st: CascadeState)
    requires Shaped(st.grid) && |st.queue| != 0 && st.steps + 1 <= MAX_EXPLOSION_STEPS
    ensures Run(st) == Run(NextWave(st))
  {
  }

  function Start(g: Grid, counts: Tally, start: Pos, p: Player): CascadeState {
    CascadeState(g, counts, [Entry(start, p)], {}, 0)
  }

  /** `runExplosionSimulation(board, counts, r, c, p, _)`: the final loop state. */
  function RunCascade(g: Grid, counts: Tally, start: Pos, p: Player): (st: CascadeState)
    requires Shaped(g)
    ensures Shaped(st.grid)
    ensures 1 <= st.steps <= MAX_EXPLOSION_STEPS + 1
    ensures |st.queue| == 0 <==> st.steps <= MAX_EXPLOSION_STEPS
  {
    Run(Start(g, counts, start, p))
  }

  /** A board together with its tally. */
  datatype Board = Board(grid: Grid, counts: Tally)

  /** The placement part of `addOrbAndExplode` (script.js:242-246), also used by the hard AI. */
  function Place(b: Board, pos: Pos, p: Player): (b': Board)
    requires Shaped(b.grid) && Inside(pos)
    ensures Shaped(b'.grid)
    ensures forall q :: Inside(q) ==>
      At(b'.grid, q) == if q == pos then Cell(Some(p), At(b.grid, pos).orbs + 1) else At(b.grid, q)
  {
    var prior := At(b.grid, pos);
    var t := if prior.owner.Some? && prior.owner != Some(p)
             then b.counts[prior.owner.value := Max0(Count(b.counts, prior.owner.value) - prior.orbs)]
             else b.counts;
    Board(SetAt(b.grid, pos, Cell(Some(p), prior.orbs + 1)), t[p := Count(t, p) + 1])
  }

  /** `addOrbAndExplode(r, c, p)`: place, then cascade if the cell is over its capacity. */
  function AddOrb(b: Board, pos: Pos, p: Player): (b': Board)
    requires Shaped(b.grid)
    ensures Shaped(b'.grid)
    ensures !Inside(pos) ==> b' == b
    ensures Inside(pos) && At(b.grid, pos).orbs + 1 <= Capacity(pos.r, pos.c) ==>
      forall q :: Inside(q) ==>
        At(b'.grid, q) == if q == pos then Cell(Some(p), At(b.grid, pos).orbs + 1) else At(b.grid, q)
  {
    if !Inside(pos) then b
    else
      var placed := Place(b, pos, p);
      if At(placed.grid, pos).orbs > Capacity(pos.r, pos.c) then
        var fin := RunCascade(placed.grid, placed.counts, pos, p);
        Board(fin.grid, fin.counts)
      else placed
  }
}
