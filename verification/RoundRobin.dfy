/**
 The cyclic search shared by `os_schedule_next`, `semaphore_find_next_waiting_task`
 and `mutex_find_next_waiting_task`: walk the ids `(base + 1) % n, (base + 2) % n, ...,
 (base + n) % n`, skip the idle id 0, stop at the first candidate.
 */
module RoundRobin {

  const IDLE: nat := 0

  /** The place, from 1 to n, at which the walk from `base` looks at `c`. */
  function Offset(base: nat, n: nat, c: nat): int {
    if base < c then c - base else c + n - base
  }

  /** The number of application ids the walk from `base` visits up to and including `c`. */
  function Distance(base: nat, n: nat, c: nat): (d: int)
    requires base < n && IDLE < c < n
    ensures 1 <= d <= n - 1
    ensures c != base && base != IDLE ==> d <= n - 2
  {
    if base < c then c - base else c + n - 1 - base
  }

  /** `r` is what the walk must answer; IDLE stands for "no candidate". */
  ghost predicate IsNext(base: nat, n: nat, candidates: set<nat>, r: nat)
    requires base < n
  {
    if r == IDLE then
      forall c :: IDLE < c < n ==> c !in candidates
    else
      && r < n
      && r in candidates
      && forall c :: c in candidates && IDLE < c < n ==> Distance(base, n, r) <= Distance(base, n, c)
  }

  function Search(base: nat, n: nat, candidates: set<nat>, offset: nat): (r: nat)
    requires base < n && 1 <= offset <= n + 1
    requires forall c :: c in candidates ==> IDLE < c < n ==> offset <= Offset(base, n, c)
    ensures IsNext(base, n, candidates, r)
    decreases n + 1 - offset
  {
    if offset == n + 1 then
      assert forall c :: IDLE < c < n ==> Offset(base, n, c) < offset;
      IDLE
    else
      var c := (base + offset) % n;
      OffsetOfVisited(base, n, offset);
      if c != IDLE && c in candidates then c
      else Search(base, n, candidates, offset + 1)
  }

  /** First candidate of the walk from `base`, or IDLE. */
  function Next(base: nat, n: nat, candidates: set<nat>): (r: nat)
    requires base < n
    ensures IsNext(base, n, candidates, r)
  {
    Search(base, n, candidates, 1)
  }

  /** The id visited at `offset` is the only one whose place is `offset`. */
  lemma OffsetOfVisited(base: nat, n: nat, offset: nat)
    requires base < n && 1 <= offset <= n
    ensures (base + offset) % n < n
    ensures Offset(base, n, (base + offset) % n) == offset
    ensures forall c :: 0 <= c < n && Offset(base, n, c) == offset ==> c == (base + offset) % n
  {
  }

  /** No two application ids are at the same distance, so the answer is unique. */
  lemma NextIsUnique(base: nat, n: nat, candidates: set<nat>, r: nat)
    requires base < n && IsNext(base, n, candidates, r)
    ensures r == Next(base, n, candidates)
  {
  }

  /**
   Once `r` was taken in preference to `c`, the walk starting at `r` meets `c` strictly
   sooner than the walk starting at `base` did.
   */
  lemma PassingOverShortens(base: nat, n: nat, candidates: set<nat>, c: nat)
    requires base < n && IDLE < c < n && c in candidates
    ensures var r := Next(base, n, candidates);
            && IDLE < r < n
            && (r != c ==> Distance(r, n, c) < Distance(base, n, c))
  {
  }

  /** Whoever is met earlier on the walk is nearer, and taking it brings the others nearer. */
  lemma EarlierIsNearer(base: nat, n: nat, c: nat, t: nat)
    requires base < n && IDLE < c < n && IDLE < t < n
    ensures Offset(base, n, c) < Offset(base, n, t) <==> Distance(base, n, c) < Distance(base, n, t)
    ensures Offset(base, n, c) < Offset(base, n, t) ==> Distance(c, n, t) < Distance(base, n, t)
  {
  }
}
