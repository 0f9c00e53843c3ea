/**
 * The opponent pool of `learn`: a ring of at most K = `max_saved_opponents`
 * opponent files, a write cursor `opponent_idx`, and the count
 * `num_opponents` of slots that hold a file.  Before each update the
 * opponent loads a slot drawn uniformly from [0, max(num_opponents - 1, 0)];
 * every `opponent_save_interval` updates the primary is saved at the cursor.
 */
module OpponentPool {

  import opened Common

  /** What an opponent file holds: the primary's parameters, identified by
      the number of gradient steps the primary had taken when it was saved. */
  type Snapshot = nat

  /** `opponent_idx`, `num_opponents`, and the opponent files by slot. */
  datatype Pool = Pool(cursor: int, count: int, files: map<int, Snapshot>)

  function Max(a: int, b: int): int
  {
    if a >= b then a else b
  }

  /** The pool after the initial save, as the source writes it: slot 0 is
      written and the cursor becomes 1 without being reduced modulo K. */
  function InitialAsWritten(s: Snapshot): Pool
  {
    Pool(1, 1, map[0 := s])
  }

  /** The pool after the initial save with the cursor reduced modulo K, as
      every later save does.  It differs from the source only when K = 1. */
  function Initial(s: Snapshot, k: nat): Pool
    requires k > 0
  {
    Pool(1 % k, 1, map[0 := s])
  }

  /** One save: write the cursor's slot, advance the cursor, count the slot
      if it was new, and wrap the cursor. */
  function Save(p: Pool, s: Snapshot, k: nat): (r: Pool)
    requires k > 0
    ensures 0 <= r.cursor < k && p.count <= r.count
    ensures r.files.Keys == p.files.Keys + {p.cursor} && r.files[p.cursor] == s
    ensures forall i :: i in p.files && i != p.cursor ==> r.files[i] == p.files[i]
  {
    Pool((p.cursor + 1) % k, Max(p.cursor + 1, p.count), p.files[p.cursor := s])
  }

  /** `max(num_opponents - 1, 0)`: the largest slot `randint` may draw. */
  function SampleBound(p: Pool): int
  {
    Max(p.count - 1, 0)
  }

  /** The slot `randint(0, max(num_opponents - 1, 0))` returns when its
      uniform draw is `draw`: the draw reduced into that range. */
  function SampleSlot(p: Pool, draw: nat): (slot: nat)
    ensures slot <= SampleBound(p)
  {
    draw % (SampleBound(p) + 1)
  }

  /** The pool's invariant for capacity k: the cursor is a slot, at most k
      slots are counted, until the ring is full the cursor is the first
      unwritten slot, and exactly the counted slots hold a file. */
  predicate Inv(p: Pool, k: nat)
  {
    && 0 <= p.cursor < k
    && 1 <= p.count <= k
    && (p.count < k ==> p.cursor == p.count)
    && (forall i :: i in p.files ==> 0 <= i < p.count)
    && (forall i :: 0 <= i < p.count ==> i in p.files)
  }

  /** The initial save establishes the invariant, and agrees with the source
      whenever K >= 2. */
  lemma InitialInv(s: Snapshot, k: nat)
    requires k > 0
    ensures Inv(Initial(s, k), k)
    ensures k >= 2 ==> Initial(s, k) == InitialAsWritten(s)
  {
  }

  /** A save keeps the invariant. */
  lemma SaveInv(p: Pool, s: Snapshot, k: nat)
    requires k > 0 && Inv(p, k)
    ensures Inv(Save(p, s, k), k)
  {
  }

  /** Every index `randint(0, max(num_opponents - 1, 0))` can draw is a
      written slot below K: loading it never reads a missing file. */
  lemma SampleIsWritten(p: Pool, k: nat, draw: int)
    requires Inv(p, k) && 0 <= draw <= SampleBound(p)
    ensures draw in p.files && draw < k && draw < p.count
  {
  }

  /** The pool after a sequence of saves. */
  function Saves(p: Pool, saves: seq<Snapshot>, k: nat): Pool
    requires k > 0
  {
    if saves == [] then p else Save(Saves(p, saves[..|saves| - 1], k), saves[|saves| - 1], k)
  }

  lemma ModNext(n: nat, k: nat)
    requires k > 0
    ensures (n % k + 1) % k == (n + 1) % k
    ensures n < k ==> n % k == n
  {
    var q, r := n / k, n % k;
    assert n == q * k + r;
    if r + 1 == k {
      assert n + 1 == (q + 1) * k + 0;
      DivModUnique(n + 1, k, q + 1, 0);
      DivModUnique(r + 1, k, 1, 0);
    } else {
      assert n + 1 == q * k + (r + 1);
      DivModUnique(n + 1, k, q, r + 1);
      DivModUnique(r + 1, k, 0, r + 1);
    }
    if n < k {
      DivModUnique(n, k, 0, n);
    }
  }

  lemma ModDistinct(m: nat, n: nat, k: nat)
    requires k > 0 && m < n < m + k
    ensures m % k != n % k
  {
    var qm, qn := m / k, n / k;
    assert m == qm * k + m % k && n == qn * k + n % k;
    assert (qn - qm) * k == qn * k - qm * k;
    MultipleBounds(qn - qm, k);
  }

  /** The pool after the snapshots `recs` (numbered 0 .. n-1) were saved in
      order into capacity k: the cursor is n mod k, min(n, k) slots are
      counted, and each of the newest min(n, k) snapshots sits in slot
      (its number mod k). */
  predicate HoldsNewest(p: Pool, k: nat, recs: seq<Snapshot>)
    requires k > 0
  {
    var n := |recs|;
    && Inv(p, k)
    && p.cursor == n % k
    && p.count == (if n < k then n else k)
    && forall m :: 0 <= m < n && n - k <= m ==> m % k in p.files && p.files[m % k] == recs[m]
  }

  lemma SaveNewest(p: Pool, s: Snapshot, k: nat, recs: seq<Snapshot>)
    requires k > 0 && |recs| >= 1 && HoldsNewest(p, k, recs)
    ensures HoldsNewest(Save(p, s, k), k, recs + [s])
  {
    var n := |recs|;
    var q := Save(p, s, k);
    SaveInv(p, s, k);
    ModNext(n, k);
    assert q.cursor == (n + 1) % k;
    assert q.count == (if n + 1 < k then n + 1 else k);
    forall m | 0 <= m < n + 1 && n + 1 - k <= m
      ensures m % k in q.files && q.files[m % k] == (recs + [s])[m]
    {
      if m < n {
        ModDistinct(m, n, k);
      }
    }
  }

  /** Closed form of the pool after the initial save and then `saves`. */
  lemma {:induction false} ClosedForm(s0: Snapshot, saves: seq<Snapshot>, k: nat)
    requires k > 0
    ensures HoldsNewest(Saves(Initial(s0, k), saves, k), k, [s0] + saves)
  {
    if saves == [] {
      ModNext(0, k);
      ModNext(1, k);
      assert [s0] + saves == [s0];
    } else {
      var init := saves[..|saves| - 1];
      var s := saves[|saves| - 1];
      ClosedForm(s0, init, k);
      SaveNewest(Saves(Initial(s0, k), init, k), s, k, [s0] + init);
      assert [s0] + saves == ([s0] + init) + [s];
    }
  }

  /** Wraparound: with capacity k, after k + 1 snapshots (the initial one and
      k saves) all k slots are counted and slot 0, written first, holds the
      (k+1)-th snapshot. */
  lemma Wraparound(s0: Snapshot, saves: seq<Snapshot>, k: nat)
    requires k > 0 && |saves| == k
    ensures Saves(Initial(s0, k), saves, k).count == k
    ensures 0 in Saves(Initial(s0, k), saves, k).files
    ensures Saves(Initial(s0, k), saves, k).files[0] == saves[k - 1]
  {
    ClosedForm(s0, saves, k);
    DivModUnique(k, k, 1, 0);
    assert ([s0] + saves)[k] == saves[k - 1];
  }

  /** As written, with K = 1: the first save goes to slot 1, beyond the
      capacity, and that snapshot is never overwritten, so every later
      update may still draw it and `num_opponents` stays at 2. */
  lemma {:induction false} SingleSlotAsWritten(s0: Snapshot, saves: seq<Snapshot>)
    requires |saves| >= 1
    ensures var p := Saves(InitialAsWritten(s0), saves, 1);
      && p.count == 2 && !Inv(p, 1)
      && 1 in p.files && p.files[1] == saves[0]
      && p.cursor == 0 && p.files.Keys == {0, 1}
  {
    if |saves| > 1 {
      var init := saves[..|saves| - 1];
      SingleSlotAsWritten(s0, init);
      assert init[0] == saves[0];
    }
  }
}
