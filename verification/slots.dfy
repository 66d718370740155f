/**
 * Fixed-capacity "first free slot wins" buffers.
 *
 * Both of the plugin's event buffers (the 152 deferred post-event slots and the
 * 512 external MIDI note slots) are arrays of records carrying a `valid` flag:
 * a producer writes into the lowest-index slot whose flag is false and drops the
 * entry when every slot is in use; a consumer copies the buffer out and clears
 * the flags. This module states that discipline once, over sequences, so that
 * the plugin class can tie the contents of its arrays to it.
 */
module Slots {
  import opened Wrappers

  /** One buffer cell: `valid` marks a cell holding an undelivered entry. */
  datatype Slot<T> = Slot(valid: bool, item: T)

  /** The lowest-index cell whose `valid` flag is false, or None when all are in use. */
  function FirstFree<T>(s: seq<Slot<T>>): (r: Option<nat>)
    ensures r.Some? ==> r.value < |s| && !s[r.value].valid
    ensures r.Some? ==> forall j :: 0 <= j < r.value ==> s[j].valid
    ensures r.None? <==> forall j :: 0 <= j < |s| ==> s[j].valid
  {
    if |s| == 0 then None
    else if !s[0].valid then Some(0)
    else match FirstFree(s[1..])
      case None => None
      case Some(k) => Some(k + 1)
  }

  /** Number of cells in use when the cells in use form a prefix. */
  function Fill<T>(s: seq<Slot<T>>): (n: nat)
    ensures n <= |s|
    ensures forall j :: 0 <= j < n ==> s[j].valid
    ensures n < |s| ==> !s[n].valid
  {
    match FirstFree(s)
    case None => |s|
    case Some(k) => k
  }

  /** True when every cell is in use. */
  predicate Full<T>(s: seq<Slot<T>>)
  {
    forall j :: 0 <= j < |s| ==> s[j].valid
  }

  /**
   * A producer's write: `x` goes into the lowest-index free cell, which becomes
   * valid; every other cell is unchanged. When every cell is in use, `x` is dropped.
   */
  function Insert<T>(s: seq<Slot<T>>, x: T): (r: seq<Slot<T>>)
    ensures |r| == |s|
    ensures Full(s) ==> r == s
    ensures !Full(s) ==> r == s[Fill(s) := Slot(true, x)]
  {
    match FirstFree(s)
    case None => s
    case Some(k) => s[k := Slot(true, x)]
  }

  /** A sequence of producer writes, in submission order. */
  function InsertAll<T>(s: seq<Slot<T>>, xs: seq<T>): (r: seq<Slot<T>>)
    ensures |r| == |s|
    ensures forall j :: 0 <= j < |s| && s[j].valid ==> r[j] == s[j]
    decreases |xs|
  {
    if |xs| == 0 then s else InsertAll(Insert(s, xs[0]), xs[1..])
  }

  /** A consumer's clearing pass: every cell is marked free; contents stay in place. */
  function Cleared<T>(s: seq<Slot<T>>): (r: seq<Slot<T>>)
    ensures |r| == |s|
    ensures forall j :: 0 <= j < |r| ==> !r[j].valid
    ensures Items(r) == Items(s)
  {
    seq(|s|, j requires 0 <= j < |s| => s[j].(valid := false))
  }

  /** The cells in use form a prefix of the buffer. */
  ghost predicate PrefixValid<T>(s: seq<Slot<T>>)
  {
    forall i, j :: 0 <= i < j < |s| && s[j].valid ==> s[i].valid
  }

  /** The contents of all cells, valid or not, in cell order. */
  function Items<T>(s: seq<Slot<T>>): (r: seq<T>)
  {
    seq(|s|, j requires 0 <= j < |s| => s[j].item)
  }

  /** The entries awaiting delivery, in cell order. */
  function Live<T>(s: seq<Slot<T>>): (r: seq<T>)
    ensures |r| <= |s|
    ensures |r| == |s| <==> Full(s)
  {
    if |s| == 0 then []
    else (if s[0].valid then [s[0].item] else []) + Live(s[1..])
  }

  /**
   * When exactly the first `n` cells are in use, the pending entries are the
   * contents of those cells, in order.
   */
  lemma {:induction false} LiveOfFill<T>(s: seq<Slot<T>>, n: nat)
    requires n <= |s|
    requires forall j :: 0 <= j < |s| ==> (s[j].valid <==> j < n)
    ensures Live(s) == Items(s[..n])
  {
    if |s| > 0 {
      if n == 0 {
        LiveOfFill(s[1..], 0);
      } else {
        LiveOfFill(s[1..], n - 1);
        assert Items(s[..n]) == [s[0].item] + Items(s[1..][..n - 1]);
      }
    }
  }

  /** In a buffer whose cells in use form a prefix, `Fill` counts the pending entries. */
  lemma LiveOfPrefix<T>(s: seq<Slot<T>>)
    requires PrefixValid(s)
    ensures forall j :: 0 <= j < |s| ==> (s[j].valid <==> j < Fill(s))
    ensures Live(s) == Items(s[..Fill(s)])
    ensures |Live(s)| == Fill(s)
  {
    LiveOfFill(s, Fill(s));
  }

  /** After a clearing pass nothing is pending, and the cells in use (none) form a prefix. */
  lemma ClearedIsEmpty<T>(s: seq<Slot<T>>)
    ensures |Cleared(s)| == |s|
    ensures Live(Cleared(s)) == []
    ensures PrefixValid(Cleared(s))
  {
    LiveOfFill(Cleared(s), 0);
  }

  /**
   * A producer's write appends to the pending entries: starting from a buffer
   * whose cells in use form a prefix, `Insert` keeps that shape, and the pending
   * entries grow by `x` at the end unless the buffer was full, in which case they
   * are unchanged.
   */
  lemma InsertAppends<T>(s: seq<Slot<T>>, x: T)
    requires PrefixValid(s)
    ensures PrefixValid(Insert(s, x))
    ensures Live(Insert(s, x)) == if Full(s) then Live(s) else Live(s) + [x]
  {
    LiveOfPrefix(s);
    var n := Fill(s);
    if n == |s| {
      assert Full(s);
    } else {
      assert !Full(s);
      WriteFirstFree(s, n, x);
    }
  }

  /** Writing into the first free cell of a prefix buffer extends the pending entries by one. */
  lemma WriteFirstFree<T>(s: seq<Slot<T>>, n: nat, x: T)
    requires n < |s|
    requires forall j :: 0 <= j < |s| ==> (s[j].valid <==> j < n)
    ensures PrefixValid(s[n := Slot(true, x)])
    ensures Live(s[n := Slot(true, x)]) == Items(s[..n]) + [x]
  {
    var r := s[n := Slot(true, x)];
    assert forall j :: 0 <= j < |r| ==> (r[j].valid <==> j < n + 1);
    LiveOfFill(r, n + 1);
    ItemsAfterWrite(s, n, x);
  }

  /** Writing `x` into cell `n` extends the contents of the first `n` cells by `x`. */
  lemma ItemsAfterWrite<T>(s: seq<Slot<T>>, n: nat, x: T)
    requires n < |s|
    ensures Items(s[n := Slot(true, x)][..n + 1]) == Items(s[..n]) + [x]
  {
    var r := s[n := Slot(true, x)];
    assert forall j :: 0 <= j < n ==> Items(r[..n + 1])[j] == Items(s[..n])[j];
  }

  /**
   * Submitting a sequence of entries that fits in the free cells of a buffer
   * whose cells in use form a prefix: the entries join the pending ones in
   * submission order, and none already stored is overwritten.
   */
  lemma {:induction false} InsertAllKeepsOrder<T>(s: seq<Slot<T>>, xs: seq<T>)
    requires PrefixValid(s)
    requires |Live(s)| + |xs| <= |s|
    ensures PrefixValid(InsertAll(s, xs))
    ensures Live(InsertAll(s, xs)) == Live(s) + xs
    decreases |xs|
  {
    if |xs| == 0 {
      assert Live(s) + xs == Live(s);
    } else {
      var rest := xs[1..];
      var s' := Insert(s, xs[0]);
      assert InsertAll(s, xs) == InsertAll(s', rest);
      InsertAppends(s, xs[0]);
      InsertAllKeepsOrder(s', rest);
      AppendStep(Live(s), xs);
    }
  }

  /** Sequence arithmetic behind one step of `InsertAllKeepsOrder`. */
  lemma AppendStep<T>(live: seq<T>, xs: seq<T>)
    requires 0 < |xs|
    ensures live + [xs[0]] + xs[1..] == live + xs
  {
  }

  /** Once every cell is in use, further submissions are all dropped. */
  lemma {:induction false} InsertAllWhenFull<T>(s: seq<Slot<T>>, xs: seq<T>)
    requires Full(s)
    ensures InsertAll(s, xs) == s
    decreases |xs|
  {
    if |xs| > 0 {
      InsertAllWhenFull(Insert(s, xs[0]), xs[1..]);
    }
  }

  /**
   * Starting from a cleared buffer, up to its capacity, the pending entries
   * are exactly the submitted ones, in submission order.
   */
  lemma SubmissionOrder<T>(s: seq<Slot<T>>, xs: seq<T>)
    requires |xs| <= |s|
    ensures Live(InsertAll(Cleared(s), xs)) == xs
  {
    ClearedIsEmpty(s);
    InsertAllKeepsOrder(Cleared(s), xs);
    assert [] + xs == xs;
  }

  /**
   * The producer loop over an array of cells: scan from cell 0, write `x`
   * into the first free cell, marking it valid, and stop; when no cell is
   * free, write nothing.
   */
  method FillFirstFree<T>(a: array<Slot<T>>, x: T)
    modifies a
    ensures a[..] == Insert(old(a[..]), x)
  {
    var i := 0;
    while i < a.Length
      invariant 0 <= i <= a.Length
      invariant forall j :: 0 <= j < i ==> a[j].valid
      invariant a[..] == old(a[..])
    {
      if !a[i].valid {
        a[i] := Slot(true, x);
        assert a[..] == old(a[..])[i := Slot(true, x)];
        return;
      }
      i := i + 1;
    }
  }

  /** The clearing loop over an array of cells: every `valid` flag is set to false. */
  method ClearAll<T>(a: array<Slot<T>>)
    modifies a
    ensures a[..] == Cleared(old(a[..]))
  {
    var i := 0;
    while i < a.Length
      invariant 0 <= i <= a.Length
      invariant forall j :: 0 <= j < i ==> a[j] == old(a[j]).(valid := false)
      invariant forall j :: i <= j < a.Length ==> a[j] == old(a[j])
    {
      a[i] := a[i].(valid := false);
      i := i + 1;
    }
  }
}
