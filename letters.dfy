/** effers-derive/src/lette.rs: the generator of the one-letter generic
    parameter names `A`, `B`, ... that name the handler slots. */
module Letters {
  import opened Wrappers

  /** `char::from_u32` succeeds exactly on Unicode scalar values. */
  predicate IsScalar(n: int) {
    0 <= n < 0xD800 || 0xE000 <= n < 0x11_0000
  }

  /** The counter of a fresh iterator: one below `'A'`. */
  const Start: nat := 'A' as nat - 1

  /** How many code points one `next` call tries before giving up. */
  const Attempts: nat := 100

  /** The outcome of a `next` call that may still try `fuel` code points
      above `idx`: the new counter and the item. */
  function Probe(idx: nat, fuel: nat): (r: (nat, Option<char>))
    ensures fuel > 0 ==> idx < r.0 <= idx + fuel
    ensures r.1.Some? ==> r.1.value as int == r.0
    ensures r.1.None? ==> r.0 == idx + fuel
    decreases fuel
  {
    if fuel == 0 then (idx, None)
    else if IsScalar(idx + 1) then (idx + 1, Some((idx + 1) as char))
    else Probe(idx + 1, fuel - 1)
  }

  /** A probe returns the first `char` above the counter, and `None` exactly
      when none of the code points it may try is a `char`. */
  lemma {:induction false} ProbeFindsFirst(idx: nat, fuel: nat)
    ensures Probe(idx, fuel).1.Some? ==> forall k :: idx < k < Probe(idx, fuel).0 ==> !IsScalar(k)
    ensures Probe(idx, fuel).1.None? <==> forall k :: idx < k <= idx + fuel ==> !IsScalar(k)
    decreases fuel
  {
    if fuel > 0 && !IsScalar(idx + 1) {
      ProbeFindsFirst(idx + 1, fuel - 1);
    }
  }

  /** One `next` call from counter `idx`. */
  function Step(idx: nat): (nat, Option<char>) {
    Probe(idx, Attempts)
  }

  /** `LettersIter`: the counter is its only state. */
  class LettersIter {
    var idx: nat

    /** `LettersIter::new`. */
    constructor ()
      ensures idx == Start
    {
      idx := Start;
    }

    /** `Iterator::next`: bump the counter up to 100 times and return the
        first value that is a `char`. */
    method Next() returns (r: Option<char>)
      modifies this
      ensures (idx, r) == Step(old(idx))
    {
      for i := 0 to Attempts
        invariant idx == old(idx) + i
        invariant Probe(idx, Attempts - i) == Step(old(idx))
      {
        idx := idx + 1;
        if IsScalar(idx) {
          return Some(idx as char);
        }
      }
      return None;
    }
  }

  /** The state and items after `take(n)` has been collected from an
      iterator whose counter is `idx`. Collection stops at the first `None`. */
  datatype Drained = Drained(idx: nat, items: seq<char>)

  function Taken(idx: nat, n: nat): Drained
    decreases n
  {
    if n == 0 then Drained(idx, [])
    else
      var d := Taken(idx, n - 1);
      if |d.items| < n - 1 then d
      else
        var (j, item) := Step(d.idx);
        match item
        case None => Drained(j, d.items)
        case Some(c) => Drained(j, d.items + [c])
  }

  /** `LettersIter::new().take(n)`, collected. */
  function Labels(n: nat): seq<char> {
    Taken(Start, n).items
  }

  /** The number of labels before the counter reaches the surrogates. */
  const LabelBound: nat := 0xD800 - 'A' as nat

  /** The `k`-th label of a fresh iterator. */
  function Label(k: nat): char
    requires k < LabelBound
  {
    ('A' as int + k) as char
  }

  /** `LettersIter::new().take(n).collect()`, run on a fresh iterator. */
  method TakeLetters(n: nat) returns (ls: seq<char>)
    ensures ls == Labels(n)
  {
    var it := new LettersIter();
    ls := [];
    var k := 0;
    while k < n
      invariant k <= n && |ls| == k
      invariant Taken(Start, k) == Drained(it.idx, ls)
    {
      var c := it.Next();
      if c.None? {
        TakenStaysExhausted(Start, k + 1, n);
        return;
      }
      ls := ls + [c.value];
      k := k + 1;
    }
  }

  lemma {:induction false} TakenLength(idx: nat, n: nat)
    ensures |Taken(idx, n).items| <= n
    decreases n
  {
    if n > 0 {
      TakenLength(idx, n - 1);
    }
  }

  /** Once collection has stopped short, taking more changes nothing. */
  lemma {:induction false} TakenStaysExhausted(idx: nat, n: nat, m: nat)
    requires n <= m && |Taken(idx, n).items| < n
    ensures Taken(idx, m) == Taken(idx, n)
    decreases m - n
  {
    if m > n {
      TakenStaysExhausted(idx, n, m - 1);
    }
  }

  /** Taking fewer items yields a prefix of taking more. */
  lemma {:induction false} TakenPrefix(idx: nat, n: nat, m: nat)
    requires n <= m
    ensures Taken(idx, n).items <= Taken(idx, m).items
    decreases m - n
  {
    if m > n {
      TakenPrefix(idx, n, m - 1);
      TakenLength(idx, m - 1);
    }
  }

  /** The first item of a fresh iterator is `'A'`, and below the surrogate
      range the labels are the consecutive code points from `'A'` on. */
  lemma {:induction false} LabelsAreConsecutive(n: nat)
    requires n <= LabelBound
    ensures Taken(Start, n).idx == Start + n
    ensures |Labels(n)| == n
    ensures forall k :: 0 <= k < n ==> Labels(n)[k] == Label(k)
    decreases n
  {
    if n > 0 {
      LabelsAreConsecutive(n - 1);
      var s := Step(Start + n - 1);
      assert IsScalar(Start + n);
      assert s == (Start + n, Some(Label(n - 1)));
    }
  }

  /** Each `next` moves the counter up by 1 to 100; an item's code point is
      the new counter and is the first `char` above the old one; `None`
      comes only after 100 code points in a row that are not `char`s, which
      happens only inside the surrogate range or above `char::MAX`. */
  lemma StepMoves(idx: nat)
    ensures idx < Step(idx).0 <= idx + Attempts
    ensures Step(idx).1.Some? ==> Step(idx).1.value as int == Step(idx).0
    ensures Step(idx).1.None? ==>
      (0xD800 <= idx + 1 && idx + Attempts < 0xE000) || idx + 1 >= 0x11_0000
  {
    ProbeFindsFirst(idx, Attempts);
    if Step(idx).1.None? {
      assert !IsScalar(idx + 1);
      assert idx < 0xE000 <= idx + Attempts ==> !IsScalar(0xE000);
    }
  }

  /** Every item of one iterator is at most its counter, and the counter
      never goes down. */
  lemma {:induction false} TakenBelowCounter(idx: nat, n: nat)
    ensures idx <= Taken(idx, n).idx
    ensures forall i :: 0 <= i < |Taken(idx, n).items| ==> Taken(idx, n).items[i] as int <= Taken(idx, n).idx
    decreases n
  {
    if n > 0 {
      TakenBelowCounter(idx, n - 1);
      var d := Taken(idx, n - 1);
      if |d.items| == n - 1 {
        StepMoves(d.idx);
      }
    }
  }

  predicate Increasing(cs: seq<char>) {
    forall i, j :: 0 <= i < j < |cs| ==> cs[i] < cs[j]
  }

  /** Appending a code point above every earlier one keeps a sequence
      increasing. */
  lemma IncreasingSnoc(cs: seq<char>, bound: int, c: char)
    requires Increasing(cs) && bound < c as int
    requires forall i :: 0 <= i < |cs| ==> cs[i] as int <= bound
    ensures Increasing(cs + [c])
  {
    var ds := cs + [c];
    forall i, j | 0 <= i < j < |ds| ensures ds[i] < ds[j] {
      assert ds[i] == cs[i];
      if j < |cs| {
        assert ds[j] == cs[j];
      }
    }
  }

  /** The items of one iterator have strictly increasing code points, so no
      label is ever produced twice. */
  lemma {:induction false} TakenIncreasing(idx: nat, n: nat)
    ensures Increasing(Taken(idx, n).items)
    decreases n
  {
    if n > 0 {
      TakenIncreasing(idx, n - 1);
      var d := Taken(idx, n - 1);
      TakenLength(idx, n - 1);
      if |d.items| == n - 1 {
        TakenBelowCounter(idx, n - 1);
        StepMoves(d.idx);
        var s := Step(d.idx);
        if s.1.Some? {
          IncreasingSnoc(d.items, d.idx, s.1.value);
        }
      }
    }
  }

  predicate IsCapital(c: char) {
    'A' <= c <= 'Z'
  }

  /** The labels are the capital letters `A` to `Z` in order, and the 27th,
      `'['`, is the first that is not. */
  lemma LabelsAreCapitals(n: nat)
    requires n <= LabelBound
    ensures |Labels(n)| == n
    ensures forall k :: 0 <= k < n ==> (IsCapital(Labels(n)[k]) <==> k < 26)
    ensures n > 26 ==> Labels(n)[26] == '['
  {
    LabelsAreConsecutive(n);
  }
}
