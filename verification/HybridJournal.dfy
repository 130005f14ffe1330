/** Eviction of recent inputs under the durable budgets
    (crates/remote/src/hybrid.rs, `fit_checkpoint_to_durable_limits`). */
module HybridJournal {
  import opened Protocol
  import opened HybridAudience
  import opened HybridDedup

  datatype FitError = InvalidProtectedSuffix | OverBudget | CannotFit

  /** Owner associations held by a run of entries. */
  function OwnerEntries(journal: Journal): nat {
    if journal == [] then 0 else OwnerEntries(journal[..|journal| - 1]) + |journal[|journal| - 1].coverage.owners|
  }

  /** The budgets and the encoded-size test, by number of entries dropped. */
  datatype Budget = Budget(protected: nat, capacity: nat, maxOwnerEntries: nat, fits: nat -> bool)

  /** Dropping the first `d` entries meets every budget and keeps the protected suffix. */
  predicate Meets(journal: Journal, b: Budget, d: nat)
    requires d <= |journal|
  {
    && d + b.protected <= |journal|
    && |journal| - d <= b.capacity
    && OwnerEntries(journal[d..]) <= b.maxOwnerEntries
    && b.fits(d)
  }

  /** The encoded checkpoint does not grow as more entries are dropped. */
  ghost predicate Monotone(b: Budget, n: nat) {
    forall c, d :: 0 <= c <= d <= n && b.fits(c) ==> b.fits(d)
  }

  ghost predicate SomeMeets(journal: Journal, b: Budget) {
    exists d :: 0 <= d <= |journal| && Meets(journal, b, d)
  }

  /** The least number of dropped entries that meets every budget. */
  ghost predicate Least(journal: Journal, b: Budget, d: nat) {
    && d <= |journal| && Meets(journal, b, d)
    && (forall c :: 0 <= c < d ==> !Meets(journal, b, c))
  }

  lemma {:induction false} OwnerSplit(journal: Journal, d: nat)
    requires d < |journal|
    ensures OwnerEntries(journal[d..]) == |journal[d].coverage.owners| + OwnerEntries(journal[d + 1..])
  {
    var tail := journal[d..];
    if d == |journal| - 1 {
      assert tail == [journal[d]] && journal[d + 1..] == [];
      assert tail[..0] == [];
    } else {
      var front := journal[..|journal| - 1];
      OwnerSplit(front, d);
      assert tail[..|tail| - 1] == front[d..];
      assert journal[d + 1..][..|journal[d + 1..]| - 1] == front[d + 1..];
    }
  }

  lemma {:induction false} OwnerEntriesShrink(journal: Journal, c: nat, d: nat)
    requires c <= d <= |journal|
    ensures OwnerEntries(journal[d..]) <= OwnerEntries(journal[c..])
    decreases d - c
  {
    if c < d {
      OwnerSplit(journal, c);
      OwnerEntriesShrink(journal, c + 1, d);
    }
  }

  /** Whatever meets the identity and owner budgets drops at least `d` entries. */
  ghost predicate Required(journal: Journal, b: Budget, d: nat)
    requires d <= |journal|
  {
    && |journal| - d <= b.capacity && OwnerEntries(journal[d..]) <= b.maxOwnerEntries
    && (forall c :: 0 <= c < d ==> |journal| - c > b.capacity || OwnerEntries(journal[c..]) > b.maxOwnerEntries)
  }

  /** Dropping the first `d` entries meets the identity and owner budgets. */
  predicate Counted(journal: Journal, b: Budget, d: nat)
    requires d <= |journal|
  {
    |journal| - d <= b.capacity && OwnerEntries(journal[d..]) <= b.maxOwnerEntries
  }

  /** What the protected suffix alone still breaks. */
  ghost function WhyNot(journal: Journal, b: Budget): FitError {
    if b.protected > |journal| then InvalidProtectedSuffix
    else if !Counted(journal, b, |journal| - b.protected) then OverBudget
    else CannotFit
  }

  lemma CountedIff(journal: Journal, b: Budget, required: nat, d: nat)
    requires required <= |journal| && d <= |journal| && Required(journal, b, required)
    ensures Counted(journal, b, d) <==> required <= d
  {
    if required <= d { OwnerEntriesShrink(journal, required, d); }
  }

  lemma BelowRequired(journal: Journal, b: Budget, required: nat, c: nat)
    requires required <= |journal| && Required(journal, b, required) && c < required
    ensures !Meets(journal, b, c)
  {
  }

  lemma NoneMeets(journal: Journal, b: Budget, required: nat)
    requires required <= |journal| && Required(journal, b, required) && required + b.protected > |journal|
    ensures !SomeMeets(journal, b)
  {
    forall d | 0 <= d <= |journal| ensures !Meets(journal, b, d) {
      if d < required { BelowRequired(journal, b, required, d); }
    }
  }

  lemma FitsAbove(journal: Journal, b: Budget, required: nat, d: nat)
    requires required <= d <= |journal| && Required(journal, b, required)
    ensures Meets(journal, b, d) <==> d + b.protected <= |journal| && b.fits(d)
  {
    OwnerEntriesShrink(journal, required, d);
  }

  method CountOwnerEntries(journal: Journal) returns (total: nat)
    ensures total == OwnerEntries(journal)
  {
    total := 0;
    var i := 0;
    while i < |journal|
      invariant 0 <= i <= |journal| && total == OwnerEntries(journal[..i])
    {
      assert journal[..i + 1][..i] == journal[..i];
      total := total + |journal[i].coverage.owners|;
      i := i + 1;
    }
    assert journal[..|journal|] == journal;
  }

  lemma NothingLeft(journal: Journal)
    ensures OwnerEntries(journal[|journal|..]) == 0 && journal[0..] == journal
  {
  }

  /** Counts the associations and finds how many entries the identity and owner
      budgets force out. */
  method RequiredDrop(journal: Journal, b: Budget) returns (drop: nat)
    ensures drop <= |journal| && Required(journal, b, drop)
  {
    hide OwnerEntries;
    NothingLeft(journal);
    drop := if |journal| > b.capacity then |journal| - b.capacity else 0;
    var retained := CountOwnerEntries(journal);
    var i := 0;
    while i < drop
      invariant 0 <= i <= drop && retained == OwnerEntries(journal[i..])
    {
      OwnerSplit(journal, i);
      retained := retained - |journal[i].coverage.owners|;
      i := i + 1;
    }
    ghost var least := drop;
    while retained > b.maxOwnerEntries && drop < |journal|
      invariant least <= drop <= |journal| && retained == OwnerEntries(journal[drop..])
      invariant forall c :: least <= c < drop ==> OwnerEntries(journal[c..]) > b.maxOwnerEntries
    {
      OwnerSplit(journal, drop);
      retained := retained - |journal[drop].coverage.owners|;
      drop := drop + 1;
    }
  }

  class RecentInputs {
    var entries: Journal

    /** Keeps the longest suffix that meets the budgets, or fails before dropping
        anything exactly when there is none. */
    method Fit(b: Budget) returns (r: Result<(), FitError>)
      requires Monotone(b, |entries|)
      modifies this`entries
      ensures r.Ok? <==> SomeMeets(old(entries), b)
      ensures r.Ok? ==> exists d: nat :: Least(old(entries), b, d) && entries == old(entries)[d..]
      ensures r.Err? ==> entries == old(entries) && r.error == WhyNot(old(entries), b)
    {
      ghost var journal := entries;
      if b.protected > |entries| { return Err(InvalidProtectedSuffix); }
      var maxDrop := |entries| - b.protected;
      var required := RequiredDrop(entries, b);
      CountedIff(journal, b, required, maxDrop);
      if required > maxDrop {
        NoneMeets(journal, b, required);
        return Err(OverBudget);
      }
      if !b.fits(maxDrop) { return Err(CannotFit); }
      FitsAbove(journal, b, required, maxDrop);
      var low, high := required, maxDrop;
      while low < high
        invariant required <= low <= high <= maxDrop && b.fits(high) && entries == journal
        invariant forall c :: required <= c < low ==> !b.fits(c)
      {
        var middle := low + (high - low) / 2;
        if b.fits(middle) { high := middle; } else { low := middle + 1; }
      }
      FitsAbove(journal, b, required, low);
      LeastAt(journal, b, required, low);
      entries := entries[low..];
      r := Ok(());
    }
  }

  lemma LeastAt(journal: Journal, b: Budget, required: nat, d: nat)
    requires required <= d <= |journal| && Required(journal, b, required) && Meets(journal, b, d)
    requires forall c :: required <= c < d ==> !b.fits(c)
    ensures Least(journal, b, d)
  {
    forall c | 0 <= c < d ensures !Meets(journal, b, c) {
      if c < required { BelowRequired(journal, b, required, c); }
    }
  }
}
