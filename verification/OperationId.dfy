/**
 Reserving operation ids: every caller runs its own compare-and-swap loop on one shared
 counter, and the loops interleave freely.
 */
module OperationId {

  const MAX_OPERATIONS: nat := 65536

  /** A caller in its loop holds the value it last saw; afterwards, what it returned. */
  datatype Caller = Trying(seen: int) | Returned(oid: int)

  datatype Shared = Shared(next: int, callers: map<nat, Caller>)

  /** One atomic access: the initial load, or one weak compare-exchange that may fail spuriously. */
  datatype Access = Load(c: nat) | Exchange(c: nat, spurious: bool)

  const START := Shared(0, map[])

  function Perform(s: Shared, x: Access): Shared {
    match x
    case Load(c) =>
      if c in s.callers then s else s.(callers := s.callers[c := Trying(s.next)])
    case Exchange(c, spurious) =>
      if c !in s.callers || s.callers[c].Returned? then s
      else
        var seen := s.callers[c].seen;
        if !(0 <= seen < MAX_OPERATIONS) then s.(callers := s.callers[c := Returned(-1)])
        else if s.next == seen && !spurious then Shared(seen + 1, s.callers[c := Returned(seen)])
        else s.(callers := s.callers[c := Trying(s.next)])
  }

  function Interleave(xs: seq<Access>): Shared {
    if xs == [] then START else Perform(Interleave(xs[..|xs| - 1]), xs[|xs| - 1])
  }

  ghost predicate Holds(s: Shared, oid: int) {
    exists c :: c in s.callers && s.callers[c] == Returned(oid)
  }

  /** Ids below the counter are held, each by one caller; -1 is returned only when ids ran out. */
  ghost predicate Consistent(s: Shared) {
    && 0 <= s.next <= MAX_OPERATIONS
    && (forall c | c in s.callers && s.callers[c].Trying? :: 0 <= s.callers[c].seen <= s.next)
    && (forall oid | 0 <= oid < s.next :: Holds(s, oid))
    && (forall c | c in s.callers && s.callers[c].Returned? ::
          || 0 <= s.callers[c].oid < s.next
          || (s.callers[c].oid == -1 && s.next == MAX_OPERATIONS))
    && (forall c, c' | c in s.callers && c' in s.callers && c != c'
                       && s.callers[c].Returned? && s.callers[c'].Returned? && s.callers[c].oid >= 0 ::
          s.callers[c].oid != s.callers[c'].oid)
  }

  lemma {:induction false} PerformConsistent(s: Shared, x: Access)
    requires Consistent(s)
    ensures Consistent(Perform(s, x))
  {
    var s' := Perform(s, x);
    forall oid | 0 <= oid < s'.next
      ensures Holds(s', oid)
    {
      if oid < s.next {
        assert Holds(s, oid);
        var c :| c in s.callers && s.callers[c] == Returned(oid);
        assert c in s'.callers && s'.callers[c] == Returned(oid);
      } else {
        assert s'.callers[x.c] == Returned(oid);
      }
    }
  }

  /** However the loops interleave, ids are handed out densely from zero and never twice. */
  lemma {:induction false} IdsUnique(xs: seq<Access>)
    ensures Consistent(Interleave(xs))
  {
    if xs != [] {
      IdsUnique(xs[..|xs| - 1]);
      PerformConsistent(Interleave(xs[..|xs| - 1]), xs[|xs| - 1]);
    }
  }

  // --------------------------------------------------------------------------
  // Progress
  // --------------------------------------------------------------------------

  /** A caller goes round again only for a spurious failure, or because an id was handed out since it looked. */
  lemma {:induction false} RetryExactly(xs: seq<Access>, c: nat, spurious: bool)
    requires c in Interleave(xs).callers && Interleave(xs).callers[c].Trying?
    ensures var s := Interleave(xs);
            var s', seen := Perform(s, Exchange(c, spurious)), s.callers[c].seen;
            && (s'.callers[c].Trying? <==> seen < MAX_OPERATIONS && (spurious || seen < s.next))
            && (s'.callers[c].Trying? ==> s' == s.(callers := s.callers[c := Trying(s.next)]))
            && (s'.callers[c].Returned? && seen < MAX_OPERATIONS ==>
                  s'.callers[c].oid == seen == s.next && s'.next == s.next + 1)
            && (s'.callers[c].Returned? && seen == MAX_OPERATIONS ==> s'.callers[c].oid == -1 && s'.next == s.next)
  {
    IdsUnique(xs);
  }

  /** From every reachable state a caller left alone has an id after two tries, the next one, or -1 if there is none. */
  lemma {:induction false} AloneReturns(xs: seq<Access>, c: nat)
    requires c in Interleave(xs).callers && Interleave(xs).callers[c].Trying?
    ensures var s, x := Interleave(xs), Exchange(c, false);
            var s' := Interleave(xs + [x] + [x]);
            c in s'.callers && s'.callers[c] == Returned(if s.next < MAX_OPERATIONS then s.next else -1)
  {
    IdsUnique(xs);
    var x := Exchange(c, false);
    assert (xs + [x])[..|xs|] == xs && (xs + [x] + [x])[..|xs| + 1] == xs + [x];
  }
}
