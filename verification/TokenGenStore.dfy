/**
 The two tables as the handlers use them: reads, single-item writes and paged loops, run by a process that
 may die before any write. Each loop is proved against its whole-table meaning: a loop that ends has exactly
 that meaning, whatever the paging, and a loop that dies leaves tables from which it can be run again.
 */
module TokenGenStore {
  import opened Basics
  import opened TokenKeys
  import opened PlatformModel

  /** How a call ended: `Crashed` before one of its writes, or `Threw` without having written. */
  datatype Outcome = Done | Crashed | Threw
  {
    predicate IsFailure() { !Done? }
    function PropagateFailure(): Outcome { this }
  }

  // ---- half-done updates ----

  function Selected(tokens: Tokens, q: Query): set<TokenPK> {
    set pk | pk in tokens && Selects(q, pk, tokens[pk])
  }

  /** The table once the entries in `finished` have been updated. */
  function Patched(before: Tokens, p: Patch, finished: set<TokenPK>): Tokens {
    map pk | pk in before :: if pk in finished then Apply(p, before[pk]) else before[pk]
  }

  /** Some of the selected entries, and nothing else, have been updated. */
  ghost predicate PartlyPatched(before: Tokens, now: Tokens, q: Query, p: Patch) {
    exists finished :: finished <= Selected(before, q) && now == Patched(before, p, finished)
  }

  lemma PatchOne(before: Tokens, q: Query, p: Patch, finished: set<TokenPK>, pk: TokenPK)
    requires Stable(q, p) && pk in Selected(before, q)
    ensures var now := Patched(before, p, finished);
            now[pk := Apply(p, now[pk])] == Patched(before, p, finished + {pk})
  {
  }

  lemma SelectionStays(before: Tokens, q: Query, p: Patch, finished: set<TokenPK>)
    requires Stable(q, p) && finished <= Selected(before, q)
    ensures Selected(Patched(before, p, finished), q) == Selected(before, q)
  {
  }

  lemma AllPatched(before: Tokens, q: Query, p: Patch)
    ensures Patched(before, p, Selected(before, q)) == PatchAll(before, q, p)
  {
  }

  /** Running the loop again from a half-done table gives what one uninterrupted run gives. */
  lemma PatchingResumes(before: Tokens, now: Tokens, q: Query, p: Patch)
    requires Stable(q, p) && PartlyPatched(before, now, q, p)
    ensures PatchAll(now, q, p) == PatchAll(before, q, p)
  {
  }

  // ---- half-done deletions ----

  function Kept(before: Tokens, doomed: TokenPK -> bool): Tokens {
    map pk | pk in before && !doomed(pk) :: before[pk]
  }

  ghost predicate PartlyDeleted(before: Tokens, now: Tokens, doomed: TokenPK -> bool) {
    && (forall pk <- now :: pk in before && now[pk] == before[pk])
    && (forall pk <- before :: pk in now || doomed(pk))
  }

  lemma DeletingResumes(before: Tokens, now: Tokens, doomed: TokenPK -> bool)
    requires PartlyDeleted(before, now, doomed)
    ensures Kept(now, doomed) == Kept(before, doomed)
  {
  }

  /** Outside the keys `own` the two tables agree. */
  ghost predicate AgreeOutside(before: Tokens, now: Tokens, own: set<TokenPK>) {
    forall pk: TokenPK | pk !in own :: Lookup(now, pk) == Lookup(before, pk)
  }

  class Tables {
    var platform: Platform
    var tokens: Tokens
    var fuel: nat    // writes left before the process dies

    function Now(): Store
      reads this
    {
      Store(platform, tokens)
    }

    constructor (s: Store, writes: nat)
      ensures Now() == s && fuel == writes
    {
      platform, tokens, fuel := s.platform, s.tokens, writes;
    }

    /** A new process over the same tables. */
    method Restart(writes: nat)
      modifies this
      ensures Now() == old(Now()) && fuel == writes
    {
      fuel := writes;
    }

    // ---- single calls ----

    method WritePlatform(pf: Platform) returns (o: Outcome)
      modifies this
      ensures !o.Threw? && tokens == old(tokens) && platform == if o.Done? then pf else old(platform)
    {
      if fuel == 0 { return Crashed; }
      fuel, platform := fuel - 1, pf;
      return Done;
    }

    method PutToken(pk: TokenPK, e: Entry) returns (o: Outcome)
      modifies this
      ensures !o.Threw? && platform == old(platform)
      ensures tokens == if o.Done? then old(tokens)[pk := Stored(e)] else old(tokens)
    {
      if fuel == 0 { return Crashed; }
      fuel, tokens := fuel - 1, tokens[pk := Stored(e)];
      return Done;
    }

    method UpdateToken(pk: TokenPK, e: Entry) returns (o: Outcome)
      requires pk in tokens
      modifies this
      ensures !o.Threw? && platform == old(platform)
      ensures tokens == if o.Done? then old(tokens)[pk := e] else old(tokens)
    {
      if fuel == 0 { return Crashed; }
      fuel, tokens := fuel - 1, tokens[pk := e];
      return Done;
    }

    method DeleteToken(pk: TokenPK) returns (o: Outcome)
      modifies this
      ensures !o.Threw? && platform == old(platform)
      ensures tokens == if o.Done? then old(tokens) - {pk} else old(tokens)
    {
      if fuel == 0 { return Crashed; }
      fuel, tokens := fuel - 1, tokens - {pk};
      return Done;
    }

    // ---- paged loops ----

    /** The entries of one page of a query, updated one by one; `finished` were updated before. */
    method UpdatePage(q: Query, p: Patch, page: set<TokenPK>, ghost before: Tokens, ghost finished: set<TokenPK>)
      returns (o: Outcome)
      requires Stable(q, p) && finished <= Selected(before, q) && tokens == Patched(before, p, finished)
      requires page <= Selected(before, q)
      modifies this
      ensures !o.Threw? && platform == old(platform) && PartlyPatched(before, tokens, q, p)
      ensures o.Done? ==> tokens == Patched(before, p, finished + page)
    {
      var pending := page;
      while pending != {}
        invariant pending <= page && platform == old(platform)
        invariant tokens == Patched(before, p, finished + (page - pending))
      {
        var pk :| pk in pending;
        PatchOne(before, q, p, finished + (page - pending), pk);
        assert finished + (page - (pending - {pk})) == finished + (page - pending) + {pk};
        :- UpdateToken(pk, Apply(p, tokens[pk]));
        pending := pending - {pk};
      }
      assert finished + (page - pending) == finished + page;
      return Done;
    }

    /** A do/while Query or Scan loop that updates every entry it finds. */
    method UpdateAll(q: Query, p: Patch, paging: Paging) returns (o: Outcome)
      requires Stable(q, p)
      modifies this
      ensures !o.Threw? && platform == old(platform)
      ensures PartlyPatched(old(tokens), tokens, q, p)
      ensures o.Done? ==> tokens == PatchAll(old(tokens), q, p)
    {
      ghost var before := tokens;
      ghost var finished: set<TokenPK> := {};
      var n := 0;
      while n <= paging.last
        invariant n <= paging.last + 1 && platform == old(platform)
        invariant finished == set pk | pk in Selected(before, q) && paging.Index(pk) < n
        invariant tokens == Patched(before, p, finished)
      {
        SelectionStays(before, q, p, finished);
        var page := set pk | pk in Selected(tokens, q) && paging.Index(pk) == n;
        :- UpdatePage(q, p, page, before, finished);
        finished := finished + page;
        n := n + 1;
      }
      assert finished == Selected(before, q);
      AllPatched(before, q, p);
      return Done;
    }

    /** The items of one page of a scan, deleted one by one. */
    method DeletePage(doomed: TokenPK -> bool, page: set<TokenPK>, ghost before: Tokens) returns (o: Outcome)
      requires PartlyDeleted(before, tokens, doomed) && forall pk <- page :: doomed(pk)
      modifies this
      ensures !o.Threw? && platform == old(platform) && PartlyDeleted(before, tokens, doomed)
      ensures tokens.Keys <= old(tokens).Keys
      ensures o.Done? ==> tokens.Keys !! page
    {
      var pending := page;
      while pending != {}
        invariant pending <= page && platform == old(platform) && PartlyDeleted(before, tokens, doomed)
        invariant tokens.Keys <= old(tokens).Keys && tokens.Keys !! page - pending
      {
        var pk :| pk in pending;
        :- DeleteToken(pk);
        pending := pending - {pk};
      }
      return Done;
    }

    /** A do/while Scan loop that deletes every item it finds. */
    method DeleteAll(doomed: TokenPK -> bool, paging: Paging) returns (o: Outcome)
      modifies this
      ensures !o.Threw? && platform == old(platform)
      ensures PartlyDeleted(old(tokens), tokens, doomed)
      ensures o.Done? ==> tokens == Kept(old(tokens), doomed)
    {
      var n := 0;
      while n <= paging.last
        invariant n <= paging.last + 1 && platform == old(platform)
        invariant PartlyDeleted(old(tokens), tokens, doomed)
        invariant forall pk <- tokens | doomed(pk) :: paging.Index(pk) >= n
      {
        var page := set pk | pk in tokens && doomed(pk) && paging.Index(pk) == n;
        :- DeletePage(doomed, page, old(tokens));
        n := n + 1;
      }
      return Done;
    }
  }
}
