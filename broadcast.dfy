/**
 The equal-split ("broadcast") resolution engine shared by the dict-based
 `distribute_votes` of delagate_main.py and `VotingSystem.distribute_votes`
 of voting_classes.py.

 Participants are identified by name. A round takes every participant that
 still holds undistributed weight and splits that weight evenly over its
 delegate list, one share per list entry: a share that lands on a voter is
 banked in the voter's final tally, a share that lands on a non-voter is
 carried to the next round, and a non-voter without delegates drops its
 weight. The resolver repeats rounds until nothing is pending or the round
 budget is spent; whatever is still pending then is discarded.
 */
module Broadcast {
  import opened Sums

  type Name = string

  /** Delegation lists: participant to its ordered delegate names, duplicates kept. */
  type Graph = map<Name, seq<Name>>

  /** The two dicts threaded through the rounds: `final_votes` and `votes_to_distribute`. */
  datatype Ledger = Ledger(cast: map<Name, real>, pending: map<Name, real>)

  /** `p` has a non-empty delegate list (the source's `if not delegates: continue`). */
  predicate Forwards(g: Graph, p: Name)
  {
    p in g && |g[p]| > 0
  }

  /** How many shares `d` gets from the list `dl`: once per occurrence. */
  function Occurrences(d: Name, dl: seq<Name>): nat
  {
    multiset(dl)[d]
  }

  function Elems(dl: seq<Name>): set<Name>
  {
    set d | d in dl
  }

  /** Everybody named in the delegate list of one of `senders`. */
  function Targets(g: Graph, senders: set<Name>): set<Name>
  {
    set p, d | p in senders && p in g && d in g[p] :: d
  }

  /** The starting ledger: voters hold their own stake, everybody else has it all to distribute. */
  function Start(stakes: map<Name, real>, voters: set<Name>): Ledger
  {
    Ledger(Within(stakes, voters), Outside(stakes, voters))
  }

  // ---------------------------------------------------------------------------
  // One sender's turn
  // ---------------------------------------------------------------------------

  /** Hands `share` to each entry of `dl`, in list order: a voter banks it, anybody else carries it. */
  function Spread(dl: seq<Name>, voters: set<Name>, share: real, L: Ledger): (R: Ledger)
    ensures L.cast.Keys <= R.cast.Keys && R.cast.Keys - L.cast.Keys <= voters
    ensures L.pending.Keys <= R.pending.Keys && (R.pending.Keys - L.pending.Keys) !! voters
    decreases |dl|
  {
    if dl == [] then L
    else
      var d := dl[0];
      var L' := if d in voters then L.(cast := Credit(L.cast, d, share))
                else L.(pending := Credit(L.pending, d, share));
      Spread(dl[1..], voters, share, L')
  }

  /** `Spread` adds an entry for each listed delegate, to the tally for voters and to the carry for others. */
  lemma {:induction false} SpreadKeys(dl: seq<Name>, voters: set<Name>, share: real, L: Ledger)
    ensures var R := Spread(dl, voters, share, L);
      && R.cast.Keys == L.cast.Keys + (Elems(dl) * voters)
      && R.pending.Keys == L.pending.Keys + (Elems(dl) - voters)
    decreases |dl|
  {
    if dl != [] {
      var d0, rest := dl[0], dl[1..];
      var L' := if d0 in voters then L.(cast := Credit(L.cast, d0, share))
                else L.(pending := Credit(L.pending, d0, share));
      SpreadKeys(rest, voters, share, L');
      assert Elems(dl) == {d0} + Elems(rest) by {
        assert dl == [d0] + rest;
      }
    }
  }

  /** Each list entry hands `share` to the delegate it names: `d` gets one share per occurrence. */
  lemma {:induction false} SpreadValues(dl: seq<Name>, voters: set<Name>, share: real, L: Ledger, d: Name)
    ensures var R := Spread(dl, voters, share, L);
      && Get(R.cast, d) == Get(L.cast, d) + (if d in voters then Times(Occurrences(d, dl), share) else 0.0)
      && Get(R.pending, d) == Get(L.pending, d) + (if d in voters then 0.0 else Times(Occurrences(d, dl), share))
    decreases |dl|
  {
    if dl != [] {
      var d0, rest := dl[0], dl[1..];
      var L' := if d0 in voters then L.(cast := Credit(L.cast, d0, share))
                else L.(pending := Credit(L.pending, d0, share));
      SpreadValues(rest, voters, share, L', d);
      assert multiset(dl) == multiset{d0} + multiset(rest) by {
        assert dl == [d0] + rest;
      }
      if d == d0 {
        assert Occurrences(d, dl) == Occurrences(d, rest) + 1;
      } else {
        assert Occurrences(d, dl) == Occurrences(d, rest);
      }
    }
  }

  /** Every list entry gets one share, so the two ledgers together grow by |dl| shares. */
  lemma {:induction false} SpreadTotal(dl: seq<Name>, voters: set<Name>, share: real, L: Ledger)
    ensures var R := Spread(dl, voters, share, L);
      Total(R.cast) + Total(R.pending) == Total(L.cast) + Total(L.pending) + Times(|dl|, share)
    decreases |dl|
  {
    if dl != [] {
      var d0 := dl[0];
      var L' := if d0 in voters then L.(cast := Credit(L.cast, d0, share))
                else L.(pending := Credit(L.pending, d0, share));
      if d0 in voters {
        TotalCredit(L.cast, d0, share);
      } else {
        TotalCredit(L.pending, d0, share);
      }
      assert Total(L'.cast) + Total(L'.pending) == Total(L.cast) + Total(L.pending) + share;
      SpreadTotal(dl[1..], voters, share, L');
    }
  }

  /** The inner loop over one delegate list (delagate_main.py:39-45, voting_classes.py:68-73). */
  method SpreadShares(dl: seq<Name>, voters: set<Name>, share: real, L: Ledger) returns (R: Ledger)
    ensures R == Spread(dl, voters, share, L)
  {
    R := L;
    for i := 0 to |dl|
      invariant Spread(dl[i..], voters, share, R) == Spread(dl, voters, share, L)
    {
      assert dl[i..][1..] == dl[i + 1..];
      var d := dl[i];
      if d in voters {
        R := R.(cast := Credit(R.cast, d, share));
      } else {
        R := R.(pending := Credit(R.pending, d, share));
      }
    }
    assert dl[|dl|..] == [];
  }

  /** Sender `p`, holding `w`, takes its turn: split evenly over its list, or drop `w` if it has none. */
  function Send(g: Graph, voters: set<Name>, p: Name, w: real, L: Ledger): (R: Ledger)
    ensures L.cast.Keys <= R.cast.Keys && R.cast.Keys - L.cast.Keys <= voters
    ensures L.pending.Keys <= R.pending.Keys && (R.pending.Keys - L.pending.Keys) !! voters
  {
    if Forwards(g, p) then Spread(g[p], voters, w / |g[p]| as real, L) else L
  }

  // ---------------------------------------------------------------------------
  // One round, specified entry by entry
  // ---------------------------------------------------------------------------

  /** What sender `p`, holding `w`, hands to `d` in a round. */
  function ShareTo(g: Graph, p: Name, w: real, d: Name): real
  {
    if Forwards(g, p) then Times(Occurrences(d, g[p]), w / |g[p]| as real) else 0.0
  }

  function InflowTerm(g: Graph, pending: map<Name, real>, d: Name): Name -> real
  {
    p => ShareTo(g, p, Get(pending, p), d)
  }

  /** All that `d` receives in a round from `senders`. */
  ghost function Inflow(g: Graph, pending: map<Name, real>, senders: set<Name>, d: Name): real
  {
    Sum(senders, InflowTerm(g, pending, d))
  }

  function DroppedTerm(g: Graph, pending: map<Name, real>): Name -> real
  {
    p => if Forwards(g, p) then 0.0 else Get(pending, p)
  }

  /** The weight that delegate-less `senders` drop in a round. */
  ghost function Dropped(g: Graph, pending: map<Name, real>, senders: set<Name>): real
  {
    Sum(senders, DroppedTerm(g, pending))
  }

  /** `senders`, weighted by `pending`, take their turns in some order, starting from `L`. */
  ghost function RoundFrom(g: Graph, voters: set<Name>, pending: map<Name, real>, senders: set<Name>, L: Ledger): (R: Ledger)
    ensures L.cast.Keys <= R.cast.Keys && R.cast.Keys - L.cast.Keys <= voters
    ensures L.pending.Keys <= R.pending.Keys && (R.pending.Keys - L.pending.Keys) !! voters
    decreases senders
  {
    if senders == {} then L
    else
      var p :| p in senders;
      RoundFrom(g, voters, pending, senders - {p}, Send(g, voters, p, Get(pending, p), L))
  }

  /** One round (delagate_main.py:30-47, voting_classes.py:62-75). */
  ghost function Round(g: Graph, voters: set<Name>, L: Ledger): (R: Ledger)
    ensures L.cast.Keys <= R.cast.Keys && R.cast.Keys - L.cast.Keys <= voters
    ensures R.pending.Keys !! voters
  {
    RoundFrom(g, voters, L.pending, L.pending.Keys, Ledger(L.cast, map[]))
  }

  /**
   `R` is what `senders` produce from `A`: every voter banks its inflow, every
   non-voter carries its inflow, and only the named delegates get new entries.
   */
  ghost predicate Received(g: Graph, voters: set<Name>, pending: map<Name, real>, senders: set<Name>, A: Ledger, R: Ledger)
  {
    && R.cast.Keys == A.cast.Keys + (Targets(g, senders) * voters)
    && R.pending.Keys == A.pending.Keys + (Targets(g, senders) - voters)
    && (forall d :: Get(R.cast, d) == Get(A.cast, d) + (if d in voters then Inflow(g, pending, senders, d) else 0.0))
    && (forall d :: Get(R.pending, d) == Get(A.pending, d) + (if d in voters then 0.0 else Inflow(g, pending, senders, d)))
  }

  /** `Received` pins the ledger down completely. */
  lemma ReceivedUnique(g: Graph, voters: set<Name>, pending: map<Name, real>, senders: set<Name>, A: Ledger, R1: Ledger, R2: Ledger)
    requires Received(g, voters, pending, senders, A, R1)
    requires Received(g, voters, pending, senders, A, R2)
    ensures R1 == R2
  {
    GetExt(R1.cast, R2.cast);
    GetExt(R1.pending, R2.pending);
  }

  lemma TargetsRemove(g: Graph, senders: set<Name>, p: Name)
    requires p in senders
    ensures Targets(g, senders) == Targets(g, senders - {p}) + (if p in g then Elems(g[p]) else {})
  {
  }

  /** The entries one sender's turn creates: the voters and the non-voters on its list. */
  lemma SendKeys(g: Graph, voters: set<Name>, p: Name, w: real, A: Ledger)
    ensures var B := Send(g, voters, p, w, A);
      var named := if p in g then Elems(g[p]) else {};
      && B.cast.Keys == A.cast.Keys + (named * voters)
      && B.pending.Keys == A.pending.Keys + (named - voters)
  {
    if Forwards(g, p) {
      SpreadKeys(g[p], voters, w / |g[p]| as real, A);
    } else if p in g {
      assert Elems(g[p]) == {};
    }
  }

  /** What one sender's turn hands to `d`. */
  lemma SendValue(g: Graph, voters: set<Name>, p: Name, w: real, A: Ledger, d: Name)
    ensures var B := Send(g, voters, p, w, A);
      && Get(B.cast, d) == Get(A.cast, d) + (if d in voters then ShareTo(g, p, w, d) else 0.0)
      && Get(B.pending, d) == Get(A.pending, d) + (if d in voters then 0.0 else ShareTo(g, p, w, d))
  {
    if Forwards(g, p) {
      SpreadValues(g[p], voters, w / |g[p]| as real, A, d);
    }
  }

  lemma InflowRemove(g: Graph, pending: map<Name, real>, senders: set<Name>, p: Name, d: Name)
    requires p in senders
    ensures Inflow(g, pending, senders, d) == ShareTo(g, p, Get(pending, p), d) + Inflow(g, pending, senders - {p}, d)
  {
    SumRemove(senders, InflowTerm(g, pending, d), p);
  }

  lemma ReceivedStepKeys(g: Graph, voters: set<Name>, senders: set<Name>, A: Ledger, p: Name, w: real, R: Ledger)
    requires p in senders
    requires var B := Send(g, voters, p, w, A);
      && R.cast.Keys == B.cast.Keys + (Targets(g, senders - {p}) * voters)
      && R.pending.Keys == B.pending.Keys + (Targets(g, senders - {p}) - voters)
    ensures R.cast.Keys == A.cast.Keys + (Targets(g, senders) * voters)
    ensures R.pending.Keys == A.pending.Keys + (Targets(g, senders) - voters)
  {
    TargetsRemove(g, senders, p);
    SendKeys(g, voters, p, w, A);
  }

  /** Taking one sender's turn first and the rest afterwards gives what all of them produce. */
  lemma ReceivedStep(g: Graph, voters: set<Name>, pending: map<Name, real>, senders: set<Name>, A: Ledger, p: Name, R: Ledger)
    requires p in senders
    requires Received(g, voters, pending, senders - {p}, Send(g, voters, p, Get(pending, p), A), R)
    ensures Received(g, voters, pending, senders, A, R)
  {
    var w := Get(pending, p);
    ReceivedStepKeys(g, voters, senders, A, p, w, R);
    forall d
      ensures Get(R.cast, d) == Get(A.cast, d) + (if d in voters then Inflow(g, pending, senders, d) else 0.0)
      ensures Get(R.pending, d) == Get(A.pending, d) + (if d in voters then 0.0 else Inflow(g, pending, senders, d))
    {
      InflowRemove(g, pending, senders, p, d);
      SendValue(g, voters, p, w, A, d);
    }
  }

  /** Whatever order the senders are taken in, a round does what `Received` says. */
  lemma {:induction false} RoundFromReceived(g: Graph, voters: set<Name>, pending: map<Name, real>, senders: set<Name>, A: Ledger)
    ensures Received(g, voters, pending, senders, A, RoundFrom(g, voters, pending, senders, A))
    decreases senders
  {
    if senders == {} {
      assert Targets(g, senders) == {};
      forall d ensures Inflow(g, pending, senders, d) == 0.0 { }
    } else {
      var p :| p in senders && RoundFrom(g, voters, pending, senders, A)
        == RoundFrom(g, voters, pending, senders - {p}, Send(g, voters, p, Get(pending, p), A));
      var B := Send(g, voters, p, Get(pending, p), A);
      RoundFromReceived(g, voters, pending, senders - {p}, B);
      ReceivedStep(g, voters, pending, senders, A, p, RoundFrom(g, voters, pending, senders - {p}, B));
    }
  }

  /** Any sender may go first: the order of Python's dict iteration does not matter. */
  lemma RoundFromAnyFirst(g: Graph, voters: set<Name>, pending: map<Name, real>, senders: set<Name>, A: Ledger, p: Name)
    requires p in senders
    ensures RoundFrom(g, voters, pending, senders, A)
         == RoundFrom(g, voters, pending, senders - {p}, Send(g, voters, p, Get(pending, p), A))
  {
    var B := Send(g, voters, p, Get(pending, p), A);
    var R1 := RoundFrom(g, voters, pending, senders, A);
    var R2 := RoundFrom(g, voters, pending, senders - {p}, B);
    RoundFromReceived(g, voters, pending, senders, A);
    RoundFromReceived(g, voters, pending, senders - {p}, B);
    ReceivedStep(g, voters, pending, senders, A, p, R2);
    ReceivedUnique(g, voters, pending, senders, A, R1, R2);
  }

  /**
   A round, entry by entry: each voter's tally grows by exactly its inflow
   (weight / len(delegates) per list entry naming it, from every pending
   sender), each non-voter named in a list carries exactly its inflow to the
   next round, and no other entry appears.
   */
  lemma RoundShape(g: Graph, voters: set<Name>, L: Ledger)
    ensures Received(g, voters, L.pending, L.pending.Keys, Ledger(L.cast, map[]), Round(g, voters, L))
  {
    RoundFromReceived(g, voters, L.pending, L.pending.Keys, Ledger(L.cast, map[]));
  }

  /** After a round, the voters named by a pending sender have joined the tally. */
  lemma RoundCastKeys(g: Graph, voters: set<Name>, L: Ledger)
    ensures Round(g, voters, L).cast.Keys == L.cast.Keys + (Targets(g, L.pending.Keys) * voters)
  {
    RoundShape(g, voters, L);
  }

  /** After a round, exactly the non-voters named by a pending sender hold pending weight. */
  lemma RoundPendingKeys(g: Graph, voters: set<Name>, L: Ledger)
    ensures Round(g, voters, L).pending.Keys == Targets(g, L.pending.Keys) - voters
  {
    RoundShape(g, voters, L);
  }

  lemma SendTotal(g: Graph, voters: set<Name>, p: Name, w: real, L: Ledger)
    ensures var R := Send(g, voters, p, w, L);
      Total(R.cast) + Total(R.pending) == Total(L.cast) + Total(L.pending) + (if Forwards(g, p) then w else 0.0)
  {
    if Forwards(g, p) {
      var n := |g[p]| as real;
      SpreadTotal(g[p], voters, w / n, L);
      TimesShare(|g[p]|, w);
    }
  }

  lemma {:induction false} RoundFromTotal(g: Graph, voters: set<Name>, pending: map<Name, real>, senders: set<Name>, A: Ledger)
    ensures var R := RoundFrom(g, voters, pending, senders, A);
      Total(R.cast) + Total(R.pending) + Dropped(g, pending, senders)
      == Total(A.cast) + Total(A.pending) + Sum(senders, ValueOf(pending))
    decreases senders
  {
    if senders != {} {
      var p :| p in senders && RoundFrom(g, voters, pending, senders, A)
        == RoundFrom(g, voters, pending, senders - {p}, Send(g, voters, p, Get(pending, p), A));
      var B := Send(g, voters, p, Get(pending, p), A);
      RoundFromTotal(g, voters, pending, senders - {p}, B);
      SendTotal(g, voters, p, Get(pending, p), A);
      SumRemove(senders, DroppedTerm(g, pending), p);
      SumRemove(senders, ValueOf(pending), p);
    }
  }

  /**
   Per-round conservation: final + pending after a round equals final +
   pending before, minus what the delegate-less senders dropped.
   */
  lemma RoundConserves(g: Graph, voters: set<Name>, L: Ledger)
    ensures var R := Round(g, voters, L);
      Total(R.cast) + Total(R.pending) == Total(L.cast) + Total(L.pending) - Dropped(g, L.pending, L.pending.Keys)
  {
    RoundFromTotal(g, voters, L.pending, L.pending.Keys, Ledger(L.cast, map[]));
    var empty: map<Name, real> := map[];
    assert Total(empty) == 0.0;
  }

  /** The one-round body of the source's loop, over the pending senders in any order. */
  method RunRound(g: Graph, voters: set<Name>, L: Ledger) returns (R: Ledger)
    ensures R == Round(g, voters, L)
  {
    var rest := L.pending.Keys;
    R := Ledger(L.cast, map[]);
    while rest != {}
      invariant rest <= L.pending.Keys
      invariant RoundFrom(g, voters, L.pending, rest, R) == Round(g, voters, L)
      decreases rest
    {
      var p :| p in rest;
      RoundFromAnyFirst(g, voters, L.pending, rest, R, p);
      var delegates := if p in g then g[p] else [];
      if |delegates| > 0 {
        var share := L.pending[p] / |delegates| as real;
        R := SpreadShares(delegates, voters, share, R);
      }
      rest := rest - {p};
    }
  }

  // ---------------------------------------------------------------------------
  // The bounded sequence of rounds
  // ---------------------------------------------------------------------------

  /** Up to `rounds` rounds, stopping early as soon as nothing is pending. */
  ghost function Resolve(g: Graph, voters: set<Name>, L: Ledger, rounds: nat): (R: Ledger)
    ensures L.cast.Keys <= R.cast.Keys && R.cast.Keys - L.cast.Keys <= voters
    decreases rounds
  {
    if rounds == 0 || L.pending == map[] then L
    else Resolve(g, voters, Round(g, voters, L), rounds - 1)
  }

  lemma ResolveStep(g: Graph, voters: set<Name>, L: Ledger, rounds: nat)
    requires rounds > 0 && L.pending != map[]
    ensures Resolve(g, voters, L, rounds) == Resolve(g, voters, Round(g, voters, L), rounds - 1)
  {
  }

  lemma ResolveAdvance(g: Graph, voters: set<Name>, L: Ledger, rounds: nat, goal: Ledger)
    requires rounds > 0 && L.pending != map[]
    requires Resolve(g, voters, L, rounds) == goal
    ensures Resolve(g, voters, Round(g, voters, L), rounds - 1) == goal
  {
    ResolveStep(g, voters, L, rounds);
  }

  lemma ResolveDone(g: Graph, voters: set<Name>, L: Ledger, rounds: nat)
    requires rounds == 0 || L.pending == map[]
    ensures Resolve(g, voters, L, rounds) == L
  {
  }

  /** The round loop: at most `numRounds` rounds, leaving early once nothing is pending. */
  method RunRounds(g: Graph, voters: set<Name>, L0: Ledger, numRounds: nat) returns (L: Ledger)
    ensures L == Resolve(g, voters, L0, numRounds)
  {
    L := L0;
    ghost var left := numRounds;
    for r := 0 to numRounds
      invariant left == numRounds - r
      invariant Resolve(g, voters, L, left) == Resolve(g, voters, L0, numRounds)
    {
      if L.pending == map[] {
        break;
      }
      var next := RunRound(g, voters, L);
      ResolveAdvance(g, voters, L, left, Resolve(g, voters, L0, numRounds));
      L, left := next, left - 1;
    }
    ResolveDone(g, voters, L, left);
  }

  /**
   The weight dropped by delegate-less senders over the rounds that `Resolve`
   runs. It is what conservation over the whole run leaves over: what ends
   banked, plus what is still pending when the budget runs out (discarded),
   plus what was dropped, is what the run started with.
   */
  ghost function Lost(g: Graph, voters: set<Name>, L: Ledger, rounds: nat): (r: real)
    ensures var R := Resolve(g, voters, L, rounds);
      Total(R.cast) + Total(R.pending) + r == Total(L.cast) + Total(L.pending)
    decreases rounds
  {
    if rounds == 0 || L.pending == map[] then 0.0
    else
      RoundConserves(g, voters, L);
      Dropped(g, L.pending, L.pending.Keys) + Lost(g, voters, Round(g, voters, L), rounds - 1)
  }

  /**
   When every voter named in some delegate list already has a tally entry and
   nothing pending belongs to a voter, the result's keys are exactly the
   starting tally's keys and no voter is ever pending.
   */
  lemma {:induction false} ResolveKeys(g: Graph, voters: set<Name>, L: Ledger, rounds: nat)
    requires Targets(g, g.Keys) * voters <= L.cast.Keys
    requires L.pending.Keys !! voters
    ensures Resolve(g, voters, L, rounds).cast.Keys == L.cast.Keys
    ensures Resolve(g, voters, L, rounds).pending.Keys !! voters
    decreases rounds
  {
    if rounds == 0 || L.pending == map[] {
      assert Resolve(g, voters, L, rounds) == L;
    } else {
      var L' := Round(g, voters, L);
      assert Resolve(g, voters, L, rounds) == Resolve(g, voters, L', rounds - 1);
      RoundCastKeys(g, voters, L);
      RoundPendingKeys(g, voters, L);
      assert Targets(g, L.pending.Keys) <= Targets(g, g.Keys);
      ResolveKeys(g, voters, L', rounds - 1);
    }
  }

  lemma InflowNonNegative(g: Graph, pending: map<Name, real>, senders: set<Name>, d: Name)
    requires NonNegative(pending)
    ensures Inflow(g, pending, senders, d) >= 0.0
  {
    forall p | p in senders ensures InflowTerm(g, pending, d)(p) >= 0.0 {
      if Forwards(g, p) {
        var w, n := Get(pending, p), |g[p]| as real;
        assert w / n >= 0.0;
        TimesNonNegative(Occurrences(d, g[p]), w / n);
      }
    }
    SumNonNegative(senders, InflowTerm(g, pending, d));
  }

  /** One round with non-negative pending weight: tallies do not decrease and the carry stays non-negative. */
  lemma RoundGrows(g: Graph, voters: set<Name>, L: Ledger)
    requires NonNegative(L.pending)
    ensures var R := Round(g, voters, L);
      && NonNegative(R.pending)
      && forall d :: d in L.cast ==> d in R.cast && R.cast[d] >= L.cast[d]
  {
    var R := Round(g, voters, L);
    RoundShape(g, voters, L);
    forall d ensures Inflow(g, L.pending, L.pending.Keys, d) >= 0.0 {
      InflowNonNegative(g, L.pending, L.pending.Keys, d);
    }
    assert forall d :: d in R.pending ==> R.pending[d] == Get(R.pending, d);
    assert forall d :: d in L.cast ==> L.cast[d] == Get(L.cast, d) <= Get(R.cast, d);
  }

  /** With non-negative pending weight, tallies never decrease and pending weight stays non-negative. */
  lemma {:induction false} ResolveGrows(g: Graph, voters: set<Name>, L: Ledger, rounds: nat)
    requires NonNegative(L.pending)
    ensures var R := Resolve(g, voters, L, rounds);
      && NonNegative(R.pending)
      && forall d :: d in L.cast ==> d in R.cast && R.cast[d] >= L.cast[d]
    decreases rounds
  {
    if rounds == 0 || L.pending == map[] {
      assert Resolve(g, voters, L, rounds) == L;
    } else {
      var L' := Round(g, voters, L);
      assert Resolve(g, voters, L, rounds) == Resolve(g, voters, L', rounds - 1);
      RoundGrows(g, voters, L);
      ResolveGrows(g, voters, L', rounds - 1);
    }
  }

  /**
   A ranking of participants that strictly decreases along every delegation
   edge from a participant to a non-voter: the non-voter part of the graph is
   acyclic, with chains shorter than the largest rank.
   */
  ghost predicate Layered(g: Graph, voters: set<Name>, rank: map<Name, nat>)
  {
    forall p, d :: p in rank && p in g && d in g[p] && d !in voters ==> d in rank && rank[d] < rank[p]
  }

  /**
   On an acyclic non-voter graph whose pending participants all rank below
   `k`, `k` rounds empty the pending ledger: the round budget then discards
   nothing.
   */
  lemma {:induction false} ResolveDrains(g: Graph, voters: set<Name>, L: Ledger, rank: map<Name, nat>, k: nat, rounds: nat)
    requires Layered(g, voters, rank)
    requires forall p :: p in L.pending ==> p in rank && rank[p] < k
    requires k <= rounds
    ensures Resolve(g, voters, L, rounds).pending == map[]
    decreases k
  {
    if L.pending == map[] {
      assert Resolve(g, voters, L, rounds) == L;
    } else {
      var p0 :| p0 in L.pending;
      var L' := Round(g, voters, L);
      assert Resolve(g, voters, L, rounds) == Resolve(g, voters, L', rounds - 1);
      RoundPendingKeys(g, voters, L);
      forall d | d in L'.pending ensures d in rank && rank[d] < k - 1 {
        assert d in Targets(g, L.pending.Keys) - voters;
        var p :| p in L.pending && p in g && d in g[p];
      }
      ResolveDrains(g, voters, L', rank, k - 1, rounds - 1);
    }
  }

  /** Nobody receives anything from senders whose lists do not name it. */
  lemma InflowZero(g: Graph, pending: map<Name, real>, senders: set<Name>, d: Name)
    requires d !in Targets(g, senders)
    ensures Inflow(g, pending, senders, d) == 0.0
  {
    forall p | p in senders ensures InflowTerm(g, pending, d)(p) == 0.0 {
      if Forwards(g, p) {
        assert d !in g[p];
        assert Occurrences(d, g[p]) == 0;
      }
    }
    SumZero(senders, InflowTerm(g, pending, d));
  }

  /** A round whose pending senders name no voter leaves the tallies as they were. */
  lemma RoundIsolated(g: Graph, voters: set<Name>, L: Ledger)
    requires Targets(g, L.pending.Keys) !! voters
    ensures Round(g, voters, L).cast == L.cast
  {
    var R := Round(g, voters, L);
    RoundShape(g, voters, L);
    forall d | d in voters ensures Inflow(g, L.pending, L.pending.Keys, d) == 0.0 {
      InflowZero(g, L.pending, L.pending.Keys, d);
    }
    assert forall d :: d in R.cast ==> R.cast[d] == Get(R.cast, d) == Get(L.cast, d) == L.cast[d];
  }

  /**
   Weight trapped among non-voters that name no voter (a voter-free cycle, for
   instance) never reaches a tally: it circulates until the budget runs out.
   */
  lemma {:induction false} ResolveIsolated(g: Graph, voters: set<Name>, L: Ledger, trapped: set<Name>, rounds: nat)
    requires L.pending.Keys <= trapped
    requires Targets(g, trapped) !! voters
    requires Targets(g, trapped) <= trapped
    ensures Resolve(g, voters, L, rounds).cast == L.cast
    decreases rounds
  {
    if rounds == 0 || L.pending == map[] {
      assert Resolve(g, voters, L, rounds) == L;
    } else {
      var L' := Round(g, voters, L);
      assert Resolve(g, voters, L, rounds) == Resolve(g, voters, L', rounds - 1);
      assert Targets(g, L.pending.Keys) <= Targets(g, trapped);
      RoundIsolated(g, voters, L);
      RoundPendingKeys(g, voters, L);
      ResolveIsolated(g, voters, L', trapped, rounds - 1);
    }
  }
}
