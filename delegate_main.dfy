/**
 The dict-based broadcast resolver `distribute_votes` of delagate_main.py.

 `delegations` maps a participant to its delegate list, `voted` is the set of
 participants who vote directly and `balances` gives stakes (1.0 for anybody
 without an entry). The result maps every known voter to the weight it ends
 up with.
 */
module DelegateMain {
  import opened Sums
  import opened Broadcast

  /** Everybody the resolver knows: delegation keys, every list entry and every balance key. */
  function AllPeople(delegations: Graph, balances: map<Name, real>): set<Name>
  {
    delegations.Keys + Targets(delegations, delegations.Keys) + balances.Keys
  }

  /** `balances.get(p, 1.0)`. */
  function BalanceOf(balances: map<Name, real>, p: Name): real
  {
    if p in balances then balances[p] else 1.0
  }

  /** The stake of each of `people`. */
  function Stakes(people: set<Name>, balances: map<Name, real>): (r: map<Name, real>)
    ensures r.Keys == people
    ensures forall p :: p in r ==> r[p] == BalanceOf(balances, p)
  {
    map p | p in people :: BalanceOf(balances, p)
  }

  /** The ledger after the source's `2 * len(all_people)` round budget. */
  ghost function Outcome(delegations: Graph, voted: set<Name>, balances: map<Name, real>): (r: Ledger)
    ensures AllPeople(delegations, balances) * voted <= r.cast.Keys <= voted
  {
    var people := AllPeople(delegations, balances);
    Resolve(delegations, voted, Start(Stakes(people, balances), voted), 2 * |people|)
  }

  /** Collecting the participant set (delagate_main.py:8-11). */
  method CollectPeople(delegations: Graph, balances: map<Name, real>) returns (people: set<Name>)
    ensures people == AllPeople(delegations, balances)
  {
    people := delegations.Keys;
    var rest := delegations.Keys;
    while rest != {}
      invariant rest <= delegations.Keys
      invariant people == delegations.Keys + Targets(delegations, delegations.Keys - rest)
      decreases rest
    {
      var p :| p in rest;
      var done := delegations.Keys - rest;
      TargetsRemove(delegations, done + {p}, p);
      assert done + {p} - {p} == done;
      assert delegations.Keys - (rest - {p}) == done + {p};
      people := people + Elems(delegations[p]);
      rest := rest - {p};
    }
    people := people + balances.Keys;
  }

  /**
   The starting dicts (delagate_main.py:14-19): each voter's tally holds
   exactly its own balance, each non-voter has its whole balance to
   distribute, and nobody is in both.
   */
  method Initialise(people: set<Name>, voted: set<Name>, balances: map<Name, real>) returns (L: Ledger)
    ensures L.cast.Keys == people * voted
    ensures L.pending.Keys == people - voted
    ensures forall v :: v in L.cast ==> L.cast[v] == BalanceOf(balances, v)
    ensures forall p :: p in L.pending ==> L.pending[p] == BalanceOf(balances, p)
    ensures L == Start(Stakes(people, balances), voted)
  {
    var finalVotes: map<Name, real> := map[];
    var rest := people;
    while rest != {}
      invariant rest <= people
      invariant finalVotes == Within(Stakes(people - rest, balances), voted)
      decreases rest
    {
      var p :| p in rest;
      if p in voted {
        finalVotes := finalVotes[p := BalanceOf(balances, p)];
      }
      rest := rest - {p};
    }
    assert people - {} == people;
    var toDistribute := map p | p in people && p !in voted :: BalanceOf(balances, p);
    L := Ledger(finalVotes, toDistribute);
  }

  /** `distribute_votes` (delagate_main.py:7-49), with each round taking its senders in any order. */
  method DistributeVotes(delegations: Graph, voted: set<Name>, balances: map<Name, real>) returns (result: map<Name, real>)
    ensures result == Outcome(delegations, voted, balances).cast
  {
    var people := CollectPeople(delegations, balances);
    var L := Initialise(people, voted, balances);
    L := RunRounds(delegations, voted, L, 2 * |people|);
    result := L.cast;
  }

  lemma TargetsWithin(delegations: Graph, balances: map<Name, real>, senders: set<Name>)
    ensures Targets(delegations, senders) <= AllPeople(delegations, balances)
  {
  }

  /** The result has an entry for every known voter and nobody else; unknown names in `voted` get none. */
  lemma ResultKeys(delegations: Graph, voted: set<Name>, balances: map<Name, real>)
    ensures Outcome(delegations, voted, balances).cast.Keys == AllPeople(delegations, balances) * voted
  {
    var people := AllPeople(delegations, balances);
    var L := Start(Stakes(people, balances), voted);
    TargetsWithin(delegations, balances, delegations.Keys);
    ResolveKeys(delegations, voted, L, 2 * |people|);
  }

  /** With non-negative balances every voter ends with at least its own balance. */
  lemma VoterKeepsOwnBalance(delegations: Graph, voted: set<Name>, balances: map<Name, real>, v: Name)
    requires NonNegative(balances)
    requires v in AllPeople(delegations, balances) && v in voted
    ensures v in Outcome(delegations, voted, balances).cast
    ensures Outcome(delegations, voted, balances).cast[v] >= BalanceOf(balances, v)
  {
    var people := AllPeople(delegations, balances);
    var L := Start(Stakes(people, balances), voted);
    assert NonNegative(L.pending);
    ResolveGrows(delegations, voted, L, 2 * |people|);
  }

  /**
   Conservation over the whole run: the tallies, plus what is still pending
   when the budget runs out, plus what delegate-less non-voters dropped, add
   up to the total balance of all participants.
   */
  lemma Conservation(delegations: Graph, voted: set<Name>, balances: map<Name, real>)
    ensures var people := AllPeople(delegations, balances);
      var R := Outcome(delegations, voted, balances);
      var L := Start(Stakes(people, balances), voted);
      Total(R.cast) + Total(R.pending) + Lost(delegations, voted, L, 2 * |people|) == Total(Stakes(people, balances))
  {
    var people := AllPeople(delegations, balances);
    var L := Start(Stakes(people, balances), voted);
    TotalPartition(Stakes(people, balances), voted);
  }

  /**
   When the non-voters can be ranked below |all_people| so that every list
   entry naming a non-voter points to a lower rank (no non-voter cycle), the
   round budget discards nothing: the tallies add up to the total balance
   minus what delegate-less non-voters dropped.
   */
  lemma AcyclicLosesOnlyDropped(delegations: Graph, voted: set<Name>, balances: map<Name, real>, rank: map<Name, nat>)
    requires Layered(delegations, voted, rank)
    requires forall p :: p in AllPeople(delegations, balances) && p !in voted
               ==> p in rank && rank[p] < |AllPeople(delegations, balances)|
    ensures var people := AllPeople(delegations, balances);
      var R := Outcome(delegations, voted, balances);
      var L := Start(Stakes(people, balances), voted);
      && R.pending == map[]
      && Total(R.cast) == Total(Stakes(people, balances)) - Lost(delegations, voted, L, 2 * |people|)
  {
    var people := AllPeople(delegations, balances);
    var L := Start(Stakes(people, balances), voted);
    ResolveDrains(delegations, voted, L, rank, |people|, 2 * |people|);
    Conservation(delegations, voted, balances);
    var R := Outcome(delegations, voted, balances);
    assert Total(R.pending) == 0.0;
  }

  /**
   When no non-voter lists a voter, no weight ever reaches a voter (a
   voter-free cycle is the typical case): each voter ends with exactly its
   own balance and all delegated weight is dropped or discarded.
   */
  lemma NoVoterNamed(delegations: Graph, voted: set<Name>, balances: map<Name, real>, v: Name)
    requires Targets(delegations, AllPeople(delegations, balances) - voted) !! voted
    requires v in AllPeople(delegations, balances) && v in voted
    ensures v in Outcome(delegations, voted, balances).cast
    ensures Outcome(delegations, voted, balances).cast[v] == BalanceOf(balances, v)
  {
    var people := AllPeople(delegations, balances);
    var L := Start(Stakes(people, balances), voted);
    var trapped := people - voted;
    assert Targets(delegations, trapped) <= trapped by {
      TargetsWithin(delegations, balances, trapped);
    }
    assert L.pending.Keys == trapped;
    ResolveIsolated(delegations, voted, L, trapped, 2 * |people|);
    assert Outcome(delegations, voted, balances) == Resolve(delegations, voted, L, 2 * |people|);
    assert L.cast[v] == BalanceOf(balances, v);
  }
}
