/**
 The proportional resolver of delegated_voting.py as pure functions.

 Each voter has a stake, direct yes/no commitments that must fit inside the
 stake, and a list of delegate names. The resolver iterates: in every
 iteration each voter's new power is its own commitments plus, when it
 delegates, its uncommitted stake split in the ratio of its delegates'
 combined yes/no power from the previous iteration. The loop stops when the
 total change drops below a tolerance (keeping the previous distribution)
 or after a fixed number of iterations. The tally adds up every voter's
 power per choice.
 */
module Weighted {
  import opened Sums

  type Name = string

  datatype Choice = Yes | No

  datatype Option<T> = None | Some(value: T)

  datatype Result<T, E> = Success(value: T) | Failure(error: E)

  /** The three `ValueError`s `vote` raises. */
  datatype VoteError = InvalidChoice | NegativeAmount | InsufficientStake

  /** A yes/no amount map; a missing key reads as 0.0 (a `defaultdict(float)`). */
  type Power = map<Choice, real>

  /** What a `Voter` holds. */
  datatype VoterData = VoterData(stake: real, commitments: Power, delegates: seq<Name>)

  // ---------------------------------------------------------------------------
  // Choices and commitments
  // ---------------------------------------------------------------------------

  /** The string the source uses for a choice. */
  function ChoiceName(c: Choice): string
  {
    match c
    case Yes => "yes"
    case No => "no"
  }

  /** Accepting only 'yes' and 'no'. */
  function ParseChoice(s: string): (r: Option<Choice>)
    ensures r.Some? <==> s == ChoiceName(Yes) || s == ChoiceName(No)
    ensures r.Some? ==> ChoiceName(r.value) == s
  {
    if s == "yes" then Some(Yes) else if s == "no" then Some(No) else None
  }

  /** Exactly the two choice names parse, each to its own choice. */
  lemma ParseChoiceName(s: string, c: Choice)
    ensures ParseChoice(ChoiceName(c)) == Some(c)
    ensures ParseChoice(s) == Some(c) ==> s == ChoiceName(c)
    ensures ParseChoice(s) == None <==> s != ChoiceName(Yes) && s != ChoiceName(No)
  {
  }

  lemma ChoiceKeys(c: Power)
    ensures c.Keys <= {Yes, No}
  {
    forall k | k in c.Keys ensures k in {Yes, No} {
      match k
      case Yes =>
      case No =>
    }
  }

  /** `get_committed_stake`: the sum of all commitment amounts. */
  function Committed(c: Power): (r: real)
    ensures r == Total(c)
  {
    var f := ValueOf(c);
    ChoiceKeys(c);
    SumSupport({Yes, No}, c.Keys, f);
    SumRemove({Yes, No}, f, Yes);
    assert {Yes, No} - {Yes} == {No};
    SumRemove({No}, f, No);
    assert {No} - {No} == {};
    Get(c, Yes) + Get(c, No)
  }

  /** `get_uncommitted_stake`: the part of the stake not used in direct votes. */
  function Uncommitted(v: VoterData): (r: real)
    ensures r == v.stake - Total(v.commitments)
    ensures r >= 0.0 <==> Total(v.commitments) <= v.stake
  {
    v.stake - Committed(v.commitments)
  }

  /** Commitments that are non-negative and fit inside the stake. */
  predicate Sound(v: VoterData)
  {
    Get(v.commitments, Yes) >= 0.0 && Get(v.commitments, No) >= 0.0 && Committed(v.commitments) <= v.stake
  }

  /**
   `vote(choice, amount)`: rejects an unknown choice, then a negative
   amount, then an amount that together with the other choice's commitment
   exceeds the stake; otherwise the commitment for the choice is replaced
   by `amount`.
   */
  function Commit(stake: real, c: Power, choice: string, amount: real): (r: Result<Power, VoteError>)
    ensures ParseChoice(choice) == None ==> r == Failure(InvalidChoice)
    ensures ParseChoice(choice) != None && amount < 0.0 ==> r == Failure(NegativeAmount)
    ensures r.Success? <==>
      && ParseChoice(choice) != None && amount >= 0.0
      && Committed(c) - Get(c, ParseChoice(choice).value) + amount <= stake
    ensures r.Success? ==>
      var ch := ParseChoice(choice).value;
      && Get(r.value, ch) == amount
      && (forall other :: other != ch ==> Get(r.value, other) == Get(c, other))
      && Committed(r.value) <= stake
  {
    match ParseChoice(choice)
    case None => Failure(InvalidChoice)
    case Some(ch) =>
      if amount < 0.0 then Failure(NegativeAmount)
      else if Committed(c) - Get(c, ch) + amount > stake then Failure(InsufficientStake)
      else Success(c[ch := amount])
  }

  /** A successful vote keeps a sound voter sound; a failed one changes nothing. */
  lemma CommitSound(v: VoterData, choice: string, amount: real)
    requires Sound(v)
    ensures var r := Commit(v.stake, v.commitments, choice, amount);
      r.Success? ==> Sound(v.(commitments := r.value))
  {
  }

  // ---------------------------------------------------------------------------
  // One voter's power (`_calculate_voter_power`)
  // ---------------------------------------------------------------------------

  /** `power_dist[name][choice]`, 0.0 for anything missing. */
  function PowerOf(dist: map<Name, Power>, n: Name, ch: Choice): real
  {
    if n in dist then Get(dist[n], ch) else 0.0
  }

  /** Every amount in the distribution is non-negative. */
  predicate NonNegativeDist(dist: map<Name, Power>)
  {
    forall n, ch :: n in dist ==> Get(dist[n], ch) >= 0.0
  }

  /**
   The combined `choice` power of the delegate list (registered names only,
   once per list entry), accumulated left to right.
   */
  function DelegatedPower(registered: set<Name>, dist: map<Name, Power>, ds: seq<Name>, ch: Choice): (r: real)
    ensures NonNegativeDist(dist) ==> r >= 0.0
    ensures (forall i :: 0 <= i < |ds| ==> ds[i] !in registered || PowerOf(dist, ds[i], ch) == 0.0) ==> r == 0.0
  {
    if ds == [] then 0.0
    else
      var d := ds[|ds| - 1];
      DelegatedPower(registered, dist, ds[..|ds| - 1], ch) + (if d in registered then PowerOf(dist, d, ch) else 0.0)
  }

  /** Whether the voter passes on its uncommitted stake in this iteration. */
  predicate Delegating(registered: set<Name>, dist: map<Name, Power>, v: VoterData)
  {
    && |v.delegates| > 0
    && Uncommitted(v) > 0.0
    && DelegatedPower(registered, dist, v.delegates, Yes) + DelegatedPower(registered, dist, v.delegates, No) > 0.0
  }

  /** The commitments `c` plus the stake `u` split in the ratio `y : n` (`current_power[...] += ...`). */
  function Split(c: Power, u: real, y: real, n: real): Power
    requires y + n > 0.0
  {
    Credit(Credit(c, Yes, u * (y / (y + n))), No, u * (n / (y + n)))
  }

  /** The voter's power for the next iteration, from the previous distribution `dist`. */
  function VoterPower(registered: set<Name>, dist: map<Name, Power>, v: VoterData): (p: Power)
    ensures p.Keys == v.commitments.Keys + (if Delegating(registered, dist, v) then {Yes, No} else {})
  {
    if Delegating(registered, dist, v) then
      Split(v.commitments, Uncommitted(v),
            DelegatedPower(registered, dist, v.delegates, Yes), DelegatedPower(registered, dist, v.delegates, No))
    else v.commitments
  }

  /**
   Without delegates, without uncommitted stake, or when the delegates have
   no power, the voter's power is exactly its own commitments.
   */
  lemma VoterPowerOwn(registered: set<Name>, dist: map<Name, Power>, v: VoterData)
    ensures VoterPower(registered, dist, v) == v.commitments <==> !Delegating(registered, dist, v)
  {
    if Delegating(registered, dist, v) {
      VoterPowerSplit(registered, dist, v);
    }
  }

  lemma SplitParts(u: real, y: real, n: real)
    requires y + n > 0.0
    ensures u * (y / (y + n)) + u * (n / (y + n)) == u
  {
    var t := y + n;
    assert y / t + n / t == 1.0;
    assert u * (y / t) + u * (n / t) == u * (y / t + n / t);
  }

  lemma SplitPartNonNegative(u: real, y: real, t: real)
    requires u >= 0.0 && y >= 0.0 && t > 0.0
    ensures u * (y / t) >= 0.0
  {
    assert y / t >= 0.0;
  }

  /**
   A delegating voter adds its whole uncommitted stake, split between yes
   and no, to its own commitments: its power adds up to its stake, and each
   choice only grows when the delegates' powers are non-negative.
   */
  lemma VoterPowerSplit(registered: set<Name>, dist: map<Name, Power>, v: VoterData)
    requires Delegating(registered, dist, v)
    ensures var p := VoterPower(registered, dist, v);
      && Committed(p) == Committed(v.commitments) + Uncommitted(v)
      && Committed(p) == v.stake
      && (NonNegativeDist(dist) ==>
            Get(p, Yes) >= Get(v.commitments, Yes) && Get(p, No) >= Get(v.commitments, No))
  {
    var y := DelegatedPower(registered, dist, v.delegates, Yes);
    var n := DelegatedPower(registered, dist, v.delegates, No);
    SplitAddsStake(v.commitments, Uncommitted(v), y, n);
    if NonNegativeDist(dist) {
      SplitGrows(v.commitments, Uncommitted(v), y, n);
    }
  }

  lemma SplitAddsStake(c: Power, u: real, y: real, n: real)
    requires y + n > 0.0
    ensures Committed(Split(c, u, y, n)) == Committed(c) + u
  {
    SplitParts(u, y, n);
    CreditBoth(c, u * (y / (y + n)), u * (n / (y + n)), u);
  }

  lemma SplitGrows(c: Power, u: real, y: real, n: real)
    requires u >= 0.0 && y >= 0.0 && n >= 0.0 && y + n > 0.0
    ensures var p := Split(c, u, y, n);
      Get(p, Yes) >= Get(c, Yes) && Get(p, No) >= Get(c, No)
  {
    var a, b := u * (y / (y + n)), u * (n / (y + n));
    SplitPartNonNegative(u, y, y + n);
    SplitPartNonNegative(u, n, y + n);
    CreditBoth(c, a, b, a + b);
  }

  lemma CreditBoth(c: Power, a: real, b: real, u: real)
    requires a + b == u
    ensures var p := Credit(Credit(c, Yes, a), No, b);
      && Get(p, Yes) == Get(c, Yes) + a && Get(p, No) == Get(c, No) + b
      && Committed(p) == Committed(c) + u
  {
  }

  /** A sound voter's power is non-negative and adds up to at most its stake. */
  predicate PowerBounded(v: VoterData, p: Power)
  {
    Get(p, Yes) >= 0.0 && Get(p, No) >= 0.0 && Get(p, Yes) + Get(p, No) <= v.stake
  }

  lemma VoterPowerBounded(registered: set<Name>, dist: map<Name, Power>, v: VoterData)
    requires Sound(v) && NonNegativeDist(dist)
    ensures PowerBounded(v, VoterPower(registered, dist, v))
  {
    if Delegating(registered, dist, v) {
      VoterPowerSplit(registered, dist, v);
    }
  }

  // ---------------------------------------------------------------------------
  // Iterations (`calculate_results`)
  // ---------------------------------------------------------------------------

  /** One iteration: every voter's next power, all computed from the same previous map. */
  function Step(voters: map<Name, VoterData>, dist: map<Name, Power>): (next: map<Name, Power>)
    ensures next.Keys == voters.Keys
  {
    map n | n in voters :: VoterPower(voters.Keys, dist, voters[n])
  }

  function Abs(x: real): real
  {
    if x < 0.0 then -x else x
  }

  /** A voter's contribution to `total_change`. */
  function Moved(next: map<Name, Power>, dist: map<Name, Power>): Name -> real
  {
    n => Abs(PowerOf(next, n, Yes) - PowerOf(dist, n, Yes)) + Abs(PowerOf(next, n, No) - PowerOf(dist, n, No))
  }

  /** `total_change` between two distributions, over the registered voters. */
  ghost function Change(voters: map<Name, VoterData>, next: map<Name, Power>, dist: map<Name, Power>): real
  {
    Sum(voters.Keys, Moved(next, dist))
  }

  /** The total change is at least any one voter's change. */
  lemma ChangeAtLeast(voters: map<Name, VoterData>, next: map<Name, Power>, dist: map<Name, Power>, n: Name)
    requires n in voters
    ensures Change(voters, next, dist) >= Moved(next, dist)(n)
  {
    var f := Moved(next, dist);
    forall x | x in voters.Keys ensures f(x) >= 0.0 {
    }
    SumAtLeast(voters.Keys, f, n);
  }

  /**
   The loop with `iterations` iterations left: compute the next map; when
   it moved less than the tolerance, stop with the previous map, otherwise
   continue from the next one. From sound voters and a distribution bounded
   by their stakes, every voter's power stays non-negative and within its
   stake however many iterations run.
   */
  ghost function Iterate(voters: map<Name, VoterData>, dist: map<Name, Power>, iterations: nat, tolerance: real): (r: map<Name, Power>)
    ensures AllSound(voters) && DistBounded(voters, dist) ==> DistBounded(voters, r)
    decreases iterations
  {
    if iterations == 0 then dist
    else
      var next := Step(voters, dist);
      if Change(voters, next, dist) < tolerance then dist
      else
        StepBounded(voters, dist);
        Iterate(voters, next, iterations - 1, tolerance)
  }

  /** `power_dist[name][choice]` as a function of the name. */
  function PowerFor(dist: map<Name, Power>, ch: Choice): Name -> real
  {
    n => PowerOf(dist, n, ch)
  }

  /** `final_tally[choice]`: the choice's power summed over all voters. */
  ghost function TallyOf(voters: map<Name, VoterData>, dist: map<Name, Power>, ch: Choice): (r: real)
    ensures NonNegativeDist(dist) ==> r >= 0.0
  {
    var total := Sum(voters.Keys, PowerFor(dist, ch));
    if NonNegativeDist(dist) then
      SumNonNegative(voters.Keys, PowerFor(dist, ch));
      total
    else total
  }

  /** `calculate_results(max_iterations, tolerance)`, starting from an empty distribution. */
  ghost function Results(voters: map<Name, VoterData>, maxIterations: nat, tolerance: real): (r: map<Choice, real>)
    ensures |voters| == 0 ==> r == map[]
    ensures |voters| > 0 ==> r.Keys == {Yes, No}
  {
    if |voters| == 0 then map[]
    else
      var dist := Iterate(voters, map[], maxIterations, tolerance);
      map[Yes := TallyOf(voters, dist, Yes), No := TallyOf(voters, dist, No)]
  }

  /** The stakes of all voters. */
  function StakeOf(voters: map<Name, VoterData>): Name -> real
  {
    n => if n in voters then voters[n].stake else 0.0
  }

  ghost function TotalStake(voters: map<Name, VoterData>): real
  {
    Sum(voters.Keys, StakeOf(voters))
  }

  predicate AllSound(voters: map<Name, VoterData>)
  {
    forall n :: n in voters ==> Sound(voters[n])
  }

  /** Every entry of `dist` belongs to a voter and is bounded by that voter's stake. */
  predicate DistBounded(voters: map<Name, VoterData>, dist: map<Name, Power>)
  {
    forall n :: n in dist ==> n in voters && PowerBounded(voters[n], dist[n])
  }

  lemma DistBoundedNonNegative(voters: map<Name, VoterData>, dist: map<Name, Power>)
    requires DistBounded(voters, dist)
    ensures NonNegativeDist(dist)
  {
    forall n, ch | n in dist ensures Get(dist[n], ch) >= 0.0 {
      assert PowerBounded(voters[n], dist[n]);
      match ch
      case Yes =>
      case No =>
    }
  }

  /** An iteration from a bounded distribution gives a bounded distribution. */
  lemma StepBounded(voters: map<Name, VoterData>, dist: map<Name, Power>)
    ensures AllSound(voters) && DistBounded(voters, dist) ==> DistBounded(voters, Step(voters, dist))
  {
    if AllSound(voters) && DistBounded(voters, dist) {
      DistBoundedNonNegative(voters, dist);
      forall n | n in voters ensures PowerBounded(voters[n], Step(voters, dist)[n]) {
        VoterPowerBounded(voters.Keys, dist, voters[n]);
      }
    }
  }

  /**
   With sound voters both tallies are non-negative and together they never
   exceed the total stake: delegation can lose weight but never create it.
   */
  lemma ResultsWithinStake(voters: map<Name, VoterData>, maxIterations: nat, tolerance: real)
    requires AllSound(voters)
    ensures var r := Results(voters, maxIterations, tolerance);
      && Get(r, Yes) >= 0.0 && Get(r, No) >= 0.0
      && Get(r, Yes) + Get(r, No) <= TotalStake(voters)
  {
    if |voters| == 0 {
      assert voters.Keys == {};
      SumZero(voters.Keys, StakeOf(voters));
    } else {
      assert DistBounded(voters, map[]);
      TallyBounded(voters, Iterate(voters, map[], maxIterations, tolerance));
    }
  }

  /** Over a bounded distribution both tallies are non-negative and add up to at most the total stake. */
  lemma TallyBounded(voters: map<Name, VoterData>, dist: map<Name, Power>)
    requires AllSound(voters) && DistBounded(voters, dist)
    ensures TallyOf(voters, dist, Yes) >= 0.0 && TallyOf(voters, dist, No) >= 0.0
    ensures TallyOf(voters, dist, Yes) + TallyOf(voters, dist, No) <= TotalStake(voters)
  {
    var fy, fn := PowerFor(dist, Yes), PowerFor(dist, No);
    var both: Name -> real := n => fy(n) + fn(n);
    forall n | n in voters.Keys ensures fy(n) >= 0.0 && fn(n) >= 0.0 && both(n) <= StakeOf(voters)(n) {
      if n in dist {
        assert PowerBounded(voters[n], dist[n]);
      } else {
        assert Sound(voters[n]);
      }
    }
    SumNonNegative(voters.Keys, fy);
    SumNonNegative(voters.Keys, fn);
    SumAdd(voters.Keys, fy, fn, both);
    SumMono(voters.Keys, both, StakeOf(voters));
  }

  /** Once the next iteration changes nothing, any positive tolerance stops the loop there. */
  lemma IterateStable(voters: map<Name, VoterData>, dist: map<Name, Power>, iterations: nat, tolerance: real)
    requires Step(voters, dist) == dist && tolerance > 0.0
    ensures Iterate(voters, dist, iterations, tolerance) == dist
  {
    if iterations > 0 {
      SumZero(voters.Keys, Moved(dist, dist));
    }
  }

  // ---------------------------------------------------------------------------
  // Step lemmas for the loops of `_calculate_voter_power` and `calculate_results`
  // ---------------------------------------------------------------------------

  /** Adding one more delegate to the accumulated sums. */
  lemma DelegatedPowerPrefix(registered: set<Name>, dist: map<Name, Power>, ds: seq<Name>, i: nat, ch: Choice)
    requires i < |ds|
    ensures DelegatedPower(registered, dist, ds[..i + 1], ch)
         == DelegatedPower(registered, dist, ds[..i], ch) + (if ds[i] in registered then PowerOf(dist, ds[i], ch) else 0.0)
  {
    assert ds[..i + 1][..i] == ds[..i];
  }

  /** The one-voter cases of `_calculate_voter_power`, in terms of the values its body computes. */
  lemma VoterPowerCases(registered: set<Name>, dist: map<Name, Power>, v: VoterData, u: real, y: real, n: real)
    requires u == v.stake - Committed(v.commitments)
    requires y == DelegatedPower(registered, dist, v.delegates, Yes)
    requires n == DelegatedPower(registered, dist, v.delegates, No)
    ensures |v.delegates| > 0 && u > 0.0 && y + n > 0.0 ==> VoterPower(registered, dist, v) == Split(v.commitments, u, y, n)
    ensures !(|v.delegates| > 0 && u > 0.0 && y + n > 0.0) ==> VoterPower(registered, dist, v) == v.commitments
  {
    assert Uncommitted(v) == u;
  }

  /** `Split` in terms of the two shares `current_power[...] += uncommitted_stake * ratio` adds. */
  lemma SplitIs(c: Power, u: real, y: real, n: real, a: real, b: real)
    requires y + n > 0.0
    requires a == u * (y / (y + n)) && b == u * (n / (y + n))
    ensures Split(c, u, y, n) == Credit(Credit(c, Yes, a), No, b)
  {
  }

  /** The change sum with one more voter, after its two `+=` steps. */
  lemma ChangeStep(done: set<Name>, next: map<Name, Power>, dist: map<Name, Power>, n: Name, before: real, after: real)
    requires n !in done && before == Sum(done, Moved(next, dist))
    requires after == before + Abs(PowerOf(next, n, Yes) - PowerOf(dist, n, Yes)) + Abs(PowerOf(next, n, No) - PowerOf(dist, n, No))
    ensures after == Sum(done + {n}, Moved(next, dist))
  {
    SumInsert(done, Moved(next, dist), n);
  }

  /** A loop with iterations left stops with `dist` when the next map moved less than the tolerance. */
  lemma IterateStops(voters: map<Name, VoterData>, dist: map<Name, Power>, iterations: nat, tolerance: real)
    requires iterations > 0
    requires Change(voters, Step(voters, dist), dist) < tolerance
    ensures Iterate(voters, dist, iterations, tolerance) == dist
  {
  }

  /** Otherwise it goes on from the next map with one iteration fewer. */
  lemma IterateGoesOn(voters: map<Name, VoterData>, dist: map<Name, Power>, iterations: nat, tolerance: real)
    requires iterations > 0
    requires Change(voters, Step(voters, dist), dist) >= tolerance
    ensures Iterate(voters, dist, iterations, tolerance) == Iterate(voters, Step(voters, dist), iterations - 1, tolerance)
  {
  }

  /** `final_tally` after the voters in `done`: no key before the first voter, then both sums. */
  ghost function TallySoFar(dist: map<Name, Power>, done: set<Name>): map<Choice, real>
  {
    if done == {} then map[]
    else map[Yes := Sum(done, PowerFor(dist, Yes)), No := Sum(done, PowerFor(dist, No))]
  }

  /** Crediting one more voter's power to the tally so far. */
  lemma TallyAdd(dist: map<Name, Power>, done: set<Name>, n: Name)
    requires n !in done
    ensures TallySoFar(dist, done + {n})
         == Credit(Credit(TallySoFar(dist, done), Yes, PowerOf(dist, n, Yes)), No, PowerOf(dist, n, No))
  {
    var before := TallySoFar(dist, done);
    var after := Credit(Credit(before, Yes, PowerOf(dist, n, Yes)), No, PowerOf(dist, n, No));
    SumInsert(done, PowerFor(dist, Yes), n);
    SumInsert(done, PowerFor(dist, No), n);
    if done == {} {
      SumZero({}, PowerFor(dist, Yes));
      SumZero({}, PowerFor(dist, No));
    }
    GetExt(TallySoFar(dist, done + {n}), after);
  }

  /** Over all voters the tally so far is the final tally. */
  lemma TallyDone(voters: map<Name, VoterData>, dist: map<Name, Power>)
    requires |voters| > 0
    ensures TallySoFar(dist, voters.Keys) == map[Yes := TallyOf(voters, dist, Yes), No := TallyOf(voters, dist, No)]
  {
    assert voters.Keys != {};
  }

}
