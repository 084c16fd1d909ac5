/**
 The loops of `_calculate_voter_power` and `calculate_results`
 (delegated_voting.py:60-121) as methods over the voters' contents, each
 proved to compute the function of module Weighted that defines it.
 */
module Resolver {
  import opened Sums
  import opened Weighted

  /**
   The body of `_calculate_voter_power` (delegated_voting.py:60-85): the
   voter's commitments, plus its uncommitted stake split in the ratio of its
   registered delegates' yes/no power when it has delegates, uncommitted
   stake and delegates with power.
   */
  method PowerOfVoter(registered: set<Name>, dist: map<Name, Power>, v: VoterData) returns (power: Power)
    ensures power == VoterPower(registered, dist, v)
  {
    power := v.commitments;
    var uncommitted := v.stake - Committed(v.commitments);
    var ds := v.delegates;
    VoterPowerCases(registered, dist, v, uncommitted,
                    DelegatedPower(registered, dist, ds, Yes), DelegatedPower(registered, dist, ds, No));
    if |ds| > 0 && uncommitted > 0.0 {
      var yes, no := DelegatedSums(registered, dist, ds);
      var total := yes + no;
      if total > 0.0 {
        var yesRatio := yes / total;
        var noRatio := no / total;
        SplitIs(v.commitments, uncommitted, yes, no, uncommitted * yesRatio, uncommitted * noRatio);
        power := Credit(power, Yes, uncommitted * yesRatio);
        power := Credit(power, No, uncommitted * noRatio);
      }
    }
  }

  /** The delegate loop of `_calculate_voter_power` (delegated_voting.py:69-73). */
  method DelegatedSums(registered: set<Name>, dist: map<Name, Power>, ds: seq<Name>) returns (yes: real, no: real)
    ensures yes == DelegatedPower(registered, dist, ds, Yes)
    ensures no == DelegatedPower(registered, dist, ds, No)
  {
    yes, no := 0.0, 0.0;
    for i := 0 to |ds|
      invariant yes == DelegatedPower(registered, dist, ds[..i], Yes)
      invariant no == DelegatedPower(registered, dist, ds[..i], No)
    {
      DelegatedPowerPrefix(registered, dist, ds, i, Yes);
      DelegatedPowerPrefix(registered, dist, ds, i, No);
      if ds[i] in registered {
        yes := yes + PowerOf(dist, ds[i], Yes);
        no := no + PowerOf(dist, ds[i], No);
      }
    }
    assert ds[..|ds|] == ds;
  }

  /** The first inner loop of `calculate_results` (delegated_voting.py:100-102): every voter's next power. */
  method NextOf(voters: map<Name, VoterData>, dist: map<Name, Power>) returns (next: map<Name, Power>)
    ensures next == Step(voters, dist)
  {
    next := map[];
    var rest := voters.Keys;
    while rest != {}
      invariant rest <= voters.Keys
      invariant next.Keys == voters.Keys - rest
      invariant forall n :: n in next ==> next[n] == VoterPower(voters.Keys, dist, voters[n])
      decreases rest
    {
      var n :| n in rest;
      var p := PowerOfVoter(voters.Keys, dist, voters[n]);
      next := next[n := p];
      rest := rest - {n};
    }
  }

  /** The second inner loop of `calculate_results` (delegated_voting.py:104-108): the total change. */
  method ChangeOf(voters: map<Name, VoterData>, next: map<Name, Power>, dist: map<Name, Power>) returns (total: real)
    ensures total == Change(voters, next, dist)
  {
    ghost var done: set<Name> := {};
    total := 0.0;
    var rest := voters.Keys;
    while rest != {}
      invariant done !! rest && done + rest == voters.Keys
      invariant total == Sum(done, Moved(next, dist))
      decreases rest
    {
      var n :| n in rest;
      ghost var before := total;
      total := total + Abs(PowerOf(next, n, Yes) - PowerOf(dist, n, Yes));
      total := total + Abs(PowerOf(next, n, No) - PowerOf(dist, n, No));
      ChangeStep(done, next, dist, n, before, total);
      done := done + {n};
      rest := rest - {n};
    }
  }

  /** The final tally loop of `calculate_results` (delegated_voting.py:115-120). */
  method TallyOver(voters: map<Name, VoterData>, dist: map<Name, Power>) returns (tally: map<Choice, real>)
    requires |voters| > 0
    ensures tally == map[Yes := TallyOf(voters, dist, Yes), No := TallyOf(voters, dist, No)]
  {
    ghost var done: set<Name> := {};
    tally := map[];
    var rest := voters.Keys;
    while rest != {}
      invariant done !! rest && done + rest == voters.Keys
      invariant tally == TallySoFar(dist, done)
      decreases rest
    {
      var n :| n in rest;
      TallyAdd(dist, done, n);
      tally := Credit(tally, Yes, PowerOf(dist, n, Yes));
      tally := Credit(tally, No, PowerOf(dist, n, No));
      done := done + {n};
      rest := rest - {n};
    }
    TallyDone(voters, dist);
  }

  /**
   The body of `calculate_results` (delegated_voting.py:87-121): at most
   `maxIterations` simultaneous updates, stopping with the previous
   distribution once the total change falls below the tolerance, then the
   per-choice sums.
   */
  method ResultsOf(voters: map<Name, VoterData>, maxIterations: nat, tolerance: real) returns (tally: map<Choice, real>)
    ensures tally == Results(voters, maxIterations, tolerance)
  {
    if |voters| == 0 {
      return map[];
    }
    ghost var goal := Iterate(voters, map[], maxIterations, tolerance);
    var dist: map<Name, Power> := map[];
    ghost var left := maxIterations;
    for i := 0 to maxIterations
      invariant left == maxIterations - i
      invariant Iterate(voters, dist, left, tolerance) == goal
    {
      var next := NextOf(voters, dist);
      var totalChange := ChangeOf(voters, next, dist);
      if totalChange < tolerance {
        IterateStops(voters, dist, left, tolerance);
        break;
      }
      IterateGoesOn(voters, dist, left, tolerance);
      dist := next;
      left := left - 1;
    }
    assert dist == goal;
    tally := TallyOver(voters, dist);
  }
}
