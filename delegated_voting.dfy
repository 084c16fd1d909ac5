/**
 The classes of delegated_voting.py: `Voter` objects that record votes and
 delegates, and a `VotingSystem` that registers them and runs the
 proportional resolver. Every method is proved to compute what the pure
 functions of module Weighted define.
 */
module DelegatedVoting {
  import opened Sums
  import opened Weighted
  import opened Resolver

  class Voter {
    const name: Name
    var stake: real
    var commitments: Power
    var delegates: seq<Name>

    constructor (name: Name, stake: real)
      ensures this.name == name && this.stake == stake
      ensures commitments == map[] && delegates == []
    {
      this.name := name;
      this.stake := stake;
      commitments := map[];
      delegates := [];
    }

    function Data(): VoterData
      reads this
    {
      VoterData(stake, commitments, delegates)
    }

    /** `add_delegate` (delegated_voting.py:13-15): append, keeping repeats. */
    method AddDelegate(delegateName: Name)
      modifies this
      ensures delegates == old(delegates) + [delegateName]
      ensures stake == old(stake) && commitments == old(commitments)
    {
      delegates := delegates + [delegateName];
    }

    /**
     `vote(choice, amount)` (delegated_voting.py:17-33). The raised
     `ValueError` becomes the returned error; a rejected vote changes nothing.
     */
    method Vote(choice: string, amount: real) returns (error: Option<VoteError>)
      modifies this
      ensures stake == old(stake) && delegates == old(delegates)
      ensures match Commit(old(stake), old(commitments), choice, amount)
        case Success(c) => error == None && commitments == c
        case Failure(e) => error == Some(e) && commitments == old(commitments)
    {
      if choice != "yes" && choice != "no" {
        return Some(InvalidChoice);
      }
      var ch := if choice == "yes" then Yes else No;
      if amount < 0.0 {
        return Some(NegativeAmount);
      }
      var currentCommitted := Committed(commitments) - Get(commitments, ch);
      if currentCommitted + amount > stake {
        return Some(InsufficientStake);
      }
      commitments := commitments[ch := amount];
      error := None;
    }
  }

  class VotingSystem {
    var voters: map<Name, Voter>

    /** Each voter is filed under its own name: established by the constructor, kept by `AddVoter`, assumed by the calculations. */
    ghost predicate Valid()
      reads this, voters.Values
    {
      forall n :: n in voters ==> voters[n].name == n
    }

    /** The registered voters' contents as a value. */
    function View(): (r: map<Name, VoterData>)
      reads this, voters.Values
      ensures r.Keys == voters.Keys
    {
      map n | n in voters :: voters[n].Data()
    }

    constructor ()
      ensures Valid() && View() == map[]
    {
      voters := map[];
    }

    /**
     `add_voter(name, stake)` (delegated_voting.py:54-58): first write wins;
     an existing voter is returned unchanged, stake included.
     */
    method AddVoter(name: Name, stake: real) returns (voter: Voter)
      requires Valid()
      modifies this
      ensures Valid()
      ensures name in voters && voter == voters[name]
      ensures name in old(voters) ==> voters == old(voters)
      ensures name !in old(voters) ==> fresh(voter) && voters == old(voters)[name := voter]
      ensures View() == if name in old(View()) then old(View()) else old(View())[name := VoterData(stake, map[], [])]
    {
      if name !in voters {
        voter := new Voter(name, stake);
        voters := voters[name := voter];
        assert forall n :: n in voters && n != name ==> voters[n] == old(voters[n]);
      } else {
        voter := voters[name];
      }
    }

    /**
     `_calculate_voter_power(voter, power_dist)` (delegated_voting.py:60-85),
     with membership in this system as the registration test.
     */
    method CalculateVoterPower(voter: Voter, dist: map<Name, Power>) returns (power: Power)
      requires Valid()
      ensures power == VoterPower(voters.Keys, dist, voter.Data())
    {
      power := PowerOfVoter(voters.Keys, dist, voter.Data());
    }

    /** `calculate_results(max_iterations, tolerance)` (delegated_voting.py:87-121) over the registered voters. */
    method CalculateResults(maxIterations: nat, tolerance: real) returns (tally: map<Choice, real>)
      requires Valid()
      ensures tally == Results(View(), maxIterations, tolerance)
    {
      tally := ResultsOf(View(), maxIterations, tolerance);
    }
  }
}
