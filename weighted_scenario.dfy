/**
 The scenario of test_delegated_voting.py, worked through the model of the
 proportional resolver: direct votes with full and partial stake, a simple
 and a split delegation, a mixed voter, and a cycle that only absorbs.

 The scenario is worked out for any eight distinct names and then for the
 names the test uses.
 */
module WeightedScenario {
  import opened Sums
  import opened Weighted

  const Tolerance: real := 0.000001

  /** The eight participants' names. */
  datatype Cast = Cast(alice: Name, bob: Name, charlie: Name, david: Name,
                       eve: Name, frank: Name, george: Name, harry: Name)

  function Names(c: Cast): seq<Name>
  {
    [c.alice, c.bob, c.charlie, c.david, c.eve, c.frank, c.george, c.harry]
  }

  predicate Distinct(c: Cast)
  {
    && c.alice !in {c.bob, c.charlie, c.david, c.eve, c.frank, c.george, c.harry}
    && c.bob !in {c.charlie, c.david, c.eve, c.frank, c.george, c.harry}
    && c.charlie !in {c.david, c.eve, c.frank, c.george, c.harry}
    && c.david !in {c.eve, c.frank, c.george, c.harry}
    && c.eve !in {c.frank, c.george, c.harry}
    && c.frank !in {c.george, c.harry}
    && c.george != c.harry
  }

  lemma NamesDistinct(c: Cast)
    requires Distinct(c)
    ensures forall i, j :: 0 <= i < j < |Names(c)| ==> Names(c)[i] != Names(c)[j]
  {
  }

  /** The names the test uses. */
  function TestCast(): Cast
  {
    Cast("Alice", "Bob", "Charlie", "David", "Eve", "Frank", "George", "Harry")
  }

  /** The eight voters after the scenario's `add_voter`, `vote` and `add_delegate` calls. */
  function Voters(c: Cast): map<Name, VoterData>
  {
    map[
      c.alice := VoterData(100.0, map[Yes := 100.0], []),
      c.bob := VoterData(50.0, map[No := 30.0], []),
      c.charlie := VoterData(20.0, map[], [c.alice]),
      c.david := VoterData(100.0, map[], [c.alice, c.bob]),
      c.eve := VoterData(30.0, map[Yes := 10.0], [c.bob]),
      c.frank := VoterData(10.0, map[], [c.george]),
      c.george := VoterData(10.0, map[], [c.harry]),
      c.harry := VoterData(10.0, map[], [c.george])
    ]
  }

  /** After the first iteration only direct votes count. */
  function First(c: Cast): map<Name, Power>
  {
    map[
      c.alice := map[Yes := 100.0],
      c.bob := map[No := 30.0],
      c.charlie := map[],
      c.david := map[],
      c.eve := map[Yes := 10.0],
      c.frank := map[],
      c.george := map[],
      c.harry := map[]
    ]
  }

  /** After the second iteration every delegation that reaches a direct vote has arrived. */
  function Second(c: Cast): map<Name, Power>
  {
    map[
      c.alice := map[Yes := 100.0],
      c.bob := map[No := 30.0],
      c.charlie := map[Yes := 20.0, No := 0.0],
      c.david := map[Yes := 1000.0 / 13.0, No := 300.0 / 13.0],
      c.eve := map[Yes := 10.0, No := 20.0],
      c.frank := map[],
      c.george := map[],
      c.harry := map[]
    ]
  }

  lemma TestCastDistinct()
    ensures Distinct(TestCast())
  {
  }

  /** The scenario's commitments are what its `vote` calls produce. */
  lemma Votes()
    ensures Commit(100.0, map[], "yes", 100.0) == Success(map[Yes := 100.0])
    ensures Commit(50.0, map[], "no", 30.0) == Success(map[No := 30.0])
    ensures Commit(30.0, map[], "yes", 10.0) == Success(map[Yes := 10.0])
  {
  }

  /** One voter's power in the first iteration. */
  lemma FirstAt(c: Cast, n: Name)
    requires Distinct(c) && n in Voters(c)
    ensures VoterPower(Voters(c).Keys, map[], Voters(c)[n]) == First(c)[n]
  {
    assert !Delegating(Voters(c).Keys, map[], Voters(c)[n]);
  }

  lemma FirstStep(c: Cast)
    requires Distinct(c)
    ensures Step(Voters(c), map[]) == First(c)
  {
    var V := Voters(c);
    forall n | n in V ensures VoterPower(V.Keys, map[], V[n]) == First(c)[n] {
      FirstAt(c, n);
    }
    StepIs(V, map[], First(c));
  }

  /** What the delegates hold after the first iteration and ever after. */
  predicate Settled(c: Cast, D: map<Name, Power>)
  {
    && PowerOf(D, c.alice, Yes) == 100.0 && PowerOf(D, c.alice, No) == 0.0
    && PowerOf(D, c.bob, Yes) == 0.0 && PowerOf(D, c.bob, No) == 30.0
    && PowerOf(D, c.george, Yes) == 0.0 && PowerOf(D, c.george, No) == 0.0
    && PowerOf(D, c.harry, Yes) == 0.0 && PowerOf(D, c.harry, No) == 0.0
  }

  lemma FirstSettled(c: Cast)
    requires Distinct(c)
    ensures Settled(c, First(c))
  {
  }

  lemma SecondSettled(c: Cast)
    requires Distinct(c)
    ensures Settled(c, Second(c))
  {
  }

  /** The delegated powers each delegating voter sees. */
  lemma Delegated(c: Cast, D: map<Name, Power>)
    requires Distinct(c) && Settled(c, D)
    ensures var K := Voters(c).Keys;
      && DelegatedPower(K, D, [c.alice], Yes) == 100.0 && DelegatedPower(K, D, [c.alice], No) == 0.0
      && DelegatedPower(K, D, [c.alice, c.bob], Yes) == 100.0 && DelegatedPower(K, D, [c.alice, c.bob], No) == 30.0
      && DelegatedPower(K, D, [c.bob], Yes) == 0.0 && DelegatedPower(K, D, [c.bob], No) == 30.0
      && DelegatedPower(K, D, [c.george], Yes) == 0.0 && DelegatedPower(K, D, [c.george], No) == 0.0
      && DelegatedPower(K, D, [c.harry], Yes) == 0.0 && DelegatedPower(K, D, [c.harry], No) == 0.0
  {
    assert [c.alice, c.bob][..1] == [c.alice];
  }

  /** One voter's power once the delegates hold their settled power. */
  lemma SecondAt(c: Cast, D: map<Name, Power>, n: Name)
    requires Distinct(c) && n in Voters(c) && Settled(c, D)
    ensures VoterPower(Voters(c).Keys, D, Voters(c)[n]) == Second(c)[n]
  {
    Delegated(c, D);
    var V := Voters(c);
    if n == c.charlie {
      CharlieAt(c, D);
    } else if n == c.david {
      DavidAt(c, D);
    } else if n == c.eve {
      EveAt(c, D);
    } else if n == c.frank || n == c.harry {
      assert V[n].delegates == [c.george];
      assert !Delegating(V.Keys, D, V[n]);
    } else if n == c.george {
      assert V[n].delegates == [c.harry];
      assert !Delegating(V.Keys, D, V[n]);
    } else {
      assert V[n].delegates == [];
      assert !Delegating(V.Keys, D, V[n]);
    }
  }

  lemma CharlieAt(c: Cast, D: map<Name, Power>)
    requires Distinct(c)
    requires DelegatedPower(Voters(c).Keys, D, [c.alice], Yes) == 100.0
    requires DelegatedPower(Voters(c).Keys, D, [c.alice], No) == 0.0
    ensures VoterPower(Voters(c).Keys, D, Voters(c)[c.charlie]) == Second(c)[c.charlie]
  {
    var v := Voters(c)[c.charlie];
    assert v == VoterData(20.0, map[], [c.alice]);
    assert Uncommitted(v) == 20.0;
    assert Delegating(Voters(c).Keys, D, v);
    assert VoterPower(Voters(c).Keys, D, v) == Split(map[], 20.0, 100.0, 0.0);
  }

  lemma DavidAt(c: Cast, D: map<Name, Power>)
    requires Distinct(c)
    requires DelegatedPower(Voters(c).Keys, D, [c.alice, c.bob], Yes) == 100.0
    requires DelegatedPower(Voters(c).Keys, D, [c.alice, c.bob], No) == 30.0
    ensures VoterPower(Voters(c).Keys, D, Voters(c)[c.david]) == Second(c)[c.david]
  {
    var v := Voters(c)[c.david];
    assert v == VoterData(100.0, map[], [c.alice, c.bob]);
    assert Uncommitted(v) == 100.0;
    assert Delegating(Voters(c).Keys, D, v);
    assert VoterPower(Voters(c).Keys, D, v) == Split(map[], 100.0, 100.0, 30.0);
  }

  lemma EveAt(c: Cast, D: map<Name, Power>)
    requires Distinct(c)
    requires DelegatedPower(Voters(c).Keys, D, [c.bob], Yes) == 0.0
    requires DelegatedPower(Voters(c).Keys, D, [c.bob], No) == 30.0
    ensures VoterPower(Voters(c).Keys, D, Voters(c)[c.eve]) == Second(c)[c.eve]
  {
    var v := Voters(c)[c.eve];
    assert v == VoterData(30.0, map[Yes := 10.0], [c.bob]);
    assert Uncommitted(v) == 20.0;
    assert Delegating(Voters(c).Keys, D, v);
    assert VoterPower(Voters(c).Keys, D, v) == Split(map[Yes := 10.0], 20.0, 0.0, 30.0);
  }

  /** A step is determined voter by voter. */
  lemma StepIs(voters: map<Name, VoterData>, dist: map<Name, Power>, next: map<Name, Power>)
    requires next.Keys == voters.Keys
    requires forall n :: n in voters ==> VoterPower(voters.Keys, dist, voters[n]) == next[n]
    ensures Step(voters, dist) == next
  {
  }

  lemma SecondStep(c: Cast)
    requires Distinct(c)
    ensures Step(Voters(c), First(c)) == Second(c)
  {
    var V, D := Voters(c), First(c);
    FirstSettled(c);
    forall n | n in V ensures VoterPower(V.Keys, D, V[n]) == Second(c)[n] {
      SecondAt(c, D, n);
    }
    StepIs(V, D, Second(c));
  }

  lemma ThirdStep(c: Cast)
    requires Distinct(c)
    ensures Step(Voters(c), Second(c)) == Second(c)
  {
    var V, D := Voters(c), Second(c);
    SecondSettled(c);
    forall n | n in V ensures VoterPower(V.Keys, D, V[n]) == Second(c)[n] {
      SecondAt(c, D, n);
    }
    StepIs(V, D, Second(c));
  }

  /** An iteration that moves at least the tolerance hands its result to the next one. */
  lemma IterateMoves(voters: map<Name, VoterData>, dist: map<Name, Power>, next: map<Name, Power>, iterations: nat, tolerance: real)
    requires iterations > 0
    requires Step(voters, dist) == next && Change(voters, next, dist) >= tolerance
    ensures Iterate(voters, dist, iterations, tolerance) == Iterate(voters, next, iterations - 1, tolerance)
  {
  }

  lemma FirstMoves(c: Cast)
    requires Distinct(c)
    ensures Change(Voters(c), First(c), map[]) >= Tolerance
  {
    assert PowerOf(First(c), c.alice, Yes) == 100.0 && PowerOf(First(c), c.alice, No) == 0.0;
    assert Moved(First(c), map[])(c.alice) == 100.0;
    ChangeAtLeast(Voters(c), First(c), map[], c.alice);
  }

  lemma SecondMoves(c: Cast)
    requires Distinct(c)
    ensures Change(Voters(c), Second(c), First(c)) >= Tolerance
  {
    assert PowerOf(Second(c), c.charlie, Yes) == 20.0 && PowerOf(Second(c), c.charlie, No) == 0.0;
    assert PowerOf(First(c), c.charlie, Yes) == 0.0 && PowerOf(First(c), c.charlie, No) == 0.0;
    assert Moved(Second(c), First(c))(c.charlie) == 20.0;
    ChangeAtLeast(Voters(c), Second(c), First(c), c.charlie);
  }

  /**
   The resolver stops after the third iteration finds nothing moving and
   keeps the second distribution.
   */
  lemma ScenarioIterations(c: Cast)
    requires Distinct(c)
    ensures Iterate(Voters(c), map[], 100, Tolerance) == Second(c)
  {
    var V := Voters(c);
    FirstStep(c);
    FirstMoves(c);
    IterateMoves(V, map[], First(c), 100, Tolerance);
    SecondStep(c);
    SecondMoves(c);
    IterateMoves(V, First(c), Second(c), 99, Tolerance);
    ThirdStep(c);
    IterateStable(V, Second(c), 98, Tolerance);
  }

  /** A sum over the eight voters, spelled out. */
  lemma SumOverCast(c: Cast, f: Name -> real)
    requires Distinct(c)
    ensures Sum(Voters(c).Keys, f)
         == f(c.alice) + f(c.bob) + f(c.charlie) + f(c.david) + f(c.eve) + f(c.frank) + f(c.george) + f(c.harry)
  {
    var xs := Names(c);
    NamesDistinct(c);
    assert Voters(c).Keys == set x | x in xs;
    SumAsSeqSum(xs, f);
    assert [c.alice, c.bob, c.charlie, c.david, c.eve, c.frank, c.george, c.harry][1..] == [c.bob, c.charlie, c.david, c.eve, c.frank, c.george, c.harry];
    assert SeqSum([c.alice, c.bob, c.charlie, c.david, c.eve, c.frank, c.george, c.harry], f) == f(c.alice) + SeqSum([c.bob, c.charlie, c.david, c.eve, c.frank, c.george, c.harry], f);
    assert [c.bob, c.charlie, c.david, c.eve, c.frank, c.george, c.harry][1..] == [c.charlie, c.david, c.eve, c.frank, c.george, c.harry];
    assert SeqSum([c.bob, c.charlie, c.david, c.eve, c.frank, c.george, c.harry], f) == f(c.bob) + SeqSum([c.charlie, c.david, c.eve, c.frank, c.george, c.harry], f);
    assert [c.charlie, c.david, c.eve, c.frank, c.george, c.harry][1..] == [c.david, c.eve, c.frank, c.george, c.harry];
    assert SeqSum([c.charlie, c.david, c.eve, c.frank, c.george, c.harry], f) == f(c.charlie) + SeqSum([c.david, c.eve, c.frank, c.george, c.harry], f);
    assert [c.david, c.eve, c.frank, c.george, c.harry][1..] == [c.eve, c.frank, c.george, c.harry];
    assert SeqSum([c.david, c.eve, c.frank, c.george, c.harry], f) == f(c.david) + SeqSum([c.eve, c.frank, c.george, c.harry], f);
    assert [c.eve, c.frank, c.george, c.harry][1..] == [c.frank, c.george, c.harry];
    assert SeqSum([c.eve, c.frank, c.george, c.harry], f) == f(c.eve) + SeqSum([c.frank, c.george, c.harry], f);
    assert [c.frank, c.george, c.harry][1..] == [c.george, c.harry];
    assert SeqSum([c.frank, c.george, c.harry], f) == f(c.frank) + SeqSum([c.george, c.harry], f);
    assert [c.george, c.harry][1..] == [c.harry];
    assert SeqSum([c.george, c.harry], f) == f(c.george) + SeqSum([c.harry], f);
    assert [c.harry][1..] == [];
    assert SeqSum([c.harry], f) == f(c.harry) + SeqSum([], f);
  }

  lemma TallyYes(c: Cast)
    requires Distinct(c)
    ensures TallyOf(Voters(c), Second(c), Yes) == 2690.0 / 13.0
  {
    SumOverCast(c, PowerFor(Second(c), Yes));
  }

  lemma TallyNo(c: Cast)
    requires Distinct(c)
    ensures TallyOf(Voters(c), Second(c), No) == 950.0 / 13.0
  {
    SumOverCast(c, PowerFor(Second(c), No));
  }

  lemma CastStake(c: Cast)
    requires Distinct(c)
    ensures TotalStake(Voters(c)) == 330.0
  {
    SumOverCast(c, StakeOf(Voters(c)));
  }

  /**
   The scenario's expected outcome: yes 2690/13 (about 206.92), no 950/13
   (about 73.08), 280 of the 330 staked counted and 50 lost (Bob's unused 20
   and the 30 trapped in the Frank/George/Harry cycle).
   */
  lemma CastResults(c: Cast)
    requires Distinct(c)
    ensures Results(Voters(c), 100, Tolerance) == map[Yes := 2690.0 / 13.0, No := 950.0 / 13.0]
    ensures TotalStake(Voters(c)) == 330.0
    ensures TotalStake(Voters(c)) - (2690.0 / 13.0 + 950.0 / 13.0) == 50.0
  {
    ScenarioIterations(c);
    TallyYes(c);
    TallyNo(c);
    CastStake(c);
  }

  lemma ScenarioResults()
    ensures Results(Voters(TestCast()), 100, Tolerance) == map[Yes := 2690.0 / 13.0, No := 950.0 / 13.0]
    ensures TotalStake(Voters(TestCast())) == 330.0
  {
    TestCastDistinct();
    CastResults(TestCast());
  }
}
