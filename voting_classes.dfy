/**
 The object-based broadcast resolver of voting_classes.py: `Person` objects
 kept in a `VotingSystem` registry keyed by name, the registry operations
 `get_person`, `setup_delegations` and `set_voters`, and `distribute_votes`.

 A person's delegates are held by name; every name in a delegate list is
 registered (the registry's invariant), so a name stands for exactly the
 `Person` object the source would hold.
 */
module VotingClasses {
  import opened Sums
  import opened Broadcast
  import DelegateMain

  /** The fields of one `Person`, as a value. */
  datatype PersonData = PersonData(balance: real, delegates: seq<Name>, isVoter: bool)

  /** The `people` dict, as a value. */
  type Registry = map<Name, PersonData>

  /** `Person(name, balance)`: no delegates yet, not a voter. */
  function NewPerson(balance: real): PersonData
  {
    PersonData(balance, [], false)
  }

  // ---------------------------------------------------------------------------
  // get_person
  // ---------------------------------------------------------------------------

  /** The entry for `name` after `get_person(name, balance)`. */
  function Fetched(r: Registry, name: Name, balance: real): PersonData
  {
    if name !in r then NewPerson(balance)
    else if balance != 1.0 then r[name].(balance := balance)
    else r[name]
  }

  /** The registry after `get_person(name, balance)` (voting_classes.py:20-25). */
  function Fetch(r: Registry, name: Name, balance: real): (r': Registry)
    ensures r'.Keys == r.Keys + {name}
    ensures forall n :: n in r && n != name ==> r'[n] == r[n]
    ensures name in r ==> r'[name].delegates == r[name].delegates && r'[name].isVoter == r[name].isVoter
  {
    r[name := Fetched(r, name, balance)]
  }

  /**
   `get_person` registers `name`: a missing person is created with `balance`;
   an existing one keeps its delegates and voter flag, and its balance is
   overwritten only when the argument differs from the default 1.0; nobody
   else changes.
   */
  lemma FetchEffect(r: Registry, name: Name, balance: real)
    ensures var r' := Fetch(r, name, balance);
      && r'.Keys == r.Keys + {name}
      && (name !in r ==> r'[name] == NewPerson(balance))
      && (name in r ==> r'[name].delegates == r[name].delegates && r'[name].isVoter == r[name].isVoter)
      && r'[name].balance == (if name in r && balance == 1.0 then r[name].balance else balance)
      && (forall n :: n in r && n != name ==> r'[n] == r[n])
  {
  }

  /** Asking for the same person twice is the same as asking once. */
  lemma FetchIdempotent(r: Registry, name: Name, balance: real)
    ensures Fetch(Fetch(r, name, balance), name, balance) == Fetch(r, name, balance)
  {
    var r1 := Fetch(r, name, balance);
    assert Fetched(r1, name, balance) == r1[name];
  }

  /** Every name in a delegate list is registered. */
  ghost predicate Closed(r: Registry)
  {
    forall n, d :: n in r && d in r[n].delegates ==> d in r
  }

  lemma FetchClosed(r: Registry, name: Name, balance: real)
    requires Closed(r)
    ensures Closed(Fetch(r, name, balance))
  {
  }

  // ---------------------------------------------------------------------------
  // setup_delegations
  // ---------------------------------------------------------------------------

  /** The first pass of `setup_delegations`: `get_person(name, balance)` for every balance entry. */
  function ApplyBalances(r: Registry, balances: map<Name, real>): (r': Registry)
    ensures r'.Keys == r.Keys + balances.Keys
  {
    map n | n in r.Keys + balances.Keys :: if n in balances then Fetched(r, n, balances[n]) else r[n]
  }

  /** What `get_person(n)` finds or creates with the default balance. */
  function Base(r: Registry, n: Name): PersonData
  {
    if n in r then r[n] else NewPerson(1.0)
  }

  /**
   The second pass of `setup_delegations`: every delegator and every named
   delegate is registered (with balance 1.0 when new) and each delegator's
   list grows by its delegate names, in order and with repeats.
   */
  function ApplyDelegations(r: Registry, delegations: Graph): Registry
  {
    map n | n in r.Keys + delegations.Keys + Targets(delegations, delegations.Keys) ::
      var b := Base(r, n);
      b.(delegates := b.delegates + (if n in delegations then delegations[n] else []))
  }

  /** `setup_delegations(delegations, balances)` (voting_classes.py:27-35). */
  function SetUp(r: Registry, delegations: Graph, balances: map<Name, real>): (r': Registry)
    ensures r'.Keys == r.Keys + balances.Keys + delegations.Keys + Targets(delegations, delegations.Keys)
  {
    ApplyDelegations(ApplyBalances(r, balances), delegations)
  }

  /** The registry part-way through one delegator's list: `who` registered and `dl` appended. */
  function Extend(r: Registry, who: Name, dl: seq<Name>): Registry
  {
    map n | n in r.Keys + {who} + Elems(dl) ::
      var b := Base(r, n);
      if n == who then b.(delegates := b.delegates + dl) else b
  }

  lemma ApplyBalancesStep(r: Registry, balances: map<Name, real>, rest: set<Name>, n: Name)
    requires n in rest && rest <= balances.Keys
    ensures Fetch(ApplyBalances(r, Within(balances, balances.Keys - rest)), n, balances[n])
         == ApplyBalances(r, Within(balances, balances.Keys - (rest - {n})))
  {
    assert balances.Keys - (rest - {n}) == (balances.Keys - rest) + {n};
    var A := ApplyBalances(r, Within(balances, balances.Keys - rest));
    assert Fetched(A, n, balances[n]) == Fetched(r, n, balances[n]);
  }

  lemma ApplyBalancesAll(r: Registry, balances: map<Name, real>)
    ensures ApplyBalances(r, Within(balances, balances.Keys - {})) == ApplyBalances(r, balances)
  {
    assert Within(balances, balances.Keys - {}) == balances;
  }

  lemma WithinAll<V>(m: map<Name, V>)
    ensures Within(m, m.Keys) == m
  {
  }

  lemma NoDelegations(r: Registry, delegations: Graph)
    ensures ApplyDelegations(r, Within(delegations, delegations.Keys - delegations.Keys)) == r
  {
    var D := Within(delegations, delegations.Keys - delegations.Keys);
    assert D.Keys == {};
    assert Targets(D, D.Keys) == {};
    var A := ApplyDelegations(r, D);
    forall n | n in A ensures A[n] == r[n] {
      assert r[n].delegates + [] == r[n].delegates;
    }
    RegistryExt(A, r);
  }

  lemma ExtendStart(r: Registry, who: Name)
    ensures Extend(r, who, []) == Fetch(r, who, 1.0)
  {
    var E, F := Extend(r, who, []), Fetch(r, who, 1.0);
    assert E.Keys == F.Keys by {
      assert Elems([]) == {};
    }
    forall n | n in E ensures E[n] == F[n] {
      var b := Base(r, n);
      assert b.delegates + [] == b.delegates;
    }
  }

  lemma ExtendStep(r: Registry, who: Name, dl: seq<Name>, d: Name)
    ensures var E := Fetch(Extend(r, who, dl), d, 1.0);
      E[who := E[who].(delegates := E[who].delegates + [d])] == Extend(r, who, dl + [d])
  {
    var X := Extend(r, who, dl);
    var E := Fetch(X, d, 1.0);
    var G := E[who := E[who].(delegates := E[who].delegates + [d])];
    var H := Extend(r, who, dl + [d]);
    assert G.Keys == H.Keys by {
      assert Elems(dl + [d]) == Elems(dl) + {d};
    }
    forall n | n in G ensures G[n] == H[n] {
      var b := Base(r, n);
      if n == who {
        assert X[n] == b.(delegates := b.delegates + dl);
        assert E[n] == X[n];
        assert b.delegates + dl + [d] == b.delegates + (dl + [d]);
      } else if n in X {
        assert E[n] == X[n] == b;
      } else {
        assert n == d;
        assert E[n] == NewPerson(1.0) == b;
      }
    }
  }

  lemma ExtendPrefix(r: Registry, who: Name, dl: seq<Name>, i: nat)
    requires i < |dl|
    ensures var E := Fetch(Extend(r, who, dl[..i]), dl[i], 1.0);
      E[who := E[who].(delegates := E[who].delegates + [dl[i]])] == Extend(r, who, dl[..i + 1])
  {
    assert dl[..i + 1] == dl[..i] + [dl[i]];
    ExtendStep(r, who, dl[..i], dl[i]);
  }

  lemma WithinTargets(delegations: Graph, done: set<Name>, who: Name)
    requires who in delegations && who !in done
    ensures var D0, D1 := Within(delegations, done), Within(delegations, done + {who});
      Targets(D1, D1.Keys) == Targets(D0, D0.Keys) + Elems(delegations[who])
  {
    var D0, D1 := Within(delegations, done), Within(delegations, done + {who});
    TargetsRemove(D1, D1.Keys, who);
    assert D1.Keys - {who} == D0.Keys;
    assert forall p :: p in D0 ==> D0[p] == D1[p];
    assert Targets(D1, D0.Keys) == Targets(D0, D0.Keys);
  }

  lemma ExtendDoneEntry(r: Registry, delegations: Graph, done: set<Name>, who: Name, n: Name)
    requires who in delegations && who !in done
    requires n in Extend(ApplyDelegations(r, Within(delegations, done)), who, delegations[who])
    ensures var Y := ApplyDelegations(r, Within(delegations, done + {who}));
      n in Y && Extend(ApplyDelegations(r, Within(delegations, done)), who, delegations[who])[n] == Y[n]
  {
    var D0, D1 := Within(delegations, done), Within(delegations, done + {who});
    var A := ApplyDelegations(r, D0);
    WithinTargets(delegations, done, who);
    var b := Base(r, n);
    if n == who {
      assert who !in D0 && who in D1 && D1[who] == delegations[who];
      assert b.delegates + [] == b.delegates;
      assert Base(A, n) == b;
    } else if n in A {
      assert (n in D0) == (n in D1);
      assert n in D1 ==> D0[n] == D1[n];
      assert Base(A, n) == A[n];
    } else {
      assert Base(A, n) == NewPerson(1.0) == b;
      assert b.delegates + [] == b.delegates;
    }
  }

  lemma ExtendDoneKeys(r: Registry, delegations: Graph, done: set<Name>, who: Name)
    requires who in delegations && who !in done
    ensures Extend(ApplyDelegations(r, Within(delegations, done)), who, delegations[who]).Keys
         == ApplyDelegations(r, Within(delegations, done + {who})).Keys
  {
    WithinTargets(delegations, done, who);
  }

  lemma RegistryExt(X: Registry, Y: Registry)
    requires X.Keys == Y.Keys
    requires forall n :: n in X ==> X[n] == Y[n]
    ensures X == Y
  {
  }

  lemma ExtendDone(r: Registry, delegations: Graph, done: set<Name>, who: Name)
    requires who in delegations && who !in done
    ensures Extend(ApplyDelegations(r, Within(delegations, done)), who, delegations[who])
         == ApplyDelegations(r, Within(delegations, done + {who}))
  {
    var X := Extend(ApplyDelegations(r, Within(delegations, done)), who, delegations[who]);
    var Y := ApplyDelegations(r, Within(delegations, done + {who}));
    ExtendDoneKeys(r, delegations, done, who);
    forall n | n in X ensures X[n] == Y[n] {
      ExtendDoneEntry(r, delegations, done, who, n);
    }
    RegistryExt(X, Y);
  }

  lemma LinkStep(r: Registry, delegations: Graph, todo: set<Name>, who: Name)
    requires todo <= delegations.Keys && who in todo
    ensures Extend(ApplyDelegations(r, Within(delegations, delegations.Keys - todo)), who, delegations[who])
         == ApplyDelegations(r, Within(delegations, delegations.Keys - (todo - {who})))
  {
    assert delegations.Keys - (todo - {who}) == (delegations.Keys - todo) + {who};
    ExtendDone(r, delegations, delegations.Keys - todo, who);
  }

  lemma LinkFinish(r: Registry, delegations: Graph, todo: set<Name>)
    requires todo == {}
    ensures ApplyDelegations(r, Within(delegations, delegations.Keys - todo)) == ApplyDelegations(r, delegations)
  {
    assert delegations.Keys - todo == delegations.Keys;
    WithinAll(delegations);
  }

  /** After setup, every balance entry is registered, and so is every delegator and every named delegate. */
  lemma SetUpKeys(r: Registry, delegations: Graph, balances: map<Name, real>)
    ensures SetUp(r, delegations, balances).Keys
         == r.Keys + balances.Keys + delegations.Keys + Targets(delegations, delegations.Keys)
  {
  }

  /**
   Balances are applied before delegations: a balance entry sets the balance
   of a new person, and of an existing one unless it is 1.0; anybody created
   only by the delegation pass has 1.0; the voter flag is untouched.
   */
  lemma SetUpBalance(r: Registry, delegations: Graph, balances: map<Name, real>, n: Name)
    requires n in SetUp(r, delegations, balances)
    ensures SetUp(r, delegations, balances)[n].balance
         == (if n in balances && (n !in r || balances[n] != 1.0) then balances[n]
             else if n in r then r[n].balance else 1.0)
    ensures SetUp(r, delegations, balances)[n].isVoter == (n in r && r[n].isVoter)
  {
  }

  /** Each delegator's list is its old list followed by its new delegate names, repeats kept. */
  lemma SetUpDelegates(r: Registry, delegations: Graph, balances: map<Name, real>, n: Name)
    requires n in SetUp(r, delegations, balances)
    ensures SetUp(r, delegations, balances)[n].delegates
         == (if n in r then r[n].delegates else []) + (if n in delegations then delegations[n] else [])
  {
  }

  // ---------------------------------------------------------------------------
  // set_voters
  // ---------------------------------------------------------------------------

  /** The registry after `set_voters(names)` (voting_classes.py:37-42). */
  function Flagged(r: Registry, names: seq<Name>): (r': Registry)
    ensures r'.Keys == r.Keys
    ensures forall n :: n in r' ==> r'[n].balance == r[n].balance && r'[n].delegates == r[n].delegates
  {
    map n | n in r :: r[n].(isVoter := n in names)
  }

  // ---------------------------------------------------------------------------
  // distribute_votes
  // ---------------------------------------------------------------------------

  function GraphOf(r: Registry): (g: Graph)
    ensures g.Keys == r.Keys
  {
    map n | n in r :: r[n].delegates
  }

  function VotersOf(r: Registry): set<Name>
  {
    set n | n in r && r[n].isVoter
  }

  function BalancesOf(r: Registry): (b: map<Name, real>)
    ensures b.Keys == r.Keys
  {
    map n | n in r :: r[n].balance
  }

  /** The registry part-way through the first loop of `set_voters`: the flags of `done` cleared. */
  function Cleared(r: Registry, done: set<Name>): Registry
  {
    map n | n in r :: if n in done then r[n].(isVoter := false) else r[n]
  }

  lemma ClearedStep(r: Registry, rest: set<Name>, n: Name)
    requires n in rest && rest <= r.Keys
    ensures var C := Cleared(r, r.Keys - rest);
      C[n := C[n].(isVoter := false)] == Cleared(r, r.Keys - (rest - {n}))
  {
    assert r.Keys - (rest - {n}) == (r.Keys - rest) + {n};
  }

  lemma ClearedAll(r: Registry)
    ensures Cleared(r, r.Keys - {}) == Flagged(r, [])
  {
  }

  lemma FlaggedStep(r: Registry, names: seq<Name>, i: nat)
    requires i < |names|
    ensures var F, x := Flagged(r, names[..i]), names[i];
      Flagged(r, names[..i + 1]) == if x in r then F[x := F[x].(isVoter := true)] else F
  {
    assert names[..i + 1] == names[..i] + [names[i]];
  }

  /** `is_voter` holds for exactly the registered names listed; unknown names are ignored. */
  lemma FlaggedVoters(r: Registry, names: seq<Name>)
    ensures VotersOf(Flagged(r, names)) == r.Keys * (set n | n in names)
  {
  }

  lemma SetUpClosed(r: Registry, delegations: Graph, balances: map<Name, real>)
    requires Closed(r)
    ensures Closed(SetUp(r, delegations, balances))
  {
    var r' := SetUp(r, delegations, balances);
    forall n, d | n in r' && d in r'[n].delegates ensures d in r' {
      SetUpDelegates(r, delegations, balances, n);
      if n in delegations && d in delegations[n] {
        assert d in Targets(delegations, delegations.Keys);
      }
    }
  }

  /** In a closed registry the dict resolver's participant set is exactly the registered names. */
  lemma SnapshotPeople(r: Registry)
    requires Closed(r)
    ensures DelegateMain.AllPeople(GraphOf(r), BalancesOf(r)) == r.Keys
  {
    var g := GraphOf(r);
    assert Targets(g, g.Keys) <= r.Keys;
  }

  /** What `distribute_votes` computes on the registry `r`: the dict resolver on the same data. */
  ghost function Outcome(r: Registry): Ledger
  {
    DelegateMain.Outcome(GraphOf(r), VotersOf(r), BalancesOf(r))
  }

  lemma OutcomeIs(r: Registry)
    requires Closed(r)
    ensures Outcome(r) == Resolve(GraphOf(r), VotersOf(r),
      Start(DelegateMain.Stakes(r.Keys, BalancesOf(r)), VotersOf(r)), 2 * |r.Keys|)
  {
    SnapshotPeople(r);
  }

  /**
   The body of `distribute_votes` (voting_classes.py:45-77) on the registry's
   contents: voters start with their balance, everybody else has it to
   distribute, then at most `2 * len(people)` rounds.
   */
  method Distribute(r: Registry) returns (result: map<Name, real>)
    requires Closed(r)
    ensures result == Outcome(r).cast
  {
    var voters := VotersOf(r);
    var L := DelegateMain.Initialise(r.Keys, voters, BalancesOf(r));
    L := RunRounds(GraphOf(r), voters, L, 2 * |r.Keys|);
    OutcomeIs(r);
    result := L.cast;
  }

  /** The result has an entry for every voter and nobody else. */
  lemma ResultKeys(r: Registry)
    requires Closed(r)
    ensures Outcome(r).cast.Keys == VotersOf(r)
  {
    SnapshotPeople(r);
    DelegateMain.ResultKeys(GraphOf(r), VotersOf(r), BalancesOf(r));
  }

  /** With non-negative balances every voter ends with at least its own balance. */
  lemma VoterKeepsOwnBalance(r: Registry, v: Name)
    requires Closed(r)
    requires forall n :: n in r ==> r[n].balance >= 0.0
    requires v in VotersOf(r)
    ensures v in Outcome(r).cast && Outcome(r).cast[v] >= r[v].balance
  {
    SnapshotPeople(r);
    DelegateMain.VoterKeepsOwnBalance(GraphOf(r), VotersOf(r), BalancesOf(r), v);
  }

  /**
   Conservation: the tallies, what is still pending when the budget runs
   out and what delegate-less non-voters dropped add up to the total balance.
   */
  lemma Conservation(r: Registry)
    requires Closed(r)
    ensures var R := Outcome(r);
      var L := Start(BalancesOf(r), VotersOf(r));
      Total(R.cast) + Total(R.pending) + Lost(GraphOf(r), VotersOf(r), L, 2 * |r|) == Total(BalancesOf(r))
  {
    var g, voters, balances := GraphOf(r), VotersOf(r), BalancesOf(r);
    SnapshotPeople(r);
    assert DelegateMain.Stakes(r.Keys, balances) == balances;
    DelegateMain.Conservation(g, voters, balances);
  }

  // ---------------------------------------------------------------------------
  // The classes
  // ---------------------------------------------------------------------------

  class Person {
    const name: Name
    var balance: real
    var delegates: seq<Name>
    var isVoter: bool

    constructor (name: Name, balance: real)
      ensures this.name == name && this.balance == balance
      ensures delegates == [] && !isVoter
    {
      this.name := name;
      this.balance := balance;
      delegates := [];
      isVoter := false;
    }

    function Data(): PersonData
      reads this
    {
      PersonData(balance, delegates, isVoter)
    }

    /** `add_delegate` (voting_classes.py:10-11): append, keeping repeats. */
    method AddDelegate(delegate: Name)
      modifies this
      ensures delegates == old(delegates) + [delegate]
      ensures balance == old(balance) && isVoter == old(isVoter)
    {
      delegates := delegates + [delegate];
    }
  }

  class VotingSystem {
    var people: map<Name, Person>
    /** Every `Person` object the system has created. */
    ghost var Repr: set<Person>

    /**
     Each person is filed under its own name, every delegate name is
     registered, and all persons are in the footprint.
     */
    ghost predicate Valid()
      reads this, Repr
    {
      && people.Values <= Repr
      && (forall n :: n in people ==> people[n].name == n)
      && (forall n, d :: n in people && d in people[n].delegates ==> d in people)
    }

    /** The registry's contents as a value. */
    function View(): (r: Registry)
      reads this, people.Values
      ensures r.Keys == people.Keys
    {
      map n | n in people :: people[n].Data()
    }

    constructor ()
      ensures Valid() && View() == map[]
    {
      people := map[];
      Repr := {};
    }

    lemma ValidClosed()
      requires Valid()
      ensures Closed(View())
    {
    }

    /** Everybody filed in `before` is still filed under the same name. */
    ghost predicate Retains(before: map<Name, Person>)
      reads this
    {
      forall n :: n in before ==> n in people && people[n] == before[n]
    }

    /** `get_person` (voting_classes.py:20-25). */
    method GetPerson(name: Name, balance: real) returns (person: Person)
      requires Valid()
      modifies this, Repr
      ensures Valid() && fresh(Repr - old(Repr))
      ensures View() == Fetch(old(View()), name, balance)
      ensures name in old(people) ==> people == old(people)
      ensures name !in old(people) ==> people == old(people)[name := person]
      ensures name in people && person == people[name]
    {
      if name !in people {
        person := Enroll(name, balance);
      } else {
        person := people[name];
        if balance != 1.0 {
          Rebalance(person, balance);
        }
      }
    }

    /** Files a new person under `name`. */
    method Enroll(name: Name, balance: real) returns (person: Person)
      requires Valid() && name !in people
      modifies this
      ensures Valid() && Repr == old(Repr) + {person}
      ensures fresh(person) && people == old(people)[name := person]
      ensures View() == old(View())[name := NewPerson(balance)]
    {
      person := new Person(name, balance);
      people := people[name := person];
      Repr := Repr + {person};
      assert forall n :: n in people && n != name ==> people[n] == old(people[n]);
    }

    /** Overwrites the balance of a registered person. */
    method Rebalance(person: Person, balance: real)
      requires Valid() && person.name in people && people[person.name] == person
      modifies person
      ensures Valid()
      ensures people == old(people)
      ensures View() == old(View())[person.name := old(View())[person.name].(balance := balance)]
    {
      person.balance := balance;
      assert forall n :: n in people && n != person.name ==> people[n] != person;
    }

    /** The first loop of `setup_delegations` (voting_classes.py:28-29). */
    method SetBalances(balances: map<Name, real>)
      requires Valid()
      modifies this, Repr
      ensures Valid() && fresh(Repr - old(Repr))
      ensures View() == ApplyBalances(old(View()), balances)
      ensures Retains(old(people))
    {
      ghost var V0 := View();
      var rest := balances.Keys;
      while rest != {}
        invariant rest <= balances.Keys
        invariant Valid() && fresh(Repr - old(Repr))
        invariant View() == ApplyBalances(V0, Within(balances, balances.Keys - rest))
        invariant Retains(old(people))
        decreases rest
      {
        var n :| n in rest;
        ApplyBalancesStep(V0, balances, rest, n);
        var person := GetPerson(n, balances[n]);
        rest := rest - {n};
      }
      ApplyBalancesAll(V0, balances);
    }

    /** One delegator's turn in the second loop of `setup_delegations` (voting_classes.py:32-35). */
    method Link(who: Name, dl: seq<Name>)
      requires Valid()
      modifies this, Repr
      ensures Valid() && fresh(Repr - old(Repr))
      ensures View() == Extend(old(View()), who, dl)
      ensures Retains(old(people))
    {
      ghost var W := View();
      ExtendStart(W, who);
      var delegator := GetPerson(who, 1.0);
      for i := 0 to |dl|
        invariant Valid() && fresh(Repr - old(Repr))
        invariant View() == Extend(W, who, dl[..i])
        invariant who in people && people[who] == delegator
        invariant Retains(old(people))
      {
        ExtendPrefix(W, who, dl, i);
        AddLink(delegator, dl[i]);
      }
      assert dl[..|dl|] == dl;
    }

    /** The inner step of `setup_delegations`: `get_person(d)` then `add_delegate` (voting_classes.py:33-35). */
    method AddLink(delegator: Person, d: Name)
      requires Valid() && delegator.name in people && people[delegator.name] == delegator
      modifies this, Repr
      ensures Valid() && fresh(Repr - old(Repr))
      ensures Retains(old(people))
      ensures var E := Fetch(old(View()), d, 1.0);
        View() == E[delegator.name := E[delegator.name].(delegates := E[delegator.name].delegates + [d])]
    {
      var delegate := GetPerson(d, 1.0);
      Attach(delegator, delegate.name);
    }

    /** `delegator.add_delegate(delegate)` for a registered delegator and delegate. */
    method Attach(delegator: Person, d: Name)
      requires Valid()
      requires delegator.name in people && people[delegator.name] == delegator && d in people
      modifies delegator
      ensures Valid()
      ensures people == old(people)
      ensures var F := old(View());
        View() == F[delegator.name := F[delegator.name].(delegates := F[delegator.name].delegates + [d])]
    {
      delegator.AddDelegate(d);
      assert forall n :: n in people && n != delegator.name ==> people[n] != delegator;
    }

    /** The second loop of `setup_delegations` (voting_classes.py:31-35). */
    method LinkAll(delegations: Graph)
      requires Valid()
      modifies this, Repr
      ensures Valid() && fresh(Repr - old(Repr))
      ensures View() == ApplyDelegations(old(View()), delegations)
      ensures Retains(old(people))
    {
      ghost var V1 := View();
      NoDelegations(V1, delegations);
      var todo := delegations.Keys;
      while todo != {}
        invariant todo <= delegations.Keys
        invariant Valid() && fresh(Repr - old(Repr))
        invariant View() == ApplyDelegations(V1, Within(delegations, delegations.Keys - todo))
        invariant Retains(old(people))
        decreases todo
      {
        var who :| who in todo;
        LinkStep(V1, delegations, todo, who);
        Link(who, delegations[who]);
        todo := todo - {who};
      }
      LinkFinish(V1, delegations, todo);
    }

    /** `setup_delegations` (voting_classes.py:27-35): all balances first, then all delegate lists. */
    method SetupDelegations(delegations: Graph, balances: map<Name, real>)
      requires Valid()
      modifies this, Repr
      ensures Valid() && fresh(Repr - old(Repr))
      ensures View() == SetUp(old(View()), delegations, balances)
      ensures Retains(old(people))
    {
      SetBalances(balances);
      LinkAll(delegations);
    }

    /** `person.is_voter = flag` for the person filed under `n`. */
    method SetFlag(n: Name, flag: bool)
      requires Valid() && n in people
      modifies people[n]
      ensures Valid()
      ensures people == old(people)
      ensures View() == old(View())[n := old(View())[n].(isVoter := flag)]
    {
      people[n].isVoter := flag;
      assert forall m :: m in people && m != n ==> people[m] != people[n];
    }

    /** `set_voters` (voting_classes.py:37-42). */
    method SetVoters(votedNames: seq<Name>)
      requires Valid()
      modifies people.Values
      ensures Valid()
      ensures people == old(people)
      ensures View() == Flagged(old(View()), votedNames)
    {
      ghost var V0 := View();
      var rest := people.Keys;
      while rest != {}
        invariant rest <= people.Keys
        invariant Valid() && people == old(people)
        invariant View() == Cleared(V0, people.Keys - rest)
        decreases rest
      {
        var n :| n in rest;
        ClearedStep(V0, rest, n);
        SetFlag(n, false);
        rest := rest - {n};
      }
      ClearedAll(V0);
      for i := 0 to |votedNames|
        invariant Valid() && people == old(people)
        invariant View() == Flagged(V0, votedNames[..i])
      {
        FlaggedStep(V0, votedNames, i);
        if votedNames[i] in people {
          SetFlag(votedNames[i], true);
        }
      }
      assert votedNames[..|votedNames|] == votedNames;
    }

    /**
     `distribute_votes` (voting_classes.py:44-77): the same computation as the
     dict resolver on this registry's contents; nothing in the registry changes.
     */
    method DistributeVotes() returns (result: map<Name, real>)
      requires Valid()
      ensures result == Outcome(View()).cast
    {
      ValidClosed();
      result := Distribute(View());
    }
  }
}
