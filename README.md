# Delegated voting, modelled in Dafny

The repository resolves liquid-democracy votes in two ways.

- **Broadcast (equal-split) resolution.** Each participant either votes (is a
  terminal) or passes its whole balance on to its delegates. A non-voter's
  weight is split evenly over its delegate list, round after round. Weight
  reaching a voter stays there. Weight held by a non-voter without delegates
  is dropped. The loop is capped at twice the number of participants, so
  weight circling in a voter-free cycle is discarded. This resolver exists
  twice: as the function `distribute_votes` over plain dictionaries
  (delagate_main.py), and as `VotingSystem.distribute_votes` over `Person`
  objects with a small registry (voting_classes.py).
- **Weighted (proportional) resolution** (delegated_voting.py). A `Voter`
  commits parts of its stake to "yes" and "no". The commitments never exceed
  the stake. `VotingSystem.calculate_results` runs a fixed-point iteration
  with simultaneous updates: every voter's uncommitted stake is split in the
  ratio of its delegates' combined yes/no power from the previous iteration.
  The loop stops when the total change falls below a tolerance, or after
  `max_iterations` iterations.

The Dafny project has these modules:

| module | file | contents |
|---|---|---|
| `Sums` | sums.dfy | default-zero map reads (`Get`), the `+=` of a `defaultdict(float)` (`Credit`), order-free sums over finite sets |
| `Broadcast` | broadcast.dfy | the equal-split round shared by both broadcast resolvers, as functions; the round and the round loop as methods; conservation, keys, monotonicity, draining and isolation lemmas |
| `DelegateMain` | delegate_main.dfy | `distribute_votes` of delagate_main.py as a method with its loops |
| `VotingClasses` | voting_classes.dfy | the registry as a value, the `Person` and `VotingSystem` classes with methods proved against it, and `distribute_votes` over a snapshot |
| `Weighted` | weighted.dfy | the proportional resolver as pure functions, with the vote rule, per-voter power and the iteration |
| `Resolver` | resolver.dfy | the loops of `_calculate_voter_power` and `calculate_results` as methods over the voters' contents, each proved equal to its function in `Weighted` |
| `DelegatedVoting` | delegated_voting.dfy | the `Voter` and `VotingSystem` classes of delegated_voting.py |
| `WeightedScenario` | weighted_scenario.dfy | the scenario of test_delegated_voting.py, computed exactly |

Modelling conventions:

- Python floats are Dafny `real`. Every division is a ratio of reals.
- A `defaultdict(float)` is a `map` read through `Get`, which returns 0.0 for a missing key. Its `+=` is `Credit`, which creates the entry.
- Participants are identified by name. The `Person` objects of voting_classes.py keep their delegates as names. The registry is a name-keyed map of `Person` objects.
- Python iterates dictionaries in insertion order, but a set in an order that depends on hashing. String hashes are randomized per process, so the order of `all_people` (delagate_main.py:8-11, iterated at lines 15 and 19) and hence the key order of `votes_to_distribute` can differ from run to run. The methods pick the next element with `:|`, so the proofs hold for every order. The round functions are proved independent of the order (`Broadcast.RoundFromAnyFirst`).
- A raised `ValueError` in `Voter.vote` becomes a returned error value. A rejected vote leaves the voter unchanged.

Behaviours of the code worth knowing:

- `add_voter` is first-write-wins: an existing voter keeps its stake (delegated_voting.py:56-58).
- `add_delegate` accepts names that are not registered (delegated_voting.py:13-15). Unregistered names are ignored when power is computed (delegated_voting.py:71).
- Stakes and balances are not checked to be non-negative. Lemmas that need non-negativity take it as a precondition.
- `get_person` overwrites an existing person's balance only when the argument is not 1.0 (voting_classes.py:23-24). So `setup_delegations` cannot reset a balance back to 1.0.

## Model

| member | source | states |
|---|---|---|
| Sums.Credit | delegated_voting.py:82-83 | `m[k] += x` on a defaultdict: the key set gains `k`, `k` reads its old value plus `x`, every other key is unchanged |
| Broadcast.Spread | delagate_main.py:39-45 | serving a delegate list never removes an entry; new result entries are voters only and new pending entries are non-voters only |
| Broadcast.SpreadValues | delagate_main.py:39-45 | after one delegate list is served, each name's received amount is its old amount plus `share` times the number of times it is listed, on the voter side or on the pending side |
| Broadcast.SpreadKeys | delagate_main.py:40-45 | listed voters gain result entries and listed non-voters gain pending entries, and nothing else gains one |
| Broadcast.SpreadTotal | delagate_main.py:39-45 | the shares handed out for one list add up to `share × len(list)`, i.e. the forwarded weight |
| Broadcast.SpreadShares | delagate_main.py:40-45 | the loop over one delegate list computes `Spread` |
| Broadcast.Send | delagate_main.py:34-45 | one sender's turn never removes an entry; new result entries are voters only and new pending entries are non-voters only |
| Broadcast.SendTotal | delagate_main.py:34-45 | one sender adds its weight to the totals when it has delegates and adds nothing (drops the weight) when it has none |
| Broadcast.Round | delagate_main.py:30-47 | a round never removes a result entry, adds result entries only for voters, and leaves no voter holding weight to distribute |
| Broadcast.RoundFromAnyFirst | delagate_main.py:32-45 | a round gives the same ledger whichever pending sender is served first |
| Broadcast.RoundCastKeys | delagate_main.py:41-42 | after a round the result keys are the old ones plus the voters named by some sender |
| Broadcast.RoundPendingKeys | delagate_main.py:43-47 | after a round exactly the named non-voters hold weight to distribute |
| Broadcast.RoundConserves | delagate_main.py:30-47 | results plus pending after a round equal results plus pending before, minus the weight of senders without delegates |
| Broadcast.RunRound | delagate_main.py:30-47 | the round loop over all pending senders computes `Round` |
| Broadcast.Resolve | delagate_main.py:24-28 | over the capped rounds the result entries only grow, and only by voters |
| Broadcast.ResolveStep | delagate_main.py:26-28 | with rounds left and weight pending, resolution is one round followed by the rest |
| Broadcast.ResolveDone | delagate_main.py:26-28 | with no rounds left or nothing pending, resolution returns the ledger unchanged |
| Broadcast.RunRounds | delagate_main.py:24-47 | the capped loop with its early exit computes `Resolve` for the given number of rounds |
| Broadcast.Lost | delagate_main.py:24-47 | the weight dropped over the run is exactly what conservation leaves over: final results plus weight still pending plus it equal the starting total |
| Broadcast.ResolveKeys | delagate_main.py:14-17 | when the start already lists every reachable voter, resolution adds no result key and no voter ever holds pending weight |
| Broadcast.RoundGrows | delagate_main.py:41-42 | with non-negative pending weight, no voter's result decreases in a round |
| Broadcast.ResolveGrows | delagate_main.py:41-42 | over any number of rounds no voter's result decreases and pending weight stays non-negative |
| Broadcast.ResolveDrains | delagate_main.py:24-28 | when non-voters can be ranked so that delegation strictly lowers rank, nothing is pending after as many rounds as ranks |
| Broadcast.RoundIsolated | delagate_main.py:40-45 | a round whose senders name no voter leaves the results unchanged |
| Broadcast.ResolveIsolated | delagate_main.py:24-47 | weight trapped in a set of non-voters that delegates only inside itself never reaches a result |
| DelegateMain.Stakes | delagate_main.py:17-19 | every participant's balance, 1.0 when `balances` has no entry |
| DelegateMain.Outcome | delagate_main.py:7-49 | every participant that voted has a result entry, and only names that voted have one |
| DelegateMain.CollectPeople | delagate_main.py:8-11 | the participants are the delegation keys, every listed delegate and every balance key |
| DelegateMain.Initialise | delagate_main.py:14-19 | voters start with their own balance as a result and never as pending weight; every non-voter starts with its full balance pending |
| DelegateMain.DistributeVotes | delagate_main.py:7-49 | the result is the voters' entries after at most twice as many rounds as participants of `Round` from the start ledger |
| DelegateMain.TargetsWithin | delagate_main.py:8-11 | every delegate any sender names is a participant |
| DelegateMain.ResultKeys | delagate_main.py:14-17 | result keys are exactly the participants that voted; voted names outside the participant set get no entry |
| DelegateMain.VoterKeepsOwnBalance | delagate_main.py:15-17 | with non-negative balances every participating voter has a result of at least its own balance |
| DelegateMain.Conservation | delagate_main.py:24-47 | the total result plus what is still pending plus the dropped weight equals the total balance |
| DelegateMain.AcyclicLosesOnlyDropped | delagate_main.py:24-47 | when the non-voter delegation graph is acyclic, nothing is left pending and the result total is the total balance minus the dropped weight |
| DelegateMain.NoVoterNamed | delagate_main.py:15-17 | when no non-voter names a voter, every voter's result is exactly its own balance |
| VotingClasses.Fetch | voting_classes.py:20-25 | `get_person` registers the name, keeps an existing person's delegates and voter flag, and changes nobody else |
| VotingClasses.FetchEffect | voting_classes.py:20-25 | `get_person` adds a missing name with the given balance; an existing person keeps its delegates and flag and changes balance only when the argument is not 1.0; others are untouched |
| VotingClasses.FetchIdempotent | voting_classes.py:20-25 | calling `get_person` twice with the same arguments equals calling it once |
| VotingClasses.FetchClosed | voting_classes.py:20-25 | `get_person` keeps every listed delegate registered |
| VotingClasses.ApplyBalances | voting_classes.py:28-29 | applying the balances registers every balance key |
| VotingClasses.SetUp | voting_classes.py:27-35 | after `setup_delegations` the registry holds exactly the old names, every balance key, every delegator and every listed delegate |
| VotingClasses.SetUpKeys | voting_classes.py:27-35 | after `setup_delegations` the registry holds the old names, every balance key, every delegator and every listed delegate |
| VotingClasses.SetUpBalance | voting_classes.py:27-35 | a balance from `balances` is set when it is not 1.0 or the name is new; otherwise the old balance stays, and new delegates start at 1.0; voter flags are unchanged |
| VotingClasses.SetUpDelegates | voting_classes.py:31-35 | each delegator's list is its old list followed by its new delegates, in order and with repeats |
| VotingClasses.SetUpClosed | voting_classes.py:27-35 | `setup_delegations` keeps every listed delegate registered |
| VotingClasses.Flagged | voting_classes.py:37-42 | `set_voters` changes no name, balance or delegate list |
| VotingClasses.FlaggedVoters | voting_classes.py:37-42 | after `set_voters` the voters are exactly the registered names in the list |
| VotingClasses.SnapshotPeople | voting_classes.py:44-54 | over a closed registry, the dict resolver's participant set is exactly the registered names |
| VotingClasses.OutcomeIs | voting_classes.py:44-77 | the class resolver is the shared resolver on the registry's graph, voters and balances with `2 × len(people)` rounds |
| VotingClasses.Distribute | voting_classes.py:44-77 | the round loops over a registry snapshot compute `Outcome` |
| VotingClasses.ResultKeys | voting_classes.py:45-48 | result keys are exactly the registered voters |
| VotingClasses.VoterKeepsOwnBalance | voting_classes.py:45-48 | with non-negative balances each voter's result is at least its own balance |
| VotingClasses.Conservation | voting_classes.py:56-75 | the total result plus the still-pending weight plus the dropped weight equals the total balance |
| VotingClasses.Person.constructor | voting_classes.py:4-8 | a new person has the given name and balance, no delegates and is not a voter |
| VotingClasses.Person.AddDelegate | voting_classes.py:10-11 | appends one delegate and changes nothing else |
| VotingClasses.VotingSystem.constructor | voting_classes.py:17-18 | the registry starts empty |
| VotingClasses.VotingSystem.GetPerson | voting_classes.py:20-25 | the registry becomes `Fetch` of the old one; the returned person is the one filed under the name; an existing object is reused |
| VotingClasses.VotingSystem.Enroll | voting_classes.py:21-22 | a fresh person with the balance is filed under the new name |
| VotingClasses.VotingSystem.Rebalance | voting_classes.py:23-24 | only that person's balance changes |
| VotingClasses.VotingSystem.SetBalances | voting_classes.py:28-29 | the loop over balances leaves the registry as `ApplyBalances` of the old one; every person already filed keeps its name and object |
| VotingClasses.VotingSystem.Link | voting_classes.py:32-35 | one delegator's list is extended in order, creating missing delegates with balance 1.0; every person already filed keeps its name and object |
| VotingClasses.VotingSystem.AddLink | voting_classes.py:34-35 | one `get_person` then one `add_delegate` on the delegator; every person already filed keeps its name and object |
| VotingClasses.VotingSystem.Attach | voting_classes.py:35 | appends a registered delegate to the delegator's list and changes nothing else |
| VotingClasses.VotingSystem.LinkAll | voting_classes.py:31-35 | the loop over delegations leaves the registry as `ApplyDelegations` of the old one; every person already filed keeps its name and object |
| VotingClasses.VotingSystem.SetupDelegations | voting_classes.py:27-35 | the registry becomes `SetUp` of the old one; every person already filed keeps its name and object |
| VotingClasses.VotingSystem.SetFlag | voting_classes.py:39 | only that person's voter flag changes |
| VotingClasses.VotingSystem.SetVoters | voting_classes.py:37-42 | the two loops leave the registry as `Flagged` of the old one, with the same objects |
| VotingClasses.VotingSystem.DistributeVotes | voting_classes.py:44-77 | the result is `Outcome` of the registry, and the registry is not modified |
| Weighted.ParseChoice | delegated_voting.py:21-22 | a string parses exactly when it is "yes" or "no", and a parsed choice names the string it came from |
| Weighted.ParseChoiceName | delegated_voting.py:21-22 | only "yes" and "no" are accepted choices, and each parses back to its own choice |
| Weighted.ChoiceKeys | delegated_voting.py:21-22 | a commitment map holds only the two choices |
| Weighted.Committed | delegated_voting.py:35-37 | `get_committed_stake` is the sum of all commitments |
| Weighted.Uncommitted | delegated_voting.py:39-41 | `get_uncommitted_stake` is stake minus the sum of commitments, and is non-negative exactly when commitments do not exceed stake |
| Weighted.Commit | delegated_voting.py:17-33 | an invalid choice fails first, then a negative amount; otherwise the vote succeeds exactly when the other commitments plus the amount fit in the stake; it replaces that choice's commitment, keeps the other, and the total stays within stake |
| Weighted.CommitSound | delegated_voting.py:29-33 | a voter whose commitments fit its stake still fits after any vote, accepted or rejected |
| Weighted.DelegatedPower | delegated_voting.py:69-73 | the delegates' combined power is non-negative for a non-negative distribution, and zero when every listed delegate is unregistered or powerless |
| Weighted.VoterPower | delegated_voting.py:60-85 | a voter's power holds its own commitments' choices, plus both yes and no exactly when it passes on uncommitted stake |
| Weighted.VoterPowerOwn | delegated_voting.py:62-78 | a voter's power is exactly its commitments if and only if it has no delegates, no uncommitted stake, or delegates with no combined power |
| Weighted.VoterPowerSplit | delegated_voting.py:75-85 | when the voter delegates, its power totals exactly its stake (the added parts sum to the uncommitted stake) and, for a non-negative distribution, each part is at least the commitment |
| Weighted.SplitAddsStake | delegated_voting.py:79-83 | splitting `u` in any positive ratio adds exactly `u` to the total |
| Weighted.VoterPowerBounded | delegated_voting.py:60-85 | for a voter within stake and a non-negative distribution, yes and no are non-negative and yes+no is at most the stake |
| Weighted.Step | delegated_voting.py:100-102 | every registered voter gets a next entry, computed from the previous map only |
| Weighted.ChangeAtLeast | delegated_voting.py:105-108 | the total change is at least any single voter's change |
| Weighted.StepBounded | delegated_voting.py:99-102 | one iteration keeps every voter's power non-negative and within its stake |
| Weighted.Iterate | delegated_voting.py:99-113 | from sound voters and a bounded start, any number of iterations keeps every voter's power non-negative and within its stake |
| Weighted.IterateStops | delegated_voting.py:110-111 | when the change is below the tolerance the loop stops with the previous map, not the new one |
| Weighted.IterateGoesOn | delegated_voting.py:110-113 | otherwise the loop continues from the new map with one iteration fewer |
| Weighted.IterateStable | delegated_voting.py:99-113 | once an iteration changes nothing, any positive tolerance ends the loop at that map |
| Weighted.TallyOf | delegated_voting.py:115-121 | a choice's tally is non-negative over a non-negative distribution |
| Weighted.Results | delegated_voting.py:93-95 | an empty system returns an empty tally; otherwise the tally has exactly the keys yes and no |
| Weighted.ResultsWithinStake | delegated_voting.py:116-121 | when every voter is within stake, both tallies are non-negative and yes+no is at most the total stake |
| Weighted.TallyBounded | delegated_voting.py:115-121 | over a distribution bounded by the stakes both tallies are non-negative and add up to at most the total stake |
| Weighted.DelegatedPowerPrefix | delegated_voting.py:70-73 | one more delegate adds its power when it is registered and nothing otherwise |
| Weighted.VoterPowerCases | delegated_voting.py:65-83 | the voter's power by the three guards of `_calculate_voter_power` |
| Weighted.SplitIs | delegated_voting.py:79-83 | the split is the two `+=` of `uncommitted_stake * ratio` |
| Weighted.ChangeStep | delegated_voting.py:106-108 | the two `+=` for one more voter extend the total change by that voter's change |
| Weighted.TallyAdd | delegated_voting.py:117-119 | the two `+=` for one more voter extend the tally to that voter |
| Weighted.TallyDone | delegated_voting.py:116-121 | over all voters of a non-empty system the running tally is the final tally |
| Resolver.PowerOfVoter | delegated_voting.py:60-85 | the body of `_calculate_voter_power` computes `VoterPower` |
| Resolver.DelegatedSums | delegated_voting.py:69-73 | the delegate loop computes both combined powers |
| Resolver.NextOf | delegated_voting.py:100-102 | the loop over voters computes the next distribution `Step`, whatever the order |
| Resolver.ChangeOf | delegated_voting.py:104-108 | the change loop computes the total change |
| Resolver.TallyOver | delegated_voting.py:115-121 | the tally loop computes both per-choice sums |
| Resolver.ResultsOf | delegated_voting.py:87-121 | the whole of `calculate_results` computes `Results` |
| DelegatedVoting.Voter.constructor | delegated_voting.py:7-11 | a new voter has the name and stake, no commitments and no delegates |
| DelegatedVoting.Voter.AddDelegate | delegated_voting.py:13-15 | appends the name, keeping repeats, and changes nothing else |
| DelegatedVoting.Voter.Vote | delegated_voting.py:17-33 | an accepted vote sets the commitments to `Commit`'s result; a rejected one returns `Commit`'s error and changes nothing; the stake and delegates never change |
| DelegatedVoting.VotingSystem.constructor | delegated_voting.py:51-52 | the system starts with no voters |
| DelegatedVoting.VotingSystem.AddVoter | delegated_voting.py:54-58 | first write wins: an existing voter is returned unchanged; a new name gets a fresh voter with the stake, no commitments and no delegates |
| DelegatedVoting.VotingSystem.CalculateVoterPower | delegated_voting.py:60-85 | returns `VoterPower` over the registered names |
| DelegatedVoting.VotingSystem.CalculateResults | delegated_voting.py:87-121 | returns `Results` of the registered voters |
| WeightedScenario.Votes | test_delegated_voting.py:19-32 | the three votes of the scenario are accepted |
| WeightedScenario.ScenarioIterations | test_delegated_voting.py:41 | with 100 iterations and tolerance 1e-6 the iteration settles on the exact scenario distribution |
| WeightedScenario.CastResults | test_delegated_voting.py:41-63 | for any eight distinct names the tally is yes = 2690/13 (≈ 206.92) and no = 950/13 (≈ 73.08), the total stake is 330 and 50 is lost |
| WeightedScenario.ScenarioResults | test_delegated_voting.py:5-63 | the same for the names Alice … Harry |

## Left out

- The pygame drawing, event handling, networkx layout and arrow geometry of delagate_main.py (`draw_graph`, lines 52-210): user interface and third-party libraries.
- Reading and writing `node_positions.json` (delagate_main.py:66-79, 205-208): file I/O.
- The demo data in `__main__` (delagate_main.py:213-278) and the debug `print`s (delagate_main.py:21-22): setup and output only.
- test_performance.py: random graph generation, wall-clock timing and CSV output.
- `__repr__` of `Voter` and `Person`: string formatting only.
- IEEE float rounding and the `float(...)` conversions (delegated_voting.py:9, 24): all amounts are exact reals, so the scenario's 206.92 and 73.08 are proved as 2690/13 and 950/13.
- Key creation by a `defaultdict` read (delegated_voting.py:29, 72-73, 107-108): it adds zero entries that change no sum or result. Reads go through `Get` and `PowerOf`, which return 0.0 and create nothing.
- Object identity of `Person` (voting_classes.py:35, 51, 73): delegates are kept as names, and the registry keeps each name filed under its own object. Two registries holding the same object are not modelled.
- Negative `max_iterations`: the iteration count is a natural number. A negative Python argument makes `range` empty, which behaves like 0.
- Default arguments (`stake=0.0`, `balance=1.0`, `max_iterations=100`, `tolerance=1e-6`): every caller passes the value explicitly.
- VotingClasses.VotingSystem.DistributeVotes: resolves a snapshot of the registry as a value. The resolver loops run over that snapshot, not over the `Person` objects themselves.
