/** Worked draws over a small contest: whatever order the shuffle produces,
    the handler's answer is fixed by the pool size and the prize capacity. */
module DrawScenarios {
  import opened Common
  import opened Draws

  /** Five distinct validated participants of contest 1. */
  predicate FiveEntrants(ps: seq<Participant>) {
    |ps| == 5 && DistinctIds(ps) &&
    forall i :: 0 <= i < |ps| ==> ps[i].contestId == 1 && ps[i].validated
  }

  /** Contest 1's prizes: quantities 2 and 1, so three slots. */
  function TwoPrizes(): seq<Prize> {
    [Prize(1, 1, Some(2)), Prize(2, 1, Some(1))]
  }

  /** A fresh store: no draws, no winners yet. */
  function Fresh(participants: seq<Participant>, prizes: seq<Prize>): Tables {
    Tables(participants, prizes, [], [], 1, 1)
  }

  function Ask(n: int): Request {
    Request(Some(1), Some("operator"), Some(n), None)
  }

  lemma FiveInPool(ps: seq<Participant>)
    requires FiveEntrants(ps)
    ensures |EligiblePool(ps, 1)| == 5
  {
    FilterAll(ps, EligibleFor(1));
    assert |multiset(EligiblePool(ps, 1))| == |multiset(ps)|;
  }

  lemma NoneInPool(ps: seq<Participant>)
    requires forall i :: 0 <= i < |ps| && ps[i].contestId == 1 ==> !ps[i].validated
    ensures EligiblePool(ps, 1) == []
  {
    FilterNone(ps, EligibleFor(1));
  }

  lemma ThreeSlots()
    ensures TotalPrizeSlots(TwoPrizes(), 1) == 3
  {
    var ps := TwoPrizes();
    FilterAll(ps, PrizeOf(1));
    assert ps[..1][..0] == [];
    assert SumSlots(ps[..1]) == 2;
  }

  /** A store without draws has every slot of a contest left. */
  lemma FreshRemaining(prizes: seq<Prize>, c: int)
    ensures RemainingSlots(prizes, [], [], c) == TotalPrizeSlots(prizes, c)
  {
    assert Filter([], InDraws(DrawIdsOf([], c))) == [];
  }

  lemma FreshIsConsistent(participants: seq<Participant>, prizes: seq<Prize>)
    requires DistinctIds(participants)
    ensures Consistent(Fresh(participants, prizes))
  {
    assert forall c :: Filter([], InDraws(DrawIdsOf([], c))) == [];
  }

  /** Three slots, five entrants, three asked for: three distinct winners
      taken from the entrants, and no slot left afterwards. */
  lemma ScenarioA(ps: seq<Participant>, perm: seq<nat>)
    requires FiveEntrants(ps) && IsPermutation(perm, 5)
    ensures var t := Fresh(ps, TwoPrizes());
      IsPermutation(perm, |PoolFor(t, Some(1))|) &&
      var r := Attempt(t, true, Ask(3), perm);
      && r.Executed?
      && |r.winners| == 3
      && DistinctWinners(r.winners)
      && (forall i :: 0 <= i < 3 ==> exists j :: 0 <= j < 5 && r.winners[i].participantId == ps[j].participantId)
      && RemainingSlots(TwoPrizes(), Apply(t, r).draws, Apply(t, r).winners, 1) == 0
  {
    var t := Fresh(ps, TwoPrizes());
    FiveInPool(ps);
    ThreeSlots();
    FreshRemaining(TwoPrizes(), 1);
    FreshIsConsistent(ps, TwoPrizes());
    var pool := EligiblePool(ps, 1);
    AttemptChecks(t, true, Ask(3), perm);
    AttemptWinners(t, true, Ask(3), perm);
    AttemptKeepsConsistent(t, true, Ask(3), perm);
    var r := Attempt(t, true, Ask(3), perm);
    forall i | 0 <= i < 3
      ensures exists j :: 0 <= j < 5 && r.winners[i].participantId == ps[j].participantId
    {
      var p := pool[perm[i]];
      assert p in ps;
      var j :| 0 <= j < 5 && ps[j] == p;
    }
  }

  /** After scenario A, one more winner is refused: one asked, none left. */
  lemma ScenarioB(ps: seq<Participant>, permA: seq<nat>, permB: seq<nat>)
    requires FiveEntrants(ps) && IsPermutation(permA, 5) && IsPermutation(permB, 5)
    ensures var t := Fresh(ps, TwoPrizes());
      IsPermutation(permA, |PoolFor(t, Some(1))|) &&
      var t' := Apply(t, Attempt(t, true, Ask(3), permA));
      IsPermutation(permB, |PoolFor(t', Some(1))|) &&
      Attempt(t', true, Ask(1), permB) == Rejected(NotEnoughPrizes(1, 0))
  {
    ScenarioA(ps, permA);
  }

  /** A contest without validated participants refuses any draw, whatever
      the other contests hold. */
  lemma ScenarioC(ps: seq<Participant>, prizes: seq<Prize>, n: int)
    requires forall i :: 0 <= i < |ps| && ps[i].contestId == 1 ==> !ps[i].validated
    requires n > 0
    ensures var t := Fresh(ps, prizes);
      PoolFor(t, Some(1)) == [] &&
      Attempt(t, true, Ask(n), []) == Rejected(NoValidatedParticipants)
  {
    NoneInPool(ps);
  }

  /** Four asked of five entrants with two slots: refused, reporting both. */
  lemma ScenarioD(ps: seq<Participant>, perm: seq<nat>)
    requires FiveEntrants(ps) && IsPermutation(perm, 5)
    ensures var t := Fresh(ps, [Prize(1, 1, Some(2))]);
      IsPermutation(perm, |PoolFor(t, Some(1))|) &&
      Attempt(t, true, Ask(4), perm) == Rejected(NotEnoughPrizes(4, 2))
  {
    var prizes := [Prize(1, 1, Some(2))];
    FiveInPool(ps);
    FilterAll(prizes, PrizeOf(1));
    assert prizes[..0] == [];
    FreshRemaining(prizes, 1);
  }
}
