/** The draw-execution handler (`POST /api/draws/execute`): the participant,
    prize, draw and winner tables as an in-memory ledger, and `Execute`,
    which validates a request, computes the eligible pool and the remaining
    prize capacity, and on success appends one draw row and its winner rows. */
module Draws {
  import opened Common

  datatype Participant = Participant(participantId: int, contestId: int, validated: bool,
                                     entryTimestamp: int, name: Option<string>)

  datatype Prize = Prize(prizeId: int, contestId: int, quantity: Option<int>)

  datatype Draw = Draw(drawId: int, contestId: int, drawMode: string,
                       executedBy: Option<string>, totalWinners: int)

  datatype Winner = Winner(winnerId: int, drawId: int, participantId: int,
                           winnerName: Option<string>, prizeId: Option<int>,
                           prizeStatus: string, notified: bool)

  const RandomMode: string := "RANDOM"
  const PendingStatus: string := "PENDING"

  /** The handler's early returns; all but the first answer HTTP 400. */
  datatype DrawError =
    | NotConfigured                                    // the store credentials are missing (500)
    | MissingContestOrCount                            // "Missing contestId or numberOfWinners"
    | NoValidatedParticipants                          // "No validated participants found"
    | TooManyWinners                                   // "Number of winners cannot exceed participants"
    | NotEnoughPrizes(requested: int, remaining: int)  // "Not enough prizes remaining. Requested ..."

  datatype Outcome = Executed(draw: Draw, winners: seq<Winner>) | Rejected(error: DrawError)

  // ---------------------------------------------------------------------------
  // Request validation

  /** The check `!contestId || !numberOfWinners` as written: only an absent
      or zero count is refused, so a negative count gets through. */
  predicate RequestAcceptedAsWritten(contestId: Option<int>, numberOfWinners: Option<int>) {
    TruthyInt(contestId) && TruthyInt(numberOfWinners)
  }

  /** The check as intended: a contest id and a positive count. */
  predicate ValidRequest(contestId: Option<int>, numberOfWinners: Option<int>) {
    TruthyInt(contestId) && numberOfWinners.Some? && numberOfWinners.value > 0
  }

  /** The end index `Array.prototype.slice(0, end)` uses: a negative end
      counts back from the end of the array. */
  function SliceEnd(len: nat, end: int): (e: nat)
    ensures e <= len
    ensures end >= 0 ==> e == if end < len then end else len
    ensures end < 0 ==> e == if len + end > 0 then len + end else 0
  {
    if end < 0 then (if len + end > 0 then len + end else 0)
    else if end > len then len
    else end
  }

  // ---------------------------------------------------------------------------
  // The eligible pool: validated participants of the contest by entry time

  function EligibleFor(c: int): Participant -> bool {
    (p: Participant) => p.contestId == c && p.validated
  }

  predicate SortedByEntry(s: seq<Participant>) {
    forall i, j :: 0 <= i < j < |s| ==> s[i].entryTimestamp <= s[j].entryTimestamp
  }

  /** Participant ids are a primary key. */
  predicate DistinctIds(s: seq<Participant>) {
    forall i, j :: 0 <= i < j < |s| ==> s[i].participantId != s[j].participantId
  }

  /** Inserts `p` before the first later entry (so ties keep their order). */
  function InsertByEntry(p: Participant, s: seq<Participant>): (r: seq<Participant>)
    ensures multiset(r) == multiset(s) + multiset{p}
  {
    if s == [] then [p]
    else if p.entryTimestamp <= s[0].entryTimestamp then [p] + s
    else
      assert s == [s[0]] + s[1..];
      [s[0]] + InsertByEntry(p, s[1..])
  }

  lemma {:induction false} InsertSorted(p: Participant, s: seq<Participant>)
    requires SortedByEntry(s)
    ensures SortedByEntry(InsertByEntry(p, s))
  {
    if s != [] && p.entryTimestamp > s[0].entryTimestamp {
      InsertSorted(p, s[1..]);
      var rest := InsertByEntry(p, s[1..]);
      forall j | 0 <= j < |rest| ensures s[0].entryTimestamp <= rest[j].entryTimestamp {
        assert rest[j] in multiset(rest);
        assert rest[j] == p || rest[j] in s[1..];
      }
    }
  }

  /** `order('entry_timestamp', { ascending: true })`, as a stable sort. */
  function SortByEntry(s: seq<Participant>): (r: seq<Participant>)
    ensures multiset(r) == multiset(s)
    ensures SortedByEntry(r)
  {
    if s == [] then [] else
      assert s == [s[0]] + s[1..];
      InsertSorted(s[0], SortByEntry(s[1..]));
      InsertByEntry(s[0], SortByEntry(s[1..]))
  }

  /** The eligible pool: exactly the contest's validated participants, each
      as often as in the table, in ascending entry-time order. */
  function EligiblePool(ps: seq<Participant>, c: int): (pool: seq<Participant>)
    ensures SortedByEntry(pool)
    ensures forall p :: multiset(pool)[p] == if p.contestId == c && p.validated then multiset(ps)[p] else 0
    ensures forall p :: p in pool <==> p in ps && p.contestId == c && p.validated
  {
    FilterSpec(ps, EligibleFor(c));
    SortByEntry(Filter(ps, EligibleFor(c)))
  }

  lemma {:induction false} FilterKeepsDistinct(s: seq<Participant>, p: Participant -> bool)
    requires DistinctIds(s)
    ensures DistinctIds(Filter(s, p))
  {
    if s != [] {
      FilterKeepsDistinct(s[1..], p);
      var rest := Filter(s[1..], p);
      FilterSpec(s[1..], p);
      forall j | 0 <= j < |rest| ensures rest[j].participantId != s[0].participantId {
        assert rest[j] in s[1..];
      }
    }
  }

  lemma {:induction false} InsertKeepsDistinct(p: Participant, s: seq<Participant>)
    requires DistinctIds(s)
    requires forall k :: 0 <= k < |s| ==> s[k].participantId != p.participantId
    ensures DistinctIds(InsertByEntry(p, s))
  {
    if s != [] && p.entryTimestamp > s[0].entryTimestamp {
      InsertKeepsDistinct(p, s[1..]);
      var rest := InsertByEntry(p, s[1..]);
      forall j | 0 <= j < |rest| ensures rest[j].participantId != s[0].participantId {
        assert rest[j] in multiset(rest);
        assert rest[j] == p || rest[j] in s[1..];
      }
    }
  }

  lemma {:induction false} SortKeepsDistinct(s: seq<Participant>)
    requires DistinctIds(s)
    ensures DistinctIds(SortByEntry(s))
  {
    if s != [] {
      SortKeepsDistinct(s[1..]);
      var sorted := SortByEntry(s[1..]);
      forall k | 0 <= k < |sorted| ensures sorted[k].participantId != s[0].participantId {
        assert sorted[k] in multiset(s[1..]);
      }
      InsertKeepsDistinct(s[0], sorted);
    }
  }

  /** No participant appears twice in the pool. */
  lemma EligiblePoolDistinct(ps: seq<Participant>, c: int)
    requires DistinctIds(ps)
    ensures DistinctIds(EligiblePool(ps, c))
  {
    FilterKeepsDistinct(ps, EligibleFor(c));
    SortKeepsDistinct(Filter(ps, EligibleFor(c)));
  }

  // ---------------------------------------------------------------------------
  // Capacity accounting

  /** `p.quantity || 0`. */
  function Slots(p: Prize): int {
    if p.quantity.Some? then p.quantity.value else 0
  }

  /** `reduce((sum, p) => sum + (p.quantity || 0), 0)`. */
  function SumSlots(ps: seq<Prize>): int {
    if ps == [] then 0 else SumSlots(ps[..|ps| - 1]) + Slots(ps[|ps| - 1])
  }

  function PrizeOf(c: int): Prize -> bool {
    (p: Prize) => p.contestId == c
  }

  /** The sum of the quantities of the contest's prizes. */
  function TotalPrizeSlots(prizes: seq<Prize>, c: int): int {
    SumSlots(Filter(prizes, PrizeOf(c)))
  }

  lemma {:induction false} SumSlotsNonNegative(ps: seq<Prize>)
    requires forall i :: 0 <= i < |ps| ==> Slots(ps[i]) >= 0
    ensures SumSlots(ps) >= 0
  {
    if ps != [] {
      SumSlotsNonNegative(ps[..|ps| - 1]);
    }
  }

  /** A contest's capacity is never negative when no quantity is. */
  lemma TotalPrizeSlotsNonNegative(prizes: seq<Prize>, c: int)
    requires forall i :: 0 <= i < |prizes| ==> Slots(prizes[i]) >= 0
    ensures TotalPrizeSlots(prizes, c) >= 0
  {
    var f := Filter(prizes, PrizeOf(c));
    FilterSpec(prizes, PrizeOf(c));
    forall i | 0 <= i < |f| ensures Slots(f[i]) >= 0 {
      assert f[i] in prizes;
    }
    SumSlotsNonNegative(f);
  }

  /** `drawsForContest.map(d => d.draw_id)`: the ids of the contest's draws. */
  function DrawIdsOf(draws: seq<Draw>, c: int): (ids: seq<int>)
    ensures forall id :: id in ids <==> exists d :: d in draws && d.contestId == c && d.drawId == id
  {
    if draws == [] then []
    else
      assert forall d :: d in draws <==> d == draws[0] || d in draws[1..];
      (if draws[0].contestId == c then [draws[0].drawId] else []) + DrawIdsOf(draws[1..], c)
  }

  lemma {:induction false} DrawIdsOfAppend(draws: seq<Draw>, d: Draw, c: int)
    ensures DrawIdsOf(draws + [d], c) ==
            DrawIdsOf(draws, c) + (if d.contestId == c then [d.drawId] else [])
  {
    if draws == [] {
      assert draws + [d] == [d];
    } else {
      var e, rest := draws[0], draws[1..];
      assert (draws + [d])[0] == e;
      assert (draws + [d])[1..] == rest + [d];
      var own := if e.contestId == c then [e.drawId] else [];
      var tail := if d.contestId == c then [d.drawId] else [];
      calc {
        DrawIdsOf(draws + [d], c);
        own + DrawIdsOf(rest + [d], c);
        { DrawIdsOfAppend(rest, d, c); }
        own + (DrawIdsOf(rest, c) + tail);
        own + DrawIdsOf(rest, c) + tail;
        DrawIdsOf(draws, c) + tail;
      }
    }
  }

  function InDraws(ids: seq<int>): Winner -> bool {
    (w: Winner) => w.drawId in ids
  }

  function InDraw(id: int): Winner -> bool {
    (w: Winner) => w.drawId == id
  }

  /** The winner rows whose draw belongs to the contest. */
  function WinnersOfContest(draws: seq<Draw>, winners: seq<Winner>, c: int): nat {
    |Filter(winners, InDraws(DrawIdsOf(draws, c)))|
  }

  /** The winner rows of one draw (`select ... eq('draw_id', id)`). */
  function WinnersOfDraw(winners: seq<Winner>, id: int): seq<Winner> {
    Filter(winners, InDraw(id))
  }

  /** `totalPrizeSlots - existingWinnersCount`. */
  function RemainingSlots(prizes: seq<Prize>, draws: seq<Draw>, winners: seq<Winner>, c: int): int {
    TotalPrizeSlots(prizes, c) - WinnersOfContest(draws, winners, c)
  }

  // ---------------------------------------------------------------------------
  // Winner selection and winner rows

  /** `perm` lists each index below `n` exactly once. */
  predicate IsPermutation(perm: seq<nat>, n: nat) {
    && IndicesBelow(perm, n)
    && (forall i, j :: 0 <= i < j < n ==> perm[i] != perm[j])
  }

  /** `perm` lists `n` indices, each below `n`. */
  predicate IndicesBelow(perm: seq<nat>, n: nat) {
    |perm| == n && forall i :: 0 <= i < n ==> perm[i] < n
  }

  /** The pool reordered by `perm`: the shuffle's result. */
  function Shuffled(pool: seq<Participant>, perm: seq<nat>): (r: seq<Participant>)
    requires IndicesBelow(perm, |pool|)
    ensures |r| == |pool|
    ensures forall i :: 0 <= i < |r| ==> r[i] == pool[perm[i]]
  {
    seq(|pool|, i requires 0 <= i < |pool| => pool[perm[i]])
  }

  /** An injective list of `n` indices below `n` hits every index. */
  lemma {:induction false} PermutationCovers(perm: seq<nat>, n: nat)
    requires IsPermutation(perm, n)
    ensures forall k :: 0 <= k < n ==> k in perm
    decreases n
  {
    if n > 0 {
      var v := perm[n - 1];
      // Drop the last entry, renaming the index n - 1 to the one it freed.
      var q := seq(n - 1, i requires 0 <= i < n - 1 => if perm[i] == n - 1 then v else perm[i]);
      forall i | 0 <= i < n - 1 ensures q[i] < n - 1 {
        assert perm[i] != v;
      }
      forall i, j | 0 <= i < j < n - 1 ensures q[i] != q[j] {
        assert perm[i] != perm[j] && perm[i] != v && perm[j] != v;
      }
      PermutationCovers(q, n - 1);
      forall k | 0 <= k < n ensures k in perm {
        if k == v {
          assert perm[n - 1] == k;
        } else if k < n - 1 {
          assert k in q;
          var i :| 0 <= i < n - 1 && q[i] == k;
          assert perm[i] == k;
        } else {
          assert v in q;
          var i :| 0 <= i < n - 1 && q[i] == v;
          assert perm[i] != v;
          assert perm[i] == k;
        }
      }
    }
  }

  /** Where a non-empty permutation puts the last index. */
  lemma PlaceOfLast(perm: seq<nat>, n: nat) returns (j: nat)
    requires IsPermutation(perm, n) && n > 0
    ensures j < n && perm[j] == n - 1
  {
    PermutationCovers(perm, n);
    assert n - 1 in perm;
    j :| 0 <= j < n && perm[j] == n - 1;
  }

  /** Removing the entry that names the last index leaves a permutation of
      the remaining indices. */
  lemma DropLast(perm: seq<nat>, n: nat, j: nat)
    requires IsPermutation(perm, n) && j < n && perm[j] == n - 1
    ensures var q := perm[..j] + perm[j + 1..];
      && IsPermutation(q, n - 1)
      && forall i :: 0 <= i < n - 1 ==> q[i] == if i < j then perm[i] else perm[i + 1]
  {
    var q := perm[..j] + perm[j + 1..];
    forall i | 0 <= i < n - 1 ensures q[i] == if i < j then perm[i] else perm[i + 1] {
    }
    forall i | 0 <= i < n - 1 ensures q[i] < n - 1 {
      assert q[i] != perm[j];
    }
  }

  /** Inserting one element anywhere adds exactly that element to the multiset. */
  lemma MultisetInsert<T>(a: seq<T>, x: T, j: nat)
    requires j <= |a|
    ensures multiset(a[..j] + [x] + a[j..]) == multiset(a) + multiset{x}
  {
    assert a == a[..j] + a[j..];
  }

  /** Shuffling the whole pool puts its last participant at position `j` and the
      others in the order the reduced permutation gives them. */
  lemma ShuffleSplit(pool: seq<Participant>, perm: seq<nat>, j: nat)
    requires IndicesBelow(perm, |pool|) && j < |pool| && perm[j] == |pool| - 1
    requires IndicesBelow(perm[..j] + perm[j + 1..], |pool| - 1)
    ensures var r' := Shuffled(pool[..|pool| - 1], perm[..j] + perm[j + 1..]);
      Shuffled(pool, perm) == r'[..j] + [pool[|pool| - 1]] + r'[j..]
  {
    var n := |pool|;
    var q := perm[..j] + perm[j + 1..];
    var init := pool[..n - 1];
    var r, r' := Shuffled(pool, perm), Shuffled(init, q);
    var rhs := r'[..j] + [pool[n - 1]] + r'[j..];
    assert |rhs| == n;
    forall i | 0 <= i < n ensures r[i] == rhs[i] {
      if i < j {
        assert rhs[i] == r'[i] == init[q[i]] == pool[perm[i]];
      } else if i > j {
        assert rhs[i] == r'[i - 1] == init[q[i - 1]] == pool[perm[i]];
      }
    }
  }

  /** The shuffle reorders the pool: it keeps every participant, each as
      often as the pool has it. */
  lemma {:induction false} ShuffledPermutes(pool: seq<Participant>, perm: seq<nat>)
    requires IsPermutation(perm, |pool|)
    ensures multiset(Shuffled(pool, perm)) == multiset(pool)
    decreases |pool|
  {
    var n := |pool|;
    if n > 0 {
      var j := PlaceOfLast(perm, n);
      DropLast(perm, n, j);
      ShuffleSplit(pool, perm, j);
      var q := perm[..j] + perm[j + 1..];
      var init, x := pool[..n - 1], pool[n - 1];
      ShuffledPermutes(init, q);
      MultisetInsert(Shuffled(init, q), x, j);
      assert pool == init + [x];
    }
  }

  /** `p.name || null`. */
  function WinnerName(p: Participant): Option<string> {
    if Truthy(p.name) then p.name else None
  }

  /** `(prizeIds && prizeIds[idx]) || null`. */
  function PrizeFor(prizeIds: Option<seq<Option<int>>>, i: nat): Option<int> {
    if prizeIds.Some? && i < |prizeIds.value| && TruthyInt(prizeIds.value[i]) then prizeIds.value[i]
    else None
  }

  /** `selected.map((p, idx) => ({ ... }))`, with the store's serial winner ids. */
  function WinnerRows(drawId: int, firstWinnerId: int, selected: seq<Participant>,
                      prizeIds: Option<seq<Option<int>>>): (rows: seq<Winner>)
    ensures |rows| == |selected|
  {
    seq(|selected|, i requires 0 <= i < |selected| =>
      Winner(firstWinnerId + i, drawId, selected[i].participantId, WinnerName(selected[i]),
             PrizeFor(prizeIds, i), PendingStatus, false))
  }

  /** No participant appears twice among the rows of one draw. */
  predicate DistinctWinners(ws: seq<Winner>) {
    forall i, j :: 0 <= i < j < |ws| ==> ws[i].participantId != ws[j].participantId
  }

  /** The first `n` of a shuffled pool without repeated participants become
      rows of distinct participants, each one taken from the pool. */
  lemma SelectionFacts(pool: seq<Participant>, perm: seq<nat>, n: nat, drawId: int,
                       firstWinnerId: int, prizeIds: Option<seq<Option<int>>>)
    requires DistinctIds(pool) && IsPermutation(perm, |pool|) && n <= |pool|
    ensures var rows := WinnerRows(drawId, firstWinnerId, Shuffled(pool, perm)[..n], prizeIds);
      && DistinctWinners(rows)
      && forall i :: 0 <= i < n ==>
           rows[i].participantId == pool[perm[i]].participantId &&
           rows[i].winnerName == WinnerName(pool[perm[i]])
  {
  }

  // ---------------------------------------------------------------------------
  // The ledger invariants, and why appending one draw and its rows keeps them

  /** Every draw id, and every draw id a winner row refers to, is below the
      next id the store will hand out; no two draws share an id. */
  predicate IdsBelow(draws: seq<Draw>, winners: seq<Winner>, next: int) {
    && (forall i :: 0 <= i < |draws| ==> draws[i].drawId < next)
    && (forall i, j :: 0 <= i < j < |draws| ==> draws[i].drawId != draws[j].drawId)
    && (forall i :: 0 <= i < |winners| ==> winners[i].drawId < next)
  }

  /** Some draw carries the id `id`. */
  predicate HasDraw(draws: seq<Draw>, id: int) {
    exists e :: e in draws && e.drawId == id
  }

  /** Every winner row refers to an existing draw. */
  predicate WinnersReferToDraws(draws: seq<Draw>, winners: seq<Winner>) {
    forall i :: 0 <= i < |winners| ==> HasDraw(draws, winners[i].drawId)
  }

  /** Each draw holds exactly its requested number of winners, all distinct. */
  predicate DrawsComplete(draws: seq<Draw>, winners: seq<Winner>) {
    forall i :: 0 <= i < |draws| ==>
      |WinnersOfDraw(winners, draws[i].drawId)| == draws[i].totalWinners &&
      DistinctWinners(WinnersOfDraw(winners, draws[i].drawId))
  }

  /** No contest holds more winners than it has prize slots. A contest
      whose quantities sum to less than zero can hold no winner at all. */
  ghost predicate WithinCapacity(prizes: seq<Prize>, draws: seq<Draw>, winners: seq<Winner>) {
    forall c :: WinnersOfContest(draws, winners, c) == 0 ||
                WinnersOfContest(draws, winners, c) <= TotalPrizeSlots(prizes, c)
  }

  lemma {:induction false} ContestCountAfterDraw(draws: seq<Draw>, winners: seq<Winner>, d: Draw,
                                                 rows: seq<Winner>, c: int)
    requires forall i :: 0 <= i < |draws| ==> draws[i].drawId != d.drawId
    requires forall i :: 0 <= i < |winners| ==> winners[i].drawId != d.drawId
    requires forall i :: 0 <= i < |rows| ==> rows[i].drawId == d.drawId
    ensures WinnersOfContest(draws + [d], winners + rows, c) ==
            WinnersOfContest(draws, winners, c) + (if d.contestId == c then |rows| else 0)
  {
    var ids := DrawIdsOf(draws, c);
    var ids' := DrawIdsOf(draws + [d], c);
    DrawIdsOfAppend(draws, d, c);
    FilterAppend(winners, rows, InDraws(ids'));
    FilterAgree(winners, InDraws(ids'), InDraws(ids));
    if d.contestId == c {
      FilterAll(rows, InDraws(ids'));
    } else {
      assert d.drawId !in ids;
      FilterNone(rows, InDraws(ids'));
    }
  }

  lemma {:induction false} DrawRowsAfterDraw(winners: seq<Winner>, rows: seq<Winner>, id: int, newId: int)
    requires forall i :: 0 <= i < |winners| ==> winners[i].drawId != newId
    requires forall i :: 0 <= i < |rows| ==> rows[i].drawId == newId
    ensures id != newId ==> WinnersOfDraw(winners + rows, id) == WinnersOfDraw(winners, id)
    ensures id == newId ==> WinnersOfDraw(winners + rows, id) == rows
  {
    FilterAppend(winners, rows, InDraw(id));
    if id == newId {
      FilterNone(winners, InDraw(id));
      FilterAll(rows, InDraw(id));
    } else {
      FilterNone(rows, InDraw(id));
    }
  }

  lemma IdsBelowAfterDraw(draws: seq<Draw>, winners: seq<Winner>, d: Draw, rows: seq<Winner>)
    requires IdsBelow(draws, winners, d.drawId)
    requires forall i :: 0 <= i < |rows| ==> rows[i].drawId == d.drawId
    ensures IdsBelow(draws + [d], winners + rows, d.drawId + 1)
  {
  }

  lemma ReferencesAfterDraw(draws: seq<Draw>, winners: seq<Winner>, d: Draw, rows: seq<Winner>)
    requires WinnersReferToDraws(draws, winners)
    requires forall i :: 0 <= i < |rows| ==> rows[i].drawId == d.drawId
    ensures WinnersReferToDraws(draws + [d], winners + rows)
  {
    var winners' := winners + rows;
    forall i | 0 <= i < |winners'| ensures HasDraw(draws + [d], winners'[i].drawId) {
      if i < |winners| {
        assert HasDraw(draws, winners[i].drawId);
        var e :| e in draws && e.drawId == winners[i].drawId;
        assert e in draws + [d];
      } else {
        assert d in draws + [d];
      }
    }
  }

  lemma CompleteAfterDraw(draws: seq<Draw>, winners: seq<Winner>, d: Draw, rows: seq<Winner>)
    requires DrawsComplete(draws, winners) && IdsBelow(draws, winners, d.drawId)
    requires |rows| == d.totalWinners && DistinctWinners(rows)
    requires forall i :: 0 <= i < |rows| ==> rows[i].drawId == d.drawId
    ensures DrawsComplete(draws + [d], winners + rows)
  {
    var draws' := draws + [d];
    forall i | 0 <= i < |draws'|
      ensures |WinnersOfDraw(winners + rows, draws'[i].drawId)| == draws'[i].totalWinners
      ensures DistinctWinners(WinnersOfDraw(winners + rows, draws'[i].drawId))
    {
      DrawRowsAfterDraw(winners, rows, draws'[i].drawId, d.drawId);
    }
  }

  lemma CapacityAfterDraw(prizes: seq<Prize>, draws: seq<Draw>, winners: seq<Winner>, d: Draw, rows: seq<Winner>)
    requires WithinCapacity(prizes, draws, winners) && IdsBelow(draws, winners, d.drawId)
    requires forall i :: 0 <= i < |rows| ==> rows[i].drawId == d.drawId
    requires |rows| <= RemainingSlots(prizes, draws, winners, d.contestId)
    ensures WithinCapacity(prizes, draws + [d], winners + rows)
    ensures WinnersOfContest(draws + [d], winners + rows, d.contestId) ==
            WinnersOfContest(draws, winners, d.contestId) + |rows|
  {
    forall c ensures WinnersOfContest(draws + [d], winners + rows, c) == 0 ||
                     WinnersOfContest(draws + [d], winners + rows, c) <= TotalPrizeSlots(prizes, c) {
      ContestCountAfterDraw(draws, winners, d, rows, c);
    }
    ContestCountAfterDraw(draws, winners, d, rows, d.contestId);
  }

  // ---------------------------------------------------------------------------
  // The handler as a function of the tables

  /** The four tables the handler reads and writes, with the store's serial
      id counters for new draw and winner rows. */
  datatype Tables = Tables(participants: seq<Participant>, prizes: seq<Prize>,
                           draws: seq<Draw>, winners: seq<Winner>,
                           nextDrawId: int, nextWinnerId: int)

  /** The request body `{ contestId, executedBy, numberOfWinners, prizeIds }`. */
  datatype Request = Request(contestId: Option<int>, executedBy: Option<string>,
                             numberOfWinners: Option<int>, prizeIds: Option<seq<Option<int>>>)

  /** The invariants every draw keeps: participant ids unique, draw ids
      fresh and unique, every winner row referring to an existing draw, each
      draw holding exactly its requested number of distinct winners, and no
      contest holding more winners than prize slots. */
  ghost predicate Consistent(t: Tables) {
    && DistinctIds(t.participants)
    && IdsBelow(t.draws, t.winners, t.nextDrawId)
    && WinnersReferToDraws(t.draws, t.winners)
    && DrawsComplete(t.draws, t.winners)
    && WithinCapacity(t.prizes, t.draws, t.winners)
  }

  /** The pool the handler reads for the request's contest. */
  function PoolFor(t: Tables, contestId: Option<int>): seq<Participant> {
    if contestId.Some? then EligiblePool(t.participants, contestId.value) else []
  }

  /** What the handler answers: the first failing check, or the new draw row
      and its winner rows; `perm` is the order the shuffle produced. */
  function Attempt(t: Tables, configured: bool, req: Request, perm: seq<nat>): Outcome
    requires IsPermutation(perm, |PoolFor(t, req.contestId)|)
  {
    if !configured then Rejected(NotConfigured)
    else if !ValidRequest(req.contestId, req.numberOfWinners) then Rejected(MissingContestOrCount)
    else
      var c, n := req.contestId.value, req.numberOfWinners.value;
      var pool := EligiblePool(t.participants, c);
      var remaining := RemainingSlots(t.prizes, t.draws, t.winners, c);
      if |pool| == 0 then Rejected(NoValidatedParticipants)
      else if n > |pool| then Rejected(TooManyWinners)
      else if n > remaining then Rejected(NotEnoughPrizes(n, remaining))
      else
        Executed(Draw(t.nextDrawId, c, RandomMode, req.executedBy, n),
                 WinnerRows(t.nextDrawId, t.nextWinnerId, Shuffled(pool, perm)[..n], req.prizeIds))
  }

  /** The tables after the handler's inserts: nothing on a rejection, else the
      draw row and then its winner rows. */
  function Apply(t: Tables, r: Outcome): Tables {
    if r.Rejected? then t
    else t.(draws := t.draws + [r.draw], winners := t.winners + r.winners,
            nextDrawId := t.nextDrawId + 1, nextWinnerId := t.nextWinnerId + |r.winners|)
  }

  /** Which check rejects a request, and that one passing every check is
      carried out. */
  lemma AttemptChecks(t: Tables, configured: bool, req: Request, perm: seq<nat>)
    requires IsPermutation(perm, |PoolFor(t, req.contestId)|)
    ensures var r := Attempt(t, configured, req, perm);
      && (!configured ==> r == Rejected(NotConfigured))
      && (configured && !ValidRequest(req.contestId, req.numberOfWinners) ==>
            r == Rejected(MissingContestOrCount))
      && (configured && ValidRequest(req.contestId, req.numberOfWinners) ==>
            var c, n := req.contestId.value, req.numberOfWinners.value;
            var pool := EligiblePool(t.participants, c);
            var remaining := RemainingSlots(t.prizes, t.draws, t.winners, c);
            && (|pool| == 0 ==> r == Rejected(NoValidatedParticipants))
            && (0 < |pool| < n ==> r == Rejected(TooManyWinners))
            && (n <= |pool| && remaining < n ==> r == Rejected(NotEnoughPrizes(n, remaining)))
            && (r.Executed? <==> n <= |pool| && n <= remaining))
  {
  }

  /** A carried-out draw: the draw row, and one winner row per selected
      participant, the first `numberOfWinners` of the shuffled pool, none of
      them twice, each pending and not notified, with the prize id given for
      its place. */
  lemma AttemptWinners(t: Tables, configured: bool, req: Request, perm: seq<nat>)
    requires IsPermutation(perm, |PoolFor(t, req.contestId)|)
    requires DistinctIds(t.participants)
    ensures var r := Attempt(t, configured, req, perm);
      r.Executed? ==>
        var c, n := req.contestId.value, req.numberOfWinners.value;
        var pool := EligiblePool(t.participants, c);
        && r.draw == Draw(t.nextDrawId, c, RandomMode, req.executedBy, n)
        && 0 < n <= |pool|
        && |r.winners| == n
        && DistinctWinners(r.winners)
        && forall i :: 0 <= i < n ==>
             && r.winners[i].winnerId == t.nextWinnerId + i
             && r.winners[i].drawId == t.nextDrawId
             && r.winners[i].participantId == pool[perm[i]].participantId
             && r.winners[i].winnerName == WinnerName(pool[perm[i]])
             && r.winners[i].prizeId == PrizeFor(req.prizeIds, i)
             && r.winners[i].prizeStatus == PendingStatus
             && !r.winners[i].notified
  {
    var r := Attempt(t, configured, req, perm);
    if r.Executed? {
      var c, n := req.contestId.value, req.numberOfWinners.value;
      EligiblePoolDistinct(t.participants, c);
      SelectionFacts(EligiblePool(t.participants, c), perm, n, t.nextDrawId, t.nextWinnerId, req.prizeIds);
    }
  }

  /** Carrying out a draw keeps the tables consistent, makes the inserted rows
      exactly the new draw's winners, and adds them to the contest's count. */
  lemma AttemptKeepsConsistent(t: Tables, configured: bool, req: Request, perm: seq<nat>)
    requires IsPermutation(perm, |PoolFor(t, req.contestId)|)
    requires Consistent(t)
    ensures var r := Attempt(t, configured, req, perm);
      && Consistent(Apply(t, r))
      && (r.Executed? ==>
            && WinnersOfDraw(Apply(t, r).winners, r.draw.drawId) == r.winners
            && WinnersOfContest(Apply(t, r).draws, Apply(t, r).winners, r.draw.contestId) ==
               WinnersOfContest(t.draws, t.winners, r.draw.contestId) + |r.winners|)
  {
    var r := Attempt(t, configured, req, perm);
    if r.Executed? {
      AttemptWinners(t, configured, req, perm);
      var d, rows := r.draw, r.winners;
      IdsBelowAfterDraw(t.draws, t.winners, d, rows);
      ReferencesAfterDraw(t.draws, t.winners, d, rows);
      CompleteAfterDraw(t.draws, t.winners, d, rows);
      CapacityAfterDraw(t.prizes, t.draws, t.winners, d, rows);
      DrawRowsAfterDraw(t.winners, rows, d.drawId, d.drawId);
    }
  }

  /** A rejected request leaves the tables as they were. */
  lemma RejectionChangesNothing(t: Tables, r: Outcome)
    requires r.Rejected?
    ensures Apply(t, r) == t
  {
  }

  /** The handler with its count check as written and
      `shuffled.slice(0, numberOfWinners)` taken literally. */
  function AttemptAsWritten(t: Tables, configured: bool, req: Request, perm: seq<nat>): Outcome
    requires IsPermutation(perm, |PoolFor(t, req.contestId)|)
  {
    if !configured then Rejected(NotConfigured)
    else if !RequestAcceptedAsWritten(req.contestId, req.numberOfWinners) then Rejected(MissingContestOrCount)
    else
      var c, n := req.contestId.value, req.numberOfWinners.value;
      var pool := EligiblePool(t.participants, c);
      var remaining := RemainingSlots(t.prizes, t.draws, t.winners, c);
      if |pool| == 0 then Rejected(NoValidatedParticipants)
      else if n > |pool| then Rejected(TooManyWinners)
      else if n > remaining then Rejected(NotEnoughPrizes(n, remaining))
      else
        Executed(Draw(t.nextDrawId, c, RandomMode, req.executedBy, n),
                 WinnerRows(t.nextDrawId, t.nextWinnerId,
                            Shuffled(pool, perm)[..SliceEnd(|pool|, n)], req.prizeIds))
  }

  /** With the check as written, a count of -1 passes every guard of the
      handler (`-1 > participants.length` and `-1 > remaining` are both
      false), and `slice(0, -1)` then inserts all but one of the pool: the
      contest ends up with more winners than prize slots, and the new draw
      row records `total_winners: -1` over rows it does not match. The
      corrected check refuses the request. */
  lemma NegativeCountOverbooks(t: Tables, c: int, executedBy: Option<string>,
                               prizeIds: Option<seq<Option<int>>>, perm: seq<nat>)
    requires Consistent(t) && c != 0
    requires IsPermutation(perm, |PoolFor(t, Some(c))|)
    requires 0 <= RemainingSlots(t.prizes, t.draws, t.winners, c)
    requires RemainingSlots(t.prizes, t.draws, t.winners, c) + 1 < |PoolFor(t, Some(c))|
    ensures var req := Request(Some(c), executedBy, Some(-1), prizeIds);
      var r := AttemptAsWritten(t, true, req, perm);
      var t' := Apply(t, r);
      && RequestAcceptedAsWritten(req.contestId, req.numberOfWinners)
      && r.Executed? && r.draw.totalWinners == -1
      && |r.winners| == |PoolFor(t, Some(c))| - 1 > RemainingSlots(t.prizes, t.draws, t.winners, c)
      && !WithinCapacity(t'.prizes, t'.draws, t'.winners)
      && !DrawsComplete(t'.draws, t'.winners)
      && Attempt(t, true, req, perm) == Rejected(MissingContestOrCount)
  {
    var req := Request(Some(c), executedBy, Some(-1), prizeIds);
    var r := AttemptAsWritten(t, true, req, perm);
    var d, rows := r.draw, r.winners;
    ContestCountAfterDraw(t.draws, t.winners, d, rows, c);
    DrawRowsAfterDraw(t.winners, rows, d.drawId, d.drawId);
    var t' := Apply(t, r);
    assert !(WinnersOfContest(t'.draws, t'.winners, c) == 0 ||
             WinnersOfContest(t'.draws, t'.winners, c) <= TotalPrizeSlots(t'.prizes, c));
    assert t'.draws[|t.draws|] == d;
  }

  /** The corrected check changes the handler's answer only for a negative
      count, which it refuses as a malformed request. */
  lemma CorrectionOnlyRefusesNegative(t: Tables, configured: bool, req: Request, perm: seq<nat>)
    requires IsPermutation(perm, |PoolFor(t, req.contestId)|)
    ensures Attempt(t, configured, req, perm) != AttemptAsWritten(t, configured, req, perm) ==>
              && req.numberOfWinners.Some? && req.numberOfWinners.value < 0
              && Attempt(t, configured, req, perm) == Rejected(MissingContestOrCount)
    ensures configured && TruthyInt(req.contestId) &&
            req.numberOfWinners.Some? && req.numberOfWinners.value < 0 ==>
              && RequestAcceptedAsWritten(req.contestId, req.numberOfWinners)
              && Attempt(t, configured, req, perm) == Rejected(MissingContestOrCount)
  {
  }

  /** The number of winner rows already allocated to the contest: the
      rows of its draws, or none when it has no draw yet. */
  method ExistingWinners(draws: seq<Draw>, winners: seq<Winner>, c: int) returns (count: nat)
    ensures count == WinnersOfContest(draws, winners, c)
    ensures count <= |winners|
  {
    var drawIds := DrawIdsOf(draws, c);
    count := 0;
    if |drawIds| > 0 {
      count := |Filter(winners, InDraws(drawIds))|;
    } else {
      FilterNone(winners, InDraws(drawIds));
    }
    FilterSubsequenceLength(winners, InDraws(drawIds));
  }

  /** The handler's reads and checks, up to the rows it is about to insert:
      the first failing check, or the draw row and its winner rows. */
  method Decide(t: Tables, configured: bool, req: Request, perm: seq<nat>) returns (r: Outcome)
    requires IsPermutation(perm, |PoolFor(t, req.contestId)|)
    ensures r == Attempt(t, configured, req, perm)
  {
    if !configured {
      return Rejected(NotConfigured);
    }
    if !ValidRequest(req.contestId, req.numberOfWinners) {
      return Rejected(MissingContestOrCount);
    }
    var c, n := req.contestId.value, req.numberOfWinners.value;

    var pool := EligiblePool(t.participants, c);
    assert pool == PoolFor(t, req.contestId);
    if |pool| == 0 {
      return Rejected(NoValidatedParticipants);
    }
    if n > |pool| {
      return Rejected(TooManyWinners);
    }

    var totalPrizeSlots := TotalPrizeSlots(t.prizes, c);
    var existingWinnersCount := ExistingWinners(t.draws, t.winners, c);
    var remainingPrizeSlots := totalPrizeSlots - existingWinnersCount;
    assert remainingPrizeSlots == RemainingSlots(t.prizes, t.draws, t.winners, c);
    if n > remainingPrizeSlots {
      return Rejected(NotEnoughPrizes(n, remainingPrizeSlots));
    }

    // The draw row, with the id the store hands out, and the winner rows.
    var draw := Draw(t.nextDrawId, c, RandomMode, req.executedBy, n);
    var shuffled := Shuffled(pool, perm);
    var selected := shuffled[..n];
    var rows := WinnerRows(draw.drawId, t.nextWinnerId, selected, req.prizeIds);
    r := Executed(draw, rows);
  }

  // ---------------------------------------------------------------------------
  // The ledger

  /** The tables as the store holds them; `Execute` reads and inserts rows. */
  class Ledger {
    var participants: seq<Participant>
    var prizes: seq<Prize>
    var draws: seq<Draw>
    var winners: seq<Winner>
    var nextDrawId: int
    var nextWinnerId: int

    function Snapshot(): Tables
      reads this
    {
      Tables(participants, prizes, draws, winners, nextDrawId, nextWinnerId)
    }

    ghost predicate Valid()
      reads this
    {
      Consistent(Snapshot())
    }

    constructor (participants: seq<Participant>, prizes: seq<Prize>)
      requires DistinctIds(participants)
      ensures Valid()
      ensures Snapshot() == Tables(participants, prizes, [], [], 1, 1)
    {
      this.participants := participants;
      this.prizes := prizes;
      draws := [];
      winners := [];
      nextDrawId := 1;
      nextWinnerId := 1;
      new;
      assert forall c :: Filter(winners, InDraws(DrawIdsOf(draws, c))) == [];
    }

    /** The contest's remaining prize capacity: it and the contest's winners
        add up to its prize slots, and it is never negative once the contest
        has a winner, nor when no prize quantity is negative. */
    function Remaining(c: int): (r: int)
      reads this
      requires Valid()
      ensures r + WinnersOfContest(draws, winners, c) == TotalPrizeSlots(prizes, c)
      ensures WinnersOfContest(draws, winners, c) > 0 ==> r >= 0
      ensures (forall i :: 0 <= i < |prizes| ==> Slots(prizes[i]) >= 0) ==> r >= 0
    {
      if forall i :: 0 <= i < |prizes| ==> Slots(prizes[i]) >= 0 then
        TotalPrizeSlotsNonNegative(prizes, c);
        RemainingSlots(prizes, draws, winners, c)
      else
        RemainingSlots(prizes, draws, winners, c)
    }

    /** `POST /api/draws/execute`. `configured` says whether the store
        credentials are set; `perm` is the order the shuffle produced. */
    method Execute(configured: bool, req: Request, perm: seq<nat>) returns (r: Outcome)
      requires Valid()
      requires IsPermutation(perm, |PoolFor(Snapshot(), req.contestId)|)
      modifies this
      ensures r == Attempt(old(Snapshot()), configured, req, perm)
      ensures Snapshot() == Apply(old(Snapshot()), r)
      ensures Valid()
      ensures r.Executed? ==> r.winners == WinnersOfDraw(winners, r.draw.drawId)
    {
      var t := Snapshot();
      r := Decide(t, configured, req, perm);
      AttemptKeepsConsistent(t, configured, req, perm);
      // Insert the draw row, then its winner rows (nothing on a rejection).
      var t' := Apply(t, r);
      draws, winners, nextDrawId, nextWinnerId := t'.draws, t'.winners, t'.nextDrawId, t'.nextWinnerId;
    }
  }
}
