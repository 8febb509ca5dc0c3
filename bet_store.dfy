/** The bet ledger (src/store/useBetStore.ts): the validation of stored
    records, the pure queries and statistics over a sequence of bets, and the
    store whose `bets` field the mutations replace. */
module Bets {
  import opened Seqs
  import opened BetTypes

  // ---------------------------------------------------------------------
  // Stored records and `validateBet`
  // ---------------------------------------------------------------------

  /** The value of one property of a stored record, by its JavaScript type:
      a string, a number, a `Date` object, or anything else (undefined, null,
      a boolean, an array, another object). */
  datatype Value = VString(s: string) | VNumber(n: real) | VDate(d: Date) | VOther

  /** A record as it comes back from storage. `isObject` is
      `typeof bet === 'object' && bet !== null`. A record that is not an
      object has no properties; its fields are never read, because `Revive`
      replaces it by an object whose every property is `VOther`. */
  datatype RawBet = RawBet(
    isObject: bool,
    id: Value,
    date: Value,
    sport: Value,
    betType: Value,
    odd: Value,
    amount: Value,
    status: Value,
    description: Value)

  function SportName(s: Sport): (name: string) {
    match s
    case Soccer => "Soccer"
    case Basketball => "Basketball"
    case Tennis => "Tennis"
    case Volleyball => "Volleyball"
    case Other => "Other"
  }

  function BetTypeName(t: BetType): (name: string) {
    match t
    case Single => "Single"
    case Multiple => "Multiple"
  }

  function StatusName(s: BetStatus): (name: string) {
    match s
    case Pending => "Pending"
    case Won => "Won"
    case Lost => "Lost"
  }

  /** The sport a string names, if it is one of the five the ledger accepts. */
  function ParseSport(name: string): (r: Option<Sport>)
    ensures forall s :: r == Some(s) <==> name == SportName(s)
  {
    if name == "Soccer" then Some(Soccer)
    else if name == "Basketball" then Some(Basketball)
    else if name == "Tennis" then Some(Tennis)
    else if name == "Volleyball" then Some(Volleyball)
    else if name == "Other" then Some(Other)
    else None
  }

  /** The bet type a string names: only "Single" and "Multiple" are accepted. */
  function ParseBetType(name: string): (r: Option<BetType>)
    ensures forall t :: r == Some(t) <==> name == BetTypeName(t)
  {
    if name == "Single" then Some(Single)
    else if name == "Multiple" then Some(Multiple)
    else None
  }

  function ParseStatus(name: string): (r: Option<BetStatus>)
    ensures forall s :: r == Some(s) <==> name == StatusName(s)
  {
    if name == "Pending" then Some(Pending)
    else if name == "Won" then Some(Won)
    else if name == "Lost" then Some(Lost)
    else None
  }

  /** `validateBet`: the record is an object, its id a string, its date a
      `Date` object (possibly Invalid Date), its sport, bet type and status
      strings naming members of their enumerations, and its odd and amount
      numbers. Nothing is checked about the description, the emptiness of
      the id, or the range of odd and amount. */
  function ValidateBet(r: RawBet): (ok: bool)
    ensures ok <==> r.isObject && r.id.VString? && r.date.VDate?
                    && (exists s :: r.sport == VString(SportName(s)))
                    && (exists t :: r.betType == VString(BetTypeName(t)))
                    && r.odd.VNumber? && r.amount.VNumber?
                    && (exists s :: r.status == VString(StatusName(s)))
  {
    assert r.sport.VString? && ParseSport(r.sport.s).Some? ==> r.sport == VString(SportName(ParseSport(r.sport.s).value));
    assert r.betType.VString? && ParseBetType(r.betType.s).Some? ==> r.betType == VString(BetTypeName(ParseBetType(r.betType.s).value));
    assert r.status.VString? && ParseStatus(r.status.s).Some? ==> r.status == VString(StatusName(ParseStatus(r.status.s).value));
    r.isObject
    && r.id.VString?
    && r.date.VDate?
    && r.sport.VString? && ParseSport(r.sport.s).Some?
    && r.betType.VString? && ParseBetType(r.betType.s).Some?
    && r.odd.VNumber?
    && r.amount.VNumber?
    && r.status.VString? && ParseStatus(r.status.s).Some?
  }

  /** `{ ...bet, date: new Date(bet.date) }`, where `toDate` stands for the
      `Date` constructor. The result is always an object whose date is a
      `Date`, so those two checks of `validateBet` always pass afterwards:
      whether a record survives never depends on what its date revives to. */
  function Revive(toDate: Value -> Date, r: RawBet): (v: RawBet)
    ensures v.isObject && v.date.VDate?
    ensures !r.isObject ==> !ValidateBet(v)
    ensures r.isObject ==> (ValidateBet(v) <==> ValidateBet(r.(date := VDate(InvalidDate))))
  {
    if r.isObject then r.(date := VDate(toDate(r.date)))
    else RawBet(true, VOther, VDate(toDate(VOther)), VOther, VOther, VOther, VOther, VOther, VOther)
  }

  function Revived(toDate: Value -> Date, stored: seq<RawBet>): (revived: seq<RawBet>) {
    Map((r: RawBet) => Revive(toDate, r), stored)
  }

  /** The rehydration step of `onRehydrateStorage`: revive every stored
      date, then drop every record that fails `validateBet`. */
  function RehydrateBets(toDate: Value -> Date, stored: seq<RawBet>): (r: seq<RawBet>)
    ensures |r| <= |stored|
    ensures forall x :: x in r ==> ValidateBet(x)
    ensures forall x :: x in r <==> x in Revived(toDate, stored) && ValidateBet(x)
    ensures IsSubsequence(r, Revived(toDate, stored))
    ensures forall x :: multiset(r)[x] == if ValidateBet(x) then multiset(Revived(toDate, stored))[x] else 0
  {
    FilterMultiset(ValidateBet, Revived(toDate, stored));
    Filter(ValidateBet, Revived(toDate, stored))
  }

  /** A record that passed `validateBet`, read as a bet. A description that
      is not a string is read as absent. */
  function AsBet(r: RawBet): (b: Bet)
    requires ValidateBet(r)
    ensures r.id == VString(b.id) && r.date == VDate(b.date)
    ensures r.odd == VNumber(b.odd) && r.amount == VNumber(b.amount)
    ensures r.sport == VString(SportName(b.sport))
    ensures r.betType == VString(BetTypeName(b.betType))
    ensures r.status == VString(StatusName(b.status))
    ensures r.description.VString? ==> b.description == Some(r.description.s)
  {
    Bet(r.id.s, r.date.d,
        ParseSport(r.sport.s).value, ParseBetType(r.betType.s).value,
        r.odd.n, r.amount.n, ParseStatus(r.status.s).value,
        if r.description.VString? then Some(r.description.s) else None)
  }

  /** `state.bets` after rehydration, read as bets, one per record and in
      the same order. */
  function AsBets(rs: seq<RawBet>): (bets: seq<Bet>)
    requires forall r :: r in rs ==> ValidateBet(r)
    ensures |bets| == |rs|
    ensures forall i :: 0 <= i < |rs| ==>
              rs[i].id == VString(bets[i].id) && rs[i].date == VDate(bets[i].date)
              && rs[i].odd == VNumber(bets[i].odd) && rs[i].amount == VNumber(bets[i].amount)
              && rs[i].sport == VString(SportName(bets[i].sport))
              && rs[i].betType == VString(BetTypeName(bets[i].betType))
              && rs[i].status == VString(StatusName(bets[i].status))
              && (rs[i].description.VString? ==> bets[i].description == Some(rs[i].description.s))
  {
    seq(|rs|, i requires 0 <= i < |rs| => AsBet(rs[i]))
  }

  /** A bet as it is written to storage; `encode` stands for the
      serialisation of its date. */
  function ToRecord(encode: Date -> Value, b: Bet): (r: RawBet) {
    RawBet(true, VString(b.id), encode(b.date),
           VString(SportName(b.sport)), VString(BetTypeName(b.betType)),
           VNumber(b.odd), VNumber(b.amount), VString(StatusName(b.status)),
           match b.description case Some(s) => VString(s) case None => VOther)
  }

  function Persist(encode: Date -> Value, bets: seq<Bet>): (stored: seq<RawBet>) {
    Map((b: Bet) => ToRecord(encode, b), bets)
  }

  /** A stored bet whose date reads back as itself is accepted and read
      back unchanged. */
  lemma RecordRoundTrip(encode: Date -> Value, toDate: Value -> Date, b: Bet)
    requires toDate(encode(b.date)) == b.date
    ensures ValidateBet(Revive(toDate, ToRecord(encode, b)))
    ensures AsBet(Revive(toDate, ToRecord(encode, b))) == b
  {
  }

  /** Persisting a collection and rehydrating it gives the collection back,
      provided every date reads back as itself. */
  lemma RehydratePersisted(encode: Date -> Value, toDate: Value -> Date, bets: seq<Bet>)
    requires forall b :: b in bets ==> toDate(encode(b.date)) == b.date
    ensures forall x :: x in RehydrateBets(toDate, Persist(encode, bets)) ==> ValidateBet(x)
    ensures AsBets(RehydrateBets(toDate, Persist(encode, bets))) == bets
  {
    var revived := Revived(toDate, Persist(encode, bets));
    forall i | 0 <= i < |bets|
      ensures ValidateBet(revived[i]) && AsBet(revived[i]) == bets[i]
    {
      RecordRoundTrip(encode, toDate, bets[i]);
    }
    FilterKeepsAll(ValidateBet, revived);
  }

  /** Rehydrating what rehydration produced changes nothing, as long as
      reviving a `Date` keeps it (`new Date(d)` copies `d`). */
  lemma RehydrateIdempotent(toDate: Value -> Date, stored: seq<RawBet>)
    requires forall d :: toDate(VDate(d)) == d
    ensures RehydrateBets(toDate, RehydrateBets(toDate, stored)) == RehydrateBets(toDate, stored)
  {
    var r := RehydrateBets(toDate, stored);
    forall i | 0 <= i < |r| ensures Revived(toDate, r)[i] == r[i] {
      assert r[i] in r;
    }
    assert Revived(toDate, r) == r;
    FilterKeepsAll(ValidateBet, r);
  }

  // ---------------------------------------------------------------------
  // Statistics
  // ---------------------------------------------------------------------

  predicate IsWon(b: Bet) { b.status == Won }

  predicate IsLost(b: Bet) { b.status == Lost }

  /** The term `sum + bet.amount` adds. */
  function Amount(b: Bet): (a: real) { b.amount }

  /** The term `sum + bet.amount * bet.odd` adds. */
  function Payout(b: Bet): (p: real) { b.amount * b.odd }

  /** The win rate `(won / total) * 100` lies in [0, 100], is 0 exactly
      when nothing was won and 100 exactly when everything was. */
  lemma WinRateBounds(won: nat, total: nat)
    requires 0 < total && won <= total
    ensures 0.0 <= (won as real / total as real) * 100.0 <= 100.0
    ensures (won as real / total as real) * 100.0 == 0.0 <==> won == 0
    ensures (won as real / total as real) * 100.0 == 100.0 <==> won == total
  {
  }

  /** `getStats` over a given sequence of bets. */
  function Stats(bets: seq<Bet>): (r: BetStats)
    ensures r.totalBets == |bets|
    ensures r.totalWon + r.totalLost <= r.totalBets
    ensures r.totalBets == 0 ==> r == BetStats(0, 0, 0, 0.0, 0.0, 0.0, 0.0)
    ensures 0.0 <= r.winRate <= 100.0
    ensures r.winRate == 0.0 <==> r.totalWon == 0
    ensures r.winRate == 100.0 <==> r.totalBets > 0 && r.totalWon == r.totalBets
    ensures r.totalBets > 0 ==> r.winRate == (r.totalWon as real / r.totalBets as real) * 100.0
    ensures r.profit == r.totalWinnings - r.totalAmount
  {
    FilterDisjointLength(IsWon, IsLost, bets);
    var totalBets := |bets|;
    var totalWon := |Filter(IsWon, bets)|;
    var totalLost := |Filter(IsLost, bets)|;
    var totalAmount := Sum(Amount, bets);
    var totalWinnings := Sum(Payout, Filter(IsWon, bets));
    var winRate := if totalBets > 0 then (totalWon as real / totalBets as real) * 100.0 else 0.0;
    assert totalBets > 0 ==>
             (0.0 <= winRate <= 100.0 && (winRate == 0.0 <==> totalWon == 0)
              && (winRate == 100.0 <==> totalWon == totalBets)) by {
      if totalBets > 0 { WinRateBounds(totalWon, totalBets); }
    }
    BetStats(totalBets, totalWon, totalLost, totalAmount, totalWinnings, winRate, totalWinnings - totalAmount)
  }

  /** The winnings of a collection, accumulated bet by bet: a Won bet adds
      amount times odd, any other bet adds nothing. */
  function WonPayout(bets: seq<Bet>): (w: real) {
    if bets == [] then 0.0
    else WonPayout(bets[..|bets| - 1])
         + (if IsWon(bets[|bets| - 1]) then Payout(bets[|bets| - 1]) else 0.0)
  }

  /** The sums and counts `getStats` is made of, after appending a bet. */
  lemma AppendParts(bets: seq<Bet>, b: Bet)
    ensures |Filter(IsWon, bets + [b])| == |Filter(IsWon, bets)| + (if b.status == Won then 1 else 0)
    ensures |Filter(IsLost, bets + [b])| == |Filter(IsLost, bets)| + (if b.status == Lost then 1 else 0)
    ensures Sum(Amount, bets + [b]) == Sum(Amount, bets) + b.amount
    ensures Sum(Payout, Filter(IsWon, bets + [b]))
         == Sum(Payout, Filter(IsWon, bets)) + (if b.status == Won then b.amount * b.odd else 0.0)
  {
    SumSnoc(Amount, bets, b);
    FilterSnoc(IsWon, bets, b);
    FilterSnoc(IsLost, bets, b);
    WonSumSnoc(bets, b);
  }

  /** The winnings over the Won bets grow by the payout of an appended bet
      exactly when it is Won. */
  lemma WonSumSnoc(bets: seq<Bet>, b: Bet)
    ensures Sum(Payout, Filter(IsWon, bets + [b])) == Sum(Payout, Filter(IsWon, bets)) + if IsWon(b) then Payout(b) else 0.0
  {
    FilterSnoc(IsWon, bets, b);
    if IsWon(b) {
      SumSnoc(Payout, Filter(IsWon, bets), b);
    } else {
      assert Filter(IsWon, bets + [b]) == Filter(IsWon, bets);
    }
  }

  /** Appending one bet moves every statistic by that bet's contribution. */
  lemma StatsAppend(bets: seq<Bet>, b: Bet)
    ensures Stats(bets + [b]).totalBets == Stats(bets).totalBets + 1
    ensures Stats(bets + [b]).totalWon == Stats(bets).totalWon + (if b.status == Won then 1 else 0)
    ensures Stats(bets + [b]).totalLost == Stats(bets).totalLost + (if b.status == Lost then 1 else 0)
    ensures Stats(bets + [b]).totalAmount == Stats(bets).totalAmount + b.amount
    ensures Stats(bets + [b]).totalWinnings
         == Stats(bets).totalWinnings + (if b.status == Won then b.amount * b.odd else 0.0)
  {
    AppendParts(bets, b);
  }

  /** `totalWinnings` is the sum of amount times odd over the Won bets and
      over nothing else. */
  lemma WinningsAreWonPayout(bets: seq<Bet>)
    ensures Stats(bets).totalWinnings == WonPayout(bets)
  {
    WonFilterPayout(bets);
  }

  lemma {:induction false} WonFilterPayout(bets: seq<Bet>)
    ensures Sum(Payout, Filter(IsWon, bets)) == WonPayout(bets)
    decreases |bets|
  {
    if bets == [] {
      assert Filter(IsWon, bets) == [];
    } else {
      var init, last := bets[..|bets| - 1], bets[|bets| - 1];
      assert init + [last] == bets;
      WonPayoutSnoc(init, last);
      WonFilterPayout(init);
      WonSumSnoc(init, last);
    }
  }

  lemma WonPayoutSnoc(bets: seq<Bet>, b: Bet)
    ensures WonPayout(bets + [b]) == WonPayout(bets) + if IsWon(b) then Payout(b) else 0.0
  {
    assert (bets + [b])[..|bets|] == bets;
  }

  /** With amounts and odds that are not negative, neither the total staked
      nor the winnings are negative, and the loss never exceeds the stake. */
  lemma StatsSigns(bets: seq<Bet>)
    requires forall b :: b in bets ==> b.amount >= 0.0 && b.odd >= 0.0
    ensures Stats(bets).totalAmount >= 0.0
    ensures Stats(bets).totalWinnings >= 0.0
    ensures Stats(bets).profit >= -Stats(bets).totalAmount
  {
    var won := Filter(IsWon, bets);
    forall i | 0 <= i < |bets| ensures Amount(bets[i]) >= 0.0 {
      assert bets[i] in bets;
    }
    forall i | 0 <= i < |won| ensures Payout(won[i]) >= 0.0 {
      assert won[i] in bets;
      assert won[i].amount * won[i].odd >= 0.0;
    }
  }

  /** A single bet of 100 at odd 2: profit 100 when Won, -100 when Lost. */
  lemma SingleBetProfit(b: Bet)
    requires b.amount == 100.0 && b.odd == 2.0 && b.status != Pending
    ensures b.status == Won ==> Stats([b]).totalWinnings == 200.0 && Stats([b]).profit == 100.0
    ensures b.status == Lost ==> Stats([b]).totalWinnings == 0.0 && Stats([b]).profit == -100.0
  {
    StatsAppend([], b);
    assert [] + [b] == [b];
  }

  // ---------------------------------------------------------------------
  // Collection updates
  // ---------------------------------------------------------------------

  /** No two bets share an id. */
  predicate UniqueIds(bets: seq<Bet>) {
    forall i, j :: 0 <= i < j < |bets| ==> bets[i].id != bets[j].id
  }

  /** `bets.map((bet) => bet.id === id ? { ...bet, status } : bet)` */
  function SetStatus(bets: seq<Bet>, id: string, status: BetStatus): (r: seq<Bet>)
    ensures |r| == |bets|
    ensures forall i :: 0 <= i < |bets| ==> r[i].(status := bets[i].status) == bets[i]
    ensures forall i :: 0 <= i < |bets| ==>
              r[i].status == if bets[i].id == id then status else bets[i].status
  {
    Map((b: Bet) => if b.id == id then b.(status := status) else b, bets)
  }

  /** Updating the status of an id no bet has leaves the collection
      identical. */
  lemma SetStatusAbsent(bets: seq<Bet>, id: string, status: BetStatus)
    requires forall b :: b in bets ==> b.id != id
    ensures SetStatus(bets, id, status) == bets
  {
  }

  /** Setting the same status twice is the same as setting it once, and ids
      are never changed. */
  lemma SetStatusIdempotent(bets: seq<Bet>, id: string, status: BetStatus)
    ensures SetStatus(SetStatus(bets, id, status), id, status) == SetStatus(bets, id, status)
    ensures UniqueIds(bets) ==> UniqueIds(SetStatus(bets, id, status))
  {
  }

  /** `bets.filter((bet) => bet.id !== id)` */
  function WithoutBet(bets: seq<Bet>, id: string): (r: seq<Bet>)
    ensures forall b :: b in r <==> b in bets && b.id != id
    ensures IsSubsequence(r, bets)
    ensures forall b :: multiset(r)[b] == if b.id != id then multiset(bets)[b] else 0
  {
    var p := (b: Bet) => b.id != id;
    FilterMultiset(p, bets);
    Filter(p, bets)
  }

  /** Deleting an id no bet has leaves the collection identical. */
  lemma WithoutBetAbsent(bets: seq<Bet>, id: string)
    requires forall b :: b in bets ==> b.id != id
    ensures WithoutBet(bets, id) == bets
  {
    FilterKeepsAll((b: Bet) => b.id != id, bets);
  }

  /** A bet date inside `[start, end]`, both ends included. JavaScript
      compares the time values, so an Invalid Date on either side makes the
      comparison false. */
  function InRange(d: Date, start: Date, end: Date): (ok: bool)
    ensures d == InvalidDate || start == InvalidDate || end == InvalidDate ==> !ok
    ensures ok ==> start.ms <= end.ms
    ensures start.Moment? && end.Moment? && start.ms <= end.ms && (d == start || d == end) ==> ok
  {
    d.Moment? && start.Moment? && end.Moment? && start.ms <= d.ms && d.ms <= end.ms
  }

  // ---------------------------------------------------------------------
  // The store
  // ---------------------------------------------------------------------

  /** `useBetStore`: the ordered bets, replaced wholesale by each mutation. */
  class BetStore {
    var bets: seq<Bet>

    constructor()
      ensures bets == []
    {
      bets := [];
    }

    /** `addBet`: the new bet carries every supplied field, the status
        included, and the fresh id that `crypto.randomUUID()` would give. */
    method AddBet(bet: NewBet, id: string)
      requires forall b :: b in bets ==> b.id != id
      modifies this
      ensures bets == old(bets) + [bet.WithId(id)]
      ensures bets[|bets| - 1].id == id && bets[|bets| - 1].status == bet.status
      ensures UniqueIds(old(bets)) ==> UniqueIds(bets)
      ensures GetStats(None).totalBets == old(GetStats(None)).totalBets + 1
      ensures GetStats(None).totalAmount == old(GetStats(None)).totalAmount + bet.amount
    {
      StatsAppend(bets, bet.WithId(id));
      bets := bets + [bet.WithId(id)];
    }

    method UpdateBetStatus(id: string, status: BetStatus)
      modifies this
      ensures bets == SetStatus(old(bets), id, status)
      ensures (forall b :: b in old(bets) ==> b.id != id) ==> bets == old(bets)
    {
      if forall b :: b in bets ==> b.id != id {
        SetStatusAbsent(bets, id, status);
      }
      bets := SetStatus(bets, id, status);
    }

    method DeleteBet(id: string)
      modifies this
      ensures bets == WithoutBet(old(bets), id)
      ensures forall b :: b in bets ==> b.id != id
      ensures (forall b :: b in old(bets) ==> b.id != id) ==> bets == old(bets)
    {
      if forall b :: b in bets ==> b.id != id {
        WithoutBetAbsent(bets, id);
      }
      bets := WithoutBet(bets, id);
    }

    function GetBetsByStatus(status: BetStatus): (r: seq<Bet>)
      reads this
      ensures forall b :: b in r <==> b in bets && b.status == status
      ensures forall b :: multiset(r)[b] == if b.status == status then multiset(bets)[b] else 0
      ensures IsSubsequence(r, bets)
    {
      var p := (b: Bet) => b.status == status;
      FilterMultiset(p, bets);
      Filter(p, bets)
    }

    function GetBetsBySport(sport: Sport): (r: seq<Bet>)
      reads this
      ensures forall b :: b in r <==> b in bets && b.sport == sport
      ensures forall b :: multiset(r)[b] == if b.sport == sport then multiset(bets)[b] else 0
      ensures IsSubsequence(r, bets)
    {
      var p := (b: Bet) => b.sport == sport;
      FilterMultiset(p, bets);
      Filter(p, bets)
    }

    function GetBetsByDateRange(startDate: Date, endDate: Date): (r: seq<Bet>)
      reads this
      ensures forall b :: b in r <==> b in bets && InRange(b.date, startDate, endDate)
      ensures forall b :: multiset(r)[b] == if InRange(b.date, startDate, endDate) then multiset(bets)[b] else 0
      ensures IsSubsequence(r, bets)
    {
      var p := (b: Bet) => InRange(b.date, startDate, endDate);
      FilterMultiset(p, bets);
      Filter(p, bets)
    }

    /** A bet dated exactly on either end of the range is returned. */
    lemma DateRangeInclusive(b: Bet, startDate: Date, endDate: Date)
      requires b in bets && startDate.Moment? && endDate.Moment? && startDate.ms <= endDate.ms
      requires b.date == startDate || b.date == endDate
      ensures b in GetBetsByDateRange(startDate, endDate)
    {
    }

    /** `getStats(filteredBets)`: `filteredBets || get().bets`, where any
        supplied array, the empty one included, is used as it is. */
    function GetStats(filteredBets: Option<seq<Bet>>): (r: BetStats)
      reads this
      ensures filteredBets.Some? ==> r == Stats(filteredBets.value)
      ensures filteredBets.None? ==> r == Stats(bets)
    {
      Stats(if filteredBets.Some? then filteredBets.value else bets)
    }

    method ResetBets()
      modifies this
      ensures bets == []
      ensures GetStats(None) == BetStats(0, 0, 0, 0.0, 0.0, 0.0, 0.0)
    {
      bets := [];
    }

    method ClearBets()
      modifies this
      ensures bets == []
      ensures GetStats(None) == BetStats(0, 0, 0, 0.0, 0.0, 0.0, 0.0)
    {
      bets := [];
    }

    /** The `onRehydrateStorage` callback: the stored records, revived and
        validated, become the bets. */
    method OnRehydrate(toDate: Value -> Date, stored: seq<RawBet>)
      modifies this
      ensures bets == AsBets(RehydrateBets(toDate, stored))
      ensures |bets| <= |stored|
    {
      bets := AsBets(RehydrateBets(toDate, stored));
    }
  }
}
