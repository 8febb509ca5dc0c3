/** The records of the bet ledger (src/types/bet.ts). */
module BetTypes {

  datatype Option<T> = None | Some(value: T)

  datatype Sport = Soccer | Basketball | Tennis | Volleyball | Other

  datatype BetType = Single | Multiple

  datatype BetStatus = Pending | Won | Lost

  /** A JavaScript `Date`: a time value in milliseconds, or the Invalid Date
      (time value NaN) that `new Date(x)` yields for input it cannot read. */
  datatype Date = Moment(ms: int) | InvalidDate

  /** Amounts and odds are exact reals, not IEEE doubles. */
  datatype Bet = Bet(
    id: string,
    date: Date,
    sport: Sport,
    betType: BetType,
    odd: real,
    amount: real,
    status: BetStatus,
    description: Option<string>)

  /** What `addBet` receives: every field of a bet but the id. */
  datatype NewBet = NewBet(
    date: Date,
    sport: Sport,
    betType: BetType,
    odd: real,
    amount: real,
    status: BetStatus,
    description: Option<string>)
  {
    /** `{ ...bet, id }` */
    function WithId(id: string): (b: Bet) {
      Bet(id, date, sport, betType, odd, amount, status, description)
    }
  }

  datatype BetStats = BetStats(
    totalBets: nat,
    totalWon: nat,
    totalLost: nat,
    totalAmount: real,
    totalWinnings: real,
    winRate: real,
    profit: real)
}
