# Bet and bank ledgers of dashboard-bet, in Dafny

This project models the two ledger stores of the dashboard-bet application
and the statistics they derive:

- the **bet ledger** (`useBetStore`): an ordered sequence of bets with
  append, status update, delete and the two wipes; the filters by status,
  sport and inclusive date range; `getStats` (counts, win rate, total staked,
  winnings over Won bets, profit); and the rehydration step that revives
  stored dates and drops records failing `validateBet`;
- the **bank ledger** (`useBankStore`): an ordered sequence of deposits and
  withdrawals with append, delete and clear, and `getStats`, which combines
  the transaction totals with the bet ledger's winnings over all bets.

Files:

- `seqs.dfy` (module `Seqs`): `Filter`, `Map` and `Sum`, the models of
  JavaScript's `Array.prototype.filter`, `map` and the summing `reduce`,
  with what they promise:
  membership, multiplicity, order (`IsSubsequence`), and the lemmas the
  ledgers need.
- `bet_types.dfy` (module `BetTypes`): the bet record, its enumerations,
  `Date` (a millisecond time value or the Invalid Date) and the statistics
  record.
- `bet_store.dfy` (module `Bets`): stored records and `validateBet`,
  rehydration, the statistics, the collection updates, and the class
  `BetStore` whose `bets` field the mutations replace.
- `bank_store.dfy` (module `Bank`): transactions, bank statistics, and the
  class `BankStore`, which holds a read-only reference to a `BetStore`.

Modelling choices:

- Amounts and odds are exact `real`s, not IEEE doubles.
- The id from `crypto.randomUUID()` is a parameter of `AddBet` and
  `AddTransaction`, required to differ from every id already stored.
- A date is `Moment(ms)` or `InvalidDate`. The date-range filter compares
  time values, so an Invalid Date on any side is never in range.
- A stored record gives each property as a `Value`: a string, a number, a
  `Date`, or anything else. The `Date` constructor used to revive stored dates
  is the parameter `toDate`, and the serialisation of a date is the parameter
  `encode`.
- `addBet` stores whatever status its caller passes; it does not force
  Pending. The form in `src/pages/AddBet.tsx` passes Pending.
- The code does not validate transactions on load. It also does not revive
  their dates, because the bank store has no rehydration callback.

## Model

| member | source | states |
|---|---|---|
| `Seqs.Filter` | src/store/useBetStore.ts:66-79 | `filter` returns exactly the elements passing the test, in their original order (a subsequence), no longer than its input |
| `Seqs.FilterMultiset` | src/store/useBetStore.ts:66-79 | each value occurs in the filtered array exactly as often as in the input when it passes the test, and never otherwise |
| `Seqs.Map` | src/store/useBetStore.ts:113-116 | `map` returns one element per input element, the i-th being the callback applied to the i-th input |
| `Seqs.Sum` | src/store/useBetStore.ts:85-88 | `reduce((sum, x) => sum + f(x), 0)` is never negative when no term is negative |
| `Seqs.SumSnoc` | src/store/useBetStore.ts:85 | appending one element adds exactly its term to the sum |
| `Seqs.FilterKeepsAll` | src/store/useBetStore.ts:61-65 | filtering with a test every element passes returns the input unchanged |
| `Seqs.FilterIdempotent` | src/store/useBetStore.ts:113-116 | filtering twice with the same test equals filtering once |
| `Seqs.FilterAppend` | src/store/useBetStore.ts:83-88 | filtering distributes over concatenation |
| `Seqs.FilterDisjointLength` | src/store/useBetStore.ts:82-84 | two tests that never hold together select at most as many elements as there are |
| `Bets.ParseSport` | src/store/useBetStore.ts:32-33 | a string is accepted as a sport exactly when it is one of the five sport names, and then it names that sport |
| `Bets.ParseBetType` | src/store/useBetStore.ts:34-35 | only "Single" and "Multiple" are accepted as bet types, each naming its own type |
| `Bets.ParseStatus` | src/store/useBetStore.ts:38-39 | only "Pending", "Won" and "Lost" are accepted as statuses, each naming its own status |
| `Bets.ValidateBet` | src/store/useBetStore.ts:26-41 | a record is accepted exactly when it is an object with a string id, a `Date`, a number odd and amount, and sport, bet type and status strings that are each the name of a member of their enumeration |
| `Bets.Revive` | src/store/useBetStore.ts:26-41 | after `{...bet, date: new Date(bet.date)}` the record is an object with a Date, so a non-object record is always refused and an object record is accepted or refused regardless of its date, Invalid Date included |
| `Bets.RehydrateBets` | src/store/useBetStore.ts:110-117 | rehydration keeps exactly the revived records that pass `validateBet`, each as often as stored, in stored order, and never more than were stored |
| `Bets.AsBet` | src/store/useBetStore.ts:26-41 | a record accepted by `validateBet` is read as the bet whose id, date, odd, amount and enumeration names are the record's own, with a string description kept |
| `Bets.AsBets` | src/store/useBetStore.ts:113-116 | the accepted records read as bets one for one, in order, each carrying its record's id, date, odd, amount, sport, bet type and status, and its description when that is a string |
| `Bets.RecordRoundTrip` | src/store/useBetStore.ts:26-41 | a bet written to storage is accepted on load and reads back as the same bet when its date reads back as itself |
| `Bets.RehydratePersisted` | src/store/useBetStore.ts:107-117 | when every date reads back as itself, persisting a collection and rehydrating it drops nothing and yields the same bets in the same order |
| `Bets.RehydrateIdempotent` | src/store/useBetStore.ts:113-116 | rehydrating an already rehydrated collection changes nothing |
| `Bets.WinRateBounds` | src/store/useBetStore.ts:89 | `(won / total) * 100` lies in [0, 100], is 0 exactly when nothing was won and 100 exactly when everything was |
| `Bets.Stats` | src/store/useBetStore.ts:80-100 | `totalBets` is the number of bets, `totalWon + totalLost <= totalBets`, the win rate is `(totalWon / totalBets) * 100` and lies in [0, 100] (0 iff nothing won, 100 iff all won), an empty collection gives all-zero stats with no division, and `profit = totalWinnings - totalAmount` |
| `Bets.AppendParts` | src/store/useBetStore.ts:82-88 | appending a bet adds one to the Won or Lost count according to its status, its amount to the stake, and amount times odd to the winnings only when Won |
| `Bets.WonSumSnoc` | src/store/useBetStore.ts:86-88 | the winnings over the Won bets grow by amount times odd of an appended bet exactly when it is Won |
| `Bets.StatsAppend` | src/store/useBetStore.ts:82-90 | appending a bet moves each statistic by that bet's contribution and nothing else |
| `Bets.WinningsAreWonPayout` | src/store/useBetStore.ts:86-88 | `totalWinnings` equals amount times odd summed over the Won bets only, accumulated bet by bet |
| `Bets.WonFilterPayout` | src/store/useBetStore.ts:86-88 | summing amount times odd over the Won-filtered bets equals accumulating it bet by bet, counting only Won bets |
| `Bets.WonPayoutSnoc` | src/store/useBetStore.ts:86-88 | the bet-by-bet winnings grow by amount times odd of an appended bet exactly when it is Won |
| `Bets.StatsSigns` | src/store/useBetStore.ts:85-90 | with non-negative amounts and odds, the total staked and the winnings are non-negative, so the loss never exceeds the stake |
| `Bets.SingleBetProfit` | src/store/useBetStore.ts:85-90 | one bet of 100 at odd 2 gives winnings 200 and profit 100 when Won, winnings 0 and profit -100 when Lost |
| `Bets.SetStatus` | src/store/useBetStore.ts:54-60 | same length and order; each bet keeps every field but `status`, which becomes the new status exactly for bets with the id |
| `Bets.SetStatusAbsent` | src/store/useBetStore.ts:54-60 | updating an id no bet has leaves the collection identical |
| `Bets.SetStatusIdempotent` | src/store/useBetStore.ts:54-60 | setting the same status twice equals setting it once, and distinct ids stay distinct |
| `Bets.WithoutBet` | src/store/useBetStore.ts:61-65 | the bets left are exactly those with another id, each as often as before, in their original order |
| `Bets.WithoutBetAbsent` | src/store/useBetStore.ts:61-65 | deleting an id no bet has leaves the collection identical |
| `Bets.InRange` | src/store/useBetStore.ts:76-78 | an Invalid Date on any side is never in range, a non-empty range needs start not after end, and both endpoints are in range |
| `Bets.BetStore.constructor` | src/store/useBetStore.ts:46 | a new store holds no bets |
| `Bets.BetStore.AddBet` | src/store/useBetStore.ts:47-53 | exactly one bet is appended, carrying every supplied field (the status included) and the fresh id; earlier bets are unchanged, ids stay distinct, and the stats count one more bet and its stake |
| `Bets.BetStore.UpdateBetStatus` | src/store/useBetStore.ts:54-60 | the bets become the status update of the old ones, and an absent id is a no-op |
| `Bets.BetStore.DeleteBet` | src/store/useBetStore.ts:61-65 | no bet with the id is left, the rest keep their order, and an absent id is a no-op |
| `Bets.BetStore.GetBetsByStatus` | src/store/useBetStore.ts:66-69 | exactly the bets with that status, each as often as stored, in stored order |
| `Bets.BetStore.GetBetsBySport` | src/store/useBetStore.ts:70-73 | exactly the bets of that sport, each as often as stored, in stored order |
| `Bets.BetStore.GetBetsByDateRange` | src/store/useBetStore.ts:74-79 | exactly the bets whose date lies in the range, both ends included, each as often as stored, in stored order |
| `Bets.BetStore.DateRangeInclusive` | src/store/useBetStore.ts:76-78 | a bet dated exactly on the start or on the end of the range is returned |
| `Bets.BetStore.GetStats` | src/store/useBetStore.ts:80-81 | a supplied subset, the empty one included, is what the stats are computed over; only an absent argument falls back to the stored bets, which are only read |
| `Bets.BetStore.ResetBets` | src/store/useBetStore.ts:102 | the collection is empty and every statistic is 0 |
| `Bets.BetStore.ClearBets` | src/store/useBetStore.ts:103-105 | the collection is empty and every statistic is 0 |
| `Bets.BetStore.OnRehydrate` | src/store/useBetStore.ts:110-117 | the bets become the rehydrated stored records, never more than were stored |
| `Bank.SumOfKind` | src/store/useBankStore.ts:37-43 | the sum over one kind is 0 when no transaction has that kind and never negative when none of that kind has a negative amount, so with non-negative amounts `totalDeposits` and `totalWithdrawals` are non-negative |
| `Bank.SumOfKindSnoc` | src/store/useBankStore.ts:37-43 | appending a transaction adds its amount to the sum of its own kind and leaves the other sum alone |
| `Bank.StatsOf` | src/store/useBankStore.ts:37-46 | deposits and withdrawals are the sums over their own kind; `totalProfit = totalWinnings - totalWithdrawals` whatever was deposited, and `totalBalance = totalDeposits + totalProfit` |
| `Bank.StatsAfterAppend` | src/store/useBankStore.ts:37-46 | a deposit of a raises deposits and balance by a and keeps the profit; a withdrawal of a lowers balance and profit by a |
| `Bank.DepositAndWonBetExample` | src/store/useBankStore.ts:33-53 | deposits [500] and one Won bet of 100 at odd 1.5 give winnings 150, balance 650 and profit 150 |
| `Bank.WithoutTransaction` | src/store/useBankStore.ts:25-29 | the transactions left are exactly those with another id, each as often as before, in their original order |
| `Bank.WithoutTransactionAbsent` | src/store/useBankStore.ts:25-29 | deleting an id no transaction has leaves the collection identical |
| `Bank.BankStore.constructor` | src/store/useBankStore.ts:17 | a new store holds no transactions and reads the given bet store |
| `Bank.BankStore.AddTransaction` | src/store/useBankStore.ts:18-24 | exactly one transaction with the supplied fields and the fresh id is appended after the unchanged earlier ones; a deposit raises the balance and keeps the profit, a withdrawal lowers both |
| `Bank.BankStore.DeleteTransaction` | src/store/useBankStore.ts:25-29 | no transaction with the id is left, the rest keep their order, and an absent id is a no-op |
| `Bank.BankStore.ClearTransactions` | src/store/useBankStore.ts:30-32 | the collection is empty, so deposits and withdrawals are 0 |
| `Bank.BankStore.GetStats` | src/store/useBankStore.ts:33-54 | the transaction sums combined with the winnings over the whole bet collection, which is only read: balance = deposits + winnings - withdrawals, profit = winnings - withdrawals |

## Left out

- The zustand `create`/`persist` middleware, browser storage and JSON
  serialisation are not modelled. Storage appears only as a sequence of
  stored records, and the serialisation of a date only as the parameter
  `encode`.
- `new Date(x)` is the parameter `toDate`, so date parsing is not modelled.
  The round-trip and idempotence lemmas state what they need of it as a
  requirement.
- `crypto.randomUUID()` is replaced by a caller-supplied id that must be
  fresh.
- A stored entry that is `null` or `undefined` makes the source throw while
  reading `bet.date`. The model treats every non-object entry as a record
  with no properties, which is then dropped.
- Properties of a stored record other than the bet fields survive the spread
  in the source. They are not modelled.
- `Bets.AsBet` reads a description that is not a string as absent. In the
  source such a description is kept as it is.
- NaN and the infinities are numbers to `validateBet` but are not reals, so
  they are not modelled. Nor is floating-point rounding.
- Notifications to subscribers (`useBetStore.subscribe`) are not modelled.
  Neither is any page, layout or theme.
- Bets.BetStore.AddBet: `addBet` checks nothing it is given, and the form in
  `src/pages/AddBet.tsx` (line 115) also offers the bet type "System". The
  model's `BetType` cannot hold it. In the source such a bet is stored, listed
  and counted by `getStats`, then dropped by `validateBet` on the next load.
- Bets.RehydratePersisted: the requirement that every date reads back as
  itself fails in the source for an Invalid Date, which JSON writes as `null`
  and `new Date(null)` reads back as the epoch. Such a bet comes back with
  another date.
- The bank store's persisted state is not modelled. It has no validation and
  no date revival on load.
