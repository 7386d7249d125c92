# TriviaComb on-chain programs, modelled in Dafny

This project models the three Solana (Anchor) programs behind a community trivia
platform:

- **Question bank.** Users open a reputation account with 100 points. A user
  with at least 100 points submits a four-option question. Other users vote to
  approve or reject it, each at most once and never on their own question. A
  curator finalises the question once it has five votes: it is approved on a
  strict approve majority, otherwise rejected. The submitter's reputation moves
  with the outcome (+50 on approval, −10 on rejection, applied only above ten
  points). The registry authority adds and removes curators, but can never
  remove itself.
- **Reward distributor.** An authority creates a reward pool with a claim
  window, a reward type (SOL, SPL token or NFT) and a distribution criterion,
  and anyone can fund it (a deposit made at creation is transferred but,
  as in the code, not added to `total_rewards`). Within the window a user has their eligibility
  computed by one of five formulas (equal share, performance, staking,
  achievements, random drop) and then claims the difference between eligibility
  and what they have already been paid. After the window the authority closes
  the pool and takes back the remainder. `PerformanceData::validate` is the
  predicate `RewardFormulas.Validate`.
- **Tournament manager.** A global counter hands out tournament ids.
  Participants register before the start and pay the entry fee into the prize
  pool. The organizer starts the tournament once it has two entrants and ends
  it after `actual_start_time + duration`. Each participant submits answers
  once. The prize-distribution instruction only checks the proposed payout
  against the prize pool.

Each instruction is a pure function. It takes the accounts the instruction
reads, its arguments and the clock reading, and returns either the accounts it
writes (`Ok`) or the error that aborts it (`Err`). An aborted Solana
transaction writes nothing, so a failed instruction changes no state by
construction. Checks are made in the order the code makes them. Each
instruction's contract states the condition under which each of its errors is
the one reported, including each arithmetic abort, and exactly when it
succeeds. The modelling conventions are:

- Integer overflow, underflow and `unwrap()` of `None` are the error `Panic`.
  This assumes the release profile keeps overflow checks on, as Anchor's
  workspace template does.
- A token or system transfer (a cross-program invocation) is an external step.
  Its outcome is the boolean parameter `transferOk`, and a refused transfer is
  `TransferFailed`.
- Strings are `seq<uint8>` (their UTF-8 bytes), because Rust's `len()` counts
  bytes.

Each program also has a ledger module: maps of accounts keyed by the seeds of
their addresses. `Step` runs one instruction, including the framework's own
account checks (`init` on an existing address, a missing account). `Run` folds
a sequence of calls. A `Valid` invariant is proved to hold in every reachable
state.

Files:

- `base.dfy`: machine integer types, `Option`/`Result`, and `Vec` helpers.
- `question_bank.dfy`, `question_ledger.dfy`: the question bank.
- `reward_formulas.dfy`, `reward_distributor.dfy`, `reward_ledger.dfy`: the
  reward distributor.
- `tournament_manager.dfy`, `tournament_ledger.dfy`: the tournament manager.

Two behaviours of the code are worth knowing, and the model keeps both:

- The rejection penalty subtracts ten only from a score above ten. A score of
  15 drops to 5 and then stays at 5; there is no floor at ten
  (`QuestionBankProgram.PenaltyBounds`).
- A recalculation overwrites `total_eligible` with whatever the latest
  formula gives, even below what the user has already been paid. A claim or
  query after such a recalculation aborts on the subtraction
  (`RewardDistributorProgram.RecalculationBelowClaimedAborts`).

## Model

| member | source | states |
|---|---|---|
| QuestionBankProgram.InitializeQuestionBank | programs/question_bank/src/lib.rs:11-25 | The registry starts with no questions and the authority as its only curator, so the curator invariant holds from the start |
| QuestionBankProgram.InitializeUserReputation | programs/question_bank/src/lib.rs:312-326 | A new reputation account belongs to its user, starts at 100 points and has all counters at zero |
| QuestionBankProgram.OptionsFit | programs/question_bank/src/lib.rs:51-57 | The option loop accepts exactly when every option is at most 100 bytes long |
| QuestionBankProgram.SubmitQuestion | programs/question_bank/src/lib.rs:29-99 | Format errors come before the reputation check. It succeeds exactly for well-formed data from a user with at least 100 points, unless the bank's question counter or the user's submission count is at its maximum, which aborts with `Panic`. The new question takes the next id, is Pending with an empty tally and copies the data. The bank counter and the submitter's submission count each rise by one, and nothing else changes |
| QuestionBankProgram.VoteOnQuestion | programs/question_bank/src/lib.rs:103-154 | Errors come in this order: not pending, own question, already voted. It succeeds exactly when the question is pending, the voter is neither the submitter nor a previous voter, and no counter overflows; when those checks pass and a counter or the score would overflow, it aborts with `Panic`. A success appends the voter and raises exactly the counter voted for. The voter gains one curation vote and 10 points. A consistent tally (one distinct voter per vote, never the submitter) stays consistent |
| QuestionBankProgram.Penalize | programs/question_bank/src/lib.rs:197-201 | Ten points come off only a score above ten; a lower score is left alone |
| QuestionBankProgram.FinalizeQuestion | programs/question_bank/src/lib.rs:158-212 | Errors come in this order: curator, id, pending, a vote sum beyond 32 bits (`Panic`), then fewer than five votes. An approval that would overflow the active count, the approval count or the score is `Panic`. It succeeds exactly when those checks pass and, on approval, the counters and the score stay in range. Approved exactly on a strict approve majority, which bumps the active count and gives +1 approval and +50 points. Otherwise Rejected, with the penalty and the bank unchanged. Only the status changes on the question |
| QuestionBankProgram.UpdateReputation | programs/question_bank/src/lib.rs:216-250 | Each rewarding action succeeds exactly when its counter and the score stay in range, and a rejection always succeeds. Each action moves exactly its counter and the score by the table's amounts (+5, +50, −10 above ten, +10), and only overflow can abort it. The instruction takes no signer |
| QuestionBankProgram.AddCurator | programs/question_bank/src/lib.rs:254-277 | Only the authority may add a curator, a duplicate is refused, a success appends the new curator, and the list stays duplicate-free |
| QuestionBankProgram.RemoveCurator | programs/question_bank/src/lib.rs:281-308 | Only the authority may remove a curator. It cannot remove itself, and an absent curator is refused. It succeeds exactly when all three checks pass. A success removes exactly one occurrence (as a multiset), leaves the target gone and keeps the authority in the list |
| QuestionBankProgram.ReputationDeltasMatchTable | programs/question_bank/src/lib.rs:216-250 | A vote, an approval and a rejection move a reputation exactly as the corresponding table row does. A submission counts but awards none of the table's +5 |
| QuestionBankProgram.PenaltyBounds | programs/question_bank/src/lib.rs:199-201 | The penalty never raises or zeroes a positive score, and it has no floor at ten: 15 goes to 5 and stays at 5 |
| QuestionBankProgram.QuorumBoundary | programs/question_bank/src/lib.rs:183-196 | Four votes are refused, three approvals against two rejections approve, and a tie of five or more votes rejects |
| QuestionBankLedger.GenesisValid | programs/question_bank/src/lib.rs:11-25 | The freshly initialised registry satisfies the ledger invariant |
| QuestionBankLedger.SubmitPreservesValid | programs/question_bank/src/lib.rs:29-99 | A submission keeps question ids equal to their keys and exactly `0..total_questions`, and keeps the active count equal to the number of approved questions |
| QuestionBankLedger.VotePreservesValid | programs/question_bank/src/lib.rs:103-154 | A vote keeps every tally consistent and the approved count unchanged |
| QuestionBankLedger.FinalizePreservesValid | programs/question_bank/src/lib.rs:158-212 | A finalisation keeps `active_questions` equal to the number of Approved questions |
| QuestionBankLedger.StepPreservesValid | programs/question_bank/src/lib.rs:6-359 | Any single instruction, successful or not, keeps the invariant |
| QuestionBankLedger.RunPreservesValid | programs/question_bank/src/lib.rs:6-359 | Any sequence of instructions keeps the invariant |
| QuestionBankLedger.AuthorityAlwaysCurator | programs/question_bank/src/lib.rs:294-297 | In every reachable state the registry authority is a curator |
| QuestionBankLedger.StepOneWay | programs/question_bank/src/lib.rs:103-212 | No instruction deletes a question or changes its content. Votes are only added, and a decided question is frozen. The authority and the question counter never go back |
| QuestionBankLedger.RunOneWay | programs/question_bank/src/lib.rs:103-212 | Over any sequence of instructions every question survives, keeps its content, only gains votes and stays frozen once decided, and the authority never changes |
| RewardFormulas.Validate | triviacomb-contracts/programs/reward_distributor/src/lib.rs:835-840 | Performance data is accepted exactly when the score is at most 100, both durations are non-negative and there are at most 1000 achievements. An accepted score then earns the lowest tier exactly when it is at most 50 |
| RewardFormulas.ScoreMultiplier | triviacomb-contracts/programs/reward_distributor/src/lib.rs:425-432 | The tier is 1 for scores 0-50 and above 100, 2 for 51-75, 3 for 76-90, 4 for 91-99 and 5 exactly at 100 |
| RewardFormulas.TimeBonus | triviacomb-contracts/programs/reward_distributor/src/lib.rs:434-439 | The bonus is 1 to 120. A positive completion time ct earns 120 − ⌊ct/60⌋, floored at 1 (120 under a minute, 1 from 119 minutes on). A completion time of zero or less earns 1 |
| RewardFormulas.ScoreMultiplierMonotone | triviacomb-contracts/programs/reward_distributor/src/lib.rs:425-432 | Among valid scores, a higher score never has a lower tier |
| RewardFormulas.PerformanceReward | triviacomb-contracts/programs/reward_distributor/src/lib.rs:417-445 | The reward is `(total/1000) · tier · bonus / 100` when that is at most a tenth of the pool, and a tenth of the pool otherwise. The formula never aborts |
| RewardFormulas.ProductFits | triviacomb-contracts/programs/reward_distributor/src/lib.rs:441 | `base * tier * bonus` stays within 64 bits for every pool size |
| RewardFormulas.PerformanceRewardMonotone | triviacomb-contracts/programs/reward_distributor/src/lib.rs:417-445 | For the same completion time, a better valid score never earns less |
| RewardFormulas.PerformanceRewardTruncates | triviacomb-contracts/programs/reward_distributor/src/lib.rs:441 | A perfect score with no completion time on a pool of 1000 earns 0, because the division truncates |
| RewardFormulas.StakingReward | triviacomb-contracts/programs/reward_distributor/src/lib.rs:447-460 | It aborts exactly when `(total/365) · days` leaves the 64-bit range, which cannot happen for stakes of up to 365 days. Otherwise it pays that product when it is at most a tenth of the pool, and a tenth of the pool when the product exceeds it |
| RewardFormulas.StakingOverflowAborts | triviacomb-contracts/programs/reward_distributor/src/lib.rs:454-455 | On the largest pool a 366-day stake overflows before the cap applies, while 365 days earns the cap |
| RewardFormulas.AchievementReward | triviacomb-contracts/programs/reward_distributor/src/lib.rs:462-475 | It aborts exactly when `(total/100) · achievements` leaves the 64-bit range, which cannot happen up to 100 achievements. Otherwise it pays that product when it is at most a fifth of the pool, and a fifth of the pool when the product exceeds it |
| RewardFormulas.AchievementOverflowAborts | triviacomb-contracts/programs/reward_distributor/src/lib.rs:468-469 | On the largest pool, 101 achievements pass validation but overflow the product |
| RewardFormulas.RandomReward | triviacomb-contracts/programs/reward_distributor/src/lib.rs:477-492 | The reward is non-zero only if the seed's last two digits are below ten, and it is then a fiftieth of the pool |
| RewardFormulas.EqualShareReward | triviacomb-contracts/programs/reward_distributor/src/lib.rs:158-161 | The share is the pool divided by 100, rounded down |
| RewardFormulas.CalculateReward | triviacomb-contracts/programs/reward_distributor/src/lib.rs:156-174 | Each criterion selects its own formula: equal share, performance, staking, achievements or random drop. Whatever the criterion, nobody becomes eligible for more than the pool. The equal-share, performance and random formulas never abort |
| RewardDistributorProgram.CreateRewardPool | triviacomb-contracts/programs/reward_distributor/src/lib.rs:13-85 | Errors come in this order: name, start, end, amount, then the funding branch (a refused transfer, an SPL pool without a mint, or NFT funding). It succeeds exactly when every check passes and the initial deposit, if any, is accepted. The new pool is active, has paid nothing, has start < end, and copies the data |
| RewardDistributorProgram.FundRewardPool | triviacomb-contracts/programs/reward_distributor/src/lib.rs:88-131 | The checks are id, active, amount > 0, not NFT, then the transfer. It succeeds exactly when all of them pass and the total stays within 64 bits; a total that would leave 64 bits after a good transfer is `Panic`. A success adds exactly the amount to `total_rewards`, changes nothing else, and keeps the pool's invariant |
| RewardDistributorProgram.CalculateUserRewards | triviacomb-contracts/programs/reward_distributor/src/lib.rs:135-198 | The checks are id, active, inside the window, then valid data; valid data whose formula overflows is `Panic`. A success writes eligibility equal to the criterion's formula (at most the pool), starts a fresh record at zero claimed, and only overwrites eligibility on an existing one |
| RewardDistributorProgram.ClaimRewards | triviacomb-contracts/programs/reward_distributor/src/lib.rs:201-283 | The checks are id, active, record, not before the window, not after it, underflow, nothing to claim, the 64-bit overflow of `distributed_rewards` (`Panic`), funds, NFT, then the transfer; each error is pinned to its condition. A success pays exactly `eligible − claimed`, raises `distributed_rewards` by that amount, sets the claimed amount to the eligibility and stamps the time. It keeps `distributed ≤ total` |
| RewardDistributorProgram.UpdateDistributionCriteria | triviacomb-contracts/programs/reward_distributor/src/lib.rs:286-303 | The account's `has_one` authority check comes first, then id, then "not yet started". A success changes only the criterion |
| RewardDistributorProgram.CloseRewardPool | triviacomb-contracts/programs/reward_distributor/src/lib.rs:306-370 | The checks are authority, id, window over, an underflow of `total − distributed` (`Panic`), then the remainder transfer. It succeeds exactly when they pass; the transfer is needed only when something remains and the pool is not NFT. A success deactivates the pool and changes nothing else |
| RewardDistributorProgram.GetClaimableAmount | triviacomb-contracts/programs/reward_distributor/src/lib.rs:395-410 | Returns 0 for an unfilled record and `eligible − claimed` otherwise, and aborts when eligibility has dropped below the claimed amount |
| RewardDistributorProgram.CalculateIdempotent | triviacomb-contracts/programs/reward_distributor/src/lib.rs:176-188 | Recalculating with the same data writes the same record |
| RewardDistributorProgram.ClaimPaysQueriedAmount | triviacomb-contracts/programs/reward_distributor/src/lib.rs:217-273 | A successful claim pays exactly what the query reported beforehand, and the query then reports 0 |
| RewardDistributorProgram.NoDoubleClaim | triviacomb-contracts/programs/reward_distributor/src/lib.rs:217-218 | Without a new calculation, a second claim is refused with NothingToClaim |
| RewardDistributorProgram.RecalculationBelowClaimedAborts | triviacomb-contracts/programs/reward_distributor/src/lib.rs:186-187 | A concrete run: a user is paid 50, recalculates down to 10, and every later claim or query aborts on the underflow |
| RewardDistributorProgram.ClosedPoolRefusesActivity | triviacomb-contracts/programs/reward_distributor/src/lib.rs:366 | After a close, funding, calculation and claims fail with PoolNotActive, but a second close is accepted |
| RewardLedger.Claimable | triviacomb-contracts/programs/reward_distributor/src/lib.rs:725-741 | A missing pool or claim account gives AccountNotInitialized. When both exist, the result is exactly what the query instruction returns on them |
| RewardLedger.CreatePreservesValid | triviacomb-contracts/programs/reward_distributor/src/lib.rs:13-85 | Creating a pool keeps the invariant. A new pool has no claim records, so its claimed sum is 0 |
| RewardLedger.CalculatePreservesValid | triviacomb-contracts/programs/reward_distributor/src/lib.rs:135-198 | A calculation keeps every pool's claimed sum, because the paid amounts are unchanged |
| RewardLedger.ClaimPreservesValid | triviacomb-contracts/programs/reward_distributor/src/lib.rs:201-283 | A claim raises the pool's `distributed_rewards` and the sum paid to its claim records by the same amount |
| RewardLedger.StepPreservesValid | triviacomb-contracts/programs/reward_distributor/src/lib.rs:8-411 | Any single instruction keeps the invariant |
| RewardLedger.RunPreservesValid | triviacomb-contracts/programs/reward_distributor/src/lib.rs:8-411 | In every reachable state, each pool has paid out exactly what its claim records received, and never more than it holds |
| RewardLedger.PaidWithinPool | triviacomb-contracts/programs/reward_distributor/src/lib.rs:219-222 | No single user has been paid more than the pool's total payout, which never exceeds its funds |
| RewardLedger.StepOneWay | triviacomb-contracts/programs/reward_distributor/src/lib.rs:8-411 | No instruction deletes a pool or a record. Funds and payouts only grow, identity and window are fixed, and a closed pool stays closed |
| RewardLedger.RunOneWay | triviacomb-contracts/programs/reward_distributor/src/lib.rs:8-411 | The same holds over any sequence of instructions |
| RewardLedger.ClaimedOnlyGrows | triviacomb-contracts/programs/reward_distributor/src/lib.rs:177-188 | In a consistent ledger no instruction lowers what a user has been paid. A recalculation keeps the paid amount of an existing record, and a claim only raises it. The record survives |
| RewardLedger.RunClaimedOnlyGrows | triviacomb-contracts/programs/reward_distributor/src/lib.rs:217-271 | From a consistent ledger, over any sequence of instructions, every claim record survives and its paid amount never decreases |
| TournamentManagerProgram.Initialize | programs/tournament_manager/src/lib.rs:12-21 | The counter starts at zero under the given authority |
| TournamentManagerProgram.CreateTournament | programs/tournament_manager/src/lib.rs:24-68 | Errors come in the code's order: name, description, maximum participants, start time, duration, question count. It succeeds exactly for valid parameters (unless the counter overflows). The tournament takes the next id, is in Registration with no participants and copies its parameters. The counter rises by one |
| TournamentManagerProgram.RegisterForTournament | programs/tournament_manager/src/lib.rs:71-106 | The checks are status, room, not yet started, then the fee transfer. It succeeds exactly when they pass and the prize pool stays within 64 bits; a prize pool that would leave 64 bits after the fee is paid is `Panic`. A success adds one participant and the entry fee to the prize pool, writes a fresh registration, and keeps participants ≤ maximum |
| TournamentManagerProgram.StartTournament | programs/tournament_manager/src/lib.rs:109-121 | The checks are organizer, status, start time, then at least two participants, each pinned to its error. It succeeds exactly when all pass. A success sets Active and records the start time |
| TournamentManagerProgram.EndTime | programs/tournament_manager/src/lib.rs:136 | The end time is defined exactly when the tournament has started and `start + duration` fits in 64 signed bits |
| TournamentManagerProgram.ScoredCount | programs/tournament_manager/src/lib.rs:140-147 | The number of positions among the first n whose index ends in 0 to 6. It never exceeds n, and it is n itself for up to seven answers |
| TournamentManagerProgram.ScoredCountClosedForm | programs/tournament_manager/src/lib.rs:140-147 | The number of scoring positions among n is 7·⌊n/10⌋ + min(n mod 10, 7) |
| TournamentManagerProgram.ScoredCountBounds | programs/tournament_manager/src/lib.rs:140-147 | At most every position scores, and all of the first seven do |
| TournamentManagerProgram.ScoreAnswers | programs/tournament_manager/src/lib.rs:140-147 | The loop's score is ten points per scoring position, whatever the answer bytes hold |
| TournamentManagerProgram.SubmitAnswers | programs/tournament_manager/src/lib.rs:124-155 | The checks are Active, not yet submitted, answer count, then the end time (an unstarted tournament aborts on the unwrap). It succeeds exactly when all pass. A success marks the registration completed with the fixed score and the submission time |
| TournamentManagerProgram.EndTournament | programs/tournament_manager/src/lib.rs:158-172 | The checks are organizer, Active, then the end time reached (an unstarted tournament aborts on the unwrap). It succeeds exactly when all pass. A success sets Ended and stamps the time |
| TournamentManagerProgram.CheckedSum | programs/tournament_manager/src/lib.rs:185 | The prize total summed from the left with checked addition. When it does not abort it equals the true sum of the amounts |
| TournamentManagerProgram.CheckedSumCorrect | programs/tournament_manager/src/lib.rs:185 | The checked running total aborts exactly when the true sum exceeds 64 bits, and otherwise equals it |
| TournamentManagerProgram.DistributePrizes | programs/tournament_manager/src/lib.rs:175-193 | The checks are organizer, Ended, equal lengths, the sum's overflow, then the sum within the prize pool, each pinned to its error. It succeeds exactly when all pass, and a success changes nothing |
| TournamentManagerProgram.NoResubmission | programs/tournament_manager/src/lib.rs:132 | After one successful submission, every further submission fails with AlreadySubmitted |
| TournamentManagerProgram.StatusOnlyAdvances | programs/tournament_manager/src/lib.rs:109-193 | Registration keeps the Registration status. Start moves only Registration to Active, end moves only Active to Ended, and the prize check leaves Ended |
| TournamentManagerProgram.LoneEntrantCannotStart | programs/tournament_manager/src/lib.rs:114 | A tournament with fewer than two participants cannot be started |
| TournamentLedger.CreatePreservesValid | programs/tournament_manager/src/lib.rs:24-68 | Creating a tournament keeps keys equal to `0..tournament_count`, with the new tournament having no registrations |
| TournamentLedger.RegisterPreservesValid | programs/tournament_manager/src/lib.rs:71-106 | Registering keeps each tournament's `current_participants` equal to its number of registration accounts |
| TournamentLedger.SubmitPreservesValid | programs/tournament_manager/src/lib.rs:124-155 | A submission keeps the registration's stamp and score consistent with its tournament |
| TournamentLedger.LifecyclePreservesValid | programs/tournament_manager/src/lib.rs:109-193 | Rewriting one tournament as start, end and the prize check do keeps the invariant: the new version is consistent, has the same participants and question count, and does not return to Registration, so what its registrations record stays true |
| TournamentLedger.StepPreservesValid | programs/tournament_manager/src/lib.rs:8-194 | Any single instruction keeps the invariant |
| TournamentLedger.RunPreservesValid | programs/tournament_manager/src/lib.rs:8-194 | Any sequence of instructions keeps the invariant |
| TournamentLedger.ReachableTournaments | programs/tournament_manager/src/lib.rs:77 | In every reachable state a tournament holds no more registrations than its maximum, and none is Cancelled |
| TournamentLedger.StepOneWay | programs/tournament_manager/src/lib.rs:8-194 | No tournament or registration disappears. Statuses only advance, and participants and the prize pool only grow. A submission is final |
| TournamentLedger.RunOneWay | programs/tournament_manager/src/lib.rs:8-194 | The same holds over any sequence of instructions |

## Left out

- Cross-program invocations (SOL and SPL transfers) are not executed. Each is the boolean `transferOk`, so vault balances are not tracked.
- Anchor account contexts are modelled only for the errors that matter: a missing account, `init` on an existing address, and `has_one`. Seed and bump derivation are reduced to map keys, and signer checks are reduced to equality of keys.
- Account space limits are not modelled: 20 curators, 50 voters per question, and the fixed string sizes. The program fails to serialise past them, and the model never fails there.
- `Clock::get()` is the parameter `now`. Logging (`msg!`) is left out.
- The question bank's `get_approved_questions` is not part of this model.
- The Honeycomb verification (`verify_honeycomb_achievements`, `verify_honeycomb_data`) and the `honeycomb_profile` field are carried but not interpreted.
- `initialize_question_bank` appears only as the initial ledger state; re-initialisation is not an instruction of the ledger.
- `total_participants` of the tournament counter is written once, at zero, and never updated. The ledger invariant records that it stays zero.
- The `UnauthorizedAuthority` check in the reward distributor's `update_distribution_criteria` and `close_reward_pool` bodies is not modelled, because the account's `has_one = authority` constraint fails first with `ConstraintHasOne`.
- RewardFormulas.StakingReward: requires `stakingDuration >= 0`, which validation guarantees. The code multiplies a `u64` by an `i64`; the model uses a 64-bit unsigned product of the non-negative day count.
- RewardFormulas.CalculateReward: for the staking and achievement formulas, the contract promises success only up to 365 days and 100 achievements. Beyond that the product can overflow on large pools, which is the code's behaviour.
- `TournamentStatus::Cancelled` exists in the code but no instruction enters it.
- TournamentManagerProgram.ScoreAnswers: requires at most 255 answers. The loop runs only after the answer count has been checked against the `u8` question count, and this bound keeps the `u32` score in range.
