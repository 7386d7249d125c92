/** The tournament manager program: a global counter, tournaments with a
    registration → active → ended lifecycle, per-participant registrations
    and answer submissions, and the prize-distribution check. The entry-fee
    transfer is an external step whose outcome is the parameter `transferOk`. */
module TournamentManagerProgram {
  import opened Base

  const MAX_NAME_LEN: int := 100
  const MAX_DESCRIPTION_LEN: int := 500
  const MIN_QUESTIONS: int := 5
  const MAX_QUESTIONS: int := 50
  const MIN_PARTICIPANTS_TO_START: int := 2
  const POINTS_PER_ANSWER: int := 10

  datatype TournamentStatus = Registration | Active | Ended | Cancelled

  datatype Error =
    | NameTooLong
    | DescriptionTooLong
    | InvalidMaxParticipants
    | InvalidStartTime
    | InvalidDuration
    | InvalidQuestionCount
    | RegistrationClosed
    | TournamentFull
    | TournamentStarted
    | InvalidStatus
    | TournamentNotReady
    | InsufficientParticipants
    | TournamentNotActive
    | AlreadySubmitted
    | InvalidAnswerCount
    | TournamentEnded
    | TournamentNotEnded
    | InvalidPrizeData
    | InsufficientPrizePool
      // the token program refused the entry-fee transfer
    | TransferFailed
      // an arithmetic overflow or an unwrap of an absent value aborts the instruction
    | Panic
      // raised by the framework's account checks before the instruction body runs
    | ConstraintHasOne
    | AccountNotInitialized
    | AccountAlreadyInUse

  /** The program-wide counter account. `totalParticipants` is written once, at zero. */
  datatype TournamentManager = TournamentManager(authority: Pubkey, tournamentCount: uint64, totalParticipants: uint64)

  datatype Tournament = Tournament(
    id: uint64,
    organizer: Pubkey,
    name: Bytes,
    description: Bytes,
    entryFee: uint64,
    prizePool: uint64,
    maxParticipants: uint32,
    currentParticipants: uint32,
    startTime: int64,
    duration: int64,
    questionCount: uint8,
    category: Option<Bytes>,
    difficulty: Option<uint8>,
    status: TournamentStatus,
    createdAt: int64,
    actualStartTime: Option<int64>,
    endedAt: Option<int64>)

  /** One participant's entry in one tournament. */
  datatype Entry = Entry(
    participant: Pubkey,
    tournamentId: uint64,
    registeredAt: int64,
    score: uint32,
    completed: bool,
    submissionTime: Option<int64>)

  /** The arguments of `create_tournament`. */
  datatype TournamentParams = TournamentParams(
    name: Bytes,
    description: Bytes,
    entryFee: uint64,
    prizePool: uint64,
    maxParticipants: uint32,
    startTime: int64,
    duration: int64,
    questionCount: uint8,
    category: Option<Bytes>,
    difficulty: Option<uint8>)

  datatype Creation = Creation(manager: TournamentManager, tournament: Tournament)

  datatype Enrolment = Enrolment(tournament: Tournament, entry: Entry)

  /** The shape every tournament keeps: within its capacity, never cancelled,
      and with start and end stamps exactly when its status says so. */
  predicate TournamentWellFormed(t: TournamentStatus, actualStart: Option<int64>, endedAt: Option<int64>) {
    match t
    case Registration => actualStart.None? && endedAt.None?
    case Active => actualStart.Some? && endedAt.None?
    case Ended => actualStart.Some? && endedAt.Some?
    case Cancelled => false
  }

  predicate Consistent(t: Tournament) {
    && t.currentParticipants <= t.maxParticipants
    && TournamentWellFormed(t.status, t.actualStartTime, t.endedAt)
  }

  function Initialize(authority: Pubkey): (m: TournamentManager)
    ensures m.authority == authority && m.tournamentCount == 0 && m.totalParticipants == 0
  {
    TournamentManager(authority, 0, 0)
  }

  predicate ParamsValid(p: TournamentParams, now: int64) {
    && |p.name| <= MAX_NAME_LEN && |p.description| <= MAX_DESCRIPTION_LEN
    && p.maxParticipants > 0 && p.startTime > now && p.duration > 0
    && MIN_QUESTIONS <= p.questionCount <= MAX_QUESTIONS
  }

  function CreateTournament(m: TournamentManager, organizer: Pubkey, p: TournamentParams, now: int64)
    : (r: Result<Creation, Error>)
    ensures |p.name| > MAX_NAME_LEN ==> r == Err(NameTooLong)
    ensures |p.name| <= MAX_NAME_LEN && |p.description| > MAX_DESCRIPTION_LEN ==> r == Err(DescriptionTooLong)
    ensures (|p.name| <= MAX_NAME_LEN && |p.description| <= MAX_DESCRIPTION_LEN && p.maxParticipants == 0)
            ==> r == Err(InvalidMaxParticipants)
    ensures (|p.name| <= MAX_NAME_LEN && |p.description| <= MAX_DESCRIPTION_LEN && p.maxParticipants > 0
             && p.startTime <= now) ==> r == Err(InvalidStartTime)
    ensures (|p.name| <= MAX_NAME_LEN && |p.description| <= MAX_DESCRIPTION_LEN && p.maxParticipants > 0
             && p.startTime > now && p.duration <= 0) ==> r == Err(InvalidDuration)
    ensures (|p.name| <= MAX_NAME_LEN && |p.description| <= MAX_DESCRIPTION_LEN && p.maxParticipants > 0
             && p.startTime > now && p.duration > 0 && !(MIN_QUESTIONS <= p.questionCount <= MAX_QUESTIONS))
            ==> r == Err(InvalidQuestionCount)
    ensures r.Ok? <==> ParamsValid(p, now) && m.tournamentCount < U64_MAX
    ensures ParamsValid(p, now) && m.tournamentCount == U64_MAX ==> r == Err(Panic)
    ensures r.Ok? ==>
      var t := r.value.tournament;
      && t.id == m.tournamentCount && t.organizer == organizer
      && t.status == Registration && t.currentParticipants == 0 && t.createdAt == now
      && t.prizePool == p.prizePool && t.entryFee == p.entryFee && t.maxParticipants == p.maxParticipants
      && t.startTime == p.startTime && t.duration == p.duration && t.questionCount == p.questionCount
      && t.name == p.name && t.description == p.description
      && t.category == p.category && t.difficulty == p.difficulty
      && Consistent(t)
    ensures r.Ok? ==> r.value.manager == m.(tournamentCount := m.tournamentCount + 1)
  {
    if |p.name| > 100 then Err(NameTooLong)
    else if |p.description| > 500 then Err(DescriptionTooLong)
    else if !(p.maxParticipants > 0) then Err(InvalidMaxParticipants)
    else if !(p.startTime > now) then Err(InvalidStartTime)
    else if !(p.duration > 0) then Err(InvalidDuration)
    else if !(p.questionCount >= 5 && p.questionCount <= 50) then Err(InvalidQuestionCount)
    else if m.tournamentCount + 1 > U64_MAX then Err(Panic)
    else
      var t := Tournament(m.tournamentCount, organizer, p.name, p.description, p.entryFee, p.prizePool,
                          p.maxParticipants, 0, p.startTime, p.duration, p.questionCount, p.category,
                          p.difficulty, Registration, now, None, None);
      Ok(Creation(m.(tournamentCount := m.tournamentCount + 1), t))
  }

  /** Registration is open: the tournament takes entries, has room, and has not begun. */
  predicate RegistrationOpen(t: Tournament, now: int64) {
    t.status == Registration && t.currentParticipants < t.maxParticipants && now < t.startTime
  }

  function RegisterForTournament(t: Tournament, participant: Pubkey, now: int64, transferOk: bool)
    : (r: Result<Enrolment, Error>)
    ensures t.status != Registration ==> r == Err(RegistrationClosed)
    ensures t.status == Registration && t.currentParticipants >= t.maxParticipants ==> r == Err(TournamentFull)
    ensures t.status == Registration && t.currentParticipants < t.maxParticipants && now >= t.startTime
            ==> r == Err(TournamentStarted)
    ensures RegistrationOpen(t, now) && t.entryFee > 0 && !transferOk ==> r == Err(TransferFailed)
    ensures (RegistrationOpen(t, now) && (t.entryFee > 0 ==> transferOk) && t.prizePool + t.entryFee > U64_MAX)
            ==> r == Err(Panic)
    ensures r.Ok? <==>
      RegistrationOpen(t, now) && (t.entryFee > 0 ==> transferOk) && t.prizePool + t.entryFee <= U64_MAX
    ensures r.Ok? ==>
      && r.value.tournament == t.(currentParticipants := t.currentParticipants + 1, prizePool := t.prizePool + t.entryFee)
      && r.value.entry == Entry(participant, t.id, now, 0, false, None)
    ensures r.Ok? && Consistent(t) ==> Consistent(r.value.tournament)
  {
    if t.status != Registration then Err(RegistrationClosed)
    else if !(t.currentParticipants < t.maxParticipants) then Err(TournamentFull)
    else if !(now < t.startTime) then Err(TournamentStarted)
    else if t.entryFee > 0 && !transferOk then Err(TransferFailed)
    else if t.prizePool + t.entryFee > U64_MAX then Err(Panic)
    else
      Ok(Enrolment(t.(currentParticipants := t.currentParticipants + 1, prizePool := t.prizePool + t.entryFee),
                   Entry(participant, t.id, now, 0, false, None)))
  }

  /** The organizer constraint on the account comes before the body's checks. */
  function StartTournament(t: Tournament, signer: Pubkey, now: int64): (r: Result<Tournament, Error>)
    ensures t.organizer != signer ==> r == Err(ConstraintHasOne)
    ensures t.organizer == signer && t.status != Registration ==> r == Err(InvalidStatus)
    ensures t.organizer == signer && t.status == Registration && now < t.startTime ==> r == Err(TournamentNotReady)
    ensures (t.organizer == signer && t.status == Registration && now >= t.startTime
             && t.currentParticipants < MIN_PARTICIPANTS_TO_START) ==> r == Err(InsufficientParticipants)
    ensures r.Ok? <==>
      t.organizer == signer && t.status == Registration && now >= t.startTime
      && t.currentParticipants >= MIN_PARTICIPANTS_TO_START
    ensures r.Ok? ==> r.value == t.(status := Active, actualStartTime := Some(now))
    ensures r.Ok? && Consistent(t) ==> Consistent(r.value)
  {
    if t.organizer != signer then Err(ConstraintHasOne)
    else if t.status != Registration then Err(InvalidStatus)
    else if !(now >= t.startTime) then Err(TournamentNotReady)
    else if !(t.currentParticipants >= 2) then Err(InsufficientParticipants)
    else Ok(t.(status := Active, actualStartTime := Some(now)))
  }

  /** The close of play, `actual_start_time + duration`: absent (an unwrap
      that aborts) before the tournament started, and absent when the
      addition leaves the signed 64-bit range. */
  function EndTime(t: Tournament): (e: Option<int64>)
    ensures e.Some? <==> t.actualStartTime.Some? && I64_MIN <= t.actualStartTime.value + t.duration <= I64_MAX
    ensures e.Some? ==> e.value == t.actualStartTime.value + t.duration
  {
    match t.actualStartTime
    case None => None
    case Some(s) =>
      if s + t.duration < I64_MIN || s + t.duration > I64_MAX then None else Some(s + t.duration)
  }

  /** How many of the first `n` answer positions score: those whose index
      ends in the digits 0 to 6. */
  function ScoredCount(n: nat): (c: nat)
    ensures c <= n
    ensures n <= 7 ==> c == n
  {
    if n == 0 then 0 else ScoredCount(n - 1) + (if (n - 1) % 10 < 7 then 1 else 0)
  }

  /** Seven of every ten positions score, then the first seven of the remainder. */
  lemma {:induction false} ScoredCountClosedForm(n: nat)
    ensures ScoredCount(n) == 7 * (n / 10) + Min(n % 10, 7)
  {
    if n > 0 {
      var m := n - 1;
      ScoredCountClosedForm(m);
      if m % 10 == 9 {
        assert n / 10 == m / 10 + 1 && n % 10 == 0;
      } else {
        assert n / 10 == m / 10 && n % 10 == m % 10 + 1;
      }
    }
  }

  lemma ScoredCountBounds(n: nat)
    ensures ScoredCount(n) <= n
    ensures n <= 7 ==> ScoredCount(n) == n
  {
    ScoredCountClosedForm(n);
  }

  /** The scoring loop of `submit_answers`: ten points per scoring position,
      whatever the answer bytes hold. */
  method ScoreAnswers(answers: seq<uint8>) returns (score: uint32)
    requires |answers| <= 0xFF
    ensures score == POINTS_PER_ANSWER * ScoredCount(|answers|)
    ensures score == 10 * (7 * (|answers| / 10) + Min(|answers| % 10, 7))
  {
    score := 0;
    var i := 0;
    while i < |answers|
      invariant 0 <= i <= |answers|
      invariant score == 10 * ScoredCount(i)
    {
      ScoredCountBounds(i + 1);
      if i % 10 < 7 {
        score := score + 10;
      }
      i := i + 1;
    }
    ScoredCountClosedForm(|answers|);
  }

  function SubmitAnswers(t: Tournament, e: Entry, answers: seq<uint8>, now: int64): (r: Result<Entry, Error>)
    ensures t.status != Active ==> r == Err(TournamentNotActive)
    ensures t.status == Active && e.completed ==> r == Err(AlreadySubmitted)
    ensures t.status == Active && !e.completed && |answers| != t.questionCount ==> r == Err(InvalidAnswerCount)
    ensures (t.status == Active && !e.completed && |answers| == t.questionCount && EndTime(t).None?)
            ==> r == Err(Panic)
    ensures (t.status == Active && !e.completed && |answers| == t.questionCount && EndTime(t).Some?
             && now > EndTime(t).value) ==> r == Err(TournamentEnded)
    ensures r.Ok? <==>
      t.status == Active && !e.completed && |answers| == t.questionCount
      && EndTime(t).Some? && now <= EndTime(t).value
    ensures r.Ok? ==>
      && r.value.completed && r.value.submissionTime == Some(now)
      && r.value.score == POINTS_PER_ANSWER * ScoredCount(|answers|)
      && r.value == e.(score := r.value.score, completed := true, submissionTime := Some(now))
  {
    if t.status != Active then Err(TournamentNotActive)
    else if e.completed then Err(AlreadySubmitted)
    else if |answers| != t.questionCount then Err(InvalidAnswerCount)
    else
      match EndTime(t)
      case None => Err(Panic)
      case Some(end) =>
        if !(now <= end) then Err(TournamentEnded)
        else
          ScoredCountBounds(|answers|);
          Ok(e.(score := 10 * ScoredCount(|answers|), completed := true, submissionTime := Some(now)))
  }

  function EndTournament(t: Tournament, signer: Pubkey, now: int64): (r: Result<Tournament, Error>)
    ensures t.organizer != signer ==> r == Err(ConstraintHasOne)
    ensures t.organizer == signer && t.status != Active ==> r == Err(TournamentNotActive)
    ensures t.organizer == signer && t.status == Active && EndTime(t).None? ==> r == Err(Panic)
    ensures r.Ok? <==>
      t.organizer == signer && t.status == Active && EndTime(t).Some? && now >= EndTime(t).value
    ensures (t.organizer == signer && t.status == Active && EndTime(t).Some? && now < EndTime(t).value)
            ==> r == Err(TournamentNotEnded)
    ensures r.Ok? ==> r.value == t.(status := Ended, endedAt := Some(now))
    ensures r.Ok? && Consistent(t) ==> Consistent(r.value)
  {
    if t.organizer != signer then Err(ConstraintHasOne)
    else if t.status != Active then Err(TournamentNotActive)
    else
      match EndTime(t)
      case None => Err(Panic)
      case Some(end) =>
        if !(now >= end) then Err(TournamentNotEnded)
        else Ok(t.(status := Ended, endedAt := Some(now)))
  }

  /** The plain sum of a list of amounts. */
  function Sum(xs: seq<uint64>): nat {
    if xs == [] then 0 else Sum(xs[..|xs| - 1]) + xs[|xs| - 1]
  }

  /** `Iterator::sum` over 64-bit amounts: a running total from the left that
      aborts as soon as it leaves the 64-bit range. */
  function CheckedSum(xs: seq<uint64>): (r: Option<uint64>)
    ensures r.Some? ==> r.value == Sum(xs)
  {
    if xs == [] then Some(0)
    else
      match CheckedSum(xs[..|xs| - 1])
      case None => None
      case Some(acc) => if acc + xs[|xs| - 1] > U64_MAX then None else Some(acc + xs[|xs| - 1])
  }

  /** The running total aborts exactly when the true sum does not fit. */
  lemma {:induction false} CheckedSumCorrect(xs: seq<uint64>)
    ensures CheckedSum(xs).Some? <==> Sum(xs) <= U64_MAX
    ensures CheckedSum(xs).Some? ==> CheckedSum(xs).value == Sum(xs)
    decreases |xs|
  {
    if xs != [] {
      CheckedSumCorrect(xs[..|xs| - 1]);
    }
  }

  /** Checks a proposed payout and changes nothing: no transfer is made. */
  function DistributePrizes(t: Tournament, signer: Pubkey, winners: seq<Pubkey>, amounts: seq<uint64>)
    : (r: Result<Tournament, Error>)
    ensures t.organizer != signer ==> r == Err(ConstraintHasOne)
    ensures t.organizer == signer && t.status != Ended ==> r == Err(TournamentNotEnded)
    ensures t.organizer == signer && t.status == Ended && |winners| != |amounts| ==> r == Err(InvalidPrizeData)
    ensures (t.organizer == signer && t.status == Ended && |winners| == |amounts| && Sum(amounts) > U64_MAX)
            ==> r == Err(Panic)
    ensures (t.organizer == signer && t.status == Ended && |winners| == |amounts|
             && t.prizePool < Sum(amounts) <= U64_MAX) ==> r == Err(InsufficientPrizePool)
    ensures r.Ok? <==>
      t.organizer == signer && t.status == Ended && |winners| == |amounts| && Sum(amounts) <= t.prizePool
    ensures r.Ok? ==> r.value == t
  {
    CheckedSumCorrect(amounts);
    if t.organizer != signer then Err(ConstraintHasOne)
    else if t.status != Ended then Err(TournamentNotEnded)
    else if |winners| != |amounts| then Err(InvalidPrizeData)
    else
      match CheckedSum(amounts)
      case None => Err(Panic)
      case Some(total) => if !(total <= t.prizePool) then Err(InsufficientPrizePool) else Ok(t)
  }

  // ---------------------------------------------------------------------------
  // Properties relating several instructions
  // ---------------------------------------------------------------------------

  /** A second submission is refused, whatever the answers and the time. */
  lemma NoResubmission(t: Tournament, e: Entry, answers: seq<uint8>, now: int64, answers': seq<uint8>, now': int64)
    requires SubmitAnswers(t, e, answers, now).Ok?
    ensures SubmitAnswers(t, SubmitAnswers(t, e, answers, now).value, answers', now') == Err(AlreadySubmitted)
  {
  }

  /** Registration → Active → Ended, one step at a time, and never back. */
  function Rank(s: TournamentStatus): nat {
    match s
    case Registration => 0
    case Active => 1
    case Ended => 2
    case Cancelled => 3
  }

  lemma StatusOnlyAdvances(t: Tournament, signer: Pubkey, participant: Pubkey, now: int64, ok: bool,
                           winners: seq<Pubkey>, amounts: seq<uint64>)
    ensures RegisterForTournament(t, participant, now, ok).Ok? ==>
      RegisterForTournament(t, participant, now, ok).value.tournament.status == t.status == Registration
    ensures StartTournament(t, signer, now).Ok? ==>
      t.status == Registration && StartTournament(t, signer, now).value.status == Active
    ensures EndTournament(t, signer, now).Ok? ==>
      t.status == Active && EndTournament(t, signer, now).value.status == Ended
    ensures DistributePrizes(t, signer, winners, amounts).Ok? ==>
      DistributePrizes(t, signer, winners, amounts).value.status == t.status == Ended
  {
  }

  /** A tournament with only one entrant can never be started, and so its
      entrants can never submit. */
  lemma LoneEntrantCannotStart(t: Tournament, signer: Pubkey, now: int64)
    requires t.currentParticipants < MIN_PARTICIPANTS_TO_START
    ensures StartTournament(t, signer, now).Err?
  {
  }
}
