/** The tournament manager's accounts as one state: the counter account (absent
    until initialised), tournaments keyed by the id in their address, and
    registrations keyed by tournament and participant. An instruction that
    fails leaves every account as it was. */
module TournamentLedger {
  import opened Base
  import opened TournamentManagerProgram

  /** The seeds of a registration's address. */
  datatype EntryKey = EntryKey(tournament: uint64, participant: Pubkey)

  datatype Ledger = Ledger(
    manager: Option<TournamentManager>,
    tournaments: map<uint64, Tournament>,
    entries: map<EntryKey, Entry>)

  datatype Instruction =
    | Init(authority: Pubkey)
    | Create(organizer: Pubkey, params: TournamentParams)
    | Register(id: uint64, participant: Pubkey)
    | Start(id: uint64, signer: Pubkey)
    | Submit(id: uint64, participant: Pubkey, answers: seq<uint8>)
    | End(id: uint64, signer: Pubkey)
    | Distribute(id: uint64, signer: Pubkey, winners: seq<Pubkey>, amounts: seq<uint64>)

  /** An instruction, the clock reading it runs under, and whether the token
      program accepts the entry-fee transfer. */
  datatype Call = Call(ins: Instruction, now: int64, transferOk: bool)

  const Empty: Ledger := Ledger(None, map[], map[])

  function Step(s: Ledger, ins: Instruction, now: int64, transferOk: bool): Result<Ledger, Error> {
    match ins
    case Init(authority) =>
      if s.manager.Some? then Err(AccountAlreadyInUse)
      else Ok(s.(manager := Some(Initialize(authority))))
    case Create(organizer, params) =>
      if s.manager.None? then Err(AccountNotInitialized)
      else if s.manager.value.tournamentCount in s.tournaments then Err(AccountAlreadyInUse)
      else (
        match CreateTournament(s.manager.value, organizer, params, now)
        case Err(e) => Err(e)
        case Ok(c) =>
          Ok(s.(manager := Some(c.manager), tournaments := s.tournaments[c.tournament.id := c.tournament])))
    case Register(id, participant) =>
      if id !in s.tournaments then Err(AccountNotInitialized)
      else if EntryKey(id, participant) in s.entries then Err(AccountAlreadyInUse)
      else (
        match RegisterForTournament(s.tournaments[id], participant, now, transferOk)
        case Err(e) => Err(e)
        case Ok(w) =>
          Ok(s.(tournaments := s.tournaments[id := w.tournament],
                entries := s.entries[EntryKey(id, participant) := w.entry])))
    case Start(id, signer) =>
      if id !in s.tournaments then Err(AccountNotInitialized)
      else (
        match StartTournament(s.tournaments[id], signer, now)
        case Err(e) => Err(e)
        case Ok(t) => Ok(s.(tournaments := s.tournaments[id := t])))
    case Submit(id, participant, answers) =>
      var key := EntryKey(id, participant);
      if id !in s.tournaments || key !in s.entries then Err(AccountNotInitialized)
      else (
        match SubmitAnswers(s.tournaments[id], s.entries[key], answers, now)
        case Err(e) => Err(e)
        case Ok(e) => Ok(s.(entries := s.entries[key := e])))
    case End(id, signer) =>
      if id !in s.tournaments then Err(AccountNotInitialized)
      else (
        match EndTournament(s.tournaments[id], signer, now)
        case Err(e) => Err(e)
        case Ok(t) => Ok(s.(tournaments := s.tournaments[id := t])))
    case Distribute(id, signer, winners, amounts) =>
      if id !in s.tournaments then Err(AccountNotInitialized)
      else
        match DistributePrizes(s.tournaments[id], signer, winners, amounts)
        case Err(e) => Err(e)
        case Ok(t) => Ok(s.(tournaments := s.tournaments[id := t]))
  }

  function Next(s: Ledger, c: Call): Ledger {
    match Step(s, c.ins, c.now, c.transferOk)
    case Ok(s') => s'
    case Err(_) => s
  }

  function Run(s: Ledger, calls: seq<Call>): Ledger
    decreases |calls|
  {
    if calls == [] then s else Run(Next(s, calls[0]), calls[1..])
  }

  // ---------------------------------------------------------------------------
  // The invariant
  // ---------------------------------------------------------------------------

  /** The registrations held for tournament `id`. */
  function EntriesOf(entries: map<EntryKey, Entry>, id: uint64): set<EntryKey> {
    set k | k in entries && k.tournament == id
  }

  /** What a registration records about itself and its tournament: its own
      seeds, a submission stamp exactly when it has submitted, a score fixed by
      the question count, and no submission before the tournament started. */
  predicate EntryValid(k: EntryKey, e: Entry, t: Tournament) {
    && e.participant == k.participant && e.tournamentId == k.tournament
    && (e.completed <==> e.submissionTime.Some?)
    && (e.completed ==> t.status != Registration && e.score == POINTS_PER_ANSWER * ScoredCount(t.questionCount))
  }

  ghost predicate Valid(s: Ledger) {
    && (s.manager.None? ==> s.tournaments == map[] && s.entries == map[])
    && (s.manager.Some? ==>
          && s.manager.value.totalParticipants == 0
          && (forall k: uint64 :: k in s.tournaments <==> k < s.manager.value.tournamentCount))
    && (forall id :: id in s.tournaments ==>
          && s.tournaments[id].id == id && Consistent(s.tournaments[id])
          && s.tournaments[id].currentParticipants == |EntriesOf(s.entries, id)|)
    && (forall k :: k in s.entries ==> k.tournament in s.tournaments && EntryValid(k, s.entries[k], s.tournaments[k.tournament]))
  }

  lemma EmptyValid()
    ensures Valid(Empty)
  {
  }

  lemma CreatePreservesValid(s: Ledger, organizer: Pubkey, params: TournamentParams, now: int64, ok: bool)
    requires Valid(s) && Step(s, Create(organizer, params), now, ok).Ok?
    ensures Valid(Step(s, Create(organizer, params), now, ok).value)
  {
    var c := CreateTournament(s.manager.value, organizer, params, now).value;
    var s' := Step(s, Create(organizer, params), now, ok).value;
    var id := c.tournament.id;
    assert s'.tournaments == s.tournaments[id := c.tournament];
    assert EntriesOf(s.entries, id) == {};
  }

  lemma RegisterPreservesValid(s: Ledger, id: uint64, participant: Pubkey, now: int64, ok: bool)
    requires Valid(s) && Step(s, Register(id, participant), now, ok).Ok?
    ensures Valid(Step(s, Register(id, participant), now, ok).value)
  {
    var key := EntryKey(id, participant);
    var w := RegisterForTournament(s.tournaments[id], participant, now, ok).value;
    var s' := Step(s, Register(id, participant), now, ok).value;
    assert s'.entries == s.entries[key := w.entry];
    assert EntriesOf(s'.entries, id) == EntriesOf(s.entries, id) + {key};
    forall j | j in s'.tournaments && j != id
      ensures s'.tournaments[j].currentParticipants == |EntriesOf(s'.entries, j)|
    {
      assert EntriesOf(s'.entries, j) == EntriesOf(s.entries, j);
    }
  }

  lemma SubmitPreservesValid(s: Ledger, id: uint64, participant: Pubkey, answers: seq<uint8>, now: int64, ok: bool)
    requires Valid(s) && Step(s, Submit(id, participant, answers), now, ok).Ok?
    ensures Valid(Step(s, Submit(id, participant, answers), now, ok).value)
  {
    var key := EntryKey(id, participant);
    var e := SubmitAnswers(s.tournaments[id], s.entries[key], answers, now).value;
    var s' := Step(s, Submit(id, participant, answers), now, ok).value;
    assert s'.entries == s.entries[key := e];
    forall j | j in s'.tournaments
      ensures s'.tournaments[j].currentParticipants == |EntriesOf(s'.entries, j)|
    {
      assert EntriesOf(s'.entries, j) == EntriesOf(s.entries, j);
    }
  }

  /** Starting, ending and the prize check rewrite one tournament and no
      registration; what the registrations say about it stays true. */
  lemma LifecyclePreservesValid(s: Ledger, id: uint64, t': Tournament)
    requires Valid(s) && id in s.tournaments
    requires t'.id == id && Consistent(t') && t'.currentParticipants == s.tournaments[id].currentParticipants
    requires t'.questionCount == s.tournaments[id].questionCount
    requires s.tournaments[id].status != Registration ==> t'.status != Registration
    ensures Valid(s.(tournaments := s.tournaments[id := t']))
  {
  }

  lemma StepPreservesValid(s: Ledger, c: Call)
    requires Valid(s)
    ensures Valid(Next(s, c))
  {
    if Step(s, c.ins, c.now, c.transferOk).Ok? {
      match c.ins
      case Init(_) =>
      case Create(organizer, params) => CreatePreservesValid(s, organizer, params, c.now, c.transferOk);
      case Register(id, participant) => RegisterPreservesValid(s, id, participant, c.now, c.transferOk);
      case Submit(id, participant, answers) => SubmitPreservesValid(s, id, participant, answers, c.now, c.transferOk);
      case Start(id, signer) =>
        LifecyclePreservesValid(s, id, StartTournament(s.tournaments[id], signer, c.now).value);
      case End(id, signer) =>
        LifecyclePreservesValid(s, id, EndTournament(s.tournaments[id], signer, c.now).value);
      case Distribute(id, signer, winners, amounts) =>
        LifecyclePreservesValid(s, id, DistributePrizes(s.tournaments[id], signer, winners, amounts).value);
    }
  }

  /** Every state reachable from no accounts at all satisfies the invariant. */
  lemma {:induction false} RunPreservesValid(s: Ledger, calls: seq<Call>)
    requires Valid(s)
    ensures Valid(Run(s, calls))
    decreases |calls|
  {
    if calls != [] {
      StepPreservesValid(s, calls[0]);
      RunPreservesValid(Next(s, calls[0]), calls[1..]);
    }
  }

  /** In every reachable state no tournament holds more registrations than
      it admits, and none is ever cancelled. */
  lemma ReachableTournaments(calls: seq<Call>, id: uint64)
    requires id in Run(Empty, calls).tournaments
    ensures
      var s := Run(Empty, calls);
      && |EntriesOf(s.entries, id)| <= s.tournaments[id].maxParticipants
      && s.tournaments[id].status != Cancelled
  {
    EmptyValid();
    RunPreservesValid(Empty, calls);
  }

  // ---------------------------------------------------------------------------
  // What never goes back
  // ---------------------------------------------------------------------------

  /** `t'` is a later version of `t`: the same tournament, a status no earlier,
      and a start stamp that is kept once written. */
  predicate TournamentSucceeds(t: Tournament, t': Tournament) {
    && t'.id == t.id && t'.organizer == t.organizer && t'.questionCount == t.questionCount
    && t'.startTime == t.startTime && t'.duration == t.duration && t'.entryFee == t.entryFee
    && Rank(t'.status) >= Rank(t.status)
    && t'.currentParticipants >= t.currentParticipants && t'.prizePool >= t.prizePool
    && (t.actualStartTime.Some? ==> t'.actualStartTime == t.actualStartTime)
  }

  /** A later version of a registration: a submission, once made, is final. */
  predicate EntrySucceeds(e: Entry, e': Entry) {
    e.completed ==> e' == e
  }

  predicate TournamentsOneWay(ts: map<uint64, Tournament>, ts': map<uint64, Tournament>) {
    forall id :: id in ts ==> id in ts' && TournamentSucceeds(ts[id], ts'[id])
  }

  predicate EntriesOneWay(es: map<EntryKey, Entry>, es': map<EntryKey, Entry>) {
    forall k :: k in es ==> k in es' && EntrySucceeds(es[k], es'[k])
  }

  /** Writing a later version of one tournament keeps every history one-way. */
  lemma TournamentRewrite(ts: map<uint64, Tournament>, id: uint64, t': Tournament)
    requires id in ts ==> TournamentSucceeds(ts[id], t')
    ensures TournamentsOneWay(ts, ts[id := t'])
  {
  }

  lemma EntryRewrite(es: map<EntryKey, Entry>, k: EntryKey, e': Entry)
    requires k in es ==> EntrySucceeds(es[k], e')
    ensures EntriesOneWay(es, es[k := e'])
  {
  }

  lemma StepOneWay(s: Ledger, c: Call)
    requires Valid(s)
    ensures TournamentsOneWay(s.tournaments, Next(s, c).tournaments)
    ensures EntriesOneWay(s.entries, Next(s, c).entries)
    ensures s.manager.Some? ==> Next(s, c).manager.Some? && Next(s, c).manager.value.authority == s.manager.value.authority
  {
    var ts, es := s.tournaments, s.entries;
    if Step(s, c.ins, c.now, c.transferOk).Ok? {
      match c.ins
      case Init(_) =>
      case Create(organizer, params) =>
        var cr := CreateTournament(s.manager.value, organizer, params, c.now).value;
        TournamentRewrite(ts, cr.tournament.id, cr.tournament);
      case Register(id, participant) =>
        var w := RegisterForTournament(ts[id], participant, c.now, c.transferOk).value;
        TournamentRewrite(ts, id, w.tournament);
        EntryRewrite(es, EntryKey(id, participant), w.entry);
      case Start(id, signer) =>
        TournamentRewrite(ts, id, StartTournament(ts[id], signer, c.now).value);
      case Submit(id, participant, answers) =>
        var key := EntryKey(id, participant);
        EntryRewrite(es, key, SubmitAnswers(ts[id], es[key], answers, c.now).value);
      case End(id, signer) =>
        TournamentRewrite(ts, id, EndTournament(ts[id], signer, c.now).value);
      case Distribute(id, signer, winners, amounts) =>
        TournamentRewrite(ts, id, DistributePrizes(ts[id], signer, winners, amounts).value);
    }
  }

  /** Over any run: no tournament or registration disappears, statuses only
      advance, and a submission is final. */
  lemma {:induction false} RunOneWay(s: Ledger, calls: seq<Call>)
    requires Valid(s)
    ensures TournamentsOneWay(s.tournaments, Run(s, calls).tournaments)
    ensures EntriesOneWay(s.entries, Run(s, calls).entries)
    decreases |calls|
  {
    if calls != [] {
      var s1 := Next(s, calls[0]);
      StepOneWay(s, calls[0]);
      StepPreservesValid(s, calls[0]);
      RunOneWay(s1, calls[1..]);
    }
  }
}
