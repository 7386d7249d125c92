/** The question bank program's accounts as one state: the registry, the
    questions keyed by the id in their address, and the reputation accounts
    keyed by their owner. Instructions run one after another; an instruction
    that fails leaves every account as it was. */
module QuestionBankLedger {
  import opened Base
  import opened QuestionBankProgram

  datatype Ledger = Ledger(
    bank: QuestionBank,
    questions: map<uint64, Question>,
    reputations: map<Pubkey, UserReputation>)

  /** One instruction with the accounts it names. */
  datatype Instruction =
    | InitReputation(user: Pubkey)
    | Submit(submitter: Pubkey, data: QuestionData)
    | CastVote(voter: Pubkey, question: uint64, vote: VoteType)
    | Finalize(curator: Pubkey, question: uint64, questionId: uint64)
    | AdjustReputation(user: Pubkey, action: ReputationAction)
    | Appoint(signer: Pubkey, curator: Pubkey)
    | Dismiss(signer: Pubkey, curator: Pubkey)

  /** An instruction together with the clock reading it runs under. */
  datatype Call = Call(ins: Instruction, now: int64)

  function Genesis(authority: Pubkey): Ledger {
    Ledger(InitializeQuestionBank(authority), map[], map[])
  }

  function Step(s: Ledger, ins: Instruction, now: int64): Result<Ledger, Error> {
    match ins
    case InitReputation(user) =>
      if user in s.reputations then Err(AccountAlreadyInUse)
      else Ok(s.(reputations := s.reputations[user := InitializeUserReputation(user)]))
    case Submit(submitter, data) =>
      var key := s.bank.totalQuestions;
      if key in s.questions then Err(AccountAlreadyInUse)
      else if submitter !in s.reputations then Err(AccountNotInitialized)
      else (
        match SubmitQuestion(s.bank, s.reputations[submitter], submitter, data, now)
        case Err(e) => Err(e)
        case Ok(w) =>
          Ok(Ledger(w.bank, s.questions[key := w.question], s.reputations[submitter := w.reputation])))
    case CastVote(voter, key, vote) =>
      if key !in s.questions || voter !in s.reputations then Err(AccountNotInitialized)
      else (
        match VoteOnQuestion(s.questions[key], s.reputations[voter], voter, vote)
        case Err(e) => Err(e)
        case Ok(w) =>
          Ok(s.(questions := s.questions[key := w.question],
                reputations := s.reputations[voter := w.reputation])))
    case Finalize(curator, key, id) =>
      if key !in s.questions || s.questions[key].submitter !in s.reputations then Err(AccountNotInitialized)
      else (
        var submitter := s.questions[key].submitter;
        match FinalizeQuestion(s.bank, s.questions[key], s.reputations[submitter], curator, id)
        case Err(e) => Err(e)
        case Ok(w) =>
          Ok(Ledger(w.bank, s.questions[key := w.question], s.reputations[submitter := w.reputation])))
    case AdjustReputation(user, action) =>
      if user !in s.reputations then Err(AccountNotInitialized)
      else (
        match UpdateReputation(s.reputations[user], action)
        case Err(e) => Err(e)
        case Ok(rep) => Ok(s.(reputations := s.reputations[user := rep])))
    case Appoint(signer, c) => (
      match AddCurator(s.bank, signer, c)
      case Err(e) => Err(e)
      case Ok(b) => Ok(s.(bank := b)))
    case Dismiss(signer, c) =>
      match RemoveCurator(s.bank, signer, c)
      case Err(e) => Err(e)
      case Ok(b) => Ok(s.(bank := b))
  }

  /** The state after a call: a failed instruction changes nothing. */
  function Next(s: Ledger, c: Call): Ledger {
    match Step(s, c.ins, c.now)
    case Ok(s') => s'
    case Err(_) => s
  }

  function Run(s: Ledger, calls: seq<Call>): Ledger
    decreases |calls|
  {
    if calls == [] then s else Run(Next(s, calls[0]), calls[1..])
  }

  // ---------------------------------------------------------------------------
  // The invariant
  // ---------------------------------------------------------------------------

  function ApprovedIds(qs: map<uint64, Question>): set<uint64> {
    set k | k in qs && qs[k].status == Approved
  }

  ghost predicate Valid(s: Ledger) {
    && CuratorsValid(s.bank)
    && (forall k: uint64 :: k in s.questions <==> k < s.bank.totalQuestions)
    && (forall k :: k in s.questions ==> s.questions[k].id == k && TallyConsistent(s.questions[k]))
    && (forall u :: u in s.reputations ==> s.reputations[u].user == u)
    && s.bank.activeQuestions == |ApprovedIds(s.questions)|
  }

  lemma GenesisValid(authority: Pubkey)
    ensures Valid(Genesis(authority))
    ensures Genesis(authority).bank.authority == authority
  {
    assert ApprovedIds(map[]) == {};
  }

  lemma SubmitPreservesValid(s: Ledger, submitter: Pubkey, data: QuestionData, now: int64)
    requires Valid(s) && Step(s, Submit(submitter, data), now).Ok?
    ensures Valid(Step(s, Submit(submitter, data), now).value)
  {
    var key := s.bank.totalQuestions;
    var w := SubmitQuestion(s.bank, s.reputations[submitter], submitter, data, now).value;
    var s' := Step(s, Submit(submitter, data), now).value;
    assert s'.questions == s.questions[key := w.question];
    assert ApprovedIds(s'.questions) == ApprovedIds(s.questions);
  }

  lemma VotePreservesValid(s: Ledger, voter: Pubkey, key: uint64, vote: VoteType, now: int64)
    requires Valid(s) && Step(s, CastVote(voter, key, vote), now).Ok?
    ensures Valid(Step(s, CastVote(voter, key, vote), now).value)
  {
    var s' := Step(s, CastVote(voter, key, vote), now).value;
    var w := VoteOnQuestion(s.questions[key], s.reputations[voter], voter, vote).value;
    assert s'.questions == s.questions[key := w.question];
    assert ApprovedIds(s'.questions) == ApprovedIds(s.questions);
  }

  lemma FinalizePreservesValid(s: Ledger, curator: Pubkey, key: uint64, id: uint64, now: int64)
    requires Valid(s) && Step(s, Finalize(curator, key, id), now).Ok?
    ensures Valid(Step(s, Finalize(curator, key, id), now).value)
  {
    var q := s.questions[key];
    var w := FinalizeQuestion(s.bank, q, s.reputations[q.submitter], curator, id).value;
    var s' := Step(s, Finalize(curator, key, id), now).value;
    assert s'.questions == s.questions[key := w.question];
    assert key !in ApprovedIds(s.questions);
    if w.question.status == Approved {
      assert ApprovedIds(s'.questions) == ApprovedIds(s.questions) + {key};
    } else {
      assert ApprovedIds(s'.questions) == ApprovedIds(s.questions);
    }
  }

  lemma StepPreservesValid(s: Ledger, ins: Instruction, now: int64)
    requires Valid(s)
    ensures Step(s, ins, now).Ok? ==> Valid(Step(s, ins, now).value)
  {
    if Step(s, ins, now).Ok? {
      match ins
      case Submit(submitter, data) => SubmitPreservesValid(s, submitter, data, now);
      case CastVote(voter, key, vote) => VotePreservesValid(s, voter, key, vote, now);
      case Finalize(curator, key, id) => FinalizePreservesValid(s, curator, key, id, now);
      case _ =>
    }
  }

  /** Every state reachable from the initial registry satisfies the invariant. */
  lemma {:induction false} RunPreservesValid(s: Ledger, calls: seq<Call>)
    requires Valid(s)
    ensures Valid(Run(s, calls))
    decreases |calls|
  {
    if calls != [] {
      StepPreservesValid(s, calls[0].ins, calls[0].now);
      RunPreservesValid(Next(s, calls[0]), calls[1..]);
    }
  }

  /** The registry authority is a curator in every reachable state. */
  lemma AuthorityAlwaysCurator(authority: Pubkey, calls: seq<Call>)
    ensures Run(Genesis(authority), calls).bank.authority in Run(Genesis(authority), calls).bank.curators
  {
    GenesisValid(authority);
    RunPreservesValid(Genesis(authority), calls);
  }

  // ---------------------------------------------------------------------------
  // Questions only move forward
  // ---------------------------------------------------------------------------

  /** `q'` is a later version of `q`: the same question, votes only added, and a
      decided question frozen. */
  predicate Succeeds(q: Question, q': Question) {
    && q'.id == q.id && q'.submitter == q.submitter && q'.questionText == q.questionText
    && q'.options == q.options && q'.correctAnswer == q.correctAnswer
    && q'.category == q.category && q'.difficulty == q.difficulty && q'.createdAt == q.createdAt
    && q'.votesApprove >= q.votesApprove && q'.votesReject >= q.votesReject
    && |q'.voters| >= |q.voters| && q'.voters[..|q.voters|] == q.voters
    && (q.status != Pending ==> q' == q)
  }

  lemma SucceedsTransitive(a: Question, b: Question, c: Question)
    requires Succeeds(a, b) && Succeeds(b, c)
    ensures Succeeds(a, c)
  {
    assert c.voters[..|a.voters|] == c.voters[..|b.voters|][..|a.voters|];
  }

  /** No instruction deletes a question, undoes a vote or reopens a decision;
      the registry's authority and question counter never go back. */
  lemma StepOneWay(s: Ledger, c: Call)
    ensures forall k :: k in s.questions ==> k in Next(s, c).questions && Succeeds(s.questions[k], Next(s, c).questions[k])
    ensures Next(s, c).bank.authority == s.bank.authority
    ensures Next(s, c).bank.totalQuestions >= s.bank.totalQuestions
  {
    var s' := Next(s, c);
    forall k | k in s.questions
      ensures k in s'.questions && Succeeds(s.questions[k], s'.questions[k])
    {
      var q := s.questions[k];
      assert q.voters[..|q.voters|] == q.voters;
      if Step(s, c.ins, c.now).Ok? {
        match c.ins
        case CastVote(voter, key, vote) =>
          if key == k {
            var w := VoteOnQuestion(q, s.reputations[voter], voter, vote).value;
            assert w.question.voters[..|q.voters|] == q.voters;
          }
        case _ =>
      }
    }
  }

  lemma {:induction false} RunOneWay(s: Ledger, calls: seq<Call>)
    ensures forall k :: k in s.questions ==> k in Run(s, calls).questions && Succeeds(s.questions[k], Run(s, calls).questions[k])
    ensures Run(s, calls).bank.authority == s.bank.authority
    decreases |calls|
  {
    if calls == [] {
      forall k | k in s.questions
        ensures Succeeds(s.questions[k], s.questions[k])
      {
        assert s.questions[k].voters[..|s.questions[k].voters|] == s.questions[k].voters;
      }
    } else {
      var s1 := Next(s, calls[0]);
      StepOneWay(s, calls[0]);
      RunOneWay(s1, calls[1..]);
      forall k | k in s.questions
        ensures k in Run(s, calls).questions && Succeeds(s.questions[k], Run(s, calls).questions[k])
      {
        SucceedsTransitive(s.questions[k], s1.questions[k], Run(s1, calls[1..]).questions[k]);
      }
    }
  }
}
