/** The question bank program: community submission of trivia questions,
    duplicate-free voting, curator finalisation and reputation counters.
    Each instruction is a pure function from the accounts it reads to the
    accounts it writes, or to the error that aborts it. */
module QuestionBankProgram {
  import opened Base

  const MIN_SUBMIT_REPUTATION: int := 100
  const STARTING_REPUTATION: int := 100
  const QUORUM: int := 5
  const MAX_TEXT_LEN: int := 500
  const MAX_CATEGORY_LEN: int := 50
  const MAX_OPTION_LEN: int := 100
  const VOTE_REWARD: int := 10
  const SUBMISSION_REWARD: int := 5
  const APPROVAL_REWARD: int := 50
  const REJECTION_PENALTY: int := 10

  datatype QuestionStatus = Pending | Approved | Rejected
  datatype VoteType = Approve | Reject
  datatype ReputationAction = QuestionSubmitted | QuestionApproved | QuestionRejected | VoteCast

  datatype Error =
    | InvalidQuestionFormat
    | UnauthorizedCurator
    | AlreadyVoted
    | QuestionNotFound
    | InsufficientReputation
    | QuestionNotPending
    | CannotVoteOnOwnQuestion
    | InsufficientVotes
    | UnauthorizedAuthority
    | CuratorAlreadyExists
    | CuratorNotFound
    | CannotRemoveAuthority
      // an arithmetic overflow or underflow: the runtime aborts the instruction
    | Panic
      // raised by the framework's account checks before the instruction body runs
    | AccountNotInitialized
    | AccountAlreadyInUse

  /** The four answer options of a question (a fixed-size array). */
  type Options = s: seq<Bytes> | |s| == 4 witness [[], [], [], []]

  /** The singleton registry. */
  datatype QuestionBank = QuestionBank(
    authority: Pubkey,
    totalQuestions: uint64,
    activeQuestions: uint64,
    curators: seq<Pubkey>)

  datatype QuestionData = QuestionData(
    questionText: Bytes,
    options: Options,
    correctAnswer: uint8,
    category: Bytes,
    difficulty: uint8)

  datatype Question = Question(
    id: uint64,
    submitter: Pubkey,
    questionText: Bytes,
    options: Options,
    correctAnswer: uint8,
    category: Bytes,
    difficulty: uint8,
    votesApprove: uint32,
    votesReject: uint32,
    voters: seq<Pubkey>,
    status: QuestionStatus,
    createdAt: int64)

  datatype UserReputation = UserReputation(
    user: Pubkey,
    questionsSubmitted: uint32,
    questionsApproved: uint32,
    curationVotes: uint32,
    reputationScore: uint64)

  /** The accounts written by a successful submission. */
  datatype Submission = Submission(bank: QuestionBank, question: Question, reputation: UserReputation)

  /** The accounts written by a successful vote or finalisation. */
  datatype Outcome = Outcome(question: Question, reputation: UserReputation)
  datatype Finalization = Finalization(bank: QuestionBank, question: Question, reputation: UserReputation)

  // ---------------------------------------------------------------------------
  // Invariants
  // ---------------------------------------------------------------------------

  /** The curator list always holds the authority and never holds anyone twice. */
  predicate CuratorsValid(bank: QuestionBank) {
    bank.authority in bank.curators && NoDuplicates(bank.curators)
  }

  /** One voter per counted vote, nobody twice, and never the submitter. */
  predicate TallyConsistent(q: Question) {
    && |q.voters| == q.votesApprove + q.votesReject
    && NoDuplicates(q.voters)
    && q.submitter !in q.voters
  }

  /** A question accepts every input constraint the submission checks. */
  predicate WellFormed(data: QuestionData) {
    && |data.questionText| <= MAX_TEXT_LEN
    && |data.category| <= MAX_CATEGORY_LEN
    && 1 <= data.difficulty <= 3
    && data.correctAnswer <= 3
    && forall i :: 0 <= i < 4 ==> |data.options[i]| <= MAX_OPTION_LEN
  }

  /** `q'` is `q` with `voter` appended and exactly the counter of `vote` raised by one. */
  predicate RecordsVote(q: Question, q': Question, voter: Pubkey, vote: VoteType) {
    && q'.voters == q.voters + [voter]
    && q'.votesApprove == q.votesApprove + (if vote == Approve then 1 else 0)
    && q'.votesReject == q.votesReject + (if vote == Reject then 1 else 0)
    && q' == q.(voters := q'.voters, votesApprove := q'.votesApprove, votesReject := q'.votesReject)
  }

  // ---------------------------------------------------------------------------
  // Instructions
  // ---------------------------------------------------------------------------

  function InitializeQuestionBank(authority: Pubkey): (bank: QuestionBank)
    ensures CuratorsValid(bank)
    ensures bank.authority == authority && bank.curators == [authority]
    ensures bank.totalQuestions == 0 && bank.activeQuestions == 0
  {
    QuestionBank(authority, 0, 0, [authority])
  }

  function InitializeUserReputation(user: Pubkey): (rep: UserReputation)
    ensures rep.user == user && rep.reputationScore == STARTING_REPUTATION
    ensures rep.questionsSubmitted == 0 && rep.questionsApproved == 0 && rep.curationVotes == 0
  {
    UserReputation(user, 0, 0, 0, 100)
  }

  /** The option-length loop of the submission, one option at a time. */
  function OptionsFit(options: seq<Bytes>): (ok: bool)
    ensures ok <==> forall i :: 0 <= i < |options| ==> |options[i]| <= MAX_OPTION_LEN
  {
    if options == [] then true
    else |options[0]| <= 100 && OptionsFit(options[1..])
  }

  function SubmitQuestion(bank: QuestionBank, rep: UserReputation, submitter: Pubkey,
                          data: QuestionData, now: int64): (r: Result<Submission, Error>)
    ensures !WellFormed(data) ==> r == Err(InvalidQuestionFormat)
    ensures WellFormed(data) && rep.reputationScore < MIN_SUBMIT_REPUTATION ==> r == Err(InsufficientReputation)
    ensures r.Ok? <==>
      && WellFormed(data) && rep.reputationScore >= MIN_SUBMIT_REPUTATION
      && bank.totalQuestions < U64_MAX && rep.questionsSubmitted < U32_MAX
    ensures (WellFormed(data) && rep.reputationScore >= MIN_SUBMIT_REPUTATION
             && (bank.totalQuestions == U64_MAX || rep.questionsSubmitted == U32_MAX)) ==> r == Err(Panic)
    ensures r.Err? ==> r.error in {InvalidQuestionFormat, InsufficientReputation, Panic}
    ensures r.Ok? ==>
      var q := r.value.question;
      && q.id == bank.totalQuestions && q.submitter == submitter && q.createdAt == now
      && q.questionText == data.questionText && q.options == data.options
      && q.correctAnswer == data.correctAnswer && q.category == data.category
      && q.difficulty == data.difficulty
      && q.status == Pending && q.votesApprove == 0 && q.votesReject == 0 && q.voters == []
      && TallyConsistent(q)
    ensures r.Ok? ==>
      && r.value.bank.totalQuestions == bank.totalQuestions + 1
      && r.value.bank == bank.(totalQuestions := r.value.bank.totalQuestions)
    ensures r.Ok? ==>
      && r.value.reputation.questionsSubmitted == rep.questionsSubmitted + 1
      && r.value.reputation == rep.(questionsSubmitted := r.value.reputation.questionsSubmitted)
  {
    if |data.questionText| > 500 then Err(InvalidQuestionFormat)
    else if |data.category| > 50 then Err(InvalidQuestionFormat)
    else if !(data.difficulty >= 1 && data.difficulty <= 3) then Err(InvalidQuestionFormat)
    else if data.correctAnswer > 3 then Err(InvalidQuestionFormat)
    else if !OptionsFit(data.options) then Err(InvalidQuestionFormat)
    else if rep.reputationScore < 100 then Err(InsufficientReputation)
    else if bank.totalQuestions + 1 > U64_MAX then Err(Panic)
    else if rep.questionsSubmitted + 1 > U32_MAX then Err(Panic)
    else
      var q := Question(bank.totalQuestions, submitter, data.questionText, data.options,
                        data.correctAnswer, data.category, data.difficulty,
                        0, 0, [], Pending, now);
      Ok(Submission(bank.(totalQuestions := bank.totalQuestions + 1), q,
                    rep.(questionsSubmitted := rep.questionsSubmitted + 1)))
  }

  /** `rep` is the voter's own reputation account. */
  function VoteOnQuestion(q: Question, rep: UserReputation, voter: Pubkey, vote: VoteType)
    : (r: Result<Outcome, Error>)
    ensures q.status != Pending ==> r == Err(QuestionNotPending)
    ensures q.status == Pending && voter == q.submitter ==> r == Err(CannotVoteOnOwnQuestion)
    ensures q.status == Pending && voter != q.submitter && voter in q.voters ==> r == Err(AlreadyVoted)
    ensures (q.status == Pending && voter != q.submitter && voter !in q.voters
             && !(&& (vote == Approve ==> q.votesApprove < U32_MAX)
                  && (vote == Reject ==> q.votesReject < U32_MAX)
                  && rep.curationVotes < U32_MAX && rep.reputationScore + VOTE_REWARD <= U64_MAX))
            ==> r == Err(Panic)
    ensures r.Err? ==> r.error in {QuestionNotPending, CannotVoteOnOwnQuestion, AlreadyVoted, Panic}
    ensures r.Ok? <==>
      && q.status == Pending && voter != q.submitter && voter !in q.voters
      && (vote == Approve ==> q.votesApprove < U32_MAX)
      && (vote == Reject ==> q.votesReject < U32_MAX)
      && rep.curationVotes < U32_MAX && rep.reputationScore + VOTE_REWARD <= U64_MAX
    ensures r.Ok? ==> RecordsVote(q, r.value.question, voter, vote)
    ensures r.Ok? ==>
      && r.value.reputation.curationVotes == rep.curationVotes + 1
      && r.value.reputation.reputationScore == rep.reputationScore + VOTE_REWARD
      && r.value.reputation.user == rep.user
      && r.value.reputation.questionsSubmitted == rep.questionsSubmitted
      && r.value.reputation.questionsApproved == rep.questionsApproved
    ensures TallyConsistent(q) && r.Ok? ==> TallyConsistent(r.value.question)
  {
    if q.status != Pending then Err(QuestionNotPending)
    else if q.submitter == voter then Err(CannotVoteOnOwnQuestion)
    else if voter in q.voters then Err(AlreadyVoted)
    else if vote == Approve && q.votesApprove + 1 > U32_MAX then Err(Panic)
    else if vote == Reject && q.votesReject + 1 > U32_MAX then Err(Panic)
    else if rep.curationVotes + 1 > U32_MAX then Err(Panic)
    else if rep.reputationScore + 10 > U64_MAX then Err(Panic)
    else
      var voters := q.voters + [voter];
      var q' := match vote
        case Approve => q.(voters := voters, votesApprove := q.votesApprove + 1)
        case Reject => q.(voters := voters, votesReject := q.votesReject + 1);
      var rep' := rep.(curationVotes := rep.curationVotes + 1,
                       reputationScore := rep.reputationScore + 10);
      assert forall i :: 0 <= i < |q.voters| ==> voters[i] == q.voters[i];
      Ok(Outcome(q', rep'))
  }

  /** The reputation penalty of a rejection: ten points, but only from a score above ten. */
  function Penalize(score: uint64): (s: uint64)
    ensures score > REJECTION_PENALTY ==> s == score - REJECTION_PENALTY
    ensures score <= REJECTION_PENALTY ==> s == score
  {
    if score > 10 then score - 10 else score
  }

  /** `submitterRep` is the reputation account of the question's submitter. */
  function FinalizeQuestion(bank: QuestionBank, q: Question, submitterRep: UserReputation,
                            curator: Pubkey, questionId: uint64): (r: Result<Finalization, Error>)
    ensures curator !in bank.curators ==> r == Err(UnauthorizedCurator)
    ensures curator in bank.curators && q.id != questionId ==> r == Err(QuestionNotFound)
    ensures curator in bank.curators && q.id == questionId && q.status != Pending ==> r == Err(QuestionNotPending)
    ensures (curator in bank.curators && q.id == questionId && q.status == Pending
             && q.votesApprove + q.votesReject < QUORUM) ==> r == Err(InsufficientVotes)
    ensures (curator in bank.curators && q.id == questionId && q.status == Pending
             && q.votesApprove + q.votesReject > U32_MAX) ==> r == Err(Panic)
    ensures (curator in bank.curators && q.id == questionId && q.status == Pending
             && QUORUM <= q.votesApprove + q.votesReject <= U32_MAX && q.votesApprove > q.votesReject
             && !(&& bank.activeQuestions < U64_MAX && submitterRep.questionsApproved < U32_MAX
                  && submitterRep.reputationScore + APPROVAL_REWARD <= U64_MAX))
            ==> r == Err(Panic)
    ensures r.Ok? <==>
      && curator in bank.curators && q.id == questionId && q.status == Pending
      && QUORUM <= q.votesApprove + q.votesReject <= U32_MAX
      && (q.votesApprove > q.votesReject ==>
            && bank.activeQuestions < U64_MAX && submitterRep.questionsApproved < U32_MAX
            && submitterRep.reputationScore + APPROVAL_REWARD <= U64_MAX)
    ensures r.Ok? ==> r.value.question == q.(status := r.value.question.status)
    ensures r.Ok? ==> (r.value.question.status == Approved <==> q.votesApprove > q.votesReject)
    ensures r.Ok? ==> (r.value.question.status == Rejected <==> q.votesApprove <= q.votesReject)
    ensures r.Ok? && q.votesApprove > q.votesReject ==>
      && r.value.bank.activeQuestions == bank.activeQuestions + 1
      && r.value.reputation.questionsApproved == submitterRep.questionsApproved + 1
      && r.value.reputation.reputationScore == submitterRep.reputationScore + APPROVAL_REWARD
    ensures r.Ok? && q.votesApprove <= q.votesReject ==>
      && r.value.bank == bank
      && r.value.reputation == submitterRep.(reputationScore := Penalize(submitterRep.reputationScore))
    ensures r.Ok? ==> r.value.bank == bank.(activeQuestions := r.value.bank.activeQuestions)
    ensures r.Ok? ==> r.value.reputation == submitterRep.(
      questionsApproved := r.value.reputation.questionsApproved,
      reputationScore := r.value.reputation.reputationScore)
  {
    if curator !in bank.curators then Err(UnauthorizedCurator)
    else if q.id != questionId then Err(QuestionNotFound)
    else if q.status != Pending then Err(QuestionNotPending)
    else if q.votesApprove + q.votesReject > U32_MAX then Err(Panic)
    else if q.votesApprove + q.votesReject < 5 then Err(InsufficientVotes)
    else if q.votesApprove > q.votesReject then
      if bank.activeQuestions + 1 > U64_MAX then Err(Panic)
      else if submitterRep.questionsApproved + 1 > U32_MAX then Err(Panic)
      else if submitterRep.reputationScore + 50 > U64_MAX then Err(Panic)
      else
        Ok(Finalization(bank.(activeQuestions := bank.activeQuestions + 1),
                        q.(status := Approved),
                        submitterRep.(questionsApproved := submitterRep.questionsApproved + 1,
                                      reputationScore := submitterRep.reputationScore + 50)))
    else
      var score := if submitterRep.reputationScore > 10 then submitterRep.reputationScore - 10
                   else submitterRep.reputationScore;
      Ok(Finalization(bank, q.(status := Rejected), submitterRep.(reputationScore := score)))
  }

  /** The standalone reputation table; its accounts carry no signer, so anyone may call it. */
  function UpdateReputation(rep: UserReputation, action: ReputationAction): (r: Result<UserReputation, Error>)
    ensures r.Err? ==> r == Err(Panic)
    ensures action == QuestionSubmitted ==>
      (r.Ok? <==> rep.questionsSubmitted < U32_MAX && rep.reputationScore + SUBMISSION_REWARD <= U64_MAX)
    ensures action == QuestionApproved ==>
      (r.Ok? <==> rep.questionsApproved < U32_MAX && rep.reputationScore + APPROVAL_REWARD <= U64_MAX)
    ensures action == VoteCast ==>
      (r.Ok? <==> rep.curationVotes < U32_MAX && rep.reputationScore + VOTE_REWARD <= U64_MAX)
    ensures r.Ok? ==> r.value.user == rep.user
    ensures r.Ok? ==>
      && r.value.questionsSubmitted >= rep.questionsSubmitted
      && r.value.questionsApproved >= rep.questionsApproved
      && r.value.curationVotes >= rep.curationVotes
    ensures action == QuestionSubmitted && r.Ok? ==>
      r.value.questionsSubmitted == rep.questionsSubmitted + 1
      && r.value.reputationScore == rep.reputationScore + SUBMISSION_REWARD
      && r.value == rep.(questionsSubmitted := r.value.questionsSubmitted, reputationScore := r.value.reputationScore)
    ensures action == QuestionApproved && r.Ok? ==>
      r.value.questionsApproved == rep.questionsApproved + 1
      && r.value.reputationScore == rep.reputationScore + APPROVAL_REWARD
      && r.value == rep.(questionsApproved := r.value.questionsApproved, reputationScore := r.value.reputationScore)
    ensures action == QuestionRejected ==> r == Ok(rep.(reputationScore := Penalize(rep.reputationScore)))
    ensures action == VoteCast && r.Ok? ==>
      r.value.curationVotes == rep.curationVotes + 1
      && r.value.reputationScore == rep.reputationScore + VOTE_REWARD
      && r.value == rep.(curationVotes := r.value.curationVotes, reputationScore := r.value.reputationScore)
  {
    match action
    case QuestionSubmitted =>
      if rep.questionsSubmitted + 1 > U32_MAX || rep.reputationScore + 5 > U64_MAX then Err(Panic)
      else Ok(rep.(questionsSubmitted := rep.questionsSubmitted + 1, reputationScore := rep.reputationScore + 5))
    case QuestionApproved =>
      if rep.questionsApproved + 1 > U32_MAX || rep.reputationScore + 50 > U64_MAX then Err(Panic)
      else Ok(rep.(questionsApproved := rep.questionsApproved + 1, reputationScore := rep.reputationScore + 50))
    case QuestionRejected =>
      if rep.reputationScore > 10 then Ok(rep.(reputationScore := rep.reputationScore - 10))
      else Ok(rep)
    case VoteCast =>
      if rep.curationVotes + 1 > U32_MAX || rep.reputationScore + 10 > U64_MAX then Err(Panic)
      else Ok(rep.(curationVotes := rep.curationVotes + 1, reputationScore := rep.reputationScore + 10))
  }

  function AddCurator(bank: QuestionBank, signer: Pubkey, newCurator: Pubkey): (r: Result<QuestionBank, Error>)
    ensures signer != bank.authority ==> r == Err(UnauthorizedAuthority)
    ensures signer == bank.authority && newCurator in bank.curators ==> r == Err(CuratorAlreadyExists)
    ensures signer == bank.authority && newCurator !in bank.curators ==>
      r == Ok(bank.(curators := bank.curators + [newCurator]))
    ensures CuratorsValid(bank) && r.Ok? ==> CuratorsValid(r.value)
  {
    if signer != bank.authority then Err(UnauthorizedAuthority)
    else if newCurator in bank.curators then Err(CuratorAlreadyExists)
    else
      var cs := bank.curators + [newCurator];
      assert forall i :: 0 <= i < |bank.curators| ==> cs[i] == bank.curators[i];
      Ok(bank.(curators := cs))
  }

  function RemoveCurator(bank: QuestionBank, signer: Pubkey, target: Pubkey): (r: Result<QuestionBank, Error>)
    ensures signer != bank.authority ==> r == Err(UnauthorizedAuthority)
    ensures signer == bank.authority && target == bank.authority ==> r == Err(CannotRemoveAuthority)
    ensures signer == bank.authority && target != bank.authority && target !in bank.curators ==>
      r == Err(CuratorNotFound)
    ensures r.Ok? <==> signer == bank.authority && target != bank.authority && target in bank.curators
    ensures r.Ok? ==> r.value == bank.(curators := r.value.curators)
    ensures r.Ok? ==> multiset(r.value.curators) + multiset{target} == multiset(bank.curators)
    ensures CuratorsValid(bank) && r.Ok? ==> CuratorsValid(r.value) && target !in r.value.curators
  {
    if signer != bank.authority then Err(UnauthorizedAuthority)
    else if target == bank.authority then Err(CannotRemoveAuthority)
    else if target !in bank.curators then Err(CuratorNotFound)
    else
      var pos := IndexOf(bank.curators, target);
      var cs := RemoveAt(bank.curators, pos);
      if CuratorsValid(bank) then
        RemoveAtKeepsNoDuplicates(bank.curators, pos);
        assert bank.authority in cs by {
          var k := IndexOf(bank.curators, bank.authority);
          assert k != pos;
          if k < pos { assert cs[k] == bank.authority; }
          else { assert cs[k - 1] == bank.authority; }
        }
        Ok(bank.(curators := cs))
      else
        Ok(bank.(curators := cs))
  }

  // ---------------------------------------------------------------------------
  // Properties relating several instructions
  // ---------------------------------------------------------------------------

  /** Voting, approval and rejection move a reputation exactly as the standalone
      table does; a submission raises the counter but, unlike the table's
      QuestionSubmitted row, awards no points. */
  lemma ReputationDeltasMatchTable(bank: QuestionBank, q: Question, rep: UserReputation,
                                   who: Pubkey, vote: VoteType, id: uint64, data: QuestionData, now: int64)
    ensures VoteOnQuestion(q, rep, who, vote).Ok? ==>
      UpdateReputation(rep, VoteCast) == Ok(VoteOnQuestion(q, rep, who, vote).value.reputation)
    ensures FinalizeQuestion(bank, q, rep, who, id).Ok? ==>
      var f := FinalizeQuestion(bank, q, rep, who, id).value;
      if f.question.status == Approved then UpdateReputation(rep, QuestionApproved) == Ok(f.reputation)
      else UpdateReputation(rep, QuestionRejected) == Ok(f.reputation)
    ensures SubmitQuestion(bank, rep, who, data, now).Ok? ==>
      var w := SubmitQuestion(bank, rep, who, data, now).value;
      && w.reputation.reputationScore == rep.reputationScore
      && (UpdateReputation(rep, QuestionSubmitted).Ok? ==>
            UpdateReputation(rep, QuestionSubmitted).value
            == w.reputation.(reputationScore := rep.reputationScore + SUBMISSION_REWARD))
  {
  }

  /** The rejection penalty never underflows and never takes a positive score to zero,
      but it has no floor at ten: fifteen drops to five and stays there. */
  lemma PenaltyBounds(score: uint64)
    ensures Penalize(score) <= score
    ensures score > 0 ==> Penalize(score) > 0
    ensures Penalize(15) == 5 && Penalize(Penalize(15)) == 5 && Penalize(Penalize(Penalize(15))) == 5
  {
  }

  /** Quorum is exactly five: four votes are refused, five decide, and a tie rejects. */
  lemma QuorumBoundary(bank: QuestionBank, q: Question, rep: UserReputation, curator: Pubkey)
    requires curator in bank.curators && q.status == Pending
    ensures q.votesApprove + q.votesReject == 4 ==>
      FinalizeQuestion(bank, q, rep, curator, q.id) == Err(InsufficientVotes)
    ensures q.votesApprove == 3 && q.votesReject == 2 && bank.activeQuestions < U64_MAX
            && rep.questionsApproved < U32_MAX && rep.reputationScore + APPROVAL_REWARD <= U64_MAX ==>
      && FinalizeQuestion(bank, q, rep, curator, q.id).Ok?
      && FinalizeQuestion(bank, q, rep, curator, q.id).value.question.status == Approved
    ensures q.votesApprove == q.votesReject && QUORUM <= q.votesApprove + q.votesReject <= U32_MAX ==>
      && FinalizeQuestion(bank, q, rep, curator, q.id).Ok?
      && FinalizeQuestion(bank, q, rep, curator, q.id).value.question.status == Rejected
  {
  }
}
