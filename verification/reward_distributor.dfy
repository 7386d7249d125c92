/** The reward distributor program: reward pools, funding, per-user
    eligibility records, claims, criteria updates and closing. A value
    transfer to or from the pool's vault is an external step; its outcome is
    the parameter `transferOk`, and a refused transfer aborts the instruction. */
module RewardDistributorProgram {
  import opened Base
  import opened RewardFormulas

  const MAX_POOL_NAME_LEN: int := 50

  datatype RewardType = SOL | SplToken | NFT

  datatype Error =
    | PoolNotFound
    | InsufficientPoolFunds
    | ClaimPeriodEnded
    | AlreadyClaimed
    | InvalidPerformanceData
    | InvalidPoolName
    | InvalidStartTime
    | InvalidEndTime
    | InvalidRewardAmount
    | MissingTokenMint
    | NFTFundingUnsupported
    | PoolNotActive
    | ClaimPeriodNotStarted
    | InvalidClaimRecord
    | NothingToClaim
    | NFTClaimUnsupported
    | UnauthorizedAuthority
    | CannotUpdateActivePool
    | PoolStillActive
      // the token or system program refused a transfer
    | TransferFailed
      // an arithmetic overflow or underflow: the runtime aborts the instruction
    | Panic
      // raised by the framework's account checks before the instruction body runs
    | AccountNotInitialized
    | AccountAlreadyInUse
    | ConstraintHasOne

  datatype RewardPool = RewardPool(
    id: uint64,
    authority: Pubkey,
    name: Bytes,
    totalRewards: uint64,
    distributedRewards: uint64,
    rewardType: RewardType,
    tokenMint: Option<Pubkey>,
    distributionCriteria: DistributionType,
    startTime: int64,
    endTime: int64,
    active: bool)

  /** A user's eligibility record for one pool. `pool` is the pool's address,
      named by the id it is derived from; a freshly allocated record holds the
      all-zero default key, written `None`. */
  datatype UserClaim = UserClaim(
    pool: Option<uint64>,
    user: Pubkey,
    amountClaimed: uint64,
    lastClaimTime: int64,
    totalEligible: uint64)

  /** The contents of a claim account the moment it is allocated. */
  const FreshClaim: UserClaim := UserClaim(None, 0, 0, 0, 0)

  datatype CreateRewardPoolData = CreateRewardPoolData(
    id: uint64,
    name: Bytes,
    totalRewards: uint64,
    rewardType: RewardType,
    tokenMint: Option<Pubkey>,
    distributionCriteria: DistributionType,
    startTime: int64,
    endTime: int64)

  /** The claim record written by an eligibility calculation, and the amount computed. */
  datatype Eligibility = Eligibility(claim: UserClaim, reward: uint64)

  /** The pool and claim record written by a successful claim. */
  datatype Settlement = Settlement(pool: RewardPool, claim: UserClaim)

  /** The ledger invariant of a single pool: never more paid out than put in,
      and a non-empty claim window. */
  predicate PoolValid(p: RewardPool) {
    p.distributedRewards <= p.totalRewards && p.startTime < p.endTime
  }

  /** What the user could still claim; negative when a recalculation has lowered
      eligibility below what was already paid. */
  function Outstanding(c: UserClaim): int {
    c.totalEligible - c.amountClaimed
  }

  /** An initial deposit goes through: SOL and SPL pools take it when the
      transfer succeeds (an SPL pool also needs its mint); NFT pools refuse it. */
  predicate FundingAccepted(data: CreateRewardPoolData, transferOk: bool) {
    match data.rewardType
    case SOL => transferOk
    case SplToken => data.tokenMint.Some? && transferOk
    case NFT => false
  }

  function CreateRewardPool(authority: Pubkey, data: CreateRewardPoolData, initialFunding: uint64,
                            now: int64, transferOk: bool): (r: Result<RewardPool, Error>)
    ensures |data.name| > MAX_POOL_NAME_LEN ==> r == Err(InvalidPoolName)
    ensures |data.name| <= MAX_POOL_NAME_LEN && data.startTime <= now ==> r == Err(InvalidStartTime)
    ensures (|data.name| <= MAX_POOL_NAME_LEN && data.startTime > now && data.endTime <= data.startTime)
            ==> r == Err(InvalidEndTime)
    ensures (|data.name| <= MAX_POOL_NAME_LEN && now < data.startTime < data.endTime && data.totalRewards == 0)
            ==> r == Err(InvalidRewardAmount)
    ensures (|data.name| <= MAX_POOL_NAME_LEN && now < data.startTime < data.endTime && data.totalRewards > 0
             && data.rewardType == NFT && initialFunding > 0) ==> r == Err(NFTFundingUnsupported)
    ensures (|data.name| <= MAX_POOL_NAME_LEN && now < data.startTime < data.endTime && data.totalRewards > 0
             && initialFunding > 0 && data.rewardType == SplToken && data.tokenMint.None?)
            ==> r == Err(MissingTokenMint)
    ensures (|data.name| <= MAX_POOL_NAME_LEN && now < data.startTime < data.endTime && data.totalRewards > 0
             && initialFunding > 0 && !transferOk
             && (data.rewardType == SOL || (data.rewardType == SplToken && data.tokenMint.Some?)))
            ==> r == Err(TransferFailed)
    ensures r.Ok? ==>
      |data.name| <= MAX_POOL_NAME_LEN && now < data.startTime < data.endTime && data.totalRewards > 0
      && (initialFunding > 0 ==> FundingAccepted(data, transferOk))
    ensures (|data.name| <= MAX_POOL_NAME_LEN && now < data.startTime < data.endTime && data.totalRewards > 0
             && (initialFunding > 0 ==> FundingAccepted(data, transferOk))) ==> r.Ok?
    ensures r.Ok? ==> PoolValid(r.value) && r.value.active && r.value.distributedRewards == 0
    ensures r.Ok? ==>
      && r.value.id == data.id && r.value.authority == authority && r.value.name == data.name
      && r.value.totalRewards == data.totalRewards && r.value.rewardType == data.rewardType
      && r.value.tokenMint == data.tokenMint && r.value.distributionCriteria == data.distributionCriteria
      && r.value.startTime == data.startTime && r.value.endTime == data.endTime
  {
    if |data.name| > 50 then Err(InvalidPoolName)
    else if !(data.startTime > now) then Err(InvalidStartTime)
    else if !(data.endTime > data.startTime) then Err(InvalidEndTime)
    else if !(data.totalRewards > 0) then Err(InvalidRewardAmount)
    else if initialFunding > 0 && data.rewardType == SOL && !transferOk then Err(TransferFailed)
    else if initialFunding > 0 && data.rewardType == SplToken && data.tokenMint.None? then Err(MissingTokenMint)
    else if initialFunding > 0 && data.rewardType == SplToken && !transferOk then Err(TransferFailed)
    else if initialFunding > 0 && data.rewardType == NFT then Err(NFTFundingUnsupported)
    else
      Ok(RewardPool(data.id, authority, data.name, data.totalRewards, 0, data.rewardType, data.tokenMint,
                    data.distributionCriteria, data.startTime, data.endTime, true))
  }

  function FundRewardPool(pool: RewardPool, poolId: uint64, amount: uint64, transferOk: bool)
    : (r: Result<RewardPool, Error>)
    ensures pool.id != poolId ==> r == Err(PoolNotFound)
    ensures pool.id == poolId && !pool.active ==> r == Err(PoolNotActive)
    ensures pool.id == poolId && pool.active && amount == 0 ==> r == Err(InvalidRewardAmount)
    ensures pool.id == poolId && pool.active && amount > 0 && pool.rewardType == NFT ==> r == Err(NFTFundingUnsupported)
    ensures pool.id == poolId && pool.active && amount > 0 && pool.rewardType != NFT && !transferOk
            ==> r == Err(TransferFailed)
    ensures (pool.id == poolId && pool.active && amount > 0 && pool.rewardType != NFT && transferOk
             && pool.totalRewards + amount > U64_MAX) ==> r == Err(Panic)
    ensures r.Ok? <==>
      pool.id == poolId && pool.active && amount > 0 && pool.rewardType != NFT && transferOk
      && pool.totalRewards + amount <= U64_MAX
    ensures r.Ok? ==>
      && r.value.totalRewards == pool.totalRewards + amount
      && r.value == pool.(totalRewards := r.value.totalRewards)
    ensures PoolValid(pool) && r.Ok? ==> PoolValid(r.value)
  {
    if pool.id != poolId then Err(PoolNotFound)
    else if !pool.active then Err(PoolNotActive)
    else if !(amount > 0) then Err(InvalidRewardAmount)
    else if pool.rewardType == NFT then Err(NFTFundingUnsupported)
    else if !transferOk then Err(TransferFailed)
    else if pool.totalRewards + amount > U64_MAX then Err(Panic)
    else Ok(pool.(totalRewards := pool.totalRewards + amount))
  }

  /** The pool is open for eligibility calculations and claims at `now`. */
  predicate InWindow(pool: RewardPool, now: int64) {
    pool.startTime <= now <= pool.endTime
  }

  /** `claim` is the user's record for this pool: its current contents, or
      `FreshClaim` when the instruction allocates it. */
  function CalculateUserRewards(pool: RewardPool, claim: UserClaim, poolId: uint64, user: Pubkey,
                                d: PerformanceData, now: int64): (r: Result<Eligibility, Error>)
    ensures pool.id != poolId ==> r == Err(PoolNotFound)
    ensures pool.id == poolId && !pool.active ==> r == Err(PoolNotActive)
    ensures pool.id == poolId && pool.active && now < pool.startTime ==> r == Err(ClaimPeriodNotStarted)
    ensures pool.id == poolId && pool.active && pool.startTime <= now && now > pool.endTime ==> r == Err(ClaimPeriodEnded)
    ensures (pool.id == poolId && pool.active && InWindow(pool, now) && !Validate(d))
            ==> r == Err(InvalidPerformanceData)
    ensures (pool.id == poolId && pool.active && InWindow(pool, now) && Validate(d)
             && CalculateReward(pool.distributionCriteria, pool.totalRewards, d).None?) ==> r == Err(Panic)
    ensures r.Ok? <==>
      pool.id == poolId && pool.active && InWindow(pool, now) && Validate(d)
      && CalculateReward(pool.distributionCriteria, pool.totalRewards, d).Some?
    ensures r.Ok? ==>
      && r.value.reward == CalculateReward(pool.distributionCriteria, pool.totalRewards, d).value
      && r.value.reward <= pool.totalRewards
      && r.value.claim.totalEligible == r.value.reward
    ensures r.Ok? && claim.pool.None? ==>
      r.value.claim == UserClaim(Some(pool.id), user, 0, 0, r.value.reward)
    ensures r.Ok? && claim.pool.Some? ==>
      r.value.claim == claim.(totalEligible := r.value.reward)
  {
    if pool.id != poolId then Err(PoolNotFound)
    else if !pool.active then Err(PoolNotActive)
    else if !(now >= pool.startTime) then Err(ClaimPeriodNotStarted)
    else if !(now <= pool.endTime) then Err(ClaimPeriodEnded)
    else if !Validate(d) then Err(InvalidPerformanceData)
    else
      match CalculateReward(pool.distributionCriteria, pool.totalRewards, d)
      case None => Err(Panic)
      case Some(reward) =>
        if claim.pool.None? then Ok(Eligibility(UserClaim(Some(pool.id), user, 0, 0, reward), reward))
        else Ok(Eligibility(claim.(totalEligible := reward), reward))
  }

  /** The guards a claim passes before any amount is looked at. */
  predicate ClaimOpen(pool: RewardPool, claim: UserClaim, poolId: uint64, now: int64) {
    pool.id == poolId && pool.active && claim.pool == Some(pool.id) && InWindow(pool, now)
  }

  function ClaimRewards(pool: RewardPool, claim: UserClaim, poolId: uint64, now: int64, transferOk: bool)
    : (r: Result<Settlement, Error>)
    ensures pool.id != poolId ==> r == Err(PoolNotFound)
    ensures pool.id == poolId && !pool.active ==> r == Err(PoolNotActive)
    ensures pool.id == poolId && pool.active && claim.pool != Some(pool.id) ==> r == Err(InvalidClaimRecord)
    ensures (pool.id == poolId && pool.active && claim.pool == Some(pool.id) && now < pool.startTime)
            ==> r == Err(ClaimPeriodNotStarted)
    ensures (pool.id == poolId && pool.active && claim.pool == Some(pool.id) && pool.startTime <= now
             && now > pool.endTime) ==> r == Err(ClaimPeriodEnded)
    ensures ClaimOpen(pool, claim, poolId, now) && Outstanding(claim) < 0 ==> r == Err(Panic)
    ensures ClaimOpen(pool, claim, poolId, now) && Outstanding(claim) == 0 ==> r == Err(NothingToClaim)
    ensures (ClaimOpen(pool, claim, poolId, now) && Outstanding(claim) > 0
             && pool.distributedRewards + Outstanding(claim) > U64_MAX) ==> r == Err(Panic)
    ensures (ClaimOpen(pool, claim, poolId, now) && Outstanding(claim) > 0
             && pool.distributedRewards + Outstanding(claim) <= U64_MAX
             && pool.totalRewards < pool.distributedRewards + Outstanding(claim))
            ==> r == Err(InsufficientPoolFunds)
    ensures (ClaimOpen(pool, claim, poolId, now) && Outstanding(claim) > 0
             && pool.distributedRewards + Outstanding(claim) <= pool.totalRewards && pool.rewardType == NFT)
            ==> r == Err(NFTClaimUnsupported)
    ensures (ClaimOpen(pool, claim, poolId, now) && Outstanding(claim) > 0
             && pool.distributedRewards + Outstanding(claim) <= pool.totalRewards && pool.rewardType != NFT
             && !transferOk) ==> r == Err(TransferFailed)
    ensures r.Ok? <==>
      ClaimOpen(pool, claim, poolId, now) && Outstanding(claim) > 0
      && pool.distributedRewards + Outstanding(claim) <= pool.totalRewards
      && pool.rewardType != NFT && transferOk
    ensures r.Ok? ==>
      && r.value.claim.amountClaimed == claim.totalEligible
      && r.value.claim == claim.(amountClaimed := r.value.claim.amountClaimed, lastClaimTime := now)
      && r.value.pool.distributedRewards == pool.distributedRewards + Outstanding(claim)
      && r.value.pool == pool.(distributedRewards := r.value.pool.distributedRewards)
    ensures r.Ok? ==> PoolValid(pool) ==> PoolValid(r.value.pool)
  {
    if pool.id != poolId then Err(PoolNotFound)
    else if !pool.active then Err(PoolNotActive)
    else if claim.pool != Some(pool.id) then Err(InvalidClaimRecord)
    else if !(now >= pool.startTime) then Err(ClaimPeriodNotStarted)
    else if !(now <= pool.endTime) then Err(ClaimPeriodEnded)
    else if claim.totalEligible < claim.amountClaimed then Err(Panic)
    else
      var claimable := claim.totalEligible - claim.amountClaimed;
      if !(claimable > 0) then Err(NothingToClaim)
      else if pool.distributedRewards + claimable > U64_MAX then Err(Panic)
      else if !(pool.totalRewards >= pool.distributedRewards + claimable) then Err(InsufficientPoolFunds)
      else if pool.rewardType == NFT then Err(NFTClaimUnsupported)
      else if !transferOk then Err(TransferFailed)
      else
        Ok(Settlement(pool.(distributedRewards := pool.distributedRewards + claimable),
                      claim.(amountClaimed := claim.amountClaimed + claimable, lastClaimTime := now)))
  }

  /** The pool's `has_one = authority` account constraint is checked before
      the body, so a foreign signer meets it first; the body's own authority
      check comes after it and can never fail. */
  function UpdateDistributionCriteria(pool: RewardPool, poolId: uint64, signer: Pubkey,
                                      criteria: DistributionType, now: int64): (r: Result<RewardPool, Error>)
    ensures pool.authority != signer ==> r == Err(ConstraintHasOne)
    ensures pool.authority == signer && pool.id != poolId ==> r == Err(PoolNotFound)
    ensures pool.id == poolId && pool.authority == signer && now >= pool.startTime ==> r == Err(CannotUpdateActivePool)
    ensures r.Ok? <==> pool.id == poolId && pool.authority == signer && now < pool.startTime
    ensures r.Ok? ==> r.value == pool.(distributionCriteria := criteria)
  {
    if pool.authority != signer then Err(ConstraintHasOne)
    else if pool.id != poolId then Err(PoolNotFound)
    else if !(now < pool.startTime) then Err(CannotUpdateActivePool)
    else Ok(pool.(distributionCriteria := criteria))
  }

  /** Returns the unpaid remainder to the authority and deactivates the pool.
      As for a criteria update, the `has_one = authority` constraint comes
      first. Nothing stops a pool from being closed a second time. */
  function CloseRewardPool(pool: RewardPool, poolId: uint64, signer: Pubkey, now: int64, transferOk: bool)
    : (r: Result<RewardPool, Error>)
    ensures pool.authority != signer ==> r == Err(ConstraintHasOne)
    ensures pool.authority == signer && pool.id != poolId ==> r == Err(PoolNotFound)
    ensures pool.id == poolId && pool.authority == signer && now <= pool.endTime ==> r == Err(PoolStillActive)
    ensures (pool.id == poolId && pool.authority == signer && now > pool.endTime
             && pool.totalRewards < pool.distributedRewards) ==> r == Err(Panic)
    ensures (pool.id == poolId && pool.authority == signer && now > pool.endTime
             && pool.distributedRewards < pool.totalRewards && pool.rewardType != NFT && !transferOk)
            ==> r == Err(TransferFailed)
    ensures r.Ok? <==>
      pool.id == poolId && pool.authority == signer && now > pool.endTime
      && pool.distributedRewards <= pool.totalRewards
      && (pool.distributedRewards < pool.totalRewards && pool.rewardType != NFT ==> transferOk)
    ensures r.Ok? ==> !r.value.active && r.value == pool.(active := false)
  {
    if pool.authority != signer then Err(ConstraintHasOne)
    else if pool.id != poolId then Err(PoolNotFound)
    else if !(now > pool.endTime) then Err(PoolStillActive)
    else if pool.totalRewards < pool.distributedRewards then Err(Panic)
    else
      var remaining := pool.totalRewards - pool.distributedRewards;
      if remaining > 0 && pool.rewardType != NFT && !transferOk then Err(TransferFailed)
      else Ok(pool.(active := false))
  }

  /** A read-only query: what a claim would pay now. A record that was
      never filled in reports zero. */
  function GetClaimableAmount(pool: RewardPool, claim: UserClaim, poolId: uint64): (r: Result<uint64, Error>)
    ensures pool.id != poolId ==> r == Err(PoolNotFound)
    ensures pool.id == poolId && claim.pool.None? ==> r == Ok(0)
    ensures pool.id == poolId && claim.pool.Some? && Outstanding(claim) < 0 ==> r == Err(Panic)
    ensures pool.id == poolId && claim.pool.Some? && Outstanding(claim) >= 0 ==> r == Ok(Outstanding(claim))
  {
    if pool.id != poolId then Err(PoolNotFound)
    else if claim.pool.None? then Ok(0)
    else if claim.totalEligible < claim.amountClaimed then Err(Panic)
    else Ok(claim.totalEligible - claim.amountClaimed)
  }

  // ---------------------------------------------------------------------------
  // Properties relating several instructions
  // ---------------------------------------------------------------------------

  /** Recalculating with the same inputs rewrites the same eligibility. */
  lemma CalculateIdempotent(pool: RewardPool, claim: UserClaim, poolId: uint64, user: Pubkey,
                            d: PerformanceData, now: int64)
    requires CalculateUserRewards(pool, claim, poolId, user, d, now).Ok?
    ensures
      var e := CalculateUserRewards(pool, claim, poolId, user, d, now).value;
      CalculateUserRewards(pool, e.claim, poolId, user, d, now) == Ok(e)
  {
  }

  /** A successful claim pays exactly what the query reported, and the query then reports zero. */
  lemma ClaimPaysQueriedAmount(pool: RewardPool, claim: UserClaim, poolId: uint64, now: int64, transferOk: bool)
    requires ClaimRewards(pool, claim, poolId, now, transferOk).Ok?
    ensures
      var s := ClaimRewards(pool, claim, poolId, now, transferOk).value;
      && GetClaimableAmount(pool, claim, poolId) == Ok(s.pool.distributedRewards - pool.distributedRewards)
      && GetClaimableAmount(s.pool, s.claim, poolId) == Ok(0)
  {
  }

  /** Claiming twice without a new calculation in between: the second claim finds nothing. */
  lemma NoDoubleClaim(pool: RewardPool, claim: UserClaim, poolId: uint64, now: int64, now': int64,
                      transferOk: bool, transferOk': bool)
    requires ClaimRewards(pool, claim, poolId, now, transferOk).Ok?
    requires InWindow(pool, now')
    ensures
      var s := ClaimRewards(pool, claim, poolId, now, transferOk).value;
      && s.claim.totalEligible == claim.totalEligible
      && ClaimRewards(s.pool, s.claim, poolId, now', transferOk') == Err(NothingToClaim)
  {
  }

  /** Eligibility is recomputed from whatever performance data the user supplies,
      with no floor at the amount already claimed. After a payout, a lower
      recalculation leaves a claim record that every later claim and query
      aborts on (an arithmetic underflow). */
  lemma RecalculationBelowClaimedAborts()
    ensures
      var pool := RewardPool(7, 1, [], 1000, 0, SOL, None, AchievementBased, 10, 100, true);
      var first := CalculateUserRewards(pool, FreshClaim, 7, 2, PerformanceData(0, 0, 0, 5, 0, None), 50);
      && first.Ok? && first.value.reward == 50
      && var paid := ClaimRewards(pool, first.value.claim, 7, 50, true);
      && paid.Ok? && paid.value.claim.amountClaimed == 50
      && var again := CalculateUserRewards(paid.value.pool, paid.value.claim, 7, 2,
                                           PerformanceData(0, 0, 0, 1, 0, None), 60);
      && again.Ok? && again.value.claim.totalEligible == 10 && again.value.claim.amountClaimed == 50
      && ClaimRewards(paid.value.pool, again.value.claim, 7, 60, true) == Err(Panic)
      && GetClaimableAmount(paid.value.pool, again.value.claim, 7) == Err(Panic)
  {
  }

  /** After a close, funding, eligibility calculations and claims are all
      refused; a second close is not. */
  lemma ClosedPoolRefusesActivity(pool: RewardPool, poolId: uint64, signer: Pubkey, now: int64, transferOk: bool,
                                  claim: UserClaim, user: Pubkey, d: PerformanceData, amount: uint64, later: int64,
                                  ok2: bool)
    requires CloseRewardPool(pool, poolId, signer, now, transferOk).Ok?
    ensures
      var closed := CloseRewardPool(pool, poolId, signer, now, transferOk).value;
      && FundRewardPool(closed, poolId, amount, ok2) == Err(PoolNotActive)
      && CalculateUserRewards(closed, claim, poolId, user, d, later) == Err(PoolNotActive)
      && ClaimRewards(closed, claim, poolId, later, ok2) == Err(PoolNotActive)
      && (later > pool.endTime && transferOk ==> CloseRewardPool(closed, poolId, signer, later, transferOk) == Ok(closed))
  {
  }
}
