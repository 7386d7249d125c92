/** The reward distributor's accounts as one state: pools keyed by the id in
    their address, and claim records keyed by pool id and user. An instruction
    that fails leaves every account as it was. */
module RewardLedger {
  import opened Base
  import opened RewardFormulas
  import opened RewardDistributorProgram

  /** The seeds of a claim record's address. */
  datatype ClaimKey = ClaimKey(pool: uint64, user: Pubkey)

  datatype Ledger = Ledger(pools: map<uint64, RewardPool>, claims: map<ClaimKey, UserClaim>)

  datatype Instruction =
    | CreatePool(authority: Pubkey, data: CreateRewardPoolData, initialFunding: uint64)
    | Fund(poolId: uint64, amount: uint64)
    | Calculate(poolId: uint64, user: Pubkey, performance: PerformanceData)
    | Claim(poolId: uint64, user: Pubkey)
    | UpdateCriteria(poolId: uint64, signer: Pubkey, criteria: DistributionType)
    | Close(poolId: uint64, signer: Pubkey)

  /** An instruction, the clock reading it runs under, and whether the token
      or system program accepts the transfer it asks for. */
  datatype Call = Call(ins: Instruction, now: int64, transferOk: bool)

  const Empty: Ledger := Ledger(map[], map[])

  function Step(s: Ledger, ins: Instruction, now: int64, transferOk: bool): Result<Ledger, Error> {
    match ins
    case CreatePool(authority, data, funding) =>
      if data.id in s.pools then Err(AccountAlreadyInUse)
      else (
        match CreateRewardPool(authority, data, funding, now, transferOk)
        case Err(e) => Err(e)
        case Ok(p) => Ok(s.(pools := s.pools[data.id := p])))
    case Fund(id, amount) =>
      if id !in s.pools then Err(AccountNotInitialized)
      else (
        match FundRewardPool(s.pools[id], id, amount, transferOk)
        case Err(e) => Err(e)
        case Ok(p) => Ok(s.(pools := s.pools[id := p])))
    case Calculate(id, user, d) =>
      if id !in s.pools then Err(AccountNotInitialized)
      else (
        var key := ClaimKey(id, user);
        var claim := if key in s.claims then s.claims[key] else FreshClaim;
        match CalculateUserRewards(s.pools[id], claim, id, user, d, now)
        case Err(e) => Err(e)
        case Ok(e) => Ok(s.(claims := s.claims[key := e.claim])))
    case Claim(id, user) =>
      var key := ClaimKey(id, user);
      if id !in s.pools || key !in s.claims then Err(AccountNotInitialized)
      else (
        match ClaimRewards(s.pools[id], s.claims[key], id, now, transferOk)
        case Err(e) => Err(e)
        case Ok(w) => Ok(Ledger(s.pools[id := w.pool], s.claims[key := w.claim])))
    case UpdateCriteria(id, signer, criteria) =>
      if id !in s.pools then Err(AccountNotInitialized)
      else (
        match UpdateDistributionCriteria(s.pools[id], id, signer, criteria, now)
        case Err(e) => Err(e)
        case Ok(p) => Ok(s.(pools := s.pools[id := p])))
    case Close(id, signer) =>
      if id !in s.pools then Err(AccountNotInitialized)
      else
        match CloseRewardPool(s.pools[id], id, signer, now, transferOk)
        case Err(e) => Err(e)
        case Ok(p) => Ok(s.(pools := s.pools[id := p]))
  }

  function Next(s: Ledger, c: Call): Ledger {
    match Step(s, c.ins, c.now, c.transferOk)
    case Ok(s') => s'
    case Err(_) => s
  }

  function Run(s: Ledger, calls: seq<Call>): Ledger
    decreases |calls|
  {
    if calls == [] then s else Run(Next(s, calls[0]), calls[1..])
  }

  /** The query instruction over the ledger: it needs both accounts to exist. */
  function Claimable(s: Ledger, id: uint64, user: Pubkey): (r: Result<uint64, Error>)
    ensures id !in s.pools || ClaimKey(id, user) !in s.claims ==> r == Err(AccountNotInitialized)
    ensures id in s.pools && ClaimKey(id, user) in s.claims ==>
      r == GetClaimableAmount(s.pools[id], s.claims[ClaimKey(id, user)], id)
  {
    var key := ClaimKey(id, user);
    if id !in s.pools || key !in s.claims then Err(AccountNotInitialized)
    else GetClaimableAmount(s.pools[id], s.claims[key], id)
  }

  // ---------------------------------------------------------------------------
  // What the claim records of one pool have been paid
  // ---------------------------------------------------------------------------

  function PaidTo(k: ClaimKey, c: UserClaim, id: uint64): nat {
    if k.pool == id then c.amountClaimed else 0
  }

  ghost function ClaimedSum(claims: map<ClaimKey, UserClaim>, id: uint64): nat
    decreases |claims|
  {
    if claims == map[] then 0
    else
      var k :| k in claims;
      PaidTo(k, claims[k], id) + ClaimedSum(claims - {k}, id)
  }

  lemma {:induction false} ClaimedSumRemove(claims: map<ClaimKey, UserClaim>, k: ClaimKey, id: uint64)
    requires k in claims
    ensures ClaimedSum(claims, id) == PaidTo(k, claims[k], id) + ClaimedSum(claims - {k}, id)
    decreases |claims|
  {
    var j :| j in claims && ClaimedSum(claims, id) == PaidTo(j, claims[j], id) + ClaimedSum(claims - {j}, id);
    if j != k {
      var rest := claims - {j} - {k};
      assert |claims - {j}| < |claims|;
      ClaimedSumRemove(claims - {j}, k, id);
      assert (claims - {j}) - {k} == rest;
      ClaimedSumRemove(claims - {k}, j, id);
      assert (claims - {k}) - {j} == rest;
    }
  }

  lemma ClaimedSumUpdate(claims: map<ClaimKey, UserClaim>, k: ClaimKey, c: UserClaim, id: uint64)
    ensures ClaimedSum(claims[k := c], id) == PaidTo(k, c, id) + ClaimedSum(claims - {k}, id)
  {
    ClaimedSumRemove(claims[k := c], k, id);
    assert claims[k := c] - {k} == claims - {k};
  }

  /** Writing a record of another pool, or one whose paid amount is unchanged,
      leaves a pool's claimed sum as it was. */
  lemma ClaimedSumFrame(claims: map<ClaimKey, UserClaim>, k: ClaimKey, c: UserClaim, id: uint64)
    requires k in claims ==> PaidTo(k, c, id) == PaidTo(k, claims[k], id)
    requires k !in claims ==> PaidTo(k, c, id) == 0
    ensures ClaimedSum(claims[k := c], id) == ClaimedSum(claims, id)
  {
    ClaimedSumUpdate(claims, k, c, id);
    if k in claims {
      ClaimedSumRemove(claims, k, id);
    } else {
      assert claims - {k} == claims;
    }
  }

  lemma {:induction false} ClaimedSumNone(claims: map<ClaimKey, UserClaim>, id: uint64)
    requires forall k :: k in claims ==> k.pool != id
    ensures ClaimedSum(claims, id) == 0
    decreases |claims|
  {
    if claims != map[] {
      var k :| k in claims;
      ClaimedSumRemove(claims, k, id);
      ClaimedSumNone(claims - {k}, id);
    }
  }

  // ---------------------------------------------------------------------------
  // The invariant
  // ---------------------------------------------------------------------------

  /** Every pool is stored under its own id, has paid out no more than it
      holds, and has paid out exactly what its claim records say they
      received; every claim record belongs to an existing pool and its owner. */
  ghost predicate Valid(s: Ledger) {
    && (forall id :: id in s.pools ==> s.pools[id].id == id && PoolValid(s.pools[id]))
    && (forall id :: id in s.pools ==> ClaimedSum(s.claims, id) == s.pools[id].distributedRewards)
    && (forall k :: k in s.claims ==> k.pool in s.pools && s.claims[k].pool == Some(k.pool) && s.claims[k].user == k.user)
  }

  lemma EmptyValid()
    ensures Valid(Empty)
  {
  }

  lemma CreatePreservesValid(s: Ledger, authority: Pubkey, data: CreateRewardPoolData, funding: uint64,
                             now: int64, ok: bool)
    requires Valid(s) && Step(s, CreatePool(authority, data, funding), now, ok).Ok?
    ensures Valid(Step(s, CreatePool(authority, data, funding), now, ok).value)
  {
    var s' := Step(s, CreatePool(authority, data, funding), now, ok).value;
    assert s'.claims == s.claims;
    ClaimedSumNone(s.claims, data.id);
  }

  lemma CalculatePreservesValid(s: Ledger, id: uint64, user: Pubkey, d: PerformanceData, now: int64, ok: bool)
    requires Valid(s) && Step(s, Calculate(id, user, d), now, ok).Ok?
    ensures Valid(Step(s, Calculate(id, user, d), now, ok).value)
  {
    var key := ClaimKey(id, user);
    var claim := if key in s.claims then s.claims[key] else FreshClaim;
    var e := CalculateUserRewards(s.pools[id], claim, id, user, d, now).value;
    var s' := Step(s, Calculate(id, user, d), now, ok).value;
    assert s'.claims == s.claims[key := e.claim];
    forall p | p in s'.pools
      ensures ClaimedSum(s'.claims, p) == s'.pools[p].distributedRewards
    {
      ClaimedSumFrame(s.claims, key, e.claim, p);
    }
  }

  lemma ClaimPreservesValid(s: Ledger, id: uint64, user: Pubkey, now: int64, ok: bool)
    requires Valid(s) && Step(s, Claim(id, user), now, ok).Ok?
    ensures Valid(Step(s, Claim(id, user), now, ok).value)
  {
    var key := ClaimKey(id, user);
    var w := ClaimRewards(s.pools[id], s.claims[key], id, now, ok).value;
    var s' := Step(s, Claim(id, user), now, ok).value;
    assert s'.claims == s.claims[key := w.claim];
    forall p | p in s'.pools
      ensures ClaimedSum(s'.claims, p) == s'.pools[p].distributedRewards
    {
      if p == id {
        ClaimedSumUpdate(s.claims, key, w.claim, p);
        ClaimedSumRemove(s.claims, key, p);
      } else {
        ClaimedSumFrame(s.claims, key, w.claim, p);
      }
    }
  }

  lemma StepPreservesValid(s: Ledger, c: Call)
    requires Valid(s)
    ensures Valid(Next(s, c))
  {
    if Step(s, c.ins, c.now, c.transferOk).Ok? {
      match c.ins
      case CreatePool(authority, data, funding) => CreatePreservesValid(s, authority, data, funding, c.now, c.transferOk);
      case Calculate(id, user, d) => CalculatePreservesValid(s, id, user, d, c.now, c.transferOk);
      case Claim(id, user) => ClaimPreservesValid(s, id, user, c.now, c.transferOk);
      case _ =>
    }
  }

  /** Every state reachable from no pools at all satisfies the invariant. */
  lemma {:induction false} RunPreservesValid(s: Ledger, calls: seq<Call>)
    requires Valid(s)
    ensures Valid(Run(s, calls))
    decreases |calls|
  {
    if calls != [] {
      StepPreservesValid(s, calls[0]);
      RunPreservesValid(Next(s, calls[0]), calls[1..]);
    }
  }

  /** No single user has been paid more than the pool has paid out in total,
      and no pool has paid out more than it was funded with. */
  lemma PaidWithinPool(s: Ledger, k: ClaimKey)
    requires Valid(s) && k in s.claims
    ensures s.claims[k].amountClaimed <= s.pools[k.pool].distributedRewards <= s.pools[k.pool].totalRewards
  {
    ClaimedSumRemove(s.claims, k, k.pool);
  }

  // ---------------------------------------------------------------------------
  // What never goes back
  // ---------------------------------------------------------------------------

  /** `p'` is a later version of pool `p`: same identity and window, funds and
      payouts only grow, and a closed pool stays closed. */
  predicate PoolSucceeds(p: RewardPool, p': RewardPool) {
    && p'.id == p.id && p'.authority == p.authority && p'.name == p.name
    && p'.rewardType == p.rewardType && p'.tokenMint == p.tokenMint
    && p'.startTime == p.startTime && p'.endTime == p.endTime
    && p'.totalRewards >= p.totalRewards && p'.distributedRewards >= p.distributedRewards
    && (!p.active ==> !p'.active)
  }

  lemma StepOneWay(s: Ledger, c: Call)
    ensures forall id :: id in s.pools ==> id in Next(s, c).pools && PoolSucceeds(s.pools[id], Next(s, c).pools[id])
    ensures forall k :: k in s.claims ==> k in Next(s, c).claims
  {
  }

  lemma {:induction false} RunOneWay(s: Ledger, calls: seq<Call>)
    ensures forall id :: id in s.pools ==> id in Run(s, calls).pools && PoolSucceeds(s.pools[id], Run(s, calls).pools[id])
    ensures forall k :: k in s.claims ==> k in Run(s, calls).claims
    decreases |calls|
  {
    if calls != [] {
      var s1 := Next(s, calls[0]);
      StepOneWay(s, calls[0]);
      RunOneWay(s1, calls[1..]);
    }
  }

  /** What a user has been paid never goes down. A recalculation rewrites only
      the eligibility of an existing record, and a claim raises the paid amount
      to the eligibility, which it only does when that lies above what was paid.
      The invariant is needed: a record that did not name its pool would be
      rebuilt from scratch by a recalculation, paid amount zero. */
  lemma ClaimedOnlyGrows(s: Ledger, c: Call)
    requires Valid(s)
    ensures forall k :: k in s.claims ==>
      k in Next(s, c).claims && Next(s, c).claims[k].amountClaimed >= s.claims[k].amountClaimed
  {
    var r := Step(s, c.ins, c.now, c.transferOk);
    if r.Ok? {
      match c.ins
      case Calculate(id, user, d) =>
        var key := ClaimKey(id, user);
        if key in s.claims {
          assert s.claims[key].pool == Some(id);
        }
      case Claim(id, user) =>
        var key := ClaimKey(id, user);
        assert ClaimRewards(s.pools[id], s.claims[key], id, c.now, c.transferOk).Ok?;
      case _ =>
    }
  }

  lemma {:induction false} RunClaimedOnlyGrows(s: Ledger, calls: seq<Call>)
    requires Valid(s)
    ensures forall k :: k in s.claims ==>
      k in Run(s, calls).claims && Run(s, calls).claims[k].amountClaimed >= s.claims[k].amountClaimed
    decreases |calls|
  {
    if calls != [] {
      var s1 := Next(s, calls[0]);
      ClaimedOnlyGrows(s, calls[0]);
      StepPreservesValid(s, calls[0]);
      RunClaimedOnlyGrows(s1, calls[1..]);
    }
  }
}
