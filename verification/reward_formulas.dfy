/** The five eligibility formulas of the reward distributor. Each reads the
    pool's `total_rewards` and the caller's performance data; a multiplication
    that leaves the 64-bit range aborts, which is what `None` stands for. */
module RewardFormulas {
  import opened Base

  const SECONDS_PER_DAY: int := 86400

  datatype DistributionType = EqualShare | PerformanceBased | StakingRewards | AchievementBased | RandomDrop

  datatype PerformanceData = PerformanceData(
    score: uint32,
    completionTime: int64,
    stakingDuration: int64,
    achievementsUnlocked: uint32,
    randomSeed: uint64,
    honeycombProfile: Option<Pubkey>)

  /** `PerformanceData::validate`: the only gate between user-supplied data and the formulas. */
  function Validate(d: PerformanceData): (ok: bool)
    ensures ok <==> d.score <= 100 && d.completionTime >= 0 && d.stakingDuration >= 0
                    && d.achievementsUnlocked <= 1000
    ensures ok ==> (ScoreMultiplier(d.score) == 1 <==> d.score <= 50)
  {
    d.score <= 100 && d.completionTime >= 0 && d.stakingDuration >= 0 && d.achievementsUnlocked <= 1000
  }

  /** Score tiers 0-50, 51-75, 76-90, 91-99 and 100; anything above 100 falls back to the first. */
  function ScoreMultiplier(score: uint32): (m: nat)
    ensures 1 <= m <= 5
    ensures m == 5 <==> score == 100
    ensures score <= 50 || score > 100 ==> m == 1
    ensures 51 <= score <= 75 ==> m == 2
    ensures 76 <= score <= 90 ==> m == 3
    ensures 91 <= score <= 99 ==> m == 4
  {
    if score <= 50 then 1
    else if score <= 75 then 2
    else if score <= 90 then 3
    else if score <= 99 then 4
    else if score == 100 then 5
    else 1
  }

  /** One hundred and twenty minus the whole minutes taken, at least one; a
      completion time of zero earns the smallest bonus, not the largest. */
  function TimeBonus(completionTime: int64): (b: nat)
    ensures 1 <= b <= 120
    ensures completionTime <= 0 ==> b == 1
    ensures 0 < completionTime < 60 ==> b == 120
    ensures 60 <= completionTime < 119 * 60 ==> b == 120 - completionTime / 60
    ensures completionTime >= 119 * 60 ==> b == 1
  {
    if completionTime > 0 then
      var raw := 120 - completionTime / 60;
      if 1 <= raw then raw else 1
    else 1
  }

  lemma ScoreMultiplierMonotone(a: uint32, b: uint32)
    requires a <= b <= 100
    ensures ScoreMultiplier(a) <= ScoreMultiplier(b)
  {
  }

  /** min((total / 1000) * tier * bonus / 100, total / 10), with the product
      taken left to right before the division. The product is checked
      arithmetic in the program; ProductFits shows it never leaves the 64-bit
      range, so this formula cannot abort. */
  function PerformanceReward(total: uint64, d: PerformanceData): (r: uint64)
    ensures r <= total / 10 && r <= total
    ensures var raw := (total / 1000) * ScoreMultiplier(d.score) * TimeBonus(d.completionTime) / 100;
      && (raw <= total / 10 ==> r == raw)
      && (raw >= total / 10 ==> r == total / 10)
  {
    var base := total / 1000;
    var m := ScoreMultiplier(d.score);
    var b := TimeBonus(d.completionTime);
    ProductFits(base, m, b, total);
    Min(base * m * b / 100, total / 10)
  }

  lemma ProductFits(base: nat, m: nat, b: nat, total: uint64)
    requires base == total / 1000 && 1 <= m <= 5 && 1 <= b <= 120
    ensures base * m * b <= U64_MAX
  {
    assert base * m <= base * 5;
    assert base * m * b <= base * 5 * 120;
    assert base * 600 <= total;
  }

  lemma MulMonotone(a: nat, b: nat, c: nat)
    ensures b <= c ==> a * b <= a * c
  {
  }

  /** A better score never earns less when the completion time is the same. */
  lemma PerformanceRewardMonotone(total: uint64, d: PerformanceData, e: PerformanceData)
    requires d.score <= e.score <= 100 && d.completionTime == e.completionTime
    ensures PerformanceReward(total, d) <= PerformanceReward(total, e)
  {
    var base := total / 1000;
    var b := TimeBonus(d.completionTime);
    ScoreMultiplierMonotone(d.score, e.score);
    var md, me := ScoreMultiplier(d.score), ScoreMultiplier(e.score);
    MulMonotone(base, md, me);
    MulMonotone(b, base * md, base * me);
    assert base * md * b <= base * me * b;
    DivMonotone(base * md * b, base * me * b, 100);
  }

  lemma DivMonotone(x: nat, y: nat, k: nat)
    requires x <= y && k > 0
    ensures x / k <= y / k
  {
    var qx, qy := x / k, y / k;
    assert x == k * qx + x % k && y == k * qy + y % k;
    if qx > qy {
      MulMonotone(k, qy + 1, qx);
      assert false;
    }
  }

  /** The integer-truncation scenario: a perfect score on a pool of 1000 with
      no completion time earns nothing, since 1 * 5 * 1 / 100 is zero. */
  lemma PerformanceRewardTruncates()
    ensures PerformanceReward(1000, PerformanceData(100, 0, 0, 0, 0, None)) == 0
  {
  }

  /** (total / 365) per whole day staked, capped at a tenth of the pool. The
      product is formed before the cap, so an over-long stake on a large pool aborts. */
  function StakingReward(total: uint64, d: PerformanceData): (r: Option<uint64>)
    requires d.stakingDuration >= 0
    ensures r.Some? ==> r.value <= total / 10 && r.value <= total
    ensures r.None? <==> (total / 365) * (d.stakingDuration / SECONDS_PER_DAY) > U64_MAX
    ensures d.stakingDuration / SECONDS_PER_DAY <= 365 ==> r.Some?
    ensures r.Some? && (total / 365) * (d.stakingDuration / SECONDS_PER_DAY) <= total / 10 ==>
      r.value == (total / 365) * (d.stakingDuration / SECONDS_PER_DAY)
    ensures r.Some? && (total / 365) * (d.stakingDuration / SECONDS_PER_DAY) >= total / 10 ==>
      r.value == total / 10
  {
    var base := total / 365;
    var days := d.stakingDuration / 86400;
    MulMonotone(base, days, 365);
    var product := base * days;
    if product > U64_MAX then None
    else Some(Min(product, total / 10))
  }

  /** On the largest pool a stake of a year and a day overflows before the cap applies. */
  lemma StakingOverflowAborts()
    ensures StakingReward(U64_MAX, PerformanceData(0, 0, 366 * SECONDS_PER_DAY, 0, 0, None)).None?
    ensures StakingReward(U64_MAX, PerformanceData(0, 0, 365 * SECONDS_PER_DAY, 0, 0, None))
            == Some(U64_MAX / 10)
  {
  }

  /** One percent of the pool per achievement, capped at a fifth of the pool. */
  function AchievementReward(total: uint64, d: PerformanceData): (r: Option<uint64>)
    ensures r.Some? ==> r.value <= total / 5 && r.value <= total
    ensures r.None? <==> (total / 100) * d.achievementsUnlocked > U64_MAX
    ensures d.achievementsUnlocked <= 100 ==> r.Some?
    ensures r.Some? && (total / 100) * d.achievementsUnlocked <= total / 5 ==>
      r.value == (total / 100) * d.achievementsUnlocked
    ensures r.Some? && (total / 100) * d.achievementsUnlocked >= total / 5 ==>
      r.value == total / 5
    ensures d.achievementsUnlocked <= 20 ==> r == Some((total / 100) * d.achievementsUnlocked)
  {
    var base := total / 100;
    var n := d.achievementsUnlocked;
    MulMonotone(base, n, 100);
    MulMonotone(base, n, 20);
    var product := base * n;
    if product > U64_MAX then None
    else Some(Min(product, total / 5))
  }

  /** On the largest pool, 101 achievements overflow although validation admits up to 1000. */
  lemma AchievementOverflowAborts()
    ensures AchievementReward(U64_MAX, PerformanceData(0, 0, 0, 101, 0, None)).None?
    ensures Validate(PerformanceData(0, 0, 0, 101, 0, None))
  {
  }

  /** A fiftieth of the pool when the seed's last two decimal digits are below ten, else nothing. */
  function RandomReward(total: uint64, d: PerformanceData): (r: uint64)
    ensures r > 0 ==> d.randomSeed % 100 < 10
    ensures d.randomSeed % 100 < 10 ==> r == total / 50
    ensures r <= total / 50 && r <= total
  {
    if d.randomSeed % 100 < 10 then total / 50 else 0
  }

  /** The placeholder equal share: a hundredth of the pool, whoever asks. */
  function EqualShareReward(total: uint64): (r: uint64)
    ensures r * 100 <= total < r * 100 + 100
    ensures r <= total
  {
    total / 100
  }

  /** The formula the pool's criteria selects; no user is ever made eligible for more than the pool. */
  function CalculateReward(criteria: DistributionType, total: uint64, d: PerformanceData): (r: Option<uint64>)
    requires Validate(d)
    ensures r.Some? ==> r.value <= total
    ensures criteria in {EqualShare, PerformanceBased, RandomDrop} ==> r.Some?
    ensures criteria == StakingRewards && d.stakingDuration / SECONDS_PER_DAY <= 365 ==> r.Some?
    ensures criteria == AchievementBased && d.achievementsUnlocked <= 100 ==> r.Some?
    ensures criteria == EqualShare ==> r == Some(EqualShareReward(total))
    ensures criteria == PerformanceBased ==> r == Some(PerformanceReward(total, d))
    ensures criteria == StakingRewards ==> r == StakingReward(total, d)
    ensures criteria == AchievementBased ==> r == AchievementReward(total, d)
    ensures criteria == RandomDrop ==> r == Some(RandomReward(total, d))
  {
    match criteria
    case EqualShare => Some(EqualShareReward(total))
    case PerformanceBased => Some(PerformanceReward(total, d))
    case StakingRewards => StakingReward(total, d)
    case AchievementBased => AchievementReward(total, d)
    case RandomDrop => Some(RandomReward(total, d))
  }
}
