/**
 * The plan catalogue. Three tables describe the same four plans:
 * `planConfig` in the payment controller (plan name to price id and
 * enrollment-credit grant), `planDetails` in the helper functions (price id to
 * display data and course limit) and `PLAN_MAP` in the plans overview (price id
 * to plan name). The price ids come from the deployment's environment, so they
 * are a parameter here.
 */
module Plans {
  import opened Common

  datatype PlanName = Bronze | Silver | Gold | Daily

  /** The price ids the environment configures (BRONZE_PRICE_ID, ...). */
  datatype PriceIds = PriceIds(bronze: string, silver: string, gold: string, daily: string)

  /** A correctly configured deployment gives the four plans four different price ids. */
  predicate Distinct(env: PriceIds)
  {
    && env.bronze != env.silver && env.bronze != env.gold && env.bronze != env.daily
    && env.silver != env.gold && env.silver != env.daily
    && env.gold != env.daily
  }

  function Name(p: PlanName): string
  {
    match p
    case Bronze => "Bronze"
    case Silver => "Silver"
    case Gold => "Gold"
    case Daily => "Daily"
  }

  /** `validPlans.includes(plan)`: the only plan names a request may carry. */
  function ParsePlan(s: string): (r: Option<PlanName>)
    ensures r.Some? ==> Name(r.value) == s
    ensures r.None? <==> s !in {"Bronze", "Silver", "Gold", "Daily"}
  {
    if s == "Bronze" then Some(Bronze)
    else if s == "Silver" then Some(Silver)
    else if s == "Gold" then Some(Gold)
    else if s == "Daily" then Some(Daily)
    else None
  }

  function PriceId(env: PriceIds, p: PlanName): string
  {
    match p
    case Bronze => env.bronze
    case Silver => env.silver
    case Gold => env.gold
    case Daily => env.daily
  }

  /** The `enrollmentCount` of `planConfig`: the credits one period of the plan grants. */
  function Grant(p: PlanName): nat
  {
    match p
    case Bronze => 4
    case Silver => 8
    case Gold => 12
    case Daily => 2
  }

  /** One row of `planConfig`. */
  datatype PlanEntry = PlanEntry(priceId: string, enrollmentCount: nat)

  function PlanConfig(env: PriceIds, p: PlanName): PlanEntry
  {
    PlanEntry(PriceId(env, p), Grant(p))
  }

  /** One result of `planDetails`. */
  datatype PlanInfo = PlanInfo(name: string, price: string, courseLimit: nat, color: string)

  /**
   * `planDetails(priceId)`: the display record of the plan whose price id this
   * is, checked in the order Bronze, Silver, Gold, Daily; `undefined` (None) for
   * any other id. The course limit it advertises is the credit grant of the
   * plan it names in `planConfig`.
   */
  function PlanDetails(env: PriceIds, priceId: string): (r: Option<PlanInfo>)
    ensures r.None? <==> priceId !in {env.bronze, env.silver, env.gold, env.daily}
    ensures r.Some? ==> ParsePlan(r.value.name).Some?
                        && r.value.courseLimit == Grant(ParsePlan(r.value.name).value)
                        && priceId == PriceId(env, ParsePlan(r.value.name).value)
    ensures Distinct(env) ==>
      forall p :: PriceId(env, p) == priceId ==> r.Some? && r.value.name == Name(p) && r.value.courseLimit == Grant(p)
  {
    if priceId == env.bronze then Some(PlanInfo("Bronze", "$170", 4, "#391802"))
    else if priceId == env.silver then Some(PlanInfo("Silver", "$200", 8, "#A8A9AD"))
    else if priceId == env.gold then Some(PlanInfo("Gold", "$250", 12, "#FFBF00"))
    else if priceId == env.daily then Some(PlanInfo("Daily", "$10", 2, "#F0BF00"))
    else None
  }

  /**
   * `PLAN_MAP[priceId]`. The object literal lists Daily, Bronze, Silver, Gold;
   * on a clash of ids a later key overwrites an earlier one, so the lookup
   * prefers Gold, then Silver, Bronze and Daily. On a correctly configured
   * deployment it inverts `planConfig`.
   */
  function PlanOfPrice(env: PriceIds, priceId: string): (r: Option<PlanName>)
    ensures r.None? <==> priceId !in {env.bronze, env.silver, env.gold, env.daily}
    ensures r.Some? ==> PriceId(env, r.value) == priceId
    ensures Distinct(env) ==> forall p :: PriceId(env, p) == priceId ==> r == Some(p)
  {
    if priceId == env.gold then Some(Gold)
    else if priceId == env.silver then Some(Silver)
    else if priceId == env.bronze then Some(Bronze)
    else if priceId == env.daily then Some(Daily)
    else None
  }
}
