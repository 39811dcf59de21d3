/**
 * The admin plans overview: every active billing subscription, fetched page
 * by page, counted by the plan its first item's price belongs to.
 */
module PlansOverview {
  import opened Common
  import opened Plans
  import opened Cursor

  /** The fields of a billing subscription the overview reads: its id and the price of its first item. */
  datatype RemoteSub = RemoteSub(id: string, firstPriceId: string)

  /** One entry of the overview. */
  datatype PlanCount = PlanCount(name: string, value: nat)

  /** How many of the subscriptions are on plan `p`, by `PLAN_MAP`. */
  function CountPlan(env: PriceIds, subs: seq<RemoteSub>, p: PlanName): nat
  {
    if subs == [] then 0
    else CountPlan(env, subs[..|subs| - 1], p) + (if PlanOfPrice(env, subs[|subs| - 1].firstPriceId) == Some(p) then 1 else 0)
  }

  /** How many of the subscriptions have a price `PLAN_MAP` knows. */
  function CountKnown(env: PriceIds, subs: seq<RemoteSub>): (n: nat)
    ensures n <= |subs|
  {
    if subs == [] then 0
    else CountKnown(env, subs[..|subs| - 1]) + (if PlanOfPrice(env, subs[|subs| - 1].firstPriceId).Some? then 1 else 0)
  }

  /**
   * The four counts add up to the subscriptions with a known price, hence to
   * at most all of them; subscriptions with other prices are not counted.
   */
  lemma {:induction false} CountsSum(env: PriceIds, subs: seq<RemoteSub>)
    ensures CountPlan(env, subs, Daily) + CountPlan(env, subs, Bronze) + CountPlan(env, subs, Silver)
            + CountPlan(env, subs, Gold) == CountKnown(env, subs)
    ensures CountKnown(env, subs) <= |subs|
  {
    if subs != [] {
      CountsSum(env, subs[..|subs| - 1]);
    }
  }

  /**
   * `fetchAllSubscriptions`: the subscriptions of every page, in order, up to
   * the first page that says there is nothing more; each request starts after
   * the id of the last subscription of the previous page. A listing call that
   * throws passes its error on, and so does reading the last id of an empty
   * page that says there is more.
   */
  method FetchAllSubscriptions(answers: seq<Remote<Page<RemoteSub>>>) returns (subs: Remote<seq<RemoteSub>>)
    requires Terminates(answers)
    ensures subs.Returned? <==> NoEmptyBefore(answers) && answers[FinalIndex(answers)].Returned?
    ensures !NoEmptyBefore(answers) ==> subs == Threw("TypeError", ReadIdOfUndefined)
    ensures var n := FinalIndex(answers);
            NoEmptyBefore(answers) && answers[n].Threw? ==> subs == Threw(answers[n].kind, answers[n].message)
    ensures subs.Returned? ==> subs.value == Flatten(answers[..FinalIndex(answers) + 1])
  {
    var cursors;
    subs, cursors := CollectPages(answers, (s: RemoteSub) => s.id);
  }

  /**
   * `getPlansOverview`: count the fetched subscriptions per plan and answer
   * with the four counts in the order Daily, Bronze, Silver, Gold. An error
   * of the fetch passes on unchanged.
   */
  method GetPlansOverview(env: PriceIds, answers: seq<Remote<Page<RemoteSub>>>) returns (overview: Remote<seq<PlanCount>>)
    requires Terminates(answers)
    ensures overview.Returned? <==> NoEmptyBefore(answers) && answers[FinalIndex(answers)].Returned?
    ensures !NoEmptyBefore(answers) ==> overview == Threw("TypeError", ReadIdOfUndefined)
    ensures var n := FinalIndex(answers);
            NoEmptyBefore(answers) && answers[n].Threw? ==> overview == Threw(answers[n].kind, answers[n].message)
    ensures overview.Returned? ==>
              var subs := Flatten(answers[..FinalIndex(answers) + 1]);
              && overview.value == [PlanCount("Daily", CountPlan(env, subs, Daily)),
                                    PlanCount("Bronze", CountPlan(env, subs, Bronze)),
                                    PlanCount("Silver", CountPlan(env, subs, Silver)),
                                    PlanCount("Gold", CountPlan(env, subs, Gold))]
              && overview.value[0].value + overview.value[1].value + overview.value[2].value + overview.value[3].value <= |subs|
  {
    var fetched := FetchAllSubscriptions(answers);
    if fetched.Threw? {
      return Threw(fetched.kind, fetched.message);
    }
    var subs := fetched.value;
    var daily, bronze, silver, gold := 0, 0, 0, 0;
    for i := 0 to |subs|
      invariant daily == CountPlan(env, subs[..i], Daily)
      invariant bronze == CountPlan(env, subs[..i], Bronze)
      invariant silver == CountPlan(env, subs[..i], Silver)
      invariant gold == CountPlan(env, subs[..i], Gold)
    {
      assert subs[..i + 1][..i] == subs[..i];
      var planName := PlanOfPrice(env, subs[i].firstPriceId);
      if planName.Some? {
        match planName.value
        case Daily => daily := daily + 1;
        case Bronze => bronze := bronze + 1;
        case Silver => silver := silver + 1;
        case Gold => gold := gold + 1;
      }
    }
    assert subs[..|subs|] == subs;
    CountsSum(env, subs);
    overview := Returned([PlanCount("Daily", daily), PlanCount("Bronze", bronze),
                          PlanCount("Silver", silver), PlanCount("Gold", gold)]);
  }
}
