/** The subscription plan shared through a React context
    (lib/contexts/plan-context.tsx). */
module PlanContext {
  import opened Wrappers

  /** The context value. */
  datatype Plan = Plan(hasProPlan: bool, hasEnterprisePlan: bool, isFreeUser: bool)

  /** The value `PlanProvider` publishes: both plan flags passed through, and
      a free user exactly when the user has neither plan. */
  function ProviderValue(hasProPlan: bool, hasEnterprisePlan: bool): (v: Plan)
    ensures v.hasProPlan == hasProPlan && v.hasEnterprisePlan == hasEnterprisePlan
    ensures v.isFreeUser <==> !hasProPlan && !hasEnterprisePlan
  {
    Plan(hasProPlan, hasEnterprisePlan, !hasProPlan && !hasEnterprisePlan)
  }

  const OutsideProvider: string := "It must be inside a provider."

  /** `usePlan`: the provider's value, or the error it throws outside any
      provider. */
  function UsePlan(context: Option<Plan>): (r: Result<Plan, string>)
    ensures r.Failure? <==> context.None?
    ensures r.Failure? ==> r.error == OutsideProvider
    ensures r.Success? ==> r.value == context.value
  {
    if context.None? then Failure(OutsideProvider) else Success(context.value)
  }

  /** Inside a provider a user is free or has a paid plan, never both. */
  lemma FreeOrPaid(hasProPlan: bool, hasEnterprisePlan: bool)
    ensures var v := UsePlan(Some(ProviderValue(hasProPlan, hasEnterprisePlan)));
      v.Success? && (v.value.isFreeUser != (v.value.hasProPlan || v.value.hasEnterprisePlan))
  {
  }
}
