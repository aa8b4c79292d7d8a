/** The `user` slice of the client's store: the credit balance and the
    plan. The reducers assign the payload as it is: credits are not
    clamped, so a negative balance can be stored. */
module UserSlice {
  import opened Wrappers

  /** `'freemium' | 'basic' | 'pro'`: no other plan can be stored. */
  datatype Plan = Freemium | Basic | Pro

  function PlanName(plan: Plan): (name: string)
  {
    match plan
    case Freemium => "freemium"
    case Basic => "basic"
    case Pro => "pro"
  }

  /** The plan a name stands for, if any. */
  function PlanOf(name: string): (plan: Option<Plan>)
  {
    if name == "freemium" then Some(Freemium)
    else if name == "basic" then Some(Basic)
    else if name == "pro" then Some(Pro)
    else None
  }

  /** Each plan has its own name, and exactly the three names stand for a
      plan. */
  lemma PlanNames(plan: Plan, name: string)
    ensures PlanOf(PlanName(plan)) == Some(plan)
    ensures PlanOf(name).Some? <==> name in ["freemium", "basic", "pro"]
    ensures PlanOf(name).Some? ==> PlanName(PlanOf(name).value) == name
  {
  }

  class UserState {
    /** A JavaScript number; integers here. */
    var credits: int
    var plan: Plan

    /** `initialState`. */
    constructor()
      ensures credits == 0 && plan == Freemium
    {
      credits := 0;
      plan := Freemium;
    }

    /** Stores the payload verbatim, negative or not. */
    method SetCredits(payload: int)
      modifies this
      ensures credits == payload && plan == old(plan)
    {
      credits := payload;
    }

    method SetPlan(payload: Plan)
      modifies this
      ensures plan == payload && credits == old(credits)
    {
      plan := payload;
    }
  }
}
