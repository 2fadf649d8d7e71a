/**
 * The dashboard page of the client: which of the loading, error and content
 * views it renders, and the goal lists it hands to the children's-future and
 * marriage-fund panels. The hook's data is reduced to the goal list it may
 * carry; `goalsData` is undefined whenever `data?.goals?.data` is.
 */
module DashboardView {
  import opened Wrappers
  import opened Text
  import opened Seqs
  import DashboardRoutes

  type Goal = DashboardRoutes.GoalView

  /** The only action the page offers: the hook's `refreshData`. */
  datatype Action = RefreshData

  datatype View =
    | LoadingView
    | ErrorView(message: string, retry: Action)
    | ContentView(childGoals: Option<seq<Goal>>, marriageGoals: Option<seq<Goal>>)

  /** `goal.name.toLowerCase().includes(a) || goal.name.toLowerCase().includes(b)`. */
  predicate NameMentions(g: Goal, a: string, b: string)
  {
    Contains(Lower(g.name), a) || Contains(Lower(g.name), b)
  }

  predicate ChildGoal(g: Goal)
  {
    NameMentions(g, "child", "education")
  }

  predicate MarriageGoal(g: Goal)
  {
    NameMentions(g, "marriage", "wedding")
  }

  /**
   * `data?.goals?.data?.filter(keep)`: undefined stays undefined; otherwise
   * exactly the goals that pass, in their original order.
   */
  function Select(goals: Option<seq<Goal>>, keep: Goal -> bool): (r: Option<seq<Goal>>)
    ensures r.Some? <==> goals.Some?
    ensures r.Some? ==> forall g :: g in r.value <==> g in goals.value && keep(g)
    ensures r.Some? ==> SubsequenceAt(goals.value, r.value, Positions(goals.value, keep))
  {
    match goals
    case None => None
    case Some(gs) => Some(Filter(gs, keep))
  }

  /**
   * The page: while the hook is loading nothing else matters; then a truthy
   * error string wins over the data; otherwise the content with its two goal
   * lists.
   */
  function Render(loading: bool, error: Option<string>, goals: Option<seq<Goal>>): (v: View)
    ensures v.LoadingView? <==> loading
    ensures v.ErrorView? <==> !loading && error.Some? && error.value != []
    ensures v.ErrorView? ==> v == ErrorView(error.value, RefreshData)
    ensures v.ContentView? ==> v.childGoals == Select(goals, ChildGoal) && v.marriageGoals == Select(goals, MarriageGoal)
  {
    if loading then LoadingView
    else if error.Some? && error.value != [] then ErrorView(error.value, RefreshData)
    else ContentView(Select(goals, ChildGoal), Select(goals, MarriageGoal))
  }

  /** An empty error string is falsy, so the content is shown. */
  lemma EmptyErrorShowsContent(goals: Option<seq<Goal>>)
    ensures Render(false, Some(""), goals).ContentView?
    ensures Render(false, Some(""), goals) == Render(false, None, goals)
  {
  }

  /** Case does not matter, and one goal can feed both panels. */
  lemma {:induction false} GoalNameExamples()
    ensures ChildGoal(DashboardRoutes.GoalView("CHILD", 1.0, 0.0, "high"))
    ensures !MarriageGoal(DashboardRoutes.GoalView("CHILD", 1.0, 0.0, "high"))
    ensures MarriageGoal(DashboardRoutes.GoalView("Wedding", 1.0, 0.0, "high"))
    ensures !ChildGoal(DashboardRoutes.GoalView("Wedding", 1.0, 0.0, "high"))
    ensures ChildGoal(DashboardRoutes.GoalView("Wedding education", 1.0, 0.0, "high"))
    ensures MarriageGoal(DashboardRoutes.GoalView("Wedding education", 1.0, 0.0, "high"))
  {
    assert OccursAt(Lower("CHILD"), "child", 0);
    assert OccursAt(Lower("Wedding"), "wedding", 0);
    assert OccursAt(Lower("Wedding education"), "wedding", 0);
    assert OccursAt(Lower("Wedding education"), "education", 8);
    assert !Contains(Lower("Wedding"), "child") by {
      var s := Lower("Wedding");
      assert s[0] != 'c' && s[1] != 'c' && s[2] != 'c';
    }
  }
}
