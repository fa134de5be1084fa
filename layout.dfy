/**
 * The site frame: the navigation link highlighting and the two header
 * buttons that decide where a visitor goes ("Go Live" and "Apply").
 */
module Layout {
  import opened Wrappers
  import opened Entities
  import opened DataContext
  import opened AdminDashboard

  const ActiveLink := "text-slate-900 font-bold border-b-2 border-red-600"
  const InactiveLink := "text-slate-500 hover:text-slate-900"

  /** A navigation link is highlighted exactly when it points at the current path. */
  function LinkClass(pathname: string, path: string): (c: string)
    ensures c == ActiveLink <==> pathname == path
    ensures c == InactiveLink <==> pathname != path
  {
    if pathname == path then ActiveLink else InactiveLink
  }

  /** Some item is an approved live slot. */
  predicate HasApprovedLiveSlot(xs: seq<Interview>)
  {
    exists k :: 0 <= k < |xs| && ApprovedLiveSlot(xs[k])
  }

  const SignInForAdmin := "/auth?redirect=/admin"
  const StudioPath := "/studio"
  const AdminPath := "/admin"

  /**
   * Where "Go Live" leads: a visitor without an account signs in first;
   * a signed-in user enters the studio when an approved live slot exists
   * and the dashboard otherwise. The three destinations are distinct, so
   * each one tells exactly which case applied.
   */
  function GoLiveTarget(u: Option<User>, xs: seq<Interview>): (path: string)
    ensures path == SignInForAdmin <==> u.None?
    ensures path == StudioPath <==> u.Some? && HasApprovedLiveSlot(xs)
    ensures path == AdminPath <==> u.Some? && !HasApprovedLiveSlot(xs)
  {
    if u.None? then SignInForAdmin
    else if HasApprovedLiveSlot(xs) then StudioPath
    else AdminPath
  }

  /**
   * Once an admin approves a live application, "Go Live" takes every
   * signed-in user to the studio: the check is over all items, not over
   * the user's own.
   */
  lemma {:induction false} ApprovingLiveOpensStudio(xs: seq<Interview>, k: nat, u: User)
    requires k < |xs| && xs[k].applicationType == Some(LiveType)
    ensures var ys := UpdatedById(xs, xs[k].id, StatusPatch(ApprovalStatus(xs[k].applicationType)));
      GoLiveTarget(Some(u), ys) == StudioPath
  {
    var ys := UpdatedById(xs, xs[k].id, StatusPatch(ApprovalStatus(xs[k].applicationType)));
    MergeStatus(xs[k], Upcoming);
    assert ApprovedLiveSlot(ys[k]);
  }

  /** Without approved live slots, a signed-in user is sent to the dashboard. */
  lemma RejectingKeepsDashboard(xs: seq<Interview>, id: string, u: User)
    requires !HasApprovedLiveSlot(xs)
    ensures GoLiveTarget(Some(u), UpdatedById(xs, id, StatusPatch(Rejected))) == AdminPath
  {
    var ys := UpdatedById(xs, id, StatusPatch(Rejected));
    forall k | 0 <= k < |ys|
      ensures !ApprovedLiveSlot(ys[k])
    {
      assert !ApprovedLiveSlot(xs[k]);
      if xs[k].id == id {
        MergeStatus(xs[k], Rejected);
      }
    }
  }

  const SignInForApply := "/auth?redirect=/apply"

  /** What clicking "Apply" does: whether the link is cancelled, and where the page navigates instead. */
  datatype ApplyClick = ApplyClick(preventDefault: bool, navigate: Option<string>)

  /** A visitor without an account is sent to sign in; a user follows the link. */
  function OnApplyClick(u: Option<User>): (r: ApplyClick)
    ensures r.preventDefault <==> u.None?
    ensures r.navigate.Some? <==> u.None?
    ensures r.navigate.Some? ==> r.navigate.value == SignInForApply
  {
    if u.None? then ApplyClick(true, Some(SignInForApply)) else ApplyClick(false, None)
  }
}
