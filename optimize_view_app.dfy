/**
 * The optimize command's application shell of
 * cmd/optimize/view/view_app.go: the optimization list above the jobs
 * panel. Both parts start at their minimum heights and grow greedily (the
 * list to its preferred minimum, the jobs panel to its maximum, the list
 * to its maximum), each step that breaks the fit being undone.
 */
module OptimizeViewApp {
  import opened Wrappers
  import opened Greedy
  import OptimizeOptimizationsView
  import OptimizeJobsView
  import OptimizationsView

  /** The text shown when the parts cannot fit (line 50). */
  const CannotRender: string := "Application cannot be rendered in this screen size, please increase height of your terminal"

  datatype Msg = Resize(width: int, height: int) | CtrlC | ListMsg(msg: OptimizeOptimizationsView.Msg)

  class App {
    const list: OptimizeOptimizationsView.OptimizeOptimizationsView
    const jobs: OptimizeJobsView.JobsView
    var width: int
    var height: int
    var quit: bool

    /** `NewApp` (lines 16-22). */
    constructor(list: OptimizeOptimizationsView.OptimizeOptimizationsView, jobs: OptimizeJobsView.JobsView)
      ensures this.list == list && this.jobs == jobs && width == 0 && height == 0 && !quit
    {
      this.list, this.jobs := list, jobs;
      width, height, quit := 0, 0, false;
    }

    /** The split's inputs: the list first, the jobs panel second, both from their minimums. */
    function AppLimits(sub: OptimizationsView.SubLayout): Limits
      reads this, list, list.help, jobs
    {
      Limits(height, list.MinHeight(sub), jobs.MinHeight(), list.MinHeight(sub), jobs.MinHeight(),
             list.subView.NoSubView? || sub.responsive, list.PreferredMinHeight(), jobs.MaxHeight(), list.MaxHeight())
    }

    /** `checkResponsive` (lines 58-60); `sub` is the list's open sub-view's minimum height and responsiveness. */
    predicate CheckResponsive(sub: OptimizationsView.SubLayout)
      reads this, list, jobs
    {
      height >= jobs.height + list.height && jobs.IsResponsive() && list.IsResponsive(sub)
    }

    /** The check holds exactly when the current heights are a fitting split. */
    lemma CheckResponsiveFits(sub: OptimizationsView.SubLayout)
      ensures CheckResponsive(sub) <==>
                Fits(height, list.height, jobs.height, list.MinHeight(sub), jobs.MinHeight(), list.subView.NoSubView? || sub.responsive)
    {
    }

    /**
     * `UpdateResponsive` (lines 62-93): both parts start at their minimum
     * heights; when those fit, the parts grow in three phases and the
     * application stays responsive. The list lays itself out in the height
     * it ends with.
     */
    method UpdateResponsive(sub: OptimizationsView.SubLayout)
      modifies list, list.help, jobs
      ensures Heights(list.height, jobs.height) == Layout(old(AppLimits(sub)))
      ensures var l := old(AppLimits(sub));
              Fits(l.total, l.first, l.second, l.firstFloor, l.secondFloor, l.ready) ==> CheckResponsive(sub)
      ensures var l := old(AppLimits(sub));
              !Fits(l.total, l.first, l.second, l.firstFloor, l.secondFloor, l.ready) ==>
                list.height == list.MinHeight(sub) && jobs.height == jobs.MinHeight()
      ensures jobs.height > jobs.MinHeight() ==> list.height >= list.PreferredMinHeight()
      ensures list.height > Max(list.MinHeight(sub), list.PreferredMinHeight()) ==> jobs.height >= jobs.MaxHeight()
      ensures list.subView.NoSubView? ==>
                Heights(list.tableHeight, list.help.height) == Layout(OptimizationsView.ListLimits(list.height, list.help.MaxHeight()))
      ensures list.items == old(list.items) && list.queue == old(list.queue) && list.subView == old(list.subView)
      ensures jobs.runningJobs == old(jobs.runningJobs) && jobs.failedJobs == old(jobs.failedJobs)
      ensures jobs.moreRunningJobs == old(jobs.moreRunningJobs) && jobs.moreFailedJobs == old(jobs.moreFailedJobs)
    {
      var l := AppLimits(sub);
      var h := Grow(l);
      LayoutFits(l);
      LayoutOrder(l);
      list.SetHeight(h.first);
      jobs.SetHeight(h.second);
    }

    /**
     * `Update` (lines 29-45): a resize re-splits the height, ctrl+c quits
     * and every other message goes on to the list.
     */
    method Update(msg: Msg, sub: OptimizationsView.SubLayout, money: int -> string, highlighted: string)
      modifies this, list, list.help, jobs
      ensures quit == (old(quit) || msg.CtrlC?)
      ensures msg.Resize? ==> width == msg.width && height == msg.height
      ensures !msg.Resize? ==> width == old(width) && height == old(height)
      ensures msg.CtrlC? ==> list.items == old(list.items) && list.queue == old(list.queue) && list.height == old(list.height)
      ensures jobs.runningJobs == old(jobs.runningJobs) && jobs.failedJobs == old(jobs.failedJobs)
    {
      if msg.Resize? {
        width, height := msg.width, msg.height;
        UpdateResponsive(sub);
      } else if msg.CtrlC? {
        quit := true;
        return;
      }
      var listMsg := if msg.Resize? then OptimizeOptimizationsView.WindowSize(msg.width) else msg.msg;
      list.Update(listMsg, money, highlighted);
    }

    /**
     * `View` (lines 47-56): when the parts do not fit, the height is split
     * again and the message is shown; otherwise the list, then the jobs
     * panel. The list's table and its open sub-view are parameters.
     */
    method View(sub: OptimizationsView.SubLayout, money: int -> string, tableText: string, subText: string)
      returns (s: string)
      modifies list, list.help, jobs
      ensures !old(CheckResponsive(sub)) ==> s == CannotRender && Heights(list.height, jobs.height) == Layout(old(AppLimits(sub)))
      ensures old(CheckResponsive(sub)) ==> exists t :: s == t + OptimizeJobsView.PanelText(jobs)
      ensures old(CheckResponsive(sub)) ==> list.height == old(list.height) && jobs.height == old(jobs.height)
    {
      if !CheckResponsive(sub) {
        UpdateResponsive(sub);
        return CannotRender;
      }
      var t := list.View(money, tableText, subText);
      var j := jobs.String();
      s := t + j;
      assert s == t + OptimizeJobsView.PanelText(jobs);
    }
  }
}
