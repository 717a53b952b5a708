/**
 * The application of the optimize command (cmd/optimize/view/app.go): the
 * EC2 instance list above the jobs panel. Job reports and errors arrive on
 * channels and update the running and failed job maps and the status error;
 * the instances of each region are filtered and sent both to the list and
 * to the evaluation queue. The AWS and wastage calls are not modelled: what
 * they return is a parameter.
 */
module OptimizeApp {
  import opened Wrappers
  import opened Text
  import opened Proto
  import opened Greedy
  import opened AwsTypes
  import opened WastageEc2
  import JobsController
  import OptimizePreferences
  import OptimizeJobsView
  import OptimizationsView
  import Ec2InstanceOptimizations
  import HelpView

  type Ec2Item = Ec2InstanceOptimizations.Ec2Item

  const CannotRender: string := "Application cannot be rendered in this screen size, please increase height of your terminal"

  // ---------------------------------------------------------------- the instance filter



  /** Lines 289-295: the item sent for an eligible instance, loading, with the default preferences. */
  function NewItem(v: Instance, region: string): (item: Ec2Item)
    ensures item.instance == v && item.region == region && item.optimizationLoading && item.volumes == []
    ensures item.preferences == OptimizePreferences.DefaultPreferences() && item.wastage == ZeroResponse
  {
    Ec2InstanceOptimizations.Ec2Item(v, [], region, true, OptimizePreferences.DefaultPreferences(), ZeroResponse)
  }

  /** The items a region's instances give, in order. */
  function RegionItems(instances: seq<Instance>, region: string): seq<Ec2Item> {
    if instances == [] then []
    else
      var init := RegionItems(instances[..|instances| - 1], region);
      var v := instances[|instances| - 1];
      if Eligible(v) then init + [NewItem(v, region)] else init
  }

  /** Lines 273-301 for one instance: a loading item for an eligible instance, nothing otherwise. */
  method Pick(v: Instance, region: string) returns (picked: seq<Ec2Item>)
    ensures picked == if Eligible(v) then [NewItem(v, region)] else []
  {
    if v.state != Running || v.lifecycle == Spot {
      return [];
    }
    var isAutoScaling := ScanAutoScaling(v.tags);
    if isAutoScaling {
      return [];
    }
    picked := [NewItem(v, region)];
  }

  /** One more instance of the loop. */
  lemma RegionItemsStep(instances: seq<Instance>, region: string, n: int)
    requires 0 <= n < |instances|
    ensures RegionItems(instances[..n + 1], region) ==
              RegionItems(instances[..n], region) + if Eligible(instances[n]) then [NewItem(instances[n], region)] else []
  {
    assert instances[..n + 1][..n] == instances[..n];
  }

  /** Every item is a fresh loading item for an eligible instance, at most one per instance. */
  lemma {:induction false} RegionItemsShape(instances: seq<Instance>, region: string)
    ensures forall k :: 0 <= k < |RegionItems(instances, region)| ==>
              RegionItems(instances, region)[k] == NewItem(RegionItems(instances, region)[k].instance, region) &&
              Eligible(RegionItems(instances, region)[k].instance)
    ensures |RegionItems(instances, region)| <= |instances|
  {
    if instances != [] {
      RegionItemsShape(instances[..|instances| - 1], region);
    }
  }

  /** An instance has an item exactly when it is in the page and eligible. */
  lemma RegionItemsExactly(instances: seq<Instance>, region: string, v: Instance)
    ensures (exists k :: 0 <= k < |RegionItems(instances, region)| && RegionItems(instances, region)[k].instance == v) <==>
              v in instances && Eligible(v)
  {
    if v in instances && Eligible(v) {
      RegionItemsHas(instances, region, v);
    }
    if exists k :: 0 <= k < |RegionItems(instances, region)| && RegionItems(instances, region)[k].instance == v {
      var k :| 0 <= k < |RegionItems(instances, region)| && RegionItems(instances, region)[k].instance == v;
      RegionItemsOnly(instances, region, k);
    }
  }

  /** The items so far, then one for the last instance when it is eligible. */
  lemma RegionItemsLast(instances: seq<Instance>, region: string)
    requires instances != []
    ensures var before := RegionItems(instances[..|instances| - 1], region);
            var items := RegionItems(instances, region);
            var last := instances[|instances| - 1];
            |items| == |before| + (if Eligible(last) then 1 else 0) &&
            (forall k :: 0 <= k < |before| ==> items[k] == before[k]) &&
            (Eligible(last) ==> items[|before|].instance == last)
  {
  }

  /** Every eligible instance has an item. */
  lemma {:induction false} RegionItemsHas(instances: seq<Instance>, region: string, v: Instance)
    requires v in instances && Eligible(v)
    ensures exists k :: 0 <= k < |RegionItems(instances, region)| && RegionItems(instances, region)[k].instance == v
  {
    var init, last := instances[..|instances| - 1], instances[|instances| - 1];
    assert instances == init + [last];
    RegionItemsLast(instances, region);
    var items, before := RegionItems(instances, region), RegionItems(init, region);
    if v == last {
      assert items[|before|].instance == v;
    } else {
      assert v in init;
      RegionItemsHas(init, region, v);
      var k :| 0 <= k < |before| && before[k].instance == v;
      assert items[k] == before[k];
    }
  }

  /** Every item is for an eligible instance of the page. */
  lemma {:induction false} RegionItemsOnly(instances: seq<Instance>, region: string, k: int)
    requires 0 <= k < |RegionItems(instances, region)|
    ensures RegionItems(instances, region)[k].instance in instances && Eligible(RegionItems(instances, region)[k].instance)
  {
    var init, last := instances[..|instances| - 1], instances[|instances| - 1];
    assert instances == init + [last];
    RegionItemsLast(instances, region);
    var items, before := RegionItems(instances, region), RegionItems(init, region);
    if k < |before| {
      assert items[k] == before[k];
      RegionItemsOnly(init, region, k);
    }
  }

  /** Lines 256-257 and 259-261: the job reported around a region's listing. */
  function RegionJob(region: string, failure: string, done: bool): (job: JobResult)
    ensures job.id == "region_ec2_instances_" + region && job.failureMessage == failure && job.done == done
  {
    JobResult("region_ec2_instances_" + region, "Listing all ec2 instances in " + region, failure, done)
  }

  /**
   * Lines 231-244: the item an evaluation sends back, no longer loading. An
   * answer without a current instance type leaves the item as it was;
   * otherwise the item carries the volumes and the answer.
   */
  function Evaluated(item: Ec2Item, volumes: seq<Volume>, region: string, res: Ec2InstanceWastageResponse): (r: Ec2Item)
    ensures !r.optimizationLoading && r.instance == item.instance && r.preferences == item.preferences
    ensures res.rightSizing.current.instanceType == "" ==> r == item.(optimizationLoading := false)
    ensures res.rightSizing.current.instanceType != "" ==> r.wastage == res && r.volumes == volumes && r.region == region
  {
    if res.rightSizing.current.instanceType == "" then item.(optimizationLoading := false)
    else Ec2InstanceOptimizations.Ec2Item(item.instance, volumes, region, false, item.preferences, res)
  }

  // ---------------------------------------------------------------- the application

  datatype Msg = Resize(width: int, height: int) | CtrlC | Table(msg: Ec2InstanceOptimizations.Msg)

  /** Line 141: the status error wrapped to the width, or nothing; `wrap` is the word wrapper. */
  function ErrorLine(statusErr: string, width: int, wrap: (string, int) -> string): string {
    if |statusErr| > 0 then wrap("  error: " + statusErr, width) + "\n" else ""
  }

  class OptimizeApp {
    var statusErr: string
    /** The job reports published and not yet taken (`jobChan`). */
    var jobQueue: seq<JobResult>
    /** The errors published and not yet taken (`errorChan`). */
    var errorQueue: seq<string>
    /** The items waiting for evaluation (`processInstanceChan`). */
    var processQueue: seq<Ec2Item>
    var runningJobs: map<string, string>
    var failedJobs: map<string, string>
    const table: Ec2InstanceOptimizations.Ec2InstanceOptimizations
    const jobs: OptimizeJobsView.JobsView
    var width: int
    var height: int
    var quit: bool

    /** `NewApp` (lines 53-68) without its goroutines: empty maps and channels, a fresh list and jobs panel. */
    constructor()
      ensures statusErr == "" && jobQueue == [] && errorQueue == [] && processQueue == []
      ensures runningJobs == map[] && failedJobs == map[] && width == 0 && height == 0 && !quit
      ensures fresh(table) && fresh(table.help) && table.items == [] && table.queue == [] && table.subView.NoSubView?
      ensures fresh(jobs) && jobs.runningJobs == [] && jobs.failedJobs == [] && jobs.height == 0
    {
      statusErr, jobQueue, errorQueue, processQueue := "", [], [], [];
      runningJobs, failedJobs := map[], map[];
      table := new Ec2InstanceOptimizations.Ec2InstanceOptimizations();
      jobs := new OptimizeJobsView.JobsView([], false, [], false);
      width, height, quit := 0, 0, false;
    }

    /** The job case of `UpdateStatus` (lines 149-161): the report is applied to both maps. */
    method ReceiveJob()
      requires |jobQueue| > 0
      modifies this
      ensures (runningJobs, failedJobs) == JobsController.JobStep(old(runningJobs), old(failedJobs), old(jobQueue[0]))
      ensures jobQueue == old(jobQueue[1..]) && errorQueue == old(errorQueue) && statusErr == old(statusErr)
      ensures processQueue == old(processQueue)
    {
      var job := jobQueue[0];
      jobQueue := jobQueue[1..];
      if !job.done {
        runningJobs := runningJobs[job.id := job.description];
      } else if job.id in runningJobs {
        runningJobs := runningJobs - {job.id};
      }
      if |job.failureMessage| > 0 {
        failedJobs := failedJobs[job.id := job.description + " failed due to " + job.failureMessage];
      }
    }

    /** The error case of `UpdateStatus` (lines 163-164): the error replaces the status error, earlier ones are lost. */
    method ReceiveError()
      requires |errorQueue| > 0
      modifies this
      ensures statusErr == "Failed due to " + old(errorQueue[0])
      ensures errorQueue == old(errorQueue[1..]) && jobQueue == old(jobQueue)
      ensures runningJobs == old(runningJobs) && failedJobs == old(failedJobs) && processQueue == old(processQueue)
    {
      statusErr := "Failed due to " + errorQueue[0];
      errorQueue := errorQueue[1..];
    }

    /**
     * `ProcessRegion` (lines 247-301) over the instances its pages list: the
     * job is reported running, every eligible instance's item is sent to
     * the list and queued for evaluation, and the job is reported done, with
     * the error of a page that could not be read.
     */
    method ProcessRegion(region: string, instances: seq<Instance>, pageError: Option<string>)
      modifies this, table
      ensures table.queue == old(table.queue) + RegionItems(instances, region)
      ensures processQueue == old(processQueue) + RegionItems(instances, region)
      ensures jobQueue == old(jobQueue) + [RegionJob(region, "", false),
                                           RegionJob(region, if pageError.Some? then pageError.value else "", true)]
      ensures table.items == old(table.items) && table.subView == old(table.subView) && table.height == old(table.height)
      ensures runningJobs == old(runningJobs) && failedJobs == old(failedJobs) && statusErr == old(statusErr)
    {
      jobQueue := jobQueue + [RegionJob(region, "", false)];
      ghost var tableQueue, items, subView, height := table.queue, table.items, table.subView, table.height;
      ghost var queue, jobs0 := processQueue, jobQueue;
      for n := 0 to |instances|
        invariant table.queue == tableQueue + RegionItems(instances[..n], region)
        invariant processQueue == queue + RegionItems(instances[..n], region)
        invariant table.items == items && table.subView == subView && table.height == height
        invariant jobQueue == jobs0 && unchanged(this`runningJobs, this`failedJobs, this`statusErr)
      {
        RegionItemsStep(instances, region, n);
        var picked := Pick(instances[n], region);
        if picked != [] {
          table.SendItem(picked[0]);
          processQueue := processQueue + picked;
          Assoc(queue, RegionItems(instances[..n], region), picked);
          Assoc(tableQueue, RegionItems(instances[..n], region), picked);
        }
      }
      assert instances[..|instances|] == instances;
      jobQueue := jobQueue + [RegionJob(region, if pageError.Some? then pageError.value else "", true)];
    }

    /** The split's inputs: the list from its minimum up to 10 lines, then the panel, then the list to its maximum. */
    function AppLimits(sub: OptimizationsView.SubLayout): Limits
      reads this, table, table.help, jobs
    {
      Limits(height, table.MinHeight(sub), jobs.MinHeight(), table.MinHeight(sub), jobs.MinHeight(),
             table.subView.NoSubView? || sub.responsive, table.PreferredMinHeight(), jobs.MaxHeight(), table.MaxHeight())
    }

    /** `checkResponsive` (lines 572-574); `sub` is the open sub-view's minimum height and responsiveness. */
    predicate CheckResponsive(sub: OptimizationsView.SubLayout)
      reads this, table, table.help, jobs
    {
      height >= jobs.height + table.height && jobs.IsResponsive() && table.IsResponsive(sub)
    }

    /** The check is the split's fit for the current heights. */
    lemma CheckResponsiveFits(sub: OptimizationsView.SubLayout)
      ensures CheckResponsive(sub) <==>
                Fits(height, table.height, jobs.height, table.MinHeight(sub), jobs.MinHeight(), table.subView.NoSubView? || sub.responsive)
    {
    }

    /**
     * `UpdateResponsive` (lines 576-611): both parts start at their
     * minimum heights and grow greedily; the list lays itself out in the
     * height it ends with. If the minimums fit, the application stays
     * responsive.
     */
    method UpdateResponsive(sub: OptimizationsView.SubLayout)
      modifies table, table.help, jobs
      ensures Heights(table.height, jobs.height) == Layout(AppLimits(sub))
      ensures table.subView.NoSubView? ==>
                Heights(table.tableHeight, table.help.height) == Layout(Ec2InstanceOptimizations.ListLimits(table.height, table.help.MaxHeight()))
      ensures var l := AppLimits(sub);
              Fits(l.total, l.first, l.second, l.firstFloor, l.secondFloor, l.ready) ==> CheckResponsive(sub)
      ensures table.items == old(table.items) && table.queue == old(table.queue) && table.subView == old(table.subView)
      ensures jobs.runningJobs == old(jobs.runningJobs) && jobs.failedJobs == old(jobs.failedJobs)
      ensures jobs.moreRunningJobs == old(jobs.moreRunningJobs) && jobs.moreFailedJobs == old(jobs.moreFailedJobs)
    {
      var l := AppLimits(sub);
      var h := Grow(l);
      LayoutFits(l);
      table.SetHeight(h.first);
      jobs.SetHeight(h.second);
    }

    /** The jobs panel's lines (lines 89-92): the first three running and failed jobs. */
    method RefreshJobs()
      modifies jobs
      ensures JobsController.Summarizes(jobs.runningJobs, jobs.moreRunningJobs, runningJobs)
      ensures JobsController.Summarizes(jobs.failedJobs, jobs.moreFailedJobs, failedJobs)
      ensures jobs.height == old(jobs.height) && jobs.width == old(jobs.width)
    {
      var r, moreR := JobsController.TopThree(runningJobs);
      var f, moreF := JobsController.TopThree(failedJobs);
      jobs.runningJobs, jobs.moreRunningJobs := r, moreR;
      jobs.failedJobs, jobs.moreFailedJobs := f, moreF;
    }

    /**
     * `Update` (lines 76-96): a resize re-splits the height, ctrl+c quits,
     * and any other message refreshes the jobs panel and goes to the list.
     */
    method Update(msg: Msg, sub: OptimizationsView.SubLayout, money: int -> string, selected: Option<string>)
      modifies this, table, table.help, jobs
      ensures quit == (old(quit) || msg.CtrlC?)
      ensures msg.Resize? ==> width == msg.width && height == msg.height
      ensures !msg.CtrlC? ==> JobsController.Summarizes(jobs.runningJobs, jobs.moreRunningJobs, runningJobs) &&
                              JobsController.Summarizes(jobs.failedJobs, jobs.moreFailedJobs, failedJobs)
      ensures msg.CtrlC? ==> table.items == old(table.items) && table.queue == old(table.queue)
      ensures runningJobs == old(runningJobs) && failedJobs == old(failedJobs) && statusErr == old(statusErr)
    {
      if msg.Resize? {
        width, height := msg.width, msg.height;
        UpdateResponsive(sub);
      } else if msg.CtrlC? {
        quit := true;
        return;
      }
      RefreshJobs();
      var tableMsg := if msg.Resize? then Ec2InstanceOptimizations.WindowSize(msg.width) else msg.msg;
      table.Update(tableMsg, money, selected);
    }

    /**
     * `View` (lines 130-144): the message when the application does not
     * fit, else the list, the jobs panel and the status error. The list's
     * table, its open sub-view and the word wrapper are parameters.
     */
    method View(sub: OptimizationsView.SubLayout, money: int -> string, tableText: string, subText: string,
                wrap: (string, int) -> string) returns (s: string)
      modifies table
      ensures !old(CheckResponsive(sub)) ==> s == CannotRender
      ensures old(CheckResponsive(sub)) ==> exists t :: s == t + OptimizeJobsView.PanelText(jobs) + ErrorLine(statusErr, width, wrap)
    {
      if !CheckResponsive(sub) {
        return CannotRender;
      }
      var t := table.View(money, tableText, subText);
      var j := jobs.String();
      s := t + j;
      if |statusErr| > 0 {
        s := s + wrap("  error: " + statusErr, width) + "\n";
      }
      assert s == t + OptimizeJobsView.PanelText(jobs) + ErrorLine(statusErr, width, wrap);
    }
  }
}
