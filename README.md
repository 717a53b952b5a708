# kaytu core, modelled in Dafny

kaytu is a command-line tool that finds right-sizing opportunities in AWS
accounts. Its optimize command lists EC2 instances (with their EBS volumes)
and RDS instances, sends each one with a week of CloudWatch metrics to the
kaytu wastage service, and shows the answer in a terminal UI: lists of
optimization items with their savings, details pages that put every device's
current and recommended properties side by side, a preference editor whose
choices go back with a re-evaluation request, and a jobs panel. Plugins
stream the same items over gRPC to a plugin manager, and a non-interactive
mode writes them as CSV or JSON. Two Terraform commands turn the RDS
recommendations into edits of `module` blocks.

This project models the sequential logic underneath: the size and layout
arithmetic of the views, the job tracker, the item stores, the preference
registry and editors, the page and sort state machines, the classification
and building of EC2 and RDS items, the string processing of the Terraform
commands, the CSV and JSON exports, the plugin manager's decisions and the
flag helpers. Each Go file of that core is one Dafny module, one `.dfy` file
named after it:

- layout: `ResponsiveView` (view/responsive/responsive_view.go), `HelpView`
  (view/help.go), `OptimizeJobsView` (cmd/optimize/view/jobs.go), `Greedy`
  (the grow-and-undo height split shared by the list views and the apps),
  `StatusBar` (view/view_statusbar.go);
- jobs and stores: `JobsController` (controller/jobs.go),
  `OptimizationsController` (controller/optimization.go), `ItemStore` (the
  tick upsert of the three list views);
- preferences: `PreferencesRegistry` (preferences/const.go),
  `OptimizePreferences` (cmd/optimize/preferences/const.go),
  `PreferencesPage`, `PreferenceLines`, `PreferenceValidators` and `Cycling`
  (view/page_preferences.go), `PreferencesConfiguration`
  (cmd/optimize/view/preferences_configuration.go), `PreferenceItemView`
  (view/preferences_item.go);
- pages and views: `App` (view/app.go), `OverviewPage`, `TableColumns`,
  `OptimizationPage`, `CustomOverviewPage`, `ResourceDetailsPage`,
  `CustomResourceDetailsPage`, `OptimizationDetailsPage`,
  `OptimizationDetailsView`, `OptimizationsView`,
  `OptimizeOptimizationsView`, `Ec2InstanceOptimizations`, `OptimizeApp`,
  `OptimizeViewApp`, `Ec2InstanceDetail`;
- items and processors: `AwsTypes`, `Ec2Processor`, `Ec2InstanceItem`,
  `RdsProcessor`, `RdsInstanceItem` (pkg/processor), `WastageEc2` and
  `WastageRds` (pkg/api/wastage), `Hash` (pkg/hash/string.go), `ViewUtils`
  (pkg/utils/view.go);
- output and tools: `NonInteractiveView` (view/non_interactive_view.go),
  `TerraformCommand` (cmd/terraform.go), `TerraformTool`
  (terraform/terraform.go), `PluginManager` (pkg/plugin/manager.go),
  `FlagHelpers` (cmd/flags/helpers.go);
- shared: `Wrappers` (Option and Result), `Text` (the pieces of Go's
  `strings` and `strconv` the core uses), `GoMap` (map iteration in an
  unspecified order), `Proto` (the plugin protocol's records).

Objects whose methods update their fields are classes with `modifies`
clauses; loops are methods with invariants, proved against functions that
specify them, and the properties the code promises are lemmas about those
functions. Channels are queues and each per-message step is one method.
Go's map iteration order is a parameter wherever a result could depend on
it, and the results are shown not to depend on it. Integers are unbounded.
Where an `int32` wrap-around changes a result (the IOPS sum of an EBS volume,
the storage size in bytes), the wrap-around is written out; for the storage
size the members the rest of the model uses compute without it, and the
wrapping version stands beside them (see Findings and Left out).
Costs are integers; the `%.2f` renderings are functions passed in.

## Model

| member | source | states |
|---|---|---|
| RdsProcessor.ItemsAreLoading | pkg/processor/rds_instance.go:101-107 | no RDS instance is skipped: a listed item holds the instance and region, is loading, has the default preferences, no metrics and the zero answer; a measured item differs from it only by its metrics |
| RdsProcessor.ListedItems | pkg/processor/rds_instance.go:101-112 | one listed item per instance |
| RdsProcessor.SentOf | pkg/processor/rds_instance.go:111 | one list item per processor item |
| RdsProcessor.StoreLastWins | pkg/processor/rds_instance.go:110 | the item stored last under an instance identifier is the one the store keeps |
| RdsProcessor.PassStopped | pkg/processor/rds_instance.go:144-148 | once a metrics fetch has failed the remaining instances change nothing |
| RdsProcessor.PassQueuesPrefix | pkg/processor/rds_instance.go:114-167 | the pass queues, in listed order, the measured items of a prefix of the instances; it stopped exactly when the next instance's fetch failed, otherwise every instance was queued; each instance published two job reports, the failing one its report too |
| RdsProcessor.PassQueuesAll | pkg/processor/rds_instance.go:114-167 | when no fetch fails, every instance's measured item is queued in order |
| RdsProcessor.AbortEndsRegion | pkg/processor/rds_instance.go:144-148 | the first instance whose fetch fails ends the pass: its failure is the last job reported and nothing after it is queued |
| RdsProcessor.RegionEndsMeasured | pkg/processor/rds_instance.go:101-167 | with no failed fetch and distinct identifiers, the region ends with every instance's measured item stored in place of its listed item |
| RdsProcessor.ClusterType | pkg/processor/rds_instance.go:186-195 | the cluster type is the two-instance multi-AZ type exactly for multi-AZ with readable standbys, the one-instance multi-AZ type exactly for other multi-AZ instances, and single instance exactly otherwise |
| RdsProcessor.RequestDescribesInstance | pkg/processor/rds_instance.go:206-232 | the request carries the hashed identifier, the instance class as type, the cluster type, the storage size and IOPS, the throughput as the same number exactly when there is one, the metrics, the region and the exported preferences |
| RdsProcessor.Merged | pkg/processor/rds_instance.go:246-264 | an answer stops the loading; one without a current instance type changes nothing else, any other replaces the answer and clears the skip; instance, region, preferences and metrics are kept |
| RdsProcessor.MergeIdempotent | pkg/processor/rds_instance.go:246-264 | merging the same answer twice is merging it once |
| RdsProcessor.ReEvaluatedKeepsPreferences | pkg/processor/rds_instance.go:227-272 | a re-evaluated item keeps its new preferences after the answer, no longer loading, and a listed one sends them exported |
| RdsProcessor.RdsInstanceProcessor.constructor | pkg/processor/rds_instance.go:33-52 | a new processor has no items, queue, sent items or jobs |
| RdsProcessor.RdsInstanceProcessor.ProcessRegion | pkg/processor/rds_instance.go:83-168 | a failed listing is reported and ends the region; otherwise every instance is stored and sent as listed, then the metrics pass stores, sends and queues the measured items and publishes its jobs |
| RdsProcessor.RdsInstanceProcessor.SendListed | pkg/processor/rds_instance.go:101-112 | every instance is stored and sent as listed, in order |
| RdsProcessor.RdsInstanceProcessor.Put | pkg/processor/rds_instance.go:110-111 | the item is stored under its identifier and sent to the list, nothing else changes |
| RdsProcessor.RdsInstanceProcessor.MeasureListed | pkg/processor/rds_instance.go:114-167 | the loop over the instances applies the metrics pass |
| RdsProcessor.RdsInstanceProcessor.MeasureInstance | pkg/processor/rds_instance.go:115-166 | one instance applies its step, and the loop stops exactly when its fetch failed |
| RdsProcessor.RdsInstanceProcessor.WastageWorker | pkg/processor/rds_instance.go:176-265 | the zero item's nil identifier panics before any job is published and the recovered panic is published as an error; otherwise a login error ends the program, any other error is reported and changes no item, and an answer is reported, merged into the item, which is stored and sent again |
| RdsProcessor.RdsInstanceProcessor.ReEvaluate | pkg/processor/rds_instance.go:267-272 | the item under the id, or the zero item when there is none, takes the new preferences, is stored and queued |
| RdsProcessor.BuildRequest | pkg/processor/rds_instance.go:186-232 | for a listed instance, the cluster-type branches and the optional throughput yield the request |
| RdsProcessor.StoreAppend | pkg/processor/rds_instance.go:110 | storing two runs of items is storing the first, then the second |
| WastageEc2.RightsizingEbsVolume.Iops | pkg/api/wastage/ec2_instance.go:88-94 | a volume's IOPS is the baseline alone without provisioned IOPS, and otherwise the baseline plus the provisioned IOPS modulo 2^32, exactly the sum when it fits in int32 |
| WastageEc2.RightsizingEbsVolume.Throughput | pkg/api/wastage/ec2_instance.go:96-102 | a volume's throughput is the baseline, plus the provisioned throughput when there is one |
| WastageEc2.IopsWraps | pkg/api/wastage/ec2_instance.go:88-94 | when baseline plus provisioned IOPS exceed the int32 maximum, the IOPS wraps to that sum minus 2^32, a negative number |
| RdsInstanceItem.CurrentIopsAsWritten | pkg/processor/rds_instance_item.go:75-77 | the current IOPS cell as written formats the pointer, so it reads back as the pointer's address, or is "0" for an instance without IOPS |
| RdsInstanceItem.CurrentIops | pkg/processor/rds_instance_item.go:75-77 | the current IOPS cell as intended is empty exactly when the instance has no IOPS and otherwise reads back as the IOPS value |
| RdsInstanceItem.CurrentIopsAsWrittenIgnoresValue | pkg/processor/rds_instance_item.go:77 | two different IOPS values at one address give the same cell as written but different cells as intended; without IOPS the cell as written is "0" |
| RdsInstanceItem.RdsProperty | pkg/processor/rds_instance_item.go:33-114 | the property at each position carries the fixed key of that position, and without a recommendation its recommended cell is empty |
| RdsInstanceItem.DeviceWith | pkg/processor/rds_instance_item.go:102-118 | the device lists thirteen properties, each the property of its position |
| RdsInstanceItem.RdsInstanceDeviceAsWritten | pkg/processor/rds_instance_item.go:25-121 | the device as written has thirteen properties; its IOPS cell is the cell as written, the pointer's address, and its storage usage cells use the wrapping int32 byte count of the helper as written |
| RdsInstanceItem.RdsInstanceDevice | pkg/processor/rds_instance_item.go:25-121 | the device is identified by the instance identifier, typed "RDS Instance" over "730 hours", has thirteen properties and its IOPS cell shows the IOPS |
| RdsInstanceItem.RdsDeviceLayout | pkg/processor/rds_instance_item.go:25-121 | the keys are the fixed list with the Compute and Storage headers at positions 5 and 8; the instance class and the IOPS read back; without a recommendation the right-sized cost is 0 and every recommended cell is empty, with one the cost and class are the recommended ones |
| RdsInstanceItem.RdsStorageUsageInRange | pkg/processor/rds_instance_item.go:69-74 | with a positive storage size and free space within it, the size row's average is a share between 0 and 1 followed by "%" |
| RdsInstanceItem.Devices | pkg/processor/rds_instance_item.go:123-125 | an RDS item has exactly one device, the instance device |
| RdsInstanceItem.OptimizationItemOf | pkg/processor/rds_instance_item.go:127-153 | the list item is identified and named by the instance identifier, typed by the instance class, with no platform, and carries the item's region, devices, flags, preferences and description |
| RdsInstanceItem.ReEvaluationMissesInstances | pkg/processor/rds_instance_item.go:130 | because the item is typed by its instance class, an RDS item whose class is neither "EC2 Instance" nor "RDS Instance" is given no re-evaluator by the list |
| TableColumns.MaxFrom | view/page_overview.go:145-155 | the maximum is at least the start and every number, and is one of them |
| TableColumns.CellWidths | view/page_overview.go:148-151 | one measured width per cell |
| TableColumns.ContentWidth | view/page_overview.go:145-155 | a column is as wide as the widest of its title and its trimmed, unstyled cells, and exactly as wide as one of them |
| TableColumns.MaxWidth | view/page_overview.go:145-155 | the loop over the cells yields the content width |
| TableColumns.ColumnCells | view/page_overview.go:147-151 | one cell per row: the row's cell at the position, or empty where the row has none |
| AwsTypes.ScanAutoScaling | pkg/processor/ec2_instance.go:108-113 | the loop finds an auto-scaling instance exactly when some tag names a non-empty auto-scaling group |
| PluginManager.FirstNamedFrom | pkg/plugin/manager.go:69-76 | the index found is the first plugin with the name at or after the start, or none has it |
| PluginManager.FirstWithCommandFrom | pkg/plugin/manager.go:84-91 | the index found is the first plugin offering the command at or after the start, or none offers it |
| PluginManager.StartForMeaning | pkg/plugin/manager.go:78-94 | starting fails with "plugin not found" exactly when no installed plugin offers the command, and otherwise starts the first that does |
| PluginManager.StartPlugin | pkg/plugin/manager.go:78-94 | the nested loops yield the start of the first plugin offering the command |
| PluginManager.NormalizeShort | pkg/plugin/manager.go:229-233 | a short address names kaytu-io's repository "plugin-" followed by the address |
| PluginManager.NormalizeGithub | pkg/plugin/manager.go:229-233 | a full GitHub address keeps its owner and repository, and the name is "owner/repository" |
| PluginManager.ApprovedNeedsOneLine | pkg/plugin/manager.go:448-454 | a name holding a line break is never found on the list |
| PluginManager.ApprovedWhenListed | pkg/plugin/manager.go:448-454 | a name on a line of its own is approved whatever else the file holds |
| PluginManager.IsPluginApproved | pkg/plugin/manager.go:430-455 | the AWS plugin is approved at once; otherwise a failed read is the error and the scan of the lines decides |
| PluginManager.MatchHasSecondField | pkg/plugin/manager.go:287-288 | a name matching the version pattern has the second "_"-separated field the version is read from |
| PluginManager.AssetVersionOfPattern | pkg/plugin/manager.go:30 | the version read from a name of the pattern is the captured version |
| PluginManager.FirstAssetFrom | pkg/plugin/manager.go:286-288 | the asset found is the first with an id and a name matching the platform |
| PluginManager.FileName | pkg/plugin/manager.go:317 | the file name has the plugin name's length and no "/" |
| PluginManager.InstallNeedsApproval | pkg/plugin/manager.go:242-249 | the install is refused exactly when the list cannot be read, or the plugin is not approved and unsafe is not given |
| PluginManager.InstallFetchesNewVersion | pkg/plugin/manager.go:286-317 | a plugin is fetched only when the first asset for the platform has a version other than the installed one, into a file named after it without "/" |
| PluginManager.InstallSkips | pkg/plugin/manager.go:286-291 | nothing is fetched when there is no asset for the platform, or when the first has the installed version |
| PluginManager.FindAsset | pkg/plugin/manager.go:286-288 | the loop finds the first matching asset |
| PluginManager.IndexByName | pkg/plugin/manager.go:252-255 | the loop keys the installed plugins by name, a later one replacing an earlier |
| PluginManager.Install | pkg/plugin/manager.go:223-298 | the normalisation, approval, index and asset scan yield the install plan |
| PluginManager.KeptMeaning | pkg/plugin/manager.go:464-475 | the configuration keeps every other installed plugin under its name and loses the removed one |
| PluginManager.Uninstall | pkg/plugin/manager.go:457-494 | uninstalling fails with "plugin not found" unless a plugin has the name, and otherwise keeps the others |
| PluginManager.NonInteractiveRuns | pkg/plugin/manager.go:124-162 | in non-interactive mode no message ends the session and every registration adds its plugin, in order |
| PluginManager.RunEndsAtFirst | pkg/plugin/manager.go:164-219 | a session ends at the first message that fails, with that message's outcome; up to it every registration added its plugin |
| PluginManager.RunStays | pkg/plugin/manager.go:164-219 | once a message ends the session, later messages change nothing |
| PluginManager.Manager.constructor | pkg/plugin/manager.go:58-63 | a new manager has port 0, is not started, and has no plugins and no UI |
| PluginManager.Manager.GetPlugin | pkg/plugin/manager.go:69-76 | the first running plugin with the name, or none |
| PluginManager.Manager.SetDefaultUi | pkg/plugin/manager.go:391-405 | the jobs and optimizations controllers are attached and nothing else changes |
| PluginManager.Manager.SetCustomUi | pkg/plugin/manager.go:407-424 | the jobs controller, the custom optimizations and both pages are attached |
| PluginManager.Manager.SetNonInteractiveView | pkg/plugin/manager.go:426-428 | the non-interactive view is attached |
| PluginManager.Manager.Register | pkg/plugin/manager.go:122-221 | the stream is read until it fails or a message ends the session; each registration appends a running plugin and the other messages go to their targets |
| NonInteractiveView.ParamEnd | view/non_interactive_view.go:629 | the parameter run starting at a position ends at the first character outside 0-9 and ";" |
| NonInteractiveView.AnsiAt | view/non_interactive_view.go:629 | a match at the front is an escape, "[", parameter characters and "m", or there is none |
| NonInteractiveView.RemoveAnsi | view/non_interactive_view.go:628-631 | removing colour sequences never lengthens a text |
| NonInteractiveView.RemoveAnsiPlain | view/non_interactive_view.go:628-631 | a text without an escape character is left as it is |
| NonInteractiveView.RemoveAnsiDropsSequence | view/non_interactive_view.go:628-631 | a colour sequence at the front is dropped whole and the scan goes on after it |
| NonInteractiveView.RemoveAnsiKeeps | view/non_interactive_view.go:628-631 | any character other than an escape is kept |
| NonInteractiveView.RemoveAnsiSinglePass | view/non_interactive_view.go:628-631 | the replacement does not look again at what it joined: a sequence nested in another's opening leaves one behind, which only a second pass removes |
| NonInteractiveView.UpperBrokenLower | view/non_interactive_view.go:640-650 | a text with no upper-case letter passes the rune loop unchanged |
| NonInteractiveView.BreakUppers | view/non_interactive_view.go:640-650 | the rune loop yields the text with each upper-case letter lowered and preceded by "_" unless one is already there |
| NonInteractiveView.Collapse | view/non_interactive_view.go:654-655 | collapsing runs of underscores never lengthens a text |
| NonInteractiveView.CollapseShape | view/non_interactive_view.go:654-655 | the collapsed text keeps every other character in order, ends as the text ends, holds no new character and has no two adjacent underscores |
| NonInteractiveView.SnakeCaseShape | view/non_interactive_view.go:633-658 | the snake-cased text has no space, dash, upper-case letter or double underscore, and apart from underscores is the trimmed, lowered text |
| NonInteractiveView.PreparedShape | view/non_interactive_view.go:634-638 | lowered text with its spaces and dashes made underscores holds none of them, nor an upper-case letter |
| NonInteractiveView.CollapsePrepared | view/non_interactive_view.go:654-655 | collapsing a prepared text leaves it prepared, without adjacent underscores |
| NonInteractiveView.SnakeCaseIdempotent | view/non_interactive_view.go:633-658 | snake-casing a snake-cased text changes nothing |
| NonInteractiveView.CollapseSingle | view/non_interactive_view.go:654-655 | collapsing a text without adjacent underscores changes nothing |
| NonInteractiveView.CsvRow | view/non_interactive_view.go:509-513 | a CSV row is as wide as the header |
| NonInteractiveView.PropertyRows | view/non_interactive_view.go:505-514 | a device gives one row per property that is not hidden, each naming the item, its total saving and the device |
| NonInteractiveView.DeviceRows | view/non_interactive_view.go:504-515 | an item's devices give the rows of each device in turn, each naming the item and its total saving |
| NonInteractiveView.ItemRows | view/non_interactive_view.go:500-515 | an item's rows carry the sum of its devices' savings |
| NonInteractiveView.CsvRows | view/non_interactive_view.go:498-516 | the CSV has one row per visible property of each device of each item, each as wide as the header |
| NonInteractiveView.HiddenOnlyNoRows | view/non_interactive_view.go:506-508 | a device whose properties are all hidden gives no row |
| NonInteractiveView.CsvRowsAppend | view/non_interactive_view.go:499-516 | an item's rows come right after those of the items before it |
| NonInteractiveView.ExportCsv | view/non_interactive_view.go:492-518 | the export yields the fixed headers and the rows of every item |
| NonInteractiveView.ItemTotal | view/non_interactive_view.go:500-503 | the loop yields the sum of the devices' savings |
| NonInteractiveView.ExportItem | view/non_interactive_view.go:504-515 | the device loop yields the item's rows |
| NonInteractiveView.ExportDevice | view/non_interactive_view.go:505-514 | the property loop yields a row per property that is not hidden |
| NonInteractiveView.HeaderInjective | view/non_interactive_view.go:528-535 | the "Item-" and "Device-" keys of two columns are equal exactly when the columns are |
| NonInteractiveView.VisibleAmongStep | view/non_interactive_view.go:524-529 | one more key adds its value without colour sequences, unless the key is internal |
| NonInteractiveView.PutCellsStep | view/non_interactive_view.go:524-536 | one more key writes its cell, unless the key is internal |
| NonInteractiveView.PutCells | view/non_interactive_view.go:524-536 | the loops write each value that is not internal under its column, whatever the map order |
| NonInteractiveView.DeviceCells | view/non_interactive_view.go:530-536 | device values only fill device columns |
| NonInteractiveView.DeviceCellsSnoc | view/non_interactive_view.go:530-536 | one more device row writes its values over the earlier ones |
| NonInteractiveView.Columns | view/non_interactive_view.go:553-558 | one column per chart column |
| NonInteractiveView.CustomColumns | view/non_interactive_view.go:551-579 | the header holds the overview's columns and then the device table's |
| NonInteractiveView.HeaderTexts | view/non_interactive_view.go:551-558 | one header text per column |
| NonInteractiveView.CustomRow | view/non_interactive_view.go:560-577 | one cell per column |
| NonInteractiveView.CustomRows | view/non_interactive_view.go:559-578 | one row per item, as wide as the header |
| NonInteractiveView.CustomItemCell | view/non_interactive_view.go:524-577 | an overview column's cell is the item's value without colour sequences, or empty when the item has none or the key is internal |
| NonInteractiveView.DeviceCellsLast | view/non_interactive_view.go:530-536 | a device column holds the value of the last device row that has one, and is present exactly when one does |
| NonInteractiveView.CustomDeviceCell | view/non_interactive_view.go:530-577 | a device column's cell is the last device row's value without colour sequences, or empty |
| NonInteractiveView.ExportCustomCsv | view/non_interactive_view.go:520-580 | the export yields the header texts of the columns and one row per item |
| NonInteractiveView.RowMaps | view/non_interactive_view.go:521-550 | one row map per item |
| NonInteractiveView.CustomCsvRows | view/non_interactive_view.go:559-578 | one CSV row per row map |
| NonInteractiveView.ItemRowCells | view/non_interactive_view.go:523-549 | the loops yield an item's row map |
| NonInteractiveView.ColumnsOf | view/non_interactive_view.go:553-558 | the loop yields a table's columns |
| NonInteractiveView.LookupAll | view/non_interactive_view.go:561-577 | the loop yields a cell per column, empty where the row map has none |
| NonInteractiveView.DeviceMapsKeys | view/non_interactive_view.go:592-602 | the devices are keyed exactly by the rows' ids |
| NonInteractiveView.PropertyFieldsLookup | view/non_interactive_view.go:603-616 | a device field is its last property whose key snake-cases to the field name, or else the device's own value |
| NonInteractiveView.WithProperties | view/non_interactive_view.go:603-617 | writing the properties fails exactly when non-empty properties name a device without a row (a write into a nil map), and otherwise keeps the devices |
| NonInteractiveView.ConvertedItems | view/non_interactive_view.go:582-626 | the conversion fails exactly when some item does, and otherwise converts each item in order |
| NonInteractiveView.ConvertedItemShape | view/non_interactive_view.go:584-623 | an item converts exactly when its non-empty property lists all name device rows; its fields are then the overview's values that are not internal, except "devices", and its devices are its rows' ids |
| NonInteractiveView.ConvertedProperty | view/non_interactive_view.go:603-616 | a device's property field is the last property with that snake-cased key |
| NonInteractiveView.PutProperties | view/non_interactive_view.go:604-616 | the loop writes a device's properties in order |
| NonInteractiveView.WithPropertiesStep | view/non_interactive_view.go:603-617 | one more device's properties written over the others |
| NonInteractiveView.WithPropertiesSkip | view/non_interactive_view.go:603-604 | an empty property list changes nothing |
| NonInteractiveView.WithPropertiesNothing | view/non_interactive_view.go:603-617 | no keys, no change |
| NonInteractiveView.PutAllProperties | view/non_interactive_view.go:603-617 | the loop, in any map order, yields the devices with their properties, or the panic |
| NonInteractiveView.WithPropertiesSkipMissing | view/non_interactive_view.go:603-617 | properties of a missing device change none of the devices |
| NonInteractiveView.VisibleValues | view/non_interactive_view.go:586-600 | the loop, in any map order, yields the values that are not internal, without colour sequences |
| NonInteractiveView.PutDevices | view/non_interactive_view.go:592-602 | the loop yields a device map per row |
| NonInteractiveView.ConvertItem | view/non_interactive_view.go:584-623 | the steps yield the item's conversion |
| NonInteractiveView.ConvertOptimizeJson | view/non_interactive_view.go:582-626 | the loop yields the conversion of every item, or the panic |
| NonInteractiveView.ConvertedItemsPrefix | view/non_interactive_view.go:582-626 | an item that panics makes the whole conversion panic |
| NonInteractiveView.JobWatcher.constructor | view/non_interactive_view.go:42-51 | a new watcher has no running or failed jobs, no queued reports or errors and no status error |
| NonInteractiveView.JobWatcher.PublishJobs | view/non_interactive_view.go:288-290 | the report is queued and nothing else changes |
| NonInteractiveView.JobWatcher.PublishError | view/non_interactive_view.go:292-294 | the error is queued and nothing else changes |
| NonInteractiveView.JobWatcher.ReceiveJob | view/non_interactive_view.go:466-482 | a report updates the running and failed jobs as the jobs controller does, announces a finished job on standard error, and queues the contact message for a failure matching the limit pattern |
| NonInteractiveView.JobWatcher.ReceiveError | view/non_interactive_view.go:484-486 | an error is written to standard error and becomes the status error |
| ItemStore.FirstWith | view/view_optimizations.go:96-103 | the index found is the first item with the key, or the length when no item has it |
| ItemStore.UpsertFirstShape | view/view_optimizations.go:96-106 | an item whose key is stored replaces the first such item and nothing else; any other item is appended |
| ItemStore.UpsertFirstFinds | view/view_optimizations.go:96-106 | after the upsert the first item with the incoming key is the incoming item |
| ItemStore.FirstWithUnique | view/view_optimizations.go:96-103 | an index with the key and no earlier one with it is the one found |
| ItemStore.UpsertFirstIdempotent | view/view_optimizations.go:96-106 | sending the same item twice leaves the store as sending it once |
| ItemStore.UpsertEachNext | cmd/optimize/view/view_optimizations.go:131-143 | the tick's loop continues from the next queued item |
| ItemStore.UpsertEachLength | cmd/optimize/view/view_optimizations.go:131-143 | the store never shrinks and grows by at most one item per queued item |
| ItemStore.UpsertEachPointwise | cmd/optimize/view/view_optimizations.go:131-143 | sending a new version of every item of a store without repeated keys, in store order, leaves exactly the new versions |
| ItemStore.UpsertEachFrom | cmd/optimize/view/view_optimizations.go:131-143 | a store whose first items are already new versions ends up holding exactly the new versions |
| ItemStore.Find | view/view_optimizations.go:155-168 | the lookup loop finds the first item with the key |
| ItemStore.Upsert | cmd/optimize/view/ec2_instance_optimizations.go:121-131 | the scan with its break, then the replacement or the append, yields the upsert of the first match |
| Ec2Processor.SkipReason | pkg/processor/ec2_instance.go:108-130 | there is no skip reason exactly when the instance is eligible; otherwise it is "not running", "spot instance" or "auto-scaling group instance", the first filter test that fails |
| Ec2Processor.ListedItemClassifies | pkg/processor/ec2_instance.go:100-130 | a listed item is skipped, with a reason and not loading, exactly when its instance is not eligible; it starts from the default preferences and no fetched data |
| Ec2Processor.Classify | pkg/processor/ec2_instance.go:101-130 | the tag scan and the reason chain yield the listed item |
| Ec2Processor.ListedItems | pkg/processor/ec2_instance.go:100-135 | one listed item per instance |
| Ec2Processor.SentOf | pkg/processor/ec2_instance.go:134 | one list item per processor item |
| Ec2Processor.StoreKeys | pkg/processor/ec2_instance.go:133 | storing items keeps the other ids and adds each item's instance id |
| Ec2Processor.StoreLastWins | pkg/processor/ec2_instance.go:133 | the item stored last under an instance id is the one kept |
| Ec2Processor.VolumeIds | pkg/processor/ec2_instance.go:222-227 | the volume ids are exactly those of the mappings with an EBS device, at most one per mapping |
| Ec2Processor.VolumeMetrics | pkg/processor/ec2_instance.go:229-256 | on success every volume id maps to its metrics answer and nothing else is mapped; the result fails exactly when some call fails, with the error of the first failing call |
| Ec2Processor.VolumeMetricsStopped | pkg/processor/ec2_instance.go:250-254 | once a call has failed the remaining volume ids change nothing |
| Ec2Processor.FetchSucceeds | pkg/processor/ec2_instance.go:150-257 | a fetch succeeds exactly when every call does, and then holds the attached volumes, both metric sets with the agent's series winning a clash, and the volume metrics |
| Ec2Processor.FetchReports | pkg/processor/ec2_instance.go:150-257 | every job a fetch starts is reported done right after; only the last report can carry a failure, and it carries the fetch's error; a successful fetch publishes six reports |
| Ec2Processor.FetchInstance | pkg/processor/ec2_instance.go:150-257 | the calls in order yield the fetch |
| Ec2Processor.Evaluate | pkg/processor/ec2_instance.go:137-290 | one instance is skipped or fetched, queuing at most one item |
| Ec2Processor.ScanVolumeIds | pkg/processor/ec2_instance.go:222-227 | the scan yields the EBS volume ids |
| Ec2Processor.FetchVolumeMetrics | pkg/processor/ec2_instance.go:229-256 | the loop, returning at the first failure, yields the volume metrics |
| Ec2Processor.PassStopped | pkg/processor/ec2_instance.go:150-257 | once a fetch has failed the remaining instances change nothing |
| Ec2Processor.PassQueuesEligible | pkg/processor/ec2_instance.go:137-290 | every queued item is an eligible listed instance with its fetched data, loading and not skipped, in listed order |
| Ec2Processor.StepQueuesFetched | pkg/processor/ec2_instance.go:259-289 | one instance queues at most itself, as fetched |
| Ec2Processor.AbortEndsRegion | pkg/processor/ec2_instance.go:150-257 | the first eligible instance whose fetch fails ends the region: nothing after it is fetched or queued |
| Ec2Processor.PassQueuesAll | pkg/processor/ec2_instance.go:137-290 | when no fetch fails every eligible instance is queued |
| Ec2Processor.PassNeverAborts | pkg/processor/ec2_instance.go:137-290 | when no fetch fails the pass runs to the end |
| Ec2Processor.ToEbsVolume | pkg/processor/ec2_instance.go:399-413 | the volume keeps its fields, its id hashed, and has a throughput exactly when it had one |
| Ec2Processor.RequestIdsAreDeviceKeys | pkg/processor/ec2_instance.go:406 | an answer keyed by the hashed volume id the request sends gives that volume its device |
| Ec2Processor.Merged | pkg/processor/ec2_instance.go:369-389 | an answer stops the loading; one without a current instance type changes nothing else, any other replaces the answer and clears the skip; the instance, data and preferences stay |
| Ec2Processor.MergeIdempotent | pkg/processor/ec2_instance.go:369-389 | merging the same answer twice is merging it once |
| Ec2Processor.Ec2InstanceProcessor.constructor | pkg/processor/ec2_instance.go:32-51 | a new processor has no items, queue, sent items or jobs |
| Ec2Processor.Ec2InstanceProcessor.ProcessRegion | pkg/processor/ec2_instance.go:82-291 | a failed listing is reported and ends the region; otherwise every instance is stored and sent as listed, then the pass stores, sends and queues the fetched ones and publishes their jobs |
| Ec2Processor.Ec2InstanceProcessor.SendListed | pkg/processor/ec2_instance.go:100-135 | every instance is stored and sent as listed, in order |
| Ec2Processor.Ec2InstanceProcessor.Put | pkg/processor/ec2_instance.go:133-134 | the item is stored under its instance id and sent to the list |
| Ec2Processor.Ec2InstanceProcessor.EvaluateListed | pkg/processor/ec2_instance.go:137-290 | the loop over the instances applies the evaluation pass |
| Ec2Processor.Ec2InstanceProcessor.EvaluateInstance | pkg/processor/ec2_instance.go:137-290 | one instance applies its step, and the loop stops exactly when the step failed |
| Ec2Processor.Ec2InstanceProcessor.Apply | pkg/processor/ec2_instance.go:258-289 | the step's jobs are published, then its item, if any, stored, sent and queued |
| Ec2Processor.Ec2InstanceProcessor.WastageWorker | pkg/processor/ec2_instance.go:299-390 | the zero item's nil id panics before any job is published, and an instance without a placement panics after its job is published; the recovered panic is published as an error; otherwise a login error ends the program, any other error is reported, and an answer is merged into the item, which is stored and sent again |
| Ec2Processor.Ec2InstanceProcessor.ReEvaluate | pkg/processor/ec2_instance.go:392-397 | the item under the id, or the zero item when there is none, takes the new preferences, is stored and queued |
| Ec2Processor.BuildRequest | pkg/processor/ec2_instance.go:309-356 | a request is built exactly when the instance is listed and has a placement, and it is the request of the item; otherwise the nil dereference is the outcome |
| Ec2Processor.BuildPlacement | pkg/processor/ec2_instance.go:313-324 | the request's placement keeps the instance's tenancy, takes its zone or "", and takes its host id hashed or "" |
| Ec2Processor.BuildVolumes | pkg/processor/ec2_instance.go:330-333 | the request has one converted volume per volume of the instance, in the same order |
| Ec2Processor.PlacementOf | pkg/processor/ec2_instance.go:313-325 | the request's placement keeps the tenancy and carries the hashed host id, or "" when there is none |
| Ec2Processor.RequestDescribesInstance | pkg/processor/ec2_instance.go:340-356 | the request carries the hashed id, the type, the CPU options, the EBS flag, the usage operation and the monitoring state as listed, a placement, and the same tenancy at the top and in the placement; it has one volume per volume of the item |
| Ec2Processor.StoreAppend | pkg/processor/ec2_instance.go:133 | storing two runs of items is storing the first, then the second |
| Ec2Processor.ReEvaluatedKeepsPreferences | pkg/processor/ec2_instance.go:355-397 | a re-evaluated item keeps its new preferences after the answer, no longer loading, and sends them exported whenever a request can be built |
| Ec2Processor.Ec2InstanceProcessor.HandleEvaluation | pkg/processor/ec2_instance.go:357-389 | a login error ends the program; any other error finishes the job with that error; an answer finishes the job, is merged into the item, stored under its id and sent; no error is published |
| Ec2InstanceOptimizations.RowSavingNeedsRecommendation | cmd/optimize/view/ec2_instance_optimizations.go:140-148 | a row shows a saving only for an instance with a recommendation, and then it is the instance's saving plus every recommended volume's saving |
| Ec2InstanceOptimizations.RowSavingNonNegative | cmd/optimize/view/ec2_instance_optimizations.go:140-148 | when no recommendation costs more than the current resources the row's saving is not negative |
| Ec2InstanceOptimizations.RowOf | cmd/optimize/view/ec2_instance_optimizations.go:134-170 | a row shows the instance id, type, region and platform (empty when unknown), then "loading" or the saving, then the arrow |
| Ec2InstanceOptimizations.RowsOf | cmd/optimize/view/ec2_instance_optimizations.go:133-171 | one row per item, in order |
| Ec2InstanceOptimizations.BuildRow | cmd/optimize/view/ec2_instance_optimizations.go:134-170 | the row loop's body, with the volume savings summed in map order, yields the item's row |
| Ec2InstanceOptimizations.BuildRows | cmd/optimize/view/ec2_instance_optimizations.go:133-172 | the row loop yields one row per item |
| Ec2InstanceOptimizations.Drain | cmd/optimize/view/ec2_instance_optimizations.go:116-179 | the tick upserts every queued item by instance id, the first match replaced, and leaves the rows of the final store, or the old rows when nothing was queued |
| Ec2InstanceOptimizations.DrainOne | cmd/optimize/view/ec2_instance_optimizations.go:120-172 | one queued item replaces the first item with its instance id, or is appended, and the rows are rebuilt |
| Ec2InstanceOptimizations.HeaderAndRow | cmd/optimize/view/ec2_instance_optimizations.go:140-148 | the header's saving agrees with the row's for an instance with a recommendation; without one the row shows no saving while the header still counts the volumes' savings |
| Ec2InstanceOptimizations.Totals | cmd/optimize/view/ec2_instance_optimizations.go:266-282 | the loop yields the total cost of instances and volumes and the total saving |
| Ec2InstanceOptimizations.ListLayoutBounds | cmd/optimize/view/ec2_instance_optimizations.go:293-343 | with at least 6 lines the table gets 6 to 30 lines and the help box at most its maximum, together within the height; with fewer, the table keeps 6 and the help box 0 |
| Ec2InstanceOptimizations.Reloaded | cmd/optimize/view/ec2_instance_optimizations.go:192-199 | a reloaded item keeps its instance, volumes, region and answer, and takes the new preferences and the loading state |
| Ec2InstanceOptimizations.ReloadedAll | cmd/optimize/view/ec2_instance_optimizations.go:212-218 | every item reloaded, in order |
| Ec2InstanceOptimizations.ReloadAllThenTick | cmd/optimize/view/ec2_instance_optimizations.go:117-218 | after the P editor closes, the list already holds every item reloaded in place, and the tick that delivers the queued copies, in a store without repeated ids, leaves it so; delivered to the items as they were before, the copies give the same list |
| Ec2InstanceOptimizations.ReloadEach | cmd/optimize/view/ec2_instance_optimizations.go:213-218 | every item is queued for display and sent for evaluation, reloaded, in order |
| Ec2InstanceOptimizations.Ec2InstanceOptimizations.constructor | cmd/optimize/view/ec2_instance_optimizations.go:50-92 | a new list has no items, rows or sub-view, a ten-line page and an empty help box with the five help lines |
| Ec2InstanceOptimizations.Ec2InstanceOptimizations.SendItem | cmd/optimize/view/ec2_instance_optimizations.go:289-291 | the item is queued and nothing else changes |
| Ec2InstanceOptimizations.Ec2InstanceOptimizations.Tick | cmd/optimize/view/ec2_instance_optimizations.go:116-179 | the queue is drained into the store by instance id and the rows rebuilt when anything came; nothing else changes |
| Ec2InstanceOptimizations.Ec2InstanceOptimizations.UpdateResponsive | cmd/optimize/view/ec2_instance_optimizations.go:293-343 | with a sub-view open it gets the whole height; otherwise the table and help box get the greedy split; the table widget always gets five lines fewer |
| Ec2InstanceOptimizations.Ec2InstanceOptimizations.SetHeight | cmd/optimize/view/ec2_instance_optimizations.go:345-348 | the new height is kept and split as the responsive update does |
| Ec2InstanceOptimizations.Ec2InstanceOptimizations.Press | cmd/optimize/view/ec2_instance_optimizations.go:181-243 | q quits; with a selected row p opens the editor and enter the details of the first item with that id, or nothing when none has it; P opens the editor for all; without a selected row nothing opens |
| Ec2InstanceOptimizations.Ec2InstanceOptimizations.ClosePreferences | cmd/optimize/view/ec2_instance_optimizations.go:192-222 | closing the editor queues and sends every item concerned with the new preferences and loading; for P the list's own items are reloaded in place; it clears the screen and gives the list its split back |
| Ec2InstanceOptimizations.Ec2InstanceOptimizations.CloseDetails | cmd/optimize/view/ec2_instance_optimizations.go:233-236 | closing the details gives the list its split back and changes no item |
| Ec2InstanceOptimizations.Ec2InstanceOptimizations.View | cmd/optimize/view/ec2_instance_optimizations.go:254-287 | a cleared screen shows nothing once; an open sub-view shows itself; otherwise the total cost and saving over the table and the help box |
| Ec2InstanceOptimizations.Ec2InstanceOptimizations.Update | cmd/optimize/view/ec2_instance_optimizations.go:96-252 | a new width is always kept; an open sub-view takes every other message; otherwise a tick drains the queue, a resize re-splits the height and q quits |
| Ec2InstanceItem.Ec2Property | pkg/processor/ec2_instance_item.go:36-121 | each instance property sits under its fixed key, and its recommended cell is empty when the answer has no recommendation |
| Ec2InstanceItem.Ec2InstanceDevice | pkg/processor/ec2_instance_item.go:28-124 | the instance device is named by the instance id, typed "EC2 Instance" over "730 hours", and has its 13 properties in fixed order |
| Ec2InstanceItem.Ec2DeviceLayout | pkg/processor/ec2_instance_item.go:28-124 | the instance device's keys are the fixed list with the Compute and Network Performance headers at positions 2 and 10 and the current instance type shown; without a recommendation the right-sized cost is 0 and every recommended cell empty, with one its cost and instance type are shown |
| Ec2InstanceItem.EbsProperty | pkg/processor/ec2_instance_item.go:134-181 | each volume property sits under its fixed key, and its recommended cell is empty when the volume has no recommendation |
| Ec2InstanceItem.EbsVolumeDevice | pkg/processor/ec2_instance_item.go:126-192 | a volume device is named by the volume id, typed "EBS Volume" over "730 hours", and has its 8 properties in fixed order |
| Ec2InstanceItem.EbsDeviceLayout | pkg/processor/ec2_instance_item.go:126-192 | a volume device's keys are the fixed list; its IOPS cells read back as the current and recommended IOPS; without a recommendation the right-sized cost is 0 and every recommended cell empty |
| Ec2InstanceItem.VolumeDevicesShow | pkg/processor/ec2_instance_item.go:197-204 | there are at most as many volume devices as volumes, and each shows a volume that has a recommendation under its hashed id, with that recommendation |
| Ec2InstanceItem.VolumeDevicesCover | pkg/processor/ec2_instance_item.go:197-204 | every volume with a recommendation under its hashed id has a device |
| Ec2InstanceItem.Devices | pkg/processor/ec2_instance_item.go:194-206 | the loop yields the instance device followed by the volume devices |
| Ec2InstanceItem.NameTagIsLast | pkg/processor/ec2_instance_item.go:224-228 | there is no name exactly when no tag is a name tag, and otherwise it is the value of the last name tag |
| Ec2InstanceItem.NameTagStep | pkg/processor/ec2_instance_item.go:224-228 | one more tag replaces the name exactly when it is a name tag |
| Ec2InstanceItem.OptimizationItemShows | pkg/processor/ec2_instance_item.go:208-234 | the item is identified by the instance id, typed by the instance type, named by the last name tag or else the id, and carries the platform, the state and the preferences unchanged, with the instance device first |
| Ec2InstanceItem.ReEvaluationMissesInstances | pkg/processor/ec2_instance_item.go:211 | an item typed by an ordinary instance type finds no re-evaluation in the optimization list, which looks for "EC2 Instance" or "RDS Instance" |
| Ec2InstanceItem.ToOptimizationItem | pkg/processor/ec2_instance_item.go:208-234 | the method yields the item the conversion defines |
| Ec2InstanceDetail.VCpus | cmd/optimize/view/ec2_instance_detail.go:42 | the vCPU count is the product of cores and threads per core whenever that product fits in 32 bits, and wraps otherwise |
| Ec2InstanceDetail.InstanceRows | cmd/optimize/view/ec2_instance_detail.go:26-65 | the instance's entry has six four-cell rows: region, instance type with the target type, vCPU count, memory, network bandwidth and EBS bandwidth |
| Ec2InstanceDetail.TargetIops | cmd/optimize/view/ec2_instance_detail.go:73-91 | the target IOPS is "Not applicable" exactly when the volume's target type is none of io1, io2 and gp3, and the recommended IOPS otherwise |
| Ec2InstanceDetail.TargetThroughput | cmd/optimize/view/ec2_instance_detail.go:71-84 | the target throughput is shown only for the gp3 target type, and is "Not applicable" otherwise |
| Ec2InstanceDetail.VolumeSize | cmd/optimize/view/ec2_instance_detail.go:69-78 | the size is empty exactly when the volume has none, and is the size in GB otherwise |
| Ec2InstanceDetail.VolumeThroughput | cmd/optimize/view/ec2_instance_detail.go:70-81 | the throughput is empty exactly when the volume has none |
| Ec2InstanceDetail.VolumeIops | cmd/optimize/view/ec2_instance_detail.go:72-88 | the IOPS is empty exactly when the volume has none |
| Ec2InstanceDetail.TierRow | cmd/optimize/view/ec2_instance_detail.go:101-108 | the tier row shows the volume type and the target type read under the hashed volume id |
| Ec2InstanceDetail.SizeRow | cmd/optimize/view/ec2_instance_detail.go:109-116 | the size row shows the volume's size and the target size in GB read under the hashed volume id |
| Ec2InstanceDetail.IopsRow | cmd/optimize/view/ec2_instance_detail.go:117-144 | an IOPS row has four cells: its title, the volume's IOPS, the utilisation and the baseline IOPS over the target IOPS |
| Ec2InstanceDetail.ThroughputRow | cmd/optimize/view/ec2_instance_detail.go:145-151 | the throughput row shows the volume's throughput and the baseline throughput over the target throughput |
| Ec2InstanceDetail.VolumeRows | cmd/optimize/view/ec2_instance_detail.go:92-152 | a volume's entry has eight rows: the header, tier, size, four IOPS rows and throughput |
| Ec2InstanceDetail.DistinctVolumesDistinctKeys | cmd/optimize/view/ec2_instance_detail.go:68 | volumes with distinct ASCII ids read distinct entries of the recommendation's per-volume maps |
| Ec2InstanceDetail.VolumeEntries | cmd/optimize/view/ec2_instance_detail.go:67-153 | one entry per volume, in order, each that volume's rows |
| Ec2InstanceDetail.PropertiesKeys | cmd/optimize/view/ec2_instance_detail.go:25-156 | the properties have an entry exactly for the instance id and each volume id |
| Ec2InstanceDetail.ExtractProperties | cmd/optimize/view/ec2_instance_detail.go:25-156 | the method yields the instance's entry with every volume's entry assigned over it in order |
| Ec2InstanceDetail.InstanceDeviceRow | cmd/optimize/view/ec2_instance_detail.go:166-174 | the instance row shows the instance id, "EC2 Instance" and the saving of current over target cost |
| Ec2InstanceDetail.VolumeDeviceRow | cmd/optimize/view/ec2_instance_detail.go:175-183 | a volume row shows the volume id, "EBS Volume" and the saving read under the hashed volume id |
| Ec2InstanceDetail.BuildDeviceRows | cmd/optimize/view/ec2_instance_detail.go:166-184 | the device rows are built exactly when every block-device mapping has an EBS device; they are then the instance row and one row per mapping; otherwise a nil dereference |
| Ec2InstanceDetail.CollectRows | cmd/optimize/view/ec2_instance_detail.go:175-184 | the loop succeeds exactly when every mapping has an EBS device, giving the first row and then one row per mapping in order |
| Ec2InstanceDetail.Ec2InstanceDetail.constructor | cmd/optimize/view/ec2_instance_detail.go:186-239 | a new view holds the device rows, an empty details table, every device's properties and a help box of height 0 with the three help lines |
| Ec2InstanceDetail.Ec2InstanceDetail.SetHeight | cmd/optimize/view/ec2_instance_detail.go:280-293 | the help box gets the height the tables and description leave, so the view fits its height exactly when the help box fits its own |
| Ec2InstanceDetail.Ec2InstanceDetail.SelectDevice | cmd/optimize/view/ec2_instance_detail.go:261-267 | a newly highlighted device brings its property rows, or none, and resizes the help box; otherwise nothing changes |
| Ec2InstanceDetail.Ec2InstanceDetail.Update | cmd/optimize/view/ec2_instance_detail.go:244-271 | q quits at once; esc closes the view and goes on; a new width is kept; a newly highlighted device brings its rows; after either the help box is resized |
| Ec2InstanceDetail.Ec2InstanceDetail.View | cmd/optimize/view/ec2_instance_detail.go:273-278 | the view is the device table, the wrapped description, the details table and the help box, one per line |
| Ec2InstanceDetail.NewEc2InstanceDetail | cmd/optimize/view/ec2_instance_detail.go:158-240 | the view opens exactly when every block-device mapping has an EBS device, with the device rows, the properties, no detail rows and an empty help box; otherwise a nil dereference |
| Ec2InstanceDetail.VolumeRowShowsVolume | cmd/optimize/view/ec2_instance_detail.go:92-184 | highlighting an attached volume's row shows the rows of the last volume with its id |
| Ec2InstanceDetail.InstanceRowShowsInstance | cmd/optimize/view/ec2_instance_detail.go:26-173 | highlighting the instance's row shows its six rows when no volume shares its id |
| OptimizationDetailsView.ViewDaysLabel | view/view_optimization_details.go:117-122 | the loop yields the rendering of the last observation period set, or "7" when none is |
| OptimizationDetailsView.Select | view/view_optimization_details.go:192-197 | a new selection happens exactly when a row is highlighted and names another device, and it is that device |
| OptimizationDetailsView.SelectAgrees | view/view_optimization_details.go:192-193 | with a highlighted row the code as written selects as the corrected selection does, without a panic |
| OptimizationDetailsView.NoDevicesPanics | view/view_optimization_details.go:101-115 | an item without devices gets no device rows, so the code as written panics on the missing highlighted row while the corrected selection keeps the view as it is |
| OptimizationDetailsView.OptimizationDetailsView.constructor | view/view_optimization_details.go:84-156 | a new view shows a device row per device on one page, an empty details table with the usage-days header, every device's five-column properties and a help box of height 0 with the three help lines |
| OptimizationDetailsView.OptimizationDetailsView.SetHeight | view/view_optimization_details.go:208-221 | the help box gets the height the tables and description leave, so the view fits its height exactly when the help box fits its own |
| OptimizationDetailsView.OptimizationDetailsView.PressKey | view/view_optimization_details.go:168-184 | q quits; enter focuses the details table; esc and left unfocus it, or close the view when the devices have focus; nothing else changes |
| OptimizationDetailsView.OptimizationDetailsView.SelectDevice | view/view_optimization_details.go:192-197 | a newly highlighted device brings its property rows on one page and resizes the help box; otherwise nothing changes |
| OptimizationDetailsView.OptimizationDetailsView.Update | view/view_optimization_details.go:160-199 | q quits at once; a new width is kept; a newly highlighted device brings its property rows; after either the help box is resized; the device rows and properties never change |
| OptimizationDetailsPage.ShortDeviceRow | view/page_optimization_details.go:120-134 | a device row has one plain cell per device column |
| OptimizationDetailsPage.ShortDeviceRows | view/page_optimization_details.go:120-134 | one device row per device of the item, in order |
| OptimizationDetailsPage.ShortDeviceRowCells | view/page_optimization_details.go:104-134 | under each column's key a device row shows the id, type, runtime and formatted current cost; the right-sized cost and the saving only when a recommendation is shown, empty otherwise |
| OptimizationDetailsPage.HighlightNamesDevice | view/page_optimization_details.go:160-208 | the highlighted device row's key cell is that device's id, and the page holds that id's property rows: the header and one row per property of the last device with that id |
| OptimizationDetailsPage.FiveDetailColumns | view/page_optimization_details.go:136-148 | the details table has five columns, the third titled with the usage days |
| OptimizationDetailsPage.OptimizationDetailsPage.constructor | view/page_optimization_details.go:89-99 | a new page has no item, no properties, nothing selected and the device table focused |
| OptimizationDetailsPage.OptimizationDetailsPage.OnOpen | view/page_optimization_details.go:101-169 | opening shows the selected item: its device rows with a page per device, the details table empty with one row and the usage-days header, the five-column properties extracted, nothing selected and the devices focused |
| OptimizationDetailsPage.OptimizationDetailsPage.Press | view/page_optimization_details.go:183-197 | q quits; enter focuses the details table; esc and left give focus back to the devices; nothing else changes |
| OptimizationDetailsPage.OptimizationDetailsPage.SelectDevice | view/page_optimization_details.go:205-209 | a highlighted row naming another device selects it and brings its property rows, or none; otherwise nothing changes |
| OptimizationDetailsPage.OptimizationDetailsPage.Update | view/page_optimization_details.go:177-228 | q quits at once; otherwise the highlighted device is selected and the two tables split the height left by the description and status bar, each keeping at least one row; the device rows and properties never change |
| ResourceDetailsPage.NatToStringInjective | view/page_resource_details.go:19-25 | distinct cell positions get distinct keys |
| ResourceDetailsPage.TableRowKeys | view/page_resource_details.go:19-25 | a table row's only keys are the decimal positions of its cells |
| ResourceDetailsPage.TableRowCells | view/page_resource_details.go:19-25 | every cell is found under its own decimal position |
| ResourceDetailsPage.TableRows | view/page_resource_details.go:27-33 | one table row per row, in order |
| ResourceDetailsPage.TableRowsCells | view/page_resource_details.go:19-33 | the k-th cell of the i-th row is found under key k of the i-th table row |
| ResourceDetailsPage.CellAtPosition | view/page_resource_details.go:134-138 | the cell a column reads under its key is the row's cell at that position |
| ResourceDetailsPage.KeyCell | view/page_resource_details.go:57-59 | a property's name keeps its text and is bold exactly when it does not start with a space |
| ResourceDetailsPage.MarkChange | view/page_resource_details.go:70-79 | when the two compared cells differ they keep their texts and are marked as old and new value; when they are equal the row is unchanged; other cells never change |
| ResourceDetailsPage.PropertyRow | view/page_resource_details.go:56-66 | a property row has four cells |
| ResourceDetailsPage.PropertyRowMarks | view/page_resource_details.go:56-79 | a property row shows the name cell, the current value, the average and the recommended value; current and recommended are marked exactly when they differ |
| ResourceDetailsPage.FullPropertyRow | view/page_optimization_details.go:61-72 | a five-column property row has five cells |
| ResourceDetailsPage.FullPropertyRowMarks | view/page_optimization_details.go:61-85 | a five-column row shows the name (bold unless indented where names are bold), current, average, max and recommended value; current and recommended are marked exactly when they differ |
| ResourceDetailsPage.DeviceDetails | view/page_optimization_details.go:50-85 | a device's detail rows are one row per property in order; in the five-column layout they come under the header row naming Average and Max |
| ResourceDetailsPage.ExtractPropertiesKeys | view/page_resource_details.go:51-81 | there is an entry exactly for each device id |
| ResourceDetailsPage.ExtractPropertiesLast | view/page_resource_details.go:51-81 | a device id's entry holds the rows of the last device with that id |
| ResourceDetailsPage.ExtractPropertiesSize | view/page_resource_details.go:51-81 | with distinct device ids there is one entry per device |
| ResourceDetailsPage.PropertiesOf | view/page_resource_details.go:51-81 | the extraction loop yields each device id's property rows |
| ResourceDetailsPage.IfRecommendation | view/page_resource_details.go:98-103 | a recommendation is shown only for an item that is neither loading, skipped nor lazy, and is empty otherwise |
| ResourceDetailsPage.DeviceRow | view/page_resource_details.go:115-130 | a device row shows the device id, the item name, the type, the runtime and the current cost; the right-sized cost and the saving only for a ready item, empty otherwise |
| ResourceDetailsPage.DeviceRows | view/page_resource_details.go:115-130 | one device row per device of the item, in order |
| ResourceDetailsPage.TextWidthsRows | view/page_resource_details.go:134-143 | one trimmed cell width per row of the column |
| ResourceDetailsPage.FitWidthBounds | view/page_resource_details.go:132-146 | a fitted width is at least the title's and every trimmed cell's, and equals one of them |
| ResourceDetailsPage.Fitted | view/page_resource_details.go:132-146 | fitting a column keeps its key and title |
| ResourceDetailsPage.FitColumn | view/page_resource_details.go:133-145 | the width loop yields the fitted column |
| ResourceDetailsPage.FittedAll | view/page_resource_details.go:244-258 | one fitted column per column, in order |
| ResourceDetailsPage.FitColumns | view/page_resource_details.go:244-258 | the column loop yields every column fitted |
| ResourceDetailsPage.DeviceColumns | view/page_resource_details.go:105-113 | the device table starts with seven columns keyed by position, with their titles and no width |
| ResourceDetailsPage.DeviceTable | view/page_resource_details.go:115-146 | the device loops yield the fitted device table over the device rows |
| ResourceDetailsPage.DeviceColumnsFit | view/page_resource_details.go:132-146 | every device column is at least as wide as its title and as each device's trimmed cell |
| ResourceDetailsPage.LastPeriodNone | view/page_resource_details.go:148-153 | there is no observation period exactly when no preference sets one |
| ResourceDetailsPage.LastPeriodLast | view/page_resource_details.go:148-153 | the period is the value of the last preference that sets one |
| ResourceDetailsPage.DaysLabel | view/page_resource_details.go:148-153 | the loop yields the last observation period set, or "7" when none is |
| ResourceDetailsPage.DetailColumns | view/page_resource_details.go:154-159 | the details table has four columns, the third titled with the usage days |
| ResourceDetailsPage.SplitSteps | view/page_resource_details.go:263-272 | each step adds one line to one of the two tables, which start at seven lines each |
| ResourceDetailsPage.SplitStepsClosed | view/page_resource_details.go:266-272 | the device table grows every other step until it has a row per device, and then stops |
| ResourceDetailsPage.SplitHeights | view/page_resource_details.go:262-272 | the loop grows the tables one line at a time until the page is full |
| ResourceDetailsPage.SplitLayout | view/page_resource_details.go:262-274 | both tables keep at least one row, they fill the page exactly when it is tall enough, and they differ by at most a line until the device table shows every device |
| ResourceDetailsPage.LineCount | view/page_resource_details.go:262 | the description takes at least one line |
| ResourceDetailsPage.ResourceDetailsPage.constructor | view/page_resource_details.go:83-93 | a new page has the device table focused, nothing selected and no properties |
| ResourceDetailsPage.ResourceDetailsPage.OnOpen | view/page_resource_details.go:95-184 | opening shows the selected item: the fitted device table, the details table empty with the usage-days header, the property rows extracted, nothing selected and the devices focused |
| ResourceDetailsPage.ResourceDetailsPage.Press | view/page_resource_details.go:198-238 | q quits; enter focuses the details table and makes the application ignore esc; esc gives focus back to the devices and lets the application handle esc again |
| ResourceDetailsPage.ResourceDetailsPage.SelectDevice | view/page_resource_details.go:241-260 | a newly highlighted device brings its property rows, or none, with the detail columns fitted to them plus two; otherwise nothing changes |
| ResourceDetailsPage.ResourceDetailsPage.Update | view/page_resource_details.go:192-279 | q quits at once; otherwise the highlighted device is selected and the two tables split the height left by the description and status bar, each keeping at least one row |
| CustomResourceDetailsPage.ToTableRow | view/page_resource_details_plugin_custom.go:32-39 | a table row holds every cell of the row under its key plus the row id under the reserved key, which wins over a cell of the same name |
| CustomResourceDetailsPage.ToTableRows | view/page_resource_details_plugin_custom.go:19-25 | one table row per row, in order |
| CustomResourceDetailsPage.ToTableRowsIds | view/page_resource_details_plugin_custom.go:19-39 | every table row gives back, under the reserved key, the id of the row it was built from |
| CustomResourceDetailsPage.DeviceRowOf | view/page_resource_details_plugin_custom.go:128-139 | a device row carries the chart row's id and each value's text under its column id |
| CustomResourceDetailsPage.DeviceRowsOf | view/page_resource_details_plugin_custom.go:128-139 | one device row per device chart row of the item, in order |
| CustomResourceDetailsPage.DeviceColumnsOf | view/page_resource_details_plugin_custom.go:123-126 | the device table has one column per column of the chart definition, with its id, name and declared width |
| CustomResourceDetailsPage.UsageColumnShows | view/page_resource_details_plugin_custom.go:68-77 | the usage cell is empty exactly when both the average and the maximum are; it starts with the average and ends with the maximum when present, joined by the bar separator when both are |
| CustomResourceDetailsPage.CustomPropertyRow | view/page_resource_details_plugin_custom.go:64-84 | a property row has four cells |
| CustomResourceDetailsPage.CustomPropertyRowMarks | view/page_resource_details_plugin_custom.go:64-97 | a property row shows the key cell, the current value, the usage and the recommended value; the current and recommended cells are marked as a change exactly when they differ |
| CustomResourceDetailsPage.CustomDetails | view/page_resource_details_plugin_custom.go:62-85 | one property row per property of the device, in order |
| CustomResourceDetailsPage.ExtractCustomProperties | view/page_resource_details_plugin_custom.go:59-99 | there is an entry for exactly the devices the item has properties for |
| CustomResourceDetailsPage.ExtractCustomPropertiesRows | view/page_resource_details_plugin_custom.go:59-99 | each device's entry has one row per property, in order, with the property's texts and the change marked exactly when current and recommended differ |
| CustomResourceDetailsPage.CustomResourceDetailsPage.constructor | view/page_resource_details_plugin_custom.go:101-113 | a new page holds the chart definition, is not dirty, has no item, no properties, no selected device and the device table focused |
| CustomResourceDetailsPage.CustomResourceDetailsPage.SetChartDefinition | view/page_resource_details_plugin_custom.go:115-118 | a new chart definition is stored and marked to be applied; nothing else changes |
| CustomResourceDetailsPage.CustomResourceDetailsPage.OnOpen | view/page_resource_details_plugin_custom.go:120-178 | opening shows the selected item: the device table with the definition's columns and one row per device, all on one page; the details table empty with the usage-days header; the property rows extracted; nothing selected and the devices focused |
| CustomResourceDetailsPage.CustomResourceDetailsPage.RefreshColumns | view/page_resource_details_plugin_custom.go:187-194 | after a new chart definition the device table takes its columns; otherwise nothing changes |
| CustomResourceDetailsPage.CustomResourceDetailsPage.Press | view/page_resource_details_plugin_custom.go:201-235 | q quits; enter focuses the details table and makes the application ignore esc; esc gives focus back to the devices and lets the application handle esc again; other keys change neither |
| CustomResourceDetailsPage.CustomResourceDetailsPage.SelectDevice | view/page_resource_details_plugin_custom.go:244-248 | a highlighted row naming another device selects it and shows its property rows, or none when it has no properties; otherwise nothing changes |
| CustomResourceDetailsPage.CustomResourceDetailsPage.Update | view/page_resource_details_plugin_custom.go:186-267 | q quits at once; otherwise the columns are refreshed, the highlighted device selected, and the two tables split the height left by the description and status bar, each keeping at least one row |
| CustomResourceDetailsPage.HighlightSelects | view/page_resource_details_plugin_custom.go:128-167 | on an opened page, the i-th device row names the i-th device, which has property rows exactly when the plugin sent properties for it |
| CustomOverviewPage.NextSortable | view/page_overview_plugin_custom.go:256-271 | the column found is the first sortable column after the starting one, or -1 exactly when no later column is sortable |
| CustomOverviewPage.NextSort | view/page_overview_plugin_custom.go:252-274 | the sort state after s stays a column index or -1 |
| CustomOverviewPage.CycleSort | view/page_overview_plugin_custom.go:252-274 | the s loop gives the next sort state: an ascending sort on a column turns descending; otherwise the next sortable column ascending, or no sort past the last one; its check against the starting column never ends the loop early |
| CustomOverviewPage.NextSortableCounts | view/page_overview_plugin_custom.go:256-271 | no sortable column is found exactly when none remains after the start, and each one found leaves one fewer after it |
| CustomOverviewPage.Presses | view/page_overview_plugin_custom.go:252-274 | however many times s is pressed, the sort column stays a column index or -1 |
| CustomOverviewPage.SortRunsOut | view/page_overview_plugin_custom.go:252-274 | from a descending sort or none, two presses per remaining sortable column plus one clear the sort |
| CustomOverviewPage.SortCycle | view/page_overview_plugin_custom.go:252-274 | starting unsorted, s returns to no sort after two presses per sortable column plus one |
| CustomOverviewPage.SortColumnAsWritten | view/page_overview_plugin_custom.go:169-172 | as written the sort key is empty for every index up to 0, the column's id above 0, and a panic past the last column |
| CustomOverviewPage.SortColumn | view/page_overview_plugin_custom.go:169-172 | as intended the sort key is empty only without a sort, the column's id for every column from 0, and a panic past the last column |
| CustomOverviewPage.FirstColumnNeverSorts | view/page_overview_plugin_custom.go:169-172 | a sortable first column is chosen by the first press of s, yet as written its id is never used as the sort key |
| CustomOverviewPage.SortColumnsAgreeElsewhere | view/page_overview_plugin_custom.go:169-172 | the two sort keys agree for every index but 0 |
| CustomOverviewPage.RowOf | view/page_overview_plugin_custom.go:173-194 | a row carries the item's row id, one trimmed cell per value key, and the sort column's sort value, or none when the item has no value for that column |
| CustomOverviewPage.RowsOf | view/page_overview_plugin_custom.go:173-195 | one row per item, in store order |
| CustomOverviewPage.AnyTooWide | view/page_overview_plugin_custom.go:180-186 | the layout turns dirty exactly when some item has a value longer than its declared column width |
| CustomOverviewPage.BuildRows | view/page_overview_plugin_custom.go:173-195 | the row loop yields the items' rows and reports whether a value was too wide |
| CustomOverviewPage.NotAfterTransitive | view/page_overview_plugin_custom.go:196-209 | the row order is transitive, rows without a sort value going last |
| CustomOverviewPage.InsertRow | view/page_overview_plugin_custom.go:196-209 | placing a row into ordered rows keeps them ordered and adds exactly that row |
| CustomOverviewPage.SortRows | view/page_overview_plugin_custom.go:196-209 | the sorted rows are in order: by sort value in the chosen direction, rows without one last |
| CustomOverviewPage.SortRowsPermutes | view/page_overview_plugin_custom.go:196-209 | sorting keeps every row, each as often as before |
| CustomOverviewPage.SortedRowsLayout | view/page_overview_plugin_custom.go:196-209 | in sorted rows only rows without a sort value follow one without, and two valued rows follow the direction |
| CustomOverviewPage.DeclaredColumns | view/page_overview_plugin_custom.go:46-51 | the page starts with one column per declared column, with its id, name and width |
| CustomOverviewPage.HeaderName | view/page_overview_plugin_custom.go:143-150 | only the sort column's title changes, gaining " ↓" when descending and " ↑" when ascending |
| CustomOverviewPage.CellLengths | view/page_overview_plugin_custom.go:152-162 | one stripped cell length per row of the column |
| CustomOverviewPage.ColumnWidth | view/page_overview_plugin_custom.go:151-162 | a refitted width is at least the stripped header and every stripped cell of the column, and equals one of them |
| CustomOverviewPage.ColumnOf | view/page_overview_plugin_custom.go:141-163 | a refitted column keeps its id, takes the header with the sort arrow, and is as wide as its header and every cell |
| CustomOverviewPage.Columns | view/page_overview_plugin_custom.go:140-167 | one refitted column per declared column, in order |
| CustomOverviewPage.FitColumn | view/page_overview_plugin_custom.go:151-162 | the width loop yields the refitted width |
| CustomOverviewPage.RefitColumns | view/page_overview_plugin_custom.go:141-164 | the column loop yields the refitted columns |
| CustomOverviewPage.SummaryWidths | view/page_overview_plugin_custom.go:214-231 | a summary row with more cells than headers panics, and exactly then; otherwise each width covers its header and every stripped cell below it |
| CustomOverviewPage.PageSize | view/page_overview_plugin_custom.go:367-373 | the page keeps at least one row; the summary takes one line, or its rows plus four with a summary table, besides seven lines and the status bar |
| CustomOverviewPage.FirstReadyIndex | view/page_overview_plugin_custom.go:288-295 | the position found holds a ready item with the highlighted row id and no earlier item is one; the length when there is none |
| CustomOverviewPage.FirstReadyIsFirst | view/page_overview_plugin_custom.go:340-344 | the item opened is the first ready item with that row id, and none is opened exactly when no ready item has that id |
| CustomOverviewPage.LazyLoadsLoaded | view/page_overview_plugin_custom.go:305-324 | r and R send only lazy, non-skipped items, each marked loading and no longer lazy, at most one per item |
| CustomOverviewPage.LazyLoadsCover | view/page_overview_plugin_custom.go:305-324 | every lazy, non-skipped item in range is sent for loading |
| CustomOverviewPage.EnterStep | view/page_overview_plugin_custom.go:345-350 | one item gives at most one load |
| CustomOverviewPage.EnterMatchesSnoc | view/page_overview_plugin_custom.go:340-351 | one more item of the Enter loop appends exactly that item's load |
| CustomOverviewPage.EnterMatchesLoaded | view/page_overview_plugin_custom.go:345-350 | every load Enter sends has the highlighted row id and is marked loading and not lazy |
| CustomOverviewPage.EnterLoadsLoaded | view/page_overview_plugin_custom.go:334-351 | Enter loads only items with the highlighted row id, each marked loading and not lazy |
| CustomOverviewPage.EnterLoadsSkippedLazy | view/page_overview_plugin_custom.go:345 | a skipped lazy item that is not loading is loaded by Enter on this page, though r and R pass it over |
| CustomOverviewPage.ReEvalsOfAppend | view/page_overview_plugin_custom.go:311-312 | the re-evaluation requests for two lists of items are those for each, in order |
| CustomOverviewPage.SendLoaded | view/page_overview_plugin_custom.go:309-312 | the item at the position is marked loading in place in the store, sent back and its re-evaluation requested under its row id with its own preferences; the selection is untouched |
| CustomOverviewPage.LoadLazy | view/page_overview_plugin_custom.go:305-324 | each lazy, non-skipped item of the range is marked loading in place, sent back and re-evaluated, in order; every other item stays as it was |
| CustomOverviewPage.OpenPreferences | view/page_overview_plugin_custom.go:283-295 | p finds a ready item with the highlighted row id exactly when one exists, selects the first one and opens the preferences page; otherwise nothing changes |
| CustomOverviewPage.LoadIfLazy | view/page_overview_plugin_custom.go:345-350 | the item at the position, when it has the highlighted row id and is lazy and not loading, is loaded in place, sent back and re-evaluated; any other is left as it is |
| CustomOverviewPage.LoadBeforeReady | view/page_overview_plugin_custom.go:340-351 | the Enter loop stops at the first ready item with that row id, having loaded in place and sent the lazy items with that id before it |
| CustomOverviewPage.OpenDetails | view/page_overview_plugin_custom.go:334-351 | Enter loads in place and sends the lazy items with the highlighted row id before the first ready one, then selects it and opens the details page; with no ready item the selection and page stay |
| CustomOverviewPage.CustomOverviewPage.constructor | view/page_overview_plugin_custom.go:40-81 | a new page is unsorted, not dirty, with the filter box closed, the declared columns and no rows |
| CustomOverviewPage.CustomOverviewPage.SetChartDefinition | view/page_overview_plugin_custom.go:83-86 | a new chart definition is stored and marks the layout dirty; sort, rows and columns stay |
| CustomOverviewPage.CustomOverviewPage.CloseFilter | view/page_overview_plugin_custom.go:118-135 | with the filter box open, esc or enter close it and let the application handle esc again; any other message leaves it open |
| CustomOverviewPage.CustomOverviewPage.RefitIfDirty | view/page_overview_plugin_custom.go:140-167 | a dirty layout is refitted to the rows of the previous message and the dirty mark cleared; a clean one keeps its columns |
| CustomOverviewPage.CustomOverviewPage.TakeSummaryWidths | view/page_overview_plugin_custom.go:214-237 | with a summary table in the store its widths are taken, or its panic recorded; without one nothing changes |
| CustomOverviewPage.CustomOverviewPage.RebuildRows | view/page_overview_plugin_custom.go:168-212 | the rows are rebuilt from the store and sorted by the sort column, and the layout is marked dirty exactly when a value is too wide; a sort index past the columns panics instead |
| CustomOverviewPage.CustomOverviewPage.Press | view/page_overview_plugin_custom.go:240-352 | q quits; / opens the filter box and makes the application ignore esc; s steps the sort and marks the layout dirty; r, R and enter load lazy items in place and send them, and p, P and enter select and open as the selection rules say |
| CustomOverviewPage.CustomOverviewPage.PressOnItems | view/page_overview_plugin_custom.go:283-351 | R loads every lazy item of the store and r those in range, in place, and sends them; p and enter select the first ready item with the highlighted row id; enter also loads the lazy ones before it in place; P clears the selection and opens the preferences page |
| CustomOverviewPage.CustomOverviewPage.TableUpdate | view/page_overview_plugin_custom.go:136-375 | outside the filter box the page refits, rebuilds and acts on the key, then sets the page size from the height and the summary, unless q or a panic ended the update |
| CustomOverviewPage.CustomOverviewPage.Update | view/page_overview_plugin_custom.go:111-375 | with the filter box open only esc and enter act and rows and sort stay; otherwise the table update runs |
| CustomOverviewPage.ReloadTwice | view/page_overview_plugin_custom.go:305-324 | a second r or R on the same rows before the store is refreshed sends nothing, because the first changed the items in place; row ids, preferences and readiness are kept, so p and enter open the same item |
| CustomOverviewPage.EnterTwice | view/page_overview_plugin_custom.go:334-351 | a second enter on the same row before the store is refreshed sends nothing and opens the same item |
| CustomOverviewPage.SameReady | view/page_overview_plugin_custom.go:288-295 | two stores that agree on row ids and readiness, and on the ready items, open the same item for every id |
| CustomOverviewPage.LazyLoadsNone | view/page_overview_plugin_custom.go:305-324 | when no item is lazy and unskipped, r and R send nothing |
| CustomOverviewPage.EnterMatchesNone | view/page_overview_plugin_custom.go:345-350 | when no item with the row id is lazy and not loading, enter loads nothing |
| CustomOverviewPage.LoadAll | view/page_overview_plugin_custom.go:315-324 | R loads every lazy, non-skipped item of the store in place and sends each, in order, with its re-evaluation |
| OverviewPage.DevicesSavingAppend | view/page_overview.go:115-120 | the saving and the current cost over the devices of two lists are the sums over each |
| OverviewPage.DevicesSavingBounds | view/page_overview.go:115-120 | when every right-sized cost lies between zero and the current cost, the saving over the devices lies between zero and their current cost |
| OverviewPage.ItemTotals | view/page_overview.go:113-120 | an item that is loading, skipped or lazy contributes no saving and no cost; under the device cost condition a ready item's saving lies between zero and its cost |
| OverviewPage.StatusCell | view/page_overview.go:130-139 | the status label takes skipped first (with " - " and the reason exactly when the reason is non-empty), then lazy ("press enter to load"), then loading; only a ready item shows its saving text |
| OverviewPage.RowOf | view/page_overview.go:122-141 | a row has seven cells: id, name, resource type, region, platform, the status cell over the item's totals, and the arrow |
| OverviewPage.RowsOf | view/page_overview.go:111-142 | one row per item of the store, in store order |
| OverviewPage.Width | view/page_overview.go:143-160 | the arrow column is 1 wide; every other column is two more than its title and than every stripped cell in it, and equals two more than the title or than one of the cells |
| OverviewPage.Widths | view/page_overview.go:143-160 | the widths list holds one width per column, each the column's fitted width |
| OverviewPage.NextSort | view/page_overview.go:221-229 | s turns a descending sort ascending on the same column, and otherwise sorts the next of the six sortable columns descending, wrapping round |
| OverviewPage.SortPresses | view/page_overview.go:221-229 | however many times s is pressed, the sort column stays among the six sortable columns |
| OverviewPage.NextColumn | view/page_overview.go:226 | stepping to the next column with wrap-round is adding one modulo six |
| OverviewPage.OnePress | view/page_overview.go:221-229 | from an ascending sort one press sorts the next column descending |
| OverviewPage.SortPressesPairs | view/page_overview.go:221-229 | from an ascending sort every two presses move to the next column, ascending again |
| OverviewPage.SortCycle | view/page_overview.go:221-229 | twelve presses come back to the starting column and direction, sorting every sortable column both ways on the way |
| OverviewPage.SortedTitles | view/page_overview.go:231-243 | only the sort column's title changes, gaining " ↓" when descending and " ↑" when ascending |
| OverviewPage.FirstReadyIndex | view/page_overview.go:186-193 | the position found holds a ready item with the highlighted id and no earlier item is one; the length when there is none |
| OverviewPage.FirstReadyIsFirst | view/page_overview.go:262-266 | the item opened is the first ready item with that id, and none is opened exactly when no ready item has that id |
| OverviewPage.LazyLoadsLoaded | view/page_overview.go:201-220 | r and R send only lazy, non-skipped items, each marked loading and no longer lazy, at most one per item |
| OverviewPage.LazyLoadsCover | view/page_overview.go:201-220 | every lazy, non-skipped item in range is sent for loading |
| OverviewPage.LazyStep | view/page_overview.go:267-272 | one item gives at most one load |
| OverviewPage.LazyMatchesLoaded | view/page_overview.go:267-272 | every load Enter sends has the highlighted id and is marked loading, not lazy and not skipped |
| OverviewPage.EnterLoadsLoaded | view/page_overview.go:256-273 | Enter loads only lazy, non-skipped items with the highlighted id, each marked loading, at most one per item |
| OverviewPage.LazyMatchesNone | view/page_overview.go:267-272 | with no item of that id nothing is loaded |
| OverviewPage.LazyMatchesSingle | view/page_overview.go:267-272 | with one item of that id, it alone is loaded, and only when it is lazy and not skipped |
| OverviewPage.EnterOnUnique | view/page_overview.go:256-273 | with one item of that id, Enter loads it when it is lazy, opens it when it is ready, and does neither when it is skipped |
| OverviewPage.NoneWithId | view/page_overview.go:256-273 | with no item of that id, Enter neither loads nor opens anything |
| OverviewPage.ReEvalsOfAppend | view/page_overview.go:207-208 | the re-evaluation requests for two lists of items are those for each, in order |
| OverviewPage.SendLoaded | view/page_overview.go:205-208 | the item at the position is marked loading in place in the store, sent back and its re-evaluation requested with its own preferences; the selection is untouched |
| OverviewPage.LoadIfLazy | view/page_overview.go:267-272 | the item at the position, when it has the highlighted id and is lazy and not skipped, is loaded in place, sent back and re-evaluated; any other item is left as it is and nothing is sent |
| OverviewPage.LoadLazy | view/page_overview.go:212-220 | each lazy, non-skipped item of the range is marked loading in place, sent back and re-evaluated, in order; items outside the range and other items stay as they were |
| OverviewPage.OverviewPage.constructor | view/page_overview.go:34-67 | a new page has the column titles at their starting widths, no rows, ten rows a page, sorting on the first column ascending and the filter box closed |
| OverviewPage.OverviewPage.Rebuild | view/page_overview.go:111-163 | the rows are rebuilt from the store's items with the plain titles and the columns fitted to the rows; nothing else changes |
| OverviewPage.OverviewPage.Sort | view/page_overview.go:221-243 | the sort steps to its next state and only the sort column's title shows the direction, over the starting widths |
| OverviewPage.OverviewPage.CloseFilter | view/page_overview.go:95-109 | with the filter box open, esc or enter close it and let the application handle esc again; any other message leaves it open |
| OverviewPage.OverviewPage.Press | view/page_overview.go:167-274 | q quits; / opens the filter box and makes the application ignore esc; s steps the sort; R and r load every lazy item of the store or of the visible range in place and send them; p and enter select the first ready item with the highlighted id, enter also loading the lazy ones before it in place; P clears the selection and opens the preferences page; rows and page size are untouched |
| OverviewPage.OverviewPage.TableUpdate | view/page_overview.go:111-292 | the rows are rebuilt from the items before the key acts, the columns fitted unless the key sorted, and the page size becomes the height less eight and the status bar's height, except after q |
| OverviewPage.OverviewPage.Update | view/page_overview.go:92-292 | with the filter box open only esc and enter act and the rows stay; otherwise the rows are rebuilt from the store, q quits, and the page size follows the height |
| OverviewPage.BuildRows | view/page_overview.go:111-142 | the row loop yields one row per item in store order |
| OverviewPage.FitWidths | view/page_overview.go:143-160 | the width loop yields each column's fitted width |
| OverviewPage.SortTitles | view/page_overview.go:231-243 | the title loop yields the titles with the direction arrow on the sort column |
| OverviewPage.OpenPreferences | view/page_overview.go:181-193 | p finds a ready item with the highlighted id exactly when one exists, selects the first one and opens the preferences page; otherwise nothing changes |
| OverviewPage.LoadBeforeReady | view/page_overview.go:262-273 | the Enter loop stops at the first ready item with that id, having loaded in place and sent every lazy item with that id before it |
| OverviewPage.OpenDetails | view/page_overview.go:256-273 | Enter loads in place and sends the lazy items with the highlighted id before the first ready one, then selects that one and opens the details page; with no ready item the selection and page stay |
| OverviewPage.ReloadTwice | view/page_overview.go:201-220 | a second r or R on the same rows before the store is refreshed sends nothing, because the first changed the items in place; ids, preferences and readiness are kept, so p and enter open the same item |
| OverviewPage.EnterTwice | view/page_overview.go:256-273 | a second enter on the same row before the store is refreshed sends nothing and opens the same item |
| OverviewPage.SameReady | view/page_overview.go:186-193 | two stores that agree on ids and readiness, and on the ready items, open the same item for every id |
| OverviewPage.LazyLoadsNone | view/page_overview.go:201-220 | when no item is lazy and unskipped, r and R send nothing |
| OverviewPage.LazyMatchesNoLazy | view/page_overview.go:267-272 | when no item with the id is lazy and unskipped, enter loads nothing |
| OverviewPage.LoadAll | view/page_overview.go:211-219 | R loads every lazy, non-skipped item of the store in place and sends each, in order, with its re-evaluation |
| OverviewPage.OverviewPage.PressOnItems | view/page_overview.go:183-273 | R and r load the lazy items of the store or of the range in place and send them; p and enter select the first ready item with the highlighted id, enter after loading the lazy ones before it in place; P clears the selection and opens the preferences page |
| OptimizationsController.Upsert | controller/optimization.go:52-73 | after an incoming item, every slot whose key matches holds the new item and every other slot is unchanged; with no matching slot the item is appended |
| OptimizationsController.UpsertGrowsByAtMostOne | controller/optimization.go:52-73 | the store grows by at most one slot and always contains the new item |
| OptimizationsController.UpsertIdempotent | controller/optimization.go:52-73 | receiving the same item twice leaves the store as receiving it once |
| OptimizationsController.UpsertKeys | controller/optimization.go:52-73 | a key is in the store afterwards exactly when it was before or is the new item's key |
| OptimizationsController.Optimizations.constructor | controller/optimization.go:25-37 | a new store has no items, no summary, no table and no selection, and is initializing |
| OptimizationsController.Optimizations.ReceiveItem | controller/optimization.go:47-75 | taking the next queued item ends the initialization and upserts the item by key; the summaries, the selection and the requests are untouched |
| OptimizationsController.Optimizations.ReceiveSummary | controller/optimization.go:88-91 | taking a queued summary makes it the current summary and changes nothing else |
| OptimizationsController.Optimizations.ReceiveSummaryTable | controller/optimization.go:93-96 | taking a queued summary table makes it the current table and changes nothing else |
| OptimizationsController.Optimizations.SendItem | controller/optimization.go:101-103 | sending an item only queues it |
| OptimizationsController.Optimizations.SetResultSummary | controller/optimization.go:133-135 | sending a summary only queues it |
| OptimizationsController.Optimizations.SetResultSummaryTable | controller/optimization.go:137-139 | sending a summary table only queues it |
| OptimizationsController.Optimizations.ReEvaluate | controller/optimization.go:121-123 | a re-evaluation request is passed on unchanged, and nothing else changes |
| OptimizationsController.Optimizations.SelectItem | controller/optimization.go:113-119 | the selection becomes the given item, or none, and is what the selection getter then returns |
| OptimizationsController.Optimizations.SetInitialization | controller/optimization.go:129-131 | the initializing flag becomes the given value and nothing else changes |
| OptimizationsController.SendThenReceive | controller/optimization.go:149-172 | an item sent and taken leaves the store upserted, and once no summary is queued the store is no longer processing |
| OptimizationsController.SummariesThenReceive | controller/optimization.go:141-147 | a summary and a table sent and taken are what the getters return, the items untouched; with no item queued and initialization over, the store is idle |
| OptimizationPage.ReadyTotalsAgree | view/page_optimization.go:78-86 | when every item is ready (not loading, skipped or lazy), the savings shown in the rows add up to the header's savings over every device |
| OptimizationPage.RowSavingBounded | view/page_optimization.go:203-210 | when no device's right-sized cost exceeds its current cost and none is negative, the rows' savings are at most the header's savings, which are at most the header's runtime cost |
| OptimizationPage.OptimizationPage.constructor | view/page_optimization.go:25-53 | a new page holds the store and application it is given, pages ten rows and has no rows yet |
| OptimizationPage.OptimizationPage.Press | view/page_optimization.go:115-180 | q quits; p selects the first ready item with the highlighted id and then clears the screen; P clears the selection and opens the preferences page; r loads in place and queues every lazy, not skipped item of the visible slice; enter selects the first ready item with that id after loading the lazy ones before it in place; with an empty table none of p, P or enter does anything, and the store is otherwise unchanged |
| OptimizationPage.OptimizationPage.Update | view/page_optimization.go:76-195 | the rows are rebuilt from the store's items before the key acts; q quits before anything else; otherwise the page size becomes the height less seven and the status bar's height; a message other than a key changes neither the store, the selection nor the page |
| OptimizationsView.SavingCell | view/view_optimizations.go:110-131 | the saving cell reads "loading" for a loading item; for a skipped one "skipped", followed by " - " and the reason exactly when the reason is non-empty; otherwise the formatted saving over the item's devices |
| OptimizationsView.RowOf | view/view_optimizations.go:117-133 | a row has one cell per column: id, name, resource type, region, platform, the saving cell and the arrow |
| OptimizationsView.BuildRows | view/view_optimizations.go:108-135 | the rows are the items' rows, one per item in item order |
| OptimizationsView.Drain | view/view_optimizations.go:92-142 | every queued item replaces the first item with its id or is appended, in arrival order; the rows are rebuilt from the final items when anything was queued and left as they were otherwise |
| OptimizationsView.FirstOpenable | view/view_optimizations.go:196-205 | the index found holds an item with the highlighted id that is neither skipped nor loading, and no earlier item is such an item; the length when none is |
| OptimizationsView.FindOpenable | view/view_optimizations.go:196-205 | the search loop stops at the first item with the highlighted id that is neither skipped nor loading |
| OptimizationsView.FirstOpenableUnique | view/view_optimizations.go:196-205 | any index with that property is the one found: the first openable item is unique |
| OptimizationsView.Reloaded | view/view_optimizations.go:157-160 | the item the editor sends back keeps its id, carries the new preferences and is loading |
| OptimizationsView.ReloadedAll | view/view_optimizations.go:178-183 | for P, every item is sent back reloaded with the same preferences, in store order |
| OptimizationsView.ReEvaluations | view/view_optimizations.go:178-183 | for P, one re-evaluation request per item, its id with the new preferences, in store order |
| OptimizationsView.ReloadAllThenTick | view/view_optimizations.go:92-106 | after the P editor closes, the list already holds every item reloaded in place, and the tick that delivers the queued copies, in a store without repeated ids, leaves it so; delivered to the items as they were before, the copies give the same list |
| OptimizationsView.ListLayoutBounds | view/view_optimizations.go:250-300 | with at least 8 lines the table keeps between 8 and 30 lines, the help box at most its maximum, and together they fit the height; below 8 lines the starting split is kept |
| OptimizationsView.OptimizationsView.constructor | view/view_optimizations.go:33-63 | a new list is empty, pages ten rows, has no editor or details open, holds its help lines and no re-evaluations |
| OptimizationsView.OptimizationsView.SendItem | view/view_optimizations.go:246-248 | sending an item only queues it |
| OptimizationsView.OptimizationsView.Tick | view/view_optimizations.go:91-143 | a tick drains the queue into the items by id and rebuilds the rows when anything arrived; nothing else changes |
| OptimizationsView.OptimizationsView.UpdateResponsive | view/view_optimizations.go:250-300 | with an editor or details view open the table takes the whole height; otherwise table and help take the greedy split; the page size is always the table height less seven |
| OptimizationsView.OptimizationsView.SetHeight | view/view_optimizations.go:302-305 | setting the height stores it and lays the list out again for it |
| OptimizationsView.OptimizationsView.Press | view/view_optimizations.go:145-208 | q quits; with rows shown, p opens the editor for the first item with the highlighted id, P the editor for all items, enter or right the details of the first openable item with that id; with no match or no rows the open view stays; items, queue and rows are untouched |
| OptimizationsView.OptimizationsView.ClosePreferences | view/view_optimizations.go:156-186 | closing the editor queues the one item, or for P every item, reloaded with the new preferences and requests its re-evaluation; for P the list's own items are reloaded in place; the editor closes, the screen is cleared once and the height re-split |
| OptimizationsView.OptimizationsView.CloseDetails | view/view_optimizations.go:198-201 | closing the details view closes it and lays the list out again |
| OptimizationsView.OptimizationsView.View | view/view_optimizations.go:219-244 | a pending clear gives one empty frame and is reset; an open view is shown as is; otherwise the total runtime cost and savings over every device of every item, the table and the help box |
| OptimizationsView.OptimizationsView.Update | view/view_optimizations.go:71-217 | a resize always records the width; with a view open the list is unchanged; otherwise a tick drains the queue and rebuilds the rows, a resize re-splits the height, and q quits |
| OptimizationsView.ReloadEach | view/view_optimizations.go:178-183 | the P callback's loop yields every item reloaded with the new preferences, and one re-evaluation request per item, in order |
| OptimizeOptimizationsView.SavingBounds | cmd/optimize/view/view_optimizations.go:146-151 | when no device's right-sized cost exceeds its current cost and none is negative, an item's saving lies between zero and its current cost |
| OptimizeOptimizationsView.AllSavingBounds | cmd/optimize/view/view_optimizations.go:279-286 | under the same condition on every device, the header's total savings lie between zero and the total runtime cost |
| OptimizeOptimizationsView.SavingCell | cmd/optimize/view/view_optimizations.go:146-168 | the saving cell reads "loading" for a loading item, "skipped" (with " - " and the reason when a reason is present) for a skipped one, and the formatted device saving otherwise |
| OptimizeOptimizationsView.RowOf | cmd/optimize/view/view_optimizations.go:153-170 | a row has seven cells: id, name, resource type, region, platform, the saving cell and the arrow |
| OptimizeOptimizationsView.BuildRows | cmd/optimize/view/view_optimizations.go:144-171 | the rows are the items' rows, one per item in item order |
| OptimizeOptimizationsView.Drain | cmd/optimize/view/view_optimizations.go:128-179 | every queued item replaces the first item with its id or is appended, in queue order; the rows are rebuilt from the final items when anything was queued |
| OptimizeOptimizationsView.EvaluatorOf | cmd/optimize/view/view_optimizations.go:200-205 | re-evaluation goes to the EC2 processor exactly for "EC2 Instance" items and to the RDS processor exactly for "RDS Instance" items |
| OptimizeOptimizationsView.Reloaded | cmd/optimize/view/view_optimizations.go:194-195 | an item sent for re-evaluation keeps its id and type, takes the new preferences and is loading |
| OptimizeOptimizationsView.ReloadedAll | cmd/optimize/view/view_optimizations.go:220-223 | every item is reloaded with the new preferences, in order |
| OptimizeOptimizationsView.RequestsForExactly | cmd/optimize/view/view_optimizations.go:220-231 | a processor receives a request for an id exactly when some item with that id has that processor's resource type, and at most one request per item |
| OptimizeOptimizationsView.RequestsCarryPrefs | cmd/optimize/view/view_optimizations.go:225-230 | every re-evaluation request carries the preferences just chosen |
| OptimizeOptimizationsView.ReloadAllThenTick | cmd/optimize/view/view_optimizations.go:128-142 | after the P editor closes, the list already holds every item reloaded in place, and the tick that delivers the queued copies, in a store without repeated ids, leaves it so; delivered to the items as they were before, the copies give the same list |
| OptimizeOptimizationsView.Dispatch | cmd/optimize/view/view_optimizations.go:200-205 | one item's request is appended to the EC2 list, to the RDS list or to neither, by its type |
| OptimizeOptimizationsView.Reevaluate | cmd/optimize/view/view_optimizations.go:220-231 | every item concerned is queued reloaded, and the EC2 and RDS request lists grow by exactly the requests for those items |
| OptimizeOptimizationsView.OptimizeOptimizationsView.constructor | cmd/optimize/view/view_optimizations.go:68-98 | a new list is empty, pages ten rows, has no sub-view, holds the list's help lines and has no pending re-evaluations |
| OptimizeOptimizationsView.OptimizeOptimizationsView.SendItem | cmd/optimize/view/view_optimizations.go:294-296 | sending an item only queues it |
| OptimizeOptimizationsView.OptimizeOptimizationsView.Tick | cmd/optimize/view/view_optimizations.go:127-179 | a tick drains the queue into the items by id and rebuilds the rows when anything arrived; nothing else changes |
| OptimizeOptimizationsView.OptimizeOptimizationsView.UpdateResponsive | cmd/optimize/view/view_optimizations.go:298-348 | with a sub-view open, the table and sub-view take the whole height; otherwise table and help take the greedy split; the page size is the table height less seven |
| OptimizeOptimizationsView.OptimizeOptimizationsView.SetHeight | cmd/optimize/view/view_optimizations.go:350-353 | setting the height stores it and lays the view out again for it |
| OptimizeOptimizationsView.OptimizeOptimizationsView.Press | cmd/optimize/view/view_optimizations.go:181-256 | q quits; with rows shown, p opens the editor for the first item with the highlighted id, P the editor for all items, enter or right the details of that first item; otherwise the sub-view stays; items and queue are untouched |
| OptimizeOptimizationsView.OptimizeOptimizationsView.ClosePreferences | cmd/optimize/view/view_optimizations.go:193-208 | closing the editor queues each item concerned (one item, or all for P) reloaded and sends each to its processor; for P the list's own items are reloaded in place; it clears the screen, closes the sub-view and re-lays out |
| OptimizeOptimizationsView.OptimizeOptimizationsView.CloseDetails | cmd/optimize/view/view_optimizations.go:246-249 | closing the details closes the sub-view and lays the list out again |
| OptimizeOptimizationsView.OptimizeOptimizationsView.View | cmd/optimize/view/view_optimizations.go:267-292 | a pending clear gives one empty frame and is reset; an open sub-view is shown as is; otherwise the total runtime cost and savings over every device, the table and the help |
| OptimizeOptimizationsView.OptimizeOptimizationsView.Update | cmd/optimize/view/view_optimizations.go:107-265 | a resize always stores the width; with a sub-view open nothing of the list changes; otherwise a tick drains the queue and q quits |
| OptimizeApp.NewItem | cmd/optimize/view/app.go:289-295 | the item for an eligible instance carries the instance and its region, is loading, has no volumes or answer yet and holds the default preferences |
| OptimizeApp.Pick | cmd/optimize/view/app.go:272-299 | an instance that is running, not spot and not in an auto-scaling group gives one loading item; any other gives none |
| OptimizeApp.RegionItemsStep | cmd/optimize/view/app.go:271-299 | one more instance of the listing appends exactly what that instance gives |
| OptimizeApp.RegionItemsShape | cmd/optimize/view/app.go:271-299 | every item sent is a loading item with default preferences for an eligible instance, and there is at most one per instance |
| OptimizeApp.RegionItemsExactly | cmd/optimize/view/app.go:271-299 | an instance has an item exactly when it is on the listed pages and eligible |
| OptimizeApp.RegionItemsLast | cmd/optimize/view/app.go:271-299 | the items keep the listing order: those of earlier instances come first, then the last instance's when it is eligible |
| OptimizeApp.RegionItemsHas | cmd/optimize/view/app.go:271-299 | every eligible listed instance has an item |
| OptimizeApp.RegionItemsOnly | cmd/optimize/view/app.go:271-299 | every item belongs to an eligible listed instance |
| OptimizeApp.RegionJob | cmd/optimize/view/app.go:256-261 | the region job's id is "region_ec2_instances_" followed by the region, with the given failure message and done flag |
| OptimizeApp.Evaluated | cmd/optimize/view/app.go:231-244 | the item sent back is no longer loading and keeps its instance and preferences; an answer without a current instance type changes nothing else, any other answer brings the volumes, the region and the answer |
| OptimizeApp.OptimizeApp.constructor | cmd/optimize/view/app.go:53-68 | a new application has no jobs, no error, empty queues, an empty list and an empty jobs panel |
| OptimizeApp.OptimizeApp.ReceiveJob | cmd/optimize/view/app.go:149-161 | a job report moves the running and failed maps by one job step and leaves the error and the other queues alone |
| OptimizeApp.OptimizeApp.ReceiveError | cmd/optimize/view/app.go:163-164 | an error replaces the status error with "Failed due to" and the error, leaving the jobs alone |
| OptimizeApp.OptimizeApp.ProcessRegion | cmd/optimize/view/app.go:247-301 | the region job is reported running, then every eligible instance's item goes both to the list and to the evaluation queue in listing order, then the job is reported done with the page error if any; nothing else changes |
| OptimizeApp.OptimizeApp.CheckResponsiveFits | cmd/optimize/view/app.go:572-574 | the check holds exactly when the list and jobs heights fit the window and each part is at least its minimum |
| OptimizeApp.OptimizeApp.UpdateResponsive | cmd/optimize/view/app.go:576-611 | the heights are the greedy split of the window: both start at their minimums and grow in the fixed order while they fit; the result fits whenever the minimums did; items, queue and jobs are unchanged |
| OptimizeApp.OptimizeApp.RefreshJobs | cmd/optimize/view/app.go:89-92 | the jobs panel shows at most three running and three failed jobs, each flagged when more exist |
| OptimizeApp.OptimizeApp.Update | cmd/optimize/view/app.go:76-96 | ctrl+c quits without reaching the list, a resize stores the size, any other message refreshes the jobs panel; the job maps and error are untouched |
| OptimizeApp.OptimizeApp.View | cmd/optimize/view/app.go:130-144 | when the application does not fit, the "cannot be rendered" message; otherwise some list text followed by the jobs panel and the wrapped status error line |
| OptimizeViewApp.App.constructor | cmd/optimize/view/view_app.go:16-22 | the app holds the list and the jobs panel, sizes zero |
| OptimizeViewApp.App.CheckResponsiveFits | cmd/optimize/view/view_app.go:58-60 | the check holds exactly when the two heights fit the window and each part is at least its minimum |
| OptimizeViewApp.App.UpdateResponsive | cmd/optimize/view/view_app.go:62-93 | both parts start at their minimum heights; when those fit, the list grows to its preferred height, then the jobs panel to its maximum, then the list to its maximum, each stopping at the first line that does not fit; the result fits whenever the start did, and nothing but the heights changes |
| OptimizeViewApp.App.Update | cmd/optimize/view/view_app.go:29-45 | a resize stores the size and re-splits the height, Ctrl+C quits without the list seeing it, and every other message goes on to the list |
| OptimizeViewApp.App.View | cmd/optimize/view/view_app.go:47-56 | when the parts do not fit, the height is split again and the "cannot be rendered" message is shown; otherwise the list's text followed by the jobs panel, heights unchanged |
| App.ChangedPage | view/app.go:79-98 | changing page pushes the current page on the history, closes it, opens and sizes the new one, and keeps the size and the Esc flag; valid pages stay valid |
| App.EscPressed | view/app.go:134-155 | Esc pops the last page of the history and reopens it, unless Esc is ignored or the history is empty, when nothing changes |
| App.Resized | view/app.go:109-124 | the window size is stored with the height raised to at least 20, and the active page is sized with it |
| App.Step | view/app.go:105-168 | one message keeps every page index valid and never changes the Esc flag |
| App.EscUndoesChangePage | view/app.go:79-155 | changing page and pressing Esc comes back to the same page with the same history |
| App.CtrlJOpensJobs | view/app.go:132-133 | Ctrl+J opens the jobs page from any page but the contact page, remembering where it came from |
| App.ContactUsKeepsKeys | view/app.go:126-165 | on the contact page every key, Ctrl+C, Ctrl+J and Esc included, only reaches the page |
| App.EscIgnored | view/app.go:134-135 | while Esc is ignored, or with nothing to go back to, Esc only reaches the active page |
| App.CtrlCQuits | view/app.go:130-131 | Ctrl+C quits without the page seeing the key, except on the contact page |
| App.ResizeDeliversOriginal | view/app.go:109-161 | the raised height is stored and used to size the page, but the final delivery at line 161 hands the page the message as it arrived, since the raise was made on the type switch's copy |
| App.App.constructor | view/app.go:39-57 | a new app has the overview page active and an empty history |
| App.App.ChangePage | view/app.go:79-98 | the app's state becomes `ChangedPage` |
| App.App.Init | view/app.go:100-103 | the overview page is opened through `ChangePage`, so the starting page is pushed on the history |
| App.App.SetIgnoreEsc | view/app.go:174-176 | only the Esc flag changes |
| App.App.Update | view/app.go:105-168 | the app's state becomes `Step` of the message |
| OptimizeJobsView.LineSplit | cmd/optimize/view/jobs.go:48-76 | the budget is split so that the two counts together are the smaller of the height and all lines there are, neither list getting more lines than it has (plus its "..." line) |
| OptimizeJobsView.LineSplitPriorities | cmd/optimize/view/jobs.go:59-76 | a running job gets the first line; a further running job comes only once every failure is shown; a "..." line only once every real entry of both lists is shown |
| OptimizeJobsView.LineSplitStep | cmd/optimize/view/jobs.go:59-76 | one more line of budget goes to the first list, in priority order, that still has room |
| OptimizeJobsView.FillIsLineSplit | cmd/optimize/view/jobs.go:59-76 | the loop's pass-by-pass counts agree with the reference split |
| OptimizeJobsView.Titled | cmd/optimize/view/jobs.go:80-90 | one line per entry, the first with the list's title and the others indented |
| OptimizeJobsView.SectionFits | cmd/optimize/view/jobs.go:78-110 | a list takes no more lines than its budget |
| OptimizeJobsView.JobsView.constructor | cmd/optimize/view/jobs.go:9-17 | a panel holds its lists, height and width zero |
| OptimizeJobsView.JobsView.SetHeight | cmd/optimize/view/jobs.go:23-25 | the height is stored and nothing else changes |
| OptimizeJobsView.JobsView.SetWidth | cmd/optimize/view/jobs.go:19-21 | the width is stored and nothing else changes |
| OptimizeJobsView.JobsView.Budget | cmd/optimize/view/jobs.go:48-76 | the budget loop computes `LineSplit` of the height (0 when negative) |
| OptimizeJobsView.JobsView.Lines | cmd/optimize/view/jobs.go:78-110 | the running section, then the failures, each rendered within its share of the budget |
| OptimizeJobsView.JobsView.String | cmd/optimize/view/jobs.go:47-113 | the two sections' lines joined with line breaks |
| OptimizeJobsView.FillSaturated | cmd/optimize/view/jobs.go:59-76 | once a pass changes nothing, no later pass does, so the loop's break loses nothing |
| OptimizeJobsView.SectionLines | cmd/optimize/view/jobs.go:79-110 | a titled line per entry while the budget lasts, then "..." if budget is left and more entries exist |
| OptimizeJobsView.PanelBound | cmd/optimize/view/jobs.go:31-113 | the panel never shows more lines than its line budget |
| OptimizeJobsView.PanelShowsAll | cmd/optimize/view/jobs.go:31-113 | a budget of at least `MaxHeight` shows every running job in order, its "..." line when more exist, then every failure in order and its "..." line |
| ResponsiveView.Clamp | view/responsive/responsive_view.go:67-68 | `max(min(x, hi), lo)` is at least `lo`, lies in [lo, hi] when lo ≤ hi, leaves a value already in range alone, and is `lo` when the bounds cross |
| ResponsiveView.NormMax | view/responsive/responsive_view.go:60-65 | a zero maximum counts as 9999, any other is kept |
| ResponsiveView.LeafSetSize | view/responsive/responsive_view.go:59-72 | a view without children normalises its maxima and clamps its width and height into its bounds, keeping its minima |
| ResponsiveView.TotalUpdate | view/responsive/responsive_view.go:74-88 | replacing one child changes the children's summed size by the difference |
| ResponsiveView.TotalAgree | view/responsive/responsive_view.go:74-88 | the summed size depends only on each child's size along that axis |
| ResponsiveView.TotalAtLeast | view/responsive/responsive_view.go:74-88 | children each at least `lo` sum to at least count·lo |
| ResponsiveView.LevelAgree | view/responsive/responsive_view.go:97-131 | the round-robin level depends on the starting children only through their bounds along the axis |
| ResponsiveView.GrownBounds | view/responsive/responsive_view.go:97-131 | after a growth pass each child lies between its minimum and (unless the minimum is larger) its maximum: growth never pushes a child past its max |
| ResponsiveView.GrownAgree | view/responsive/responsive_view.go:115-131 | the width pass's guarantee survives the height pass, which changes no width |
| ResponsiveView.StreakCoversAll | view/responsive/responsive_view.go:106-110 | skips counted up to the number of children mean every child is at its maximum |
| ResponsiveView.GrowStep | view/responsive/responsive_view.go:100-105 | growing a child below its maximum by one unit keeps every child in bounds, adds one to the sum and moves the round-robin level one visit on |
| ResponsiveView.LevelRises | view/responsive/responsive_view.go:100-112 | one more unit for the child visited moves the level one visit on |
| ResponsiveView.SkipStep | view/responsive/responsive_view.go:106-112 | skipping a child at its maximum extends the skip streak and keeps the level |
| ResponsiveView.Reset | view/responsive/responsive_view.go:90-95 | every child is first resized to its own minimum size |
| ResponsiveView.ResetAtMinimum | view/responsive/responsive_view.go:90-95 | after the reset every child sits at its minimum on both axes |
| ResponsiveView.StepUpGrows | view/responsive/responsive_view.go:101-104 | a settled child below its maximum grows by exactly one unit and stays settled |
| ResponsiveView.GrowDone | view/responsive/responsive_view.go:99-113 | the loop's state at exit gives the pass's guarantee |
| ResponsiveView.Grow | view/responsive/responsive_view.go:97-131 | a growth pass terminates with the children's sizes filling the budget unless every child is at its maximum, never above the budget, and spread evenly round-robin from the first child, each clamped to its bounds; nothing but that axis changes |
| ResponsiveView.Distribute | view/responsive/responsive_view.go:90-131 | the reset, then the width pass up to the width and the height pass up to the height, leave every child responsive and changed only in its size |
| ResponsiveView.BothPasses | view/responsive/responsive_view.go:97-131 | chaining the width pass and the height pass keeps both guarantees |
| ResponsiveView.View.constructor | view/responsive/responsive_view.go:19-23 | a view holds its bounds and children, sizes zero |
| ResponsiveView.View.SetSizeBound | view/responsive/responsive_view.go:31-36 | the four bounds are stored and nothing else changes |
| ResponsiveView.View.IsResponsive | view/responsive/responsive_view.go:50-57 | responsive exactly when every child is and the view is at least its minimum height and width |
| ResponsiveView.View.SetSize | view/responsive/responsive_view.go:59-133 | the returned view has the normalised maxima and the clamped size; with no children nothing else changes, otherwise the shared children are reset and grown along each axis; the result is responsive |
| ResponsiveView.TotalOfTwo | view/responsive/responsive_view.go:74-88 | two children sum to their two sizes |
| ResponsiveView.SizeTwoChildren | view/responsive/responsive_view_test.go:9-40 | a default root with two children, sized 20 by 20, grows both passes |
| ResponsiveView.TestCase1 | view/responsive/responsive_view_test.go:9-40 | two children bounded to [5, 20] get 10 by 10 each in a 20 by 20 root |
| ResponsiveView.TestCase2 | view/responsive/responsive_view_test.go:42-69 | two unbounded children (every bound zero) get 10 by 10 each |
| ResponsiveView.TestCase3 | view/responsive/responsive_view_test.go:71-98 | minima 0 and 5 with maxima 20 split 20 into 8 and 12 on both axes |
| Greedy.Grow | cmd/optimize/view/app.go:576-611 | the three loops of `UpdateResponsive` end at `Layout`: each adds a line to a part, re-checks the fit, and on failure takes the line back and stops |
| Greedy.LayoutFits | cmd/optimize/view/app.go:572-611 | a layout that fits keeps fitting, because every step that breaks the fit is undone; one that does not fit is left as it is |
| Greedy.LayoutBounds | cmd/optimize/view/app.go:588-610 | parts only grow, and never past the larger of their start and their targets |
| Greedy.LayoutMaximal | cmd/optimize/view/app.go:588-610 | the split is greedy: when the start fits, the parts fill the height exactly or have reached every target |
| Greedy.LayoutOrder | cmd/optimize/view/app.go:588-610 | the second part grows only once the first has its preferred height, and the first grows past that only once the second is at its maximum |
| PreferencesConfiguration.NextService | cmd/optimize/view/preferences_configuration.go:90-94 | Ctrl+Right selects the next filter entry, back to "All" after the last |
| PreferencesConfiguration.PrevService | cmd/optimize/view/preferences_configuration.go:96-100 | Ctrl+Left selects the previous filter entry, round to the last before "All" |
| PreferencesConfiguration.StepService | cmd/optimize/view/preferences_configuration.go:90-100 | the index moves one entry, wrapping at both ends |
| PreferencesConfiguration.ServiceStepsInverse | cmd/optimize/view/preferences_configuration.go:90-101 | Ctrl+Left undoes Ctrl+Right and the other way round |
| PreferencesConfiguration.ServiceCycle | cmd/optimize/view/preferences_configuration.go:90-95 | k presses of Ctrl+Right move k entries on, modulo the list, so one press per entry comes back to the same filter |
| PreferencesConfiguration.Steps | cmd/optimize/view/preferences_configuration.go:90-95 | repeated presses stay within the filter list |
| PreferencesConfiguration.PreferencesConfiguration.constructor | cmd/optimize/view/preferences_configuration.go:31-67 | one fresh line per preference, only the first focused; the service list built from the preferences; the help lines set; nothing closed. Line 48 indexes line 0, so there must be a preference |
| PreferencesConfiguration.PreferencesConfiguration.MinHeight | cmd/optimize/view/preferences_configuration.go:203-205 | the lines plus three rows plus the help footer's minimum of 0 |
| PreferencesConfiguration.PreferencesConfiguration.SetHeight | cmd/optimize/view/preferences_configuration.go:194-201 | the help footer gets what the lines and three rows leave, so the editor is responsive exactly when that share is not negative |
| PreferencesConfiguration.PreferencesConfiguration.Update | cmd/optimize/view/preferences_configuration.go:71-115 | Esc hands the edited preferences, in line order, to the close callback; an error is recorded; a resize sets the width; Enter/Down and Up move focus; Ctrl+Right/Left switch the filter with wrap-around and apply it |
| PreferencesConfiguration.PreferencesConfiguration.KeyUpdate | cmd/optimize/view/preferences_configuration.go:84-113 | a key's own action, then focus on one line only, which alone keeps or changes its preference |
| PreferencesConfiguration.PreferencesConfiguration.MoveFocus | cmd/optimize/view/preferences_configuration.go:84-89 | Enter and Down move focus to the next visible line, Up to the previous one |
| PreferencesConfiguration.PreferencesConfiguration.SwitchService | cmd/optimize/view/preferences_configuration.go:90-101 | the next or previous filter entry is selected and applied, and no line's preference, text, index or focus changes |
| PreferencesPage.Applied | view/page_preferences.go:90-103 | with no selection, the items sent back are items neither skipped nor lazily loaded, each with the edited preferences and loading on |
| PreferencesPage.AppliedCoversEligible | view/page_preferences.go:90-103 | every item that is neither skipped nor lazily loaded is sent back with the edited preferences |
| PreferencesPage.AppliedOnlyEligible | view/page_preferences.go:90-103 | every item sent back is such an item, updated with the edited preferences and loading on |
| PreferencesPage.Requests | view/page_preferences.go:102 | one re-evaluation request per item sent back: its id with the edited preferences |
| PreferencesPage.WindowStart | view/page_preferences.go:245-254 | scrolling moves the first visible line just enough that the focused line is inside the window, and not at all when it already is |
| PreferencesPage.SendBack | view/page_preferences.go:90-103 | with no selection every item neither skipped nor lazily loaded takes the edited preferences and loading in place in the store, and exactly those items and their re-evaluation requests are queued, in store order |
| PreferencesPage.PreferencesPage.constructor | view/page_preferences.go:35-45 | a new page holds the store and nothing else |
| PreferencesPage.PreferencesPage.OnOpen | view/page_preferences.go:47-85 | the lines are rebuilt fresh from the selected item's preferences (else the defaults), only the first focused; the service list is rebuilt; the window starts at the top and the help keys are set |
| PreferencesPage.PreferencesPage.SetKeyMap | view/page_preferences.go:75-83 | the help lines become the page's keys, nothing else changes |
| PreferencesPage.PreferencesPage.OnClose | view/page_preferences.go:87-115 | with no selection every eligible item of the store takes the edited preferences and loading in place and is queued and re-evaluated, and the selection stays empty; with a selection the selected item takes them and is queued and re-evaluated, the store list staying as it was |
| PreferencesPage.PreferencesPage.NextInput | view/page_preferences.go:256-261 | focus moves to the next visible line, wrapping |
| PreferencesPage.PreferencesPage.PrevInput | view/page_preferences.go:263-272 | focus moves to the previous visible line, wrapping |
| PreferencesPage.PreferencesPage.FixVisibleStartIdx | view/page_preferences.go:245-254 | the first visible line becomes `WindowStart` for the lines left over by the status bar and four rows |
| PreferencesPage.PreferencesPage.ChangeService | view/page_preferences.go:207-225 | the lines of other services are hidden, the service name shows only under "All", and no line's preference, text, index or focus changes |
| PreferencesPage.PreferencesPage.Update | view/page_preferences.go:121-163 | Enter and Down move focus forward, Up backward, each followed by scrolling; then only the focused line has focus, and it alone handles the key |
| PreferencesPage.PreferencesPage.Move | view/page_preferences.go:124-133 | the focus moves as the key says and the window follows it |
| PreferencesPage.ApplyAllTwice | view/page_preferences.go:90-103 | closing twice with the same preferences and no selection leaves the store as the first close did, and every item the first close queued is already in the store |
| PreferencesPage.SendBackOne | view/page_preferences.go:91-102 | one step of the close loop changes the item at that position in place when it is eligible, and queues it and its request, keeping the loop's account of store, queue and requests |
| PreferenceValidators.PinnedError | view/page_preferences.go:227-232 | a pinned input accepts exactly the empty text |
| PreferenceValidators.NumberError | view/page_preferences.go:234-243 | the number validator accepts exactly the texts that parse as a non-negative 64-bit integer, and a negative one fails with "invalid number" |
| PreferenceValidators.NumberAcceptsRendered | view/page_preferences.go:234-243 | every rendered non-negative 64-bit number passes the number validator |
| PreferenceValidators.EmptyText | view/page_preferences.go:227-243 | the empty text fails the number validator and passes the pinned one |
| PreferenceLines.ServiceList | view/page_preferences.go:58-72 | the service filter lists "All" first, then every service of the preferences exactly once |
| PreferenceLines.ServiceListOrder | view/page_preferences.go:59-72 | services are listed in the order of their first appearance |
| PreferenceLines.HiddenFor | view/page_preferences.go:207-225 | filtering on a service hides exactly the lines of other services, and "All" hides none |
| PreferenceLines.FilterLeavesVisible | view/page_preferences.go:256-272 | filtering on any listed service leaves a line to focus, so the recursive focus moves terminate |
| PreferenceLines.PrefsOf | view/page_preferences.go:105-108 | the edited preferences, one per line in line order |
| PreferenceLines.NewItems | view/page_preferences.go:59-60 | one fresh, distinct, unfocused, shown line per preference, each reconfigured at index 0 |
| PreferenceLines.OpenedItems | view/page_preferences.go:56-73 | the editor opens one line per preference with only the first focused; line 73 indexes line 0, so there must be a preference |
| PreferenceLines.Contains | view/page_preferences.go:62-67 | the inner scan reports whether the service is already listed |
| PreferenceLines.BuildServiceList | view/page_preferences.go:58-72 | the loop builds `ServiceList` |
| PreferenceLines.CollectPrefs | view/page_preferences.go:96-98 | the loop collects the edited preferences in line order |
| PreferenceLines.NextFocus | view/page_preferences.go:256-261 | moving forward lands on the next visible line, wrapping past the end |
| PreferenceLines.PrevFocus | view/page_preferences.go:263-272 | moving backward lands on the previous visible line, wrapping past the start |
| PreferenceLines.FilterByService | view/page_preferences.go:207-225 | the hidden flags become `HiddenFor` the service, the service name is hidden unless the filter is "All", and no preference, text, index or focus changes |
| PreferenceLines.ShowForService | view/page_preferences.go:208-224 | one line is hidden exactly when the filter is another service, and shows its service only under "All" |
| PreferenceLines.FocusOnly | view/page_preferences.go:149-152 | every line is blurred and the focused one focused again, nothing else changes |
| PreferenceLines.FocusAndUpdate | view/page_preferences.go:149-161 | after a key, only the focused line is focused and it alone handles the key as `KeyStep` says; hidden flags stay |
| PreferenceItemView.Reconfigured | view/preferences_item.go:35-63 | a pinned item gets an empty input, no value and the pinned validator; an unpinned item with suggested values shows the one at the index and stores it (nil for ""); one without shows its value or keeps the text; a number item gets the number validator |
| PreferenceItemView.NumberStep | view/preferences_item.go:89-91 | the stepped text is the parsed 64-bit number (0 when the text does not parse) moved by one, wrapping at the int64 bounds, and reads back as that number |
| PreferenceItemView.NextIdx | view/preferences_item.go:84 | Right moves to the next suggested value, back to the first after the last |
| PreferenceItemView.PrevIdx | view/preferences_item.go:99-102 | Left moves to the previous suggested value, round to the last before the first |
| PreferenceItemView.NextPrevInverse | view/preferences_item.go:82-105 | Left undoes Right and Right undoes Left |
| PreferenceItemView.ArrowCycled | view/preferences_item.go:83-87 | cycling keeps the index in range and changes no suggested value, number flag or pin guard |
| PreferenceItemView.NumberApplied | view/preferences_item.go:88-95 | a number step sets the text and the stored value to the stepped number, keeping the index |
| PreferenceItemView.ArrowStep | view/preferences_item.go:82-113 | an arrow keeps the index in range and changes no suggested value, number flag or pin guard |
| PreferenceItemView.KeyStep | view/preferences_item.go:73-114 | Tab resets the index unless pinning is prevented, the arrows cycle it when there are suggested values, and on a number item without suggestions they store the text moved by ±1 |
| PreferenceItemView.TabTogglesPin | view/preferences_item.go:74-80 | Tab flips the pin and returns to the first suggested value, and does nothing when pinning is prevented |
| PreferenceItemView.TabTwice | view/preferences_item.go:74-80 | Tab twice restores the pin, and an unpinned item with suggestions is back on the first one |
| PreferenceItemView.CycleValues | view/preferences_item.go:82-105 | Right and Left move through the suggested values cyclically, storing the value shown, each undoing the other |
| PreferenceItemView.NumberSteps | view/preferences_item.go:88-113 | a number item holding n stores n+1 on Right and n−1 on Left, and Right at the int64 maximum wraps to the minimum |
| PreferenceItemView.StoredValue | view/preferences_item.go:118-122 | after the input has seen the key, the value is nil exactly when the text is empty, else the text |
| PreferenceItemView.Label | view/preferences_item.go:132-141 | the label is the alias (or the key), prefixed by "<service>: " unless the service is hidden, then " (<unit>)" when there is a unit |
| PreferenceItemView.PreferenceItemView.constructor | view/preferences_item.go:22-33 | a new line is an empty input reconfigured for the preference at index 0, visible and unfocused |
| PreferenceItemView.PreferenceItemView.ReconfigureInput | view/preferences_item.go:35-63 | the input and the preference become `Reconfigured` of the old ones, nothing else changes |
| PreferenceItemView.PreferenceItemView.Update | view/preferences_item.go:67-124 | a hidden line ignores every key; otherwise the key's step is applied, the input edits the text, and the stored value follows the final text |
| PreferenceItemView.PreferenceItemView.TabKey | view/preferences_item.go:74-80 | the Tab case is `KeyStep` for Tab |
| PreferenceItemView.PreferenceItemView.RightKey | view/preferences_item.go:82-95 | the Right case is `KeyStep` for Right |
| PreferenceItemView.PreferenceItemView.LeftKey | view/preferences_item.go:97-113 | the Left case is `KeyStep` for Left |
| PreferenceItemView.PreferenceItemView.CycleValue | view/preferences_item.go:83-87 | moving to the neighbouring suggested value is `ArrowCycled` |
| PreferenceItemView.PreferenceItemView.StepNumber | view/preferences_item.go:88-94 | a number line's text and value become the stepped number |
| PreferenceItemView.PreferenceItemView.View | view/preferences_item.go:126-152 | a hidden line renders "", otherwise the label, the input and the change hint when the line is focused, unpinned and has more than one suggested value |
| PreferenceItemView.PreferenceItemView.Blur | view/preferences_item.go:154-156 | the line loses focus and nothing else changes |
| PreferenceItemView.PreferenceItemView.Focus | view/preferences_item.go:158-160 | the line gains focus and nothing else changes |
| OptimizePreferences.DefaultPreferences | cmd/optimize/preferences/const.go:17-44 | the built-in table has 24 entries |
| OptimizePreferences.DefaultServices | cmd/optimize/preferences/const.go:19-42 | the first seventeen defaults are EC2 instance preferences and the other seven EBS volume ones |
| OptimizePreferences.DefaultRanks0 | cmd/optimize/preferences/const.go:19-24 | each of the first six keys is told apart from every other default key by its length and first characters |
| OptimizePreferences.DefaultRanks1 | cmd/optimize/preferences/const.go:25-30 | the same for the next six keys |
| OptimizePreferences.DefaultRanks2 | cmd/optimize/preferences/const.go:31-36 | the same for the next six keys |
| OptimizePreferences.DefaultRanks3 | cmd/optimize/preferences/const.go:37-42 | the same for the last six keys |
| OptimizePreferences.DefaultKeysDistinct | cmd/optimize/preferences/const.go:19-42 | no two defaults share a key, so a lookup by key alone is unambiguous |
| OptimizePreferences.DefaultPins | cmd/optimize/preferences/const.go:22-38 | exactly Region, OperatingSystem, ProcessorArchitecture, MemoryGB and Size are pinned by default |
| OptimizePreferences.DefaultUnpinnableHaveValues | cmd/optimize/preferences/const.go:29-42 | every default that cannot be pinned carries a value and is not pinned |
| OptimizePreferences.DefaultExport | cmd/optimize/preferences/const.go:46-58 | exporting the defaults maps a key exactly when it is pinned (to nil) or has a value (to that value), and maps no other key |
| PreferencesRegistry.FirstMatch | preferences/const.go:26-31 | the scan finds the first entry with this service and key, and none exactly when no entry has them |
| PreferencesRegistry.Upsert | preferences/const.go:25-35 | one item replaces the first entry with its service and key, or is appended when there is none |
| PreferencesRegistry.UpsertLookup | preferences/const.go:23-37 | after an upsert, a lookup of its service and key finds the new item, and every other lookup is unchanged |
| PreferencesRegistry.UpsertKeepsKeys | preferences/const.go:23-37 | an upsert never loses a registered (service, key) and grows the registry by at most one entry |
| PreferencesRegistry.SetValue | preferences/const.go:42-51 | a registered value line sets the value of the first match only, leaving the length and every other entry as they were |
| PreferencesRegistry.SetValueKeepsMatches | preferences/const.go:42-51 | setting a value changes no service or key, so every lookup still finds the same position |
| PreferencesRegistry.FirstMatchAgrees | preferences/const.go:42-43 | the first match depends only on which positions match |
| PreferencesRegistry.SetValueLookup | preferences/const.go:42-51 | a lookup after setting a value finds the updated item for that key and the old item for any other |
| PreferencesRegistry.FirstMissing | preferences/const.go:53-55 | the position of the first value line whose key is not registered, or the number of lines when all are |
| PreferencesRegistry.SetValues | preferences/const.go:40-56 | registered value lines applied in order keep the length and every lookup position |
| PreferencesRegistry.UpdateStep | preferences/const.go:40-56 | at line n the scan fails exactly at the first unregistered line, and otherwise sets the value at the position found, which applies one more line |
| PreferencesRegistry.UpdateFinds | preferences/const.go:42-55 | line n is found exactly when it comes before the first unregistered line |
| PreferencesRegistry.SetValuesNext | preferences/const.go:40-52 | applying one more registered line is one more `SetValue` |
| PreferencesRegistry.ExportedKeys | preferences/const.go:64-76 | a key is exported exactly when some item with that key is pinned or has a value |
| PreferencesRegistry.ExportedLast | preferences/const.go:66-74 | an exported key maps to what the last item exporting it exports: later items overwrite earlier ones |
| PreferencesRegistry.ExportedPinned | preferences/const.go:67-68 | a pinned item exports its key as nil whatever value it carries, unless a later item of that key overrides it |
| PreferencesRegistry.FindFirst | preferences/const.go:26-32 | the inner loop finds `FirstMatch` |
| PreferencesRegistry.Registry.constructor | preferences/const.go:19-21 | the registry starts empty |
| PreferencesRegistry.Registry.Update | preferences/const.go:23-37 | the registry becomes the items upserted one after the other |
| PreferencesRegistry.Registry.UpdateValues | preferences/const.go:39-58 | value lines are applied in order until one names an unregistered key; that one fails with "preferences key <key> not found", and the lines before it stay applied |
| PreferencesRegistry.Export | preferences/const.go:64-76 | the loop computes the exported map |
| JobsController.JobStep | controller/jobs.go:107-119 | a report of a job not done puts it among the running jobs under its description; a done job leaves them; a non-empty failure message records "<description> failed due to <message>" whether or not the job is done |
| JobsController.LastReport | controller/jobs.go:107-119 | the index of the last report about a job, or -1 when there is none |
| JobsController.RunningFollowsLastReport | controller/jobs.go:109-115 | after a stream of reports, a job runs exactly when its last report says it is not done, under that report's description |
| JobsController.FailedKeepsEveryFailure | controller/jobs.go:116-118 | after a stream of reports, a job is failed exactly when some report about it carried a failure, and the entry is one of those failures' lines: failures are never forgotten |
| JobsController.SummaryDeterministic | controller/jobs.go:51-68 | the summary does not depend on the order in which Go visits the map |
| JobsController.TopThree | controller/jobs.go:58-67 | the summary is the first three of the sorted values, and "more" says the map has more than three |
| JobsController.Jobs.constructor | controller/jobs.go:22-34 | a new tracker has empty maps, no error and empty queues |
| JobsController.Jobs.RunningJobs | controller/jobs.go:36-49 | every running job's description, each once, sorted |
| JobsController.Jobs.RunningJobsSummary | controller/jobs.go:51-68 | the first three sorted running descriptions, and whether more than three run |
| JobsController.Jobs.FailedJobs | controller/jobs.go:70-83 | every failure line, each once, sorted |
| JobsController.Jobs.FailedJobsSummary | controller/jobs.go:85-102 | the first three sorted failure lines, and whether more than three failed |
| JobsController.Jobs.ReceiveJob | controller/jobs.go:107-119 | taking the next report applies `JobStep` to the two maps and changes nothing else |
| JobsController.Jobs.ReceiveError | controller/jobs.go:121-122 | taking the next error appends "\nFailed due to <error>" to the status error, keeping earlier ones |
| JobsController.Jobs.PublishError | controller/jobs.go:128-130 | the error is queued and nothing else changes |
| JobsController.Jobs.Publish | controller/jobs.go:132-135 | the report is queued and the very same report is handed back |
| HelpView.CeilDiv | view/help.go:21 | `math.Ceil(len/height)` is the least multiple count covering `len` |
| HelpView.CeilDivUnique | view/help.go:21 | the two bounds determine the ceiling uniquely |
| HelpView.JoinGroups | view/help.go:55 | one joined line per group |
| HelpView.JoinGroupsAt | view/help.go:55 | the i-th joined line is the i-th group joined with the bar separator |
| HelpView.GroupsKeepOrder | view/help.go:42-58 | the groups put back together are the help lines, in order |
| HelpView.CeilDivStep | view/help.go:46-56 | one more run of n lines makes one more group |
| HelpView.GroupsCount | view/help.go:42-58 | `joinLines` makes ceil(len/n) groups |
| HelpView.GroupsSizes | view/help.go:46-56 | every group has n lines except the last, which has 1 to n |
| HelpView.GroupsShape | view/help.go:42-58 | the count and the sizes of the groups together |
| HelpView.GroupsFitHeight | view/help.go:21-24 | runs of ceil(len/height) lines give at least one and at most `height` groups, and never more than `len` |
| HelpView.Indented | view/help.go:26-29 | each shown line is indented by four spaces, one output line per input line |
| HelpView.ShownFits | view/help.go:19-24 | the shown lines are no more than the help lines and no more than the height, and some are shown when there is help |
| HelpView.ShownHasNoBreaks | view/help.go:26-29 | no shown line holds a line break when no help line does |
| HelpView.GroupMembers | view/help.go:48-54 | every line of a group is one of the help lines |
| HelpView.RenderLineCount | view/help.go:15-40 | the text occupies min(height, shown + 2) terminal lines, so never more than the height given nor more than `MaxHeight` (line 69) |
| HelpView.TakeRun | view/help.go:47-54 | the inner loop takes the next n lines, or the rest when fewer remain |
| HelpView.GroupsFrom | view/help.go:46-56 | the groups from a position are the run there followed by the groups after it |
| HelpView.IndentAll | view/help.go:26-29 | the indenting loop computes the indented lines |
| HelpView.HelpView.constructor | view/help.go:10-13 | a view holds its lines with height 0 |
| HelpView.HelpView.SetHeight | view/help.go:60-62 | the height is stored as given, the lines unchanged |
| HelpView.HelpView.JoinLines | view/help.go:42-58 | the result is the groups of n consecutive lines, each joined with the bar separator |
| HelpView.HelpView.String | view/help.go:15-40 | the text is "" for height 0, else the shown lines indented and joined, with the suffix and prefix line breaks when they fit |
| StatusBar.ByteLenAscii | view/view_statusbar.go:46 | Go's `len` of an ASCII string is its number of characters |
| StatusBar.JobsSegment | view/view_statusbar.go:43-52 | there is a jobs segment exactly when jobs are running or the bar is initializing; the running count wins, and each text is as the source builds it |
| StatusBar.Breaks | view/view_statusbar.go:54-67 | the help loop decides one break-or-not per help line |
| StatusBar.BreaksPrefix | view/view_statusbar.go:54-67 | the breaks decided for the first n lines do not depend on the later lines |
| StatusBar.BreaksTrackRow | view/view_statusbar.go:56-59 | when the counter restarts at the breaking line's own width, it always equals the width of the last row |
| StatusBar.RowsFit | view/view_statusbar.go:54-67 | with that counter, no row of help lines is wider than the bar unless one line alone is |
| StatusBar.BreaksSnoc | view/view_statusbar.go:56-60 | one more help line breaks exactly when the running width plus its padded width passes the bar's width |
| StatusBar.AsWrittenOverflows | view/view_statusbar.go:59 | as written, the counter restarts at 0, so three 10-byte lines on a 10-byte bar give a 20-byte second row; carrying the counter breaks before the third line |
| StatusBar.EightLetterLine | view/view_statusbar.go:55 | a padded eight-letter ASCII help line is 10 bytes |
| StatusBar.HelpSegmentsNewlines | view/view_statusbar.go:58-68 | the joined help text holds one line break per break decision when the styles add none |
| StatusBar.Height | view/view_statusbar.go:91-93 | the height is at least one line |
| StatusBar.ClosingNewlines | view/view_statusbar.go:70-75 | the error line and the failed-job line each add one line break exactly when present |
| StatusBar.ContentHeight | view/view_statusbar.go:38-76 | the bar is 2 lines high, plus one per help break, one for a status error and one for a failed job |
| StatusBar.WrapHelp | view/view_statusbar.go:54-67 | the loop builds the help segments for the breaks decided with the corrected counter |
| StatusBar.Update | view/view_statusbar.go:29-76 | a resize sets the width, and the content is rebuilt from the running count, the first failed job in sorted order, the status error and the help lines |
| StatusBar.View | view/view_statusbar.go:87-93 | the view is the content, and the height is one more than its number of line breaks |
| ViewUtils.Div | pkg/utils/view.go:25 | a float division is finite exactly when the divisor is non-zero, and then multiplies back to the dividend |
| ViewUtils.Fixed2 | pkg/utils/view.go:9 | `%.2f` of a finite value is its two-decimal text (infinities and NaN print their IEEE names) |
| ViewUtils.PFloat64ToString | pkg/utils/view.go:5-10 | nil gives "", otherwise the value's two-decimal text |
| ViewUtils.PercentText | pkg/utils/view.go:16 | a `%.2f%%` rendering always ends in `%` |
| ViewUtils.Percentage | pkg/utils/view.go:12-17 | "" exactly for nil; otherwise the value's two-decimal text followed by `%` |
| ViewUtils.MemoryUsagePercentageByFreeSpace | pkg/utils/view.go:19-22 | "" exactly when the free space is nil |
| ViewUtils.MemoryUsageShare | pkg/utils/view.go:19-27 | the printed number is (size·2^30 − free) / (size·2^30), a fraction printed without scaling by 100; a zero size prints `+Inf%`, `-Inf%` or `NaN%` |
| ViewUtils.StorageBytesAsWritten | pkg/utils/view.go:33 | the byte count as written is the int32 product, congruent to size·2^30 modulo 2^32 |
| ViewUtils.StorageBytes | pkg/utils/view.go:33 | the intended byte count fits in 64 bits, is positive exactly for a positive size, and divides back to the size |
| ViewUtils.StorageUsagePercentageByFreeSpace | pkg/utils/view.go:29-37 | "" exactly when either pointer is nil (with the intended byte count) |
| ViewUtils.StorageUsagePercentageAsWritten | pkg/utils/view.go:29-37 | "" exactly when either pointer is nil (with the wrapping byte count) |
| ViewUtils.StorageUsageInRange | pkg/utils/view.go:33-35 | with the intended byte count, a free space within the volume gives a finite used share between 0 and 1 |
| ViewUtils.StorageBytesAsWrittenExact | pkg/utils/view.go:33 | only sizes from −2 to 1 come through the int32 product unchanged |
| ViewUtils.StorageBytesAsWrittenZero | pkg/utils/view.go:33 | every size that is a multiple of 4 wraps to zero bytes |
| ViewUtils.StorageUsageAsWrittenWrong | pkg/utils/view.go:33-36 | a 2 GB volume with 1 GiB free reads a share of 1.5 instead of 0.5, and a 100 GB volume prints `-Inf%` |
| ViewUtils.PNetworkThroughputMbps | pkg/utils/view.go:39-45 | "" exactly for nil |
| ViewUtils.PStorageThroughputMbps | pkg/utils/view.go:47-53 | "" exactly for nil |
| ViewUtils.ThroughputHelpersAgree | pkg/utils/view.go:39-57 | the two pointer helpers print the same text, and it is the plain helper's text for 8 times the value |
| ViewUtils.PInt32ToString | pkg/utils/view.go:59-64 | "" exactly for nil; otherwise decimal text that parses back to the number |
| ViewUtils.PString | pkg/utils/view.go:66-71 | "" for nil, otherwise the string itself |
| ViewUtils.SizeByteToGB | pkg/utils/view.go:72-78 | "" exactly for nil; otherwise the stored number, unscaled, followed by " GB" |
| ViewUtils.NilRendersEmpty | pkg/utils/view.go:5-78 | every pointer-taking helper renders nil as "" |
| FlagHelpers.FlagName | cmd/flags/helpers.go:14 | the flag is looked up under the snake-case name with every `_` made `-`, so the result holds no `_` |
| FlagHelpers.FlagNameReplacesUnderscores | cmd/flags/helpers.go:14 | the looked-up name is the snake-case name character by character, with only `_` replaced |
| FlagHelpers.PlainValue | cmd/flags/helpers.go:18-24 | a value with neither `@` nor `file://` in front is returned as it is |
| FlagHelpers.FileValue | cmd/flags/helpers.go:19-23 | `@<path>` and `file://<path>` both return the contents of `path`, resolved against the working directory when relative (lines 27-45) |
| FlagHelpers.AtBeforeScheme | cmd/flags/helpers.go:19-22 | `@` is tested first: `@file://<path>` reads the relative file named `file://<path>` |
| FlagHelpers.MissingFlag | cmd/flags/helpers.go:15-18 | a flag that is not defined ends in a panic (the nil lookup is dereferenced after the message) |
| Hash.Base16 | pkg/hash/string.go:10 | `hex.EncodeToString` gives two lower-case hex digits per byte |
| Hash.Decode16Base16 | pkg/hash/string.go:10 | decoding the hex text gives back the bytes, so the encoding loses nothing |
| Hash.Base16Append | pkg/hash/string.go:10 | encoding a concatenation encodes the parts one after the other |
| Hash.Utf8Char | pkg/hash/string.go:10 | `[]byte(str)` gives one to four UTF-8 bytes per character, and a single byte equal to the code exactly for ASCII |
| Hash.HashBytesShape | pkg/hash/string.go:8-11 | `h.Sum(b)` on a fresh SHA-256 state appends the digest of the empty message to `b`, so the result is 2·len+64 hex digits ending in that fixed digest |
| Hash.HashBytesRecovers | pkg/hash/string.go:8-11 | the input bytes can be read back from the first 2·len digits of the result |
| Hash.HashBytesInjective | pkg/hash/string.go:8-11 | distinct byte strings give distinct results |
| Hash.Utf8Ascii | pkg/hash/string.go:10 | an ASCII string's bytes are its character codes |
| Hash.HashStringAscii | pkg/hash/string.go:8-11 | on ASCII strings such as AWS volume ids, the result has 2·len+64 digits and determines the string |
| TerraformTool.SizeOfNone | terraform/terraform.go:107-113 | without an "Instance Size" property the size read stays what it was |
| TerraformTool.SizeOfLast | terraform/terraform.go:107-113 | the size read is the recommendation of the last "Instance Size" property, whether or not it differs from the current size |
| TerraformTool.RecommendationsKeys | terraform/terraform.go:104-115 | an id is recommended exactly when some item carries it |
| TerraformTool.RecommendationsLast | terraform/terraform.go:104-115 | an id is recommended the size read from the last item carrying it, possibly the empty string |
| TerraformTool.ReadSize | terraform/terraform.go:108-112 | the loop over one device's properties yields the size read |
| TerraformTool.ReadItemSize | terraform/terraform.go:105-113 | the loops over an item's devices yield its size |
| TerraformTool.ReadRecommendations | terraform/terraform.go:103-115 | the loop over the items yields the recommendations map |
| TerraformTool.ProcessedMeaning | terraform/terraform.go:119-128 | a file is processed exactly when it is not a directory, is named main.tf and its path holds no ".terraform"; the ".tf" test adds nothing |
| TerraformTool.WalkShape | terraform/terraform.go:118-190 | the walk writes exactly the processed files, in order, each with the same blocks and at most the instance class of modules with a database name changed |
| TerraformTool.PrefixDirections | terraform/terraform.go:165-173 | with the prefix flag, the tool matches an identifier that starts with the recommended id, the opposite direction from the command: "db" against "db-1" right-sizes in the command only, "db-1" against "db" in the tool only |
| TerraformTool.WalkEntry | terraform/terraform.go:118-189 | an entry that is not processed writes nothing; a processed one writes its rewritten blocks to its path, or fails when its locals never resolve |
| TerraformTool.RunTool | terraform/terraform.go:103-190 | reading the recommendations and walking the entries yield the walk over the recommendations |
| TerraformTool.WalkNoneStays | terraform/terraform.go:118-191 | once one file fails the whole walk fails |
| TerraformCommand.WordRun | cmd/terraform.go:230 | the run from a position is the longest stretch of word characters there: all of them word characters, ending at the text's end or a non-word character |
| TerraformCommand.PathRun | cmd/terraform.go:239 | the run from a position is the longest stretch of word characters and dots there |
| TerraformCommand.LocalRefFrom | cmd/terraform.go:251-253 | a name captured by the local-reference pattern is a nonempty run of word characters |
| TerraformCommand.LocalRefFromNone | cmd/terraform.go:251 | the local-reference pattern matches nothing exactly when no "local." followed by a word character occurs |
| TerraformCommand.LocalRefOfName | cmd/terraform.go:252-253 | "local." followed by a name captures that name |
| TerraformCommand.ExprAt | cmd/terraform.go:239 | an interpolation match is at least four characters long and lies within the text |
| TerraformCommand.ExprRefsFrom | cmd/terraform.go:244 | the matches found are at most the limit in number, each at least four characters long and starting with "$" |
| TerraformCommand.ExprRefsFromNoDollar | cmd/terraform.go:244 | a text without "$" holds no interpolation |
| TerraformCommand.ResolveLiteral | cmd/terraform.go:250-257 | a value neither quoted nor naming a local resolves to itself |
| TerraformCommand.ResolveLocal | cmd/terraform.go:251-254 | "local." and a name resolves as the local's value does, and as the empty string when the local is missing |
| TerraformCommand.ResolveQuotedText | cmd/terraform.go:235-249 | a quoted text without interpolation resolves to the text between the quotes |
| TerraformCommand.InterpolationFound | cmd/terraform.go:239-244 | an interpolation of a local is found as one whole match that names the local |
| TerraformCommand.ResolveInterpolated | cmd/terraform.go:235-249 | a quoted interpolation of a local resolves to the local's value when that value is plain text |
| TerraformCommand.UnquoteQuoted | cmd/terraform.go:235-237 | a quoted text is recognised as quoted and unquotes to the text |
| TerraformCommand.InterpolationResolves | cmd/terraform.go:246-254 | an interpolation of a local resolves to the local's plain value |
| TerraformCommand.ResolveCycle | cmd/terraform.go:250-254 | a value naming a local that holds that very value never resolves, for any fuel: the source recurses forever |
| TerraformCommand.SelfReference | cmd/terraform.go:251-253 | for every name, "local." and the name is an unquoted value referring to that name, so such a cycle exists |
| TerraformCommand.ResolveMoreFuel | cmd/terraform.go:229-259 | more fuel does not change a resolution that finished |
| TerraformCommand.ResolveEachMoreFuel | cmd/terraform.go:245-248 | more fuel does not change a run of interpolation replacements that finished |
| TerraformCommand.ChoiceOfMeaning | cmd/terraform.go:109-122 | an item's choice names the last "Instance Size" property whose recommendation differs from its current value, or nothing; the largest runtime is at least 1 and at least every runtime property's value |
| TerraformCommand.ChoiceOfRuntimeAttained | cmd/terraform.go:111-117 | the largest runtime is 1 or the value of some runtime property |
| TerraformCommand.PlanMeaning | cmd/terraform.go:104-135 | an id is recommended, with a current size and a reason, exactly when some item with it is kept, and then with the last kept item's size and description; an id's saving adds up every item with it, kept or not |
| TerraformCommand.PlanRecommendsSizes | cmd/terraform.go:129-132 | a recommended size is never empty |
| TerraformCommand.ReadProperties | cmd/terraform.go:113-122 | the loop over one device's properties yields the choice read |
| TerraformCommand.ReadItem | cmd/terraform.go:109-124 | the loops over an item's devices yield its choice and its saving |
| TerraformCommand.ReadPlan | cmd/terraform.go:104-135 | the loop over the items yields the plan |
| TerraformCommand.Filter | cmd/terraform.go:172-182 | a key is selected exactly when it is listed and matches, and distinct keys stay distinct |
| TerraformCommand.BlockStepShape | cmd/terraform.go:147-195 | one block adds one block that differs from it at most in its instance class, and its matched keys, all recommended, to the ids and the count |
| TerraformCommand.ModuleStepShape | cmd/terraform.go:164-194 | a module adds its resized self, differing at most in its instance class, and its matches, all recommended, to the ids and the count |
| TerraformCommand.RewriteShape | cmd/terraform.go:142-196 | the rewritten file has the same blocks in order, each differing at most in its instance class; the count is the number of right-sized ids and every one of them is recommended |
| TerraformCommand.FilterOrderFree | cmd/terraform.go:172 | two iteration orders of the same keys select the same keys, each once |
| TerraformCommand.SumOfPermutation | cmd/terraform.go:179 | a saving total does not depend on the order of its terms |
| TerraformCommand.MatchesOrderFree | cmd/terraform.go:171-194 | the matches of a module under two iteration orders have the same keys, number and saving |
| TerraformCommand.BlockStepOrderFree | cmd/terraform.go:147-195 | one block under two iteration orders keeps the locals, the count, the total and the set of ids equal |
| TerraformCommand.RewriteOrderFree | cmd/terraform.go:142-196 | the map's iteration order changes neither whether the walk finishes, nor the count, the saving total or which ids are right-sized |
| TerraformCommand.AddLocals | cmd/terraform.go:148-154 | a locals block adds each attribute, trimmed, as a local over the earlier ones |
| TerraformCommand.ResolveValue | cmd/terraform.go:229-259 | the recursion and its loop yield the resolution |
| TerraformCommand.ResolveQuoted | cmd/terraform.go:235-249 | the loop over a quoted value's interpolations, stopping at the first that diverges, yields the resolution |
| TerraformCommand.ResizeByPrefix | cmd/terraform.go:171-182 | with the prefix flag, a module with a database name matches every key extending the identifier, in iteration order, and writes and sums them; without a database name nothing |
| TerraformCommand.ResizeModule | cmd/terraform.go:164-194 | a module writes the sizes of its matches into its instance class and sums their savings |
| TerraformCommand.WalkModule | cmd/terraform.go:164-194 | the module branch yields the module step |
| TerraformCommand.WalkBlock | cmd/terraform.go:147-195 | the block branches yield the block step |
| TerraformCommand.RewriteBlocks | cmd/terraform.go:142-196 | the loop over the blocks yields the rewrite |
| TerraformCommand.RewriteNoneStays | cmd/terraform.go:142-196 | once one block's identifier never resolves the whole rewrite fails |
| TerraformCommand.DescriptionAppend | cmd/terraform.go:198-204 | the description of more ids continues the description of the first ones |
| TerraformCommand.Describe | cmd/terraform.go:198-204 | the loop over the right-sized ids yields the description |
| TerraformCommand.MessageWord | cmd/terraform.go:210-223 | the message says "increases" and the absolute total exactly when the total saving is negative, otherwise "reduces" and the total |
| TerraformCommand.CommandMeaning | cmd/terraform.go:104-225 | a proposal right-sizes at least one module, its title counts them, every right-sized id is recommended and the description lists them; no change is proposed exactly when nothing matched; divergence is the rewrite's |
| TerraformCommand.CommandOrderFree | cmd/terraform.go:104-225 | the map's iteration order changes neither the outcome's kind nor the pull request's title or message |
| TerraformCommand.RunCommand | cmd/terraform.go:104-225 | running the steps yields the command's outcome |
| Cycling.NextVisible | view/page_preferences.go:256-261 | focus going forward lands on a visible line, and every line skipped on the way, wrapping past the end, is hidden |
| Cycling.PrevVisible | view/page_preferences.go:263-272 | focus going backward lands on a visible line, and every line skipped on the way, wrapping past the start, is hidden |
| Cycling.NoneHiddenNeighbours | view/page_preferences.go:256-272 | with nothing hidden, focus moves to the neighbouring line, wrapping at both ends |
| Cycling.NextVisibleLands | view/page_preferences.go:256-261 | a visible line is never skipped: going forward from the line before it lands on it |

## Left out

- Goroutines, channels, mutexes, atomics and `recover`: each channel is a queue in the class that owns it, and each goroutine's loop is one method per message taken.
- The AWS, CloudWatch, kaytu wastage and GitHub network calls: their answers are parameters (the EC2 and RDS providers, the wastage results, the `evaluate` function of a re-evaluation).
- `ProcessAllRegions` of the EC2 and RDS processors (region listing and pagination of AWS calls) is not modelled; the per-instance steps after it are.
- The identification map sent with wastage requests, the uuid request ids, the CLI version string and the metrics time window taken from `time.Now` are left out or passed in as values.
- Floating point: costs and savings are integers, and the `%.2f`, `%.0f`, `FormatPriceFloat` and Mbps renderings are functions passed in; the Terraform command's message sums an integer total.
- RDS and EC2 storage throughput is an `int` where the source uses `float64`.
- Terminal rendering: lipgloss styles, go-pretty and bubble-table internals, word wrapping, the spinner frame and the text input's cursor editing; the table widget's highlighted row and visible rows are parameters.
- The help key lists that other pages install when they open; `SetKeyMap` is modelled only for the preferences page.
- JSON marshalling and unmarshalling: the JSON export is a list of records, not bytes.
- HCL parsing and printing, and the quote escaping done by `SetAttributeValue`: a Terraform file is a list of blocks with attributes held as strings.
- TerraformTool: errors from reading, writing and parsing files are not modelled.
- TerraformCommand.Resolve: local values are resolved with a fuel bound, and `None` means the fuel ran out; `ResolveCycle` shows that a cycle of locals never resolves, and a chain deeper than the fuel reads as unresolved too.
- PluginManager: `StartServer`, `StopServer` and `SetListenPort` (pkg/plugin/manager.go lines 65-67), plugin downloads, `chmod`, starting and waiting for plugin processes, debug mode, Windows `.exe` names, and reading, writing and removing the configuration file; the callback `SetDefaultUI` installs for re-evaluation is not modelled.
- FlagHelpers: `strcase.ToSnake`, `filepath.Join`, the working directory and the file system are parameters, and paths are Unix paths.
- ResponsiveView: children are leaf views, so the sizes passed on to grandchildren are not modelled.
- The generated protobuf code of the plugin protocol: messages are plain records in `Proto`.
- WastageEc2: the identification map of the request is not modelled.
- OptimizationPage: the page's fixed title constant is not part of this model's sources and is a parameter.
- RdsProcessor: the RDS preferences signature that `DefaultPreferences` returns is a constructor parameter.
- Queued items are values: the store and the page or view change the items in place, and the queue holds the updated copies. In Go the queue holds the same pointers, so a change made to an item after it was queued, before a tick delivers it, is also seen through the queued entry; the model's queued copy keeps the value it had when it was sent.
- OptimizationsView.OptimizationsView.ClosePreferences: for one item (view/view_optimizations.go lines 156-167) the callback changes the pointer it captured when the editor opened; the model queues an updated copy and leaves the list's items as they are, because after a tick that pointer may no longer be the one the list holds. For all items the list is changed in place.
- OptimizeOptimizationsView.OptimizeOptimizationsView.ClosePreferences: for one item (cmd/optimize/view/view_optimizations.go lines 193-208) the captured pointer is not followed, as above; for all items the list is changed in place.
- Ec2InstanceOptimizations.Ec2InstanceOptimizations.ClosePreferences: for one item (cmd/optimize/view/ec2_instance_optimizations.go lines 192-201) the captured pointer is not followed, as above; for all items the list is changed in place.
- PreferencesPage.PreferencesPage.OnClose: with a selection (view/page_preferences.go lines 104-112) the selected item takes the edited preferences and loading, but the store entry that shares its pointer is not changed with it; with no selection the store's items are changed in place.
- PreferencesPage.PreferencesPage.OnOpen: the preference lines hold copies of the preferences; in the source they point into the selected item's preferences, or into the list `DefaultPreferences` returns, so editing a line (and `ReconfigureInput`) also rewrites that item's or that list's entries in place.
- PreferenceItemView: the text input's `CharLimit` truncation, done inside the bubbles text input, is not modelled; typed values are kept whole.
- WastageWorker (both processors): an instance the provider listed is taken to have its id, and for EC2 its state, CPU options, EBS-optimised flag and usage operation set; only the zero item that `ReEvaluate` stores for an unknown id (the `listed` flag is false) and a missing EC2 placement are modelled as the nil dereferences they are, with the recovered panic published as an error.
- StatusBar.WrapHelp, StatusBar.ContentHeight and StatusBar.Update use the corrected row counter (`Breaks` with the counter carried over a break), not the reset to 0 of view/view_statusbar.go line 59; the counter as written is `Breaks` with `carry` false, and `StatusBar.AsWrittenOverflows` shows where the two differ (see Findings).
- ViewUtils.StorageUsagePercentageByFreeSpace computes the byte count without overflow, where pkg/utils/view.go line 33 multiplies in `int32`; the helper as written is `ViewUtils.StorageUsagePercentageAsWritten`, and `ViewUtils.StorageUsageAsWrittenWrong` shows the difference (see Findings).
- RdsInstanceItem.RdsInstanceDevice shows the IOPS value and the storage usage with the corrected byte count; `RdsInstanceItem.RdsInstanceDeviceAsWritten` is the device as written, with the pointer's address and the wrapping byte count (see Findings).
- RdsInstanceItem.RdsStorageUsageInRange is stated for the corrected byte count; as written the share can leave the range 0 to 1 (`ViewUtils.StorageUsageAsWrittenWrong`).
- OptimizationDetailsView.OptimizationDetailsView.SelectDevice and OptimizationDetailsView.OptimizationDetailsView.Update use the corrected selection `Select`, which keeps the view when no row is highlighted; as written the view panics there (`OptimizationDetailsView.NoDevicesPanics`, see Findings).
- CustomOverviewPage.CustomOverviewPage.RebuildRows sorts by the corrected `SortColumn`, which accepts the first column; as written the first column never becomes the sort key (`CustomOverviewPage.FirstColumnNeverSorts`, see Findings).
- Text.ToLower lowers ASCII letters only and Text.IsSpace knows the Latin-1 white space only, where Go's `strings.ToLower`, `strings.TrimSpace` and `unicode.IsSpace` cover all of Unicode; this affects NonInteractiveView.ToSnakeCase and the trimming in TerraformCommand.
- terraform/terraform.go lines 41-102 and cmd/terraform.go lines 28-103 (starting the plugin, the "please login" panic, reading the recommendations and updating the preferences before the rewrite) are not part of this model; the rewrite they lead to is.
- The cmd/optimize/view helpers that pkg/processor/ec2_instance_item.go and rds_instance_item.go call for their device properties (the property and device records and the number formatting) are not part of this model's sources; they are taken to be the records of `OptimizeOptimizationsView` and the functions of `ViewUtils`.
- PreferencesConfiguration: the cmd/optimize preference editor's line type is not part of this model's sources; its lines are taken to behave as `PreferenceItemView`'s, through the shared `PreferenceLines`.

## Findings

| source | as written | input that shows it | evidently intended | confidence | as-written member | corrected member |
|---|---|---|---|---|---|---|
| view/view_statusbar.go:59 | after a line break the row width restarts at 0, so the help entry that caused the break is not counted in the new row | three help entries of 10 bytes each (padding included) on a width of 10: the second row holds 20 bytes | the new row starts with the width of the entry that opened it, so no row is wider than the bar | not executed | StatusBar.AsWrittenOverflows | StatusBar.RowsFit |
| pkg/utils/view.go:33 | the volume size in GiB is multiplied by 2^30 in `int32`, which wraps | a 2 GiB volume with 1 GiB free shows a used share of 1.5 instead of 0.5; any size that is a multiple of 4 GiB, such as 100, wraps to 0 and prints an infinite percentage | the size in bytes is computed without overflow | not executed | ViewUtils.StorageUsageAsWrittenWrong | ViewUtils.StorageUsageInRange |
| view/view_optimization_details.go:192-195 | the highlighted row's `Data["0"]` is type-asserted when no row is highlighted | an instance with no devices: the details view panics | with no highlighted row there is nothing to select | not executed | OptimizationDetailsView.NoDevicesPanics | OptimizationDetailsView.Select |
| view/page_overview_plugin_custom.go:169-172 | the sort key search treats index 0 as "no column found", so the first column is never the sort key | a sortable first column with the sort key pressed once: the rows stay unsorted | the first sortable column, index 0 included, becomes the sort key | not executed | CustomOverviewPage.FirstColumnNeverSorts | CustomOverviewPage.SortColumn |
| pkg/processor/rds_instance_item.go:77 | the current IOPS cell formats the `*int32` pointer with `%d`, which prints its address | two instances whose IOPS differ but whose pointers are equal show the same cell | the cell shows the IOPS value the pointer points to | not executed | RdsInstanceItem.CurrentIopsAsWrittenIgnoresValue | RdsInstanceItem.CurrentIops |

## Notes

- `HashString` (pkg/hash/string.go) writes nothing into the SHA-256 state and passes the string's bytes to `Sum`, so the result is the hex encoding of those bytes followed by the digest of the empty message: an encoding, not a hash. On ASCII strings it determines the string (`Hash.HashStringAscii`).
- The Terraform tool and the Terraform command test a module's source against the known prefixes in opposite directions (`TerraformTool.PrefixDirections`).
- A name that matches the asset pattern always has the second field that `AssetVersion` reads, so its guard never fires (`PluginManager.MatchHasSecondField`).
- The file name of a plugin replaces "/" with "_", so two names such as "a/b" and "a_b" share a file.
- Re-evaluating preferences only reaches instances already in the store (`Ec2InstanceItem.ReEvaluationMissesInstances`, `RdsInstanceItem.ReEvaluationMissesInstances`).
- The responsive view's `SetSize` has a value receiver: it changes a copy of the view's own fields, but the children it resizes are written through the shared backing array.
- Go's sort is not stable; the model keeps rows with equal sort values in store order, which is one of the orders Go may give.
- Without a recommendation, an EBS volume's right-sized cost is 0 and every recommended cell is empty (`Ec2InstanceItem.EbsDeviceLayout`).
- The EC2 details view writes a volume's IOPS row four times (cmd/optimize/view/ec2_instance_detail.go:92-152).
