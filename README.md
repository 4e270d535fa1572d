# Cost and log export jobs, modelled in Dafny

This project models the logic of three scheduled AWS Lambda handlers and proves what they compute.

- **Cost exporter.** It sends three Cost Explorer queries: seven days of daily totals, the same seven days grouped by service, and the month to date. It then issues one CloudWatch `put_metric_data` call per record, in this order:
  - a `TotalCost` for the latest day;
  - a `MonthToDateCost`;
  - one `TotalCost` per day, stamped with that day's own start date;
  - one `ServiceCost` per service whose summed cost is positive. The service keeps its friendly name from a static table, and services appear in order of their first appearance.

  Every record carries the `Project` and `Environment` dimensions first, then its own dimensions. The first exception ends the run. An empty seven-day answer leaves `total_amount` unbound, so the run raises at its `return` even after publishing everything else.
- **Cost backfill.** It builds one `DailyCostHistory` record per day. Day i is stamped with the clock reading moved back 6 − i days, whatever date the query returned for it. It also builds the positive per-service totals. Both lists are sent in chunks of at most 20 records per call. The reply reports how many daily results came back.
- **Log exporter.** For each configured log group it works through these steps:
  1. An existence check: a missing group is skipped, and an error counts as a failure.
  2. Up to three `create_export_task` attempts. The delay starts at 30 s and doubles after each rate-limit error. Success and failure counters are kept, and each success appends a PENDING task. There is a 5 s pause after a success while fewer tasks than groups exist.
  3. A polling loop. It checks each task once per round and drops tasks that finished or whose check raised. It stops when no task is left or 240 s have passed.
  4. A summary.

  The S3 destination prefix is `cloudwatch-logs/<group with '/' replaced by '-'>/<YYYY/MM/DD/HH of the window start>`.

External calls are inputs to the model:
- A Cost Explorer call is an `Answer`: its results, or `Threw`.
- The n-th `put_metric_data` call succeeds when `putOk(n)` holds.
- The log exporter takes three oracles:
  - one for the existence check of the i-th group;
  - one for the a-th create attempt of the i-th group;
  - one for the status reply of each task in each polling round.
- The time spent in polling calls is an input `latency`.
- Sleeps are recorded as lists of durations.

Every method is proved against a specification function:
- `Send` describes the fail-fast publishing of a planned list of calls.
- `Planned` gives the records each cost job plans.
- `Batches` is the chunking.
- `Attempts`, `ExportGroup` and `Exports` describe the export loop.
- `RoundResult` and `Polling` describe the wait loop.

The lemmas state the properties of these functions.

Where the code and its documented intent differ, the model follows the code:
- Rate-limit retries sleep 30 s and then 60 s only. The third attempt is the last, and no 120 s sleep follows it.
- The cost exporter computes a one-day window (`start_date_1d`) but never queries it.
- The cost exporter publishes one record per call. Only the backfill batches.

## Model

| member | source | states |
|---|---|---|
| Calendar.CivilFromDays | infrastructure/modules/observability/lambda/cost_exporter.py:32 | the calendar date of a day number is a valid date whose day number is that number |
| Calendar.CivilOfDayNumber | infrastructure/modules/observability/lambda/cost_exporter.py:32 | every valid date is recovered from its own day number |
| Calendar.FirstOfMonthIsDayOne | infrastructure/modules/observability/lambda/cost_exporter.py:32 | `replace(day=1)` gives day 1 of the same year and month, at most 30 days earlier |
| Calendar.HourOf | infrastructure/modules/monitoring/templates/log_exporter.py:48 | the hour of an instant is between 0 and 23 |
| Calendar.Decimal | infrastructure/modules/monitoring/templates/log_exporter.py:48 | strftime fields are digit strings padded to at least their width |
| Calendar.DigitRoundTrip | infrastructure/modules/monitoring/templates/log_exporter.py:48 | a digit character reads back as its digit |
| Calendar.DecimalRoundTrip | infrastructure/modules/monitoring/templates/log_exporter.py:48 | reading a padded field back gives the number |
| Calendar.DecimalStep | infrastructure/modules/monitoring/templates/log_exporter.py:48 | if the field without its last digit reads back as n / 10, the whole field reads back as n |
| Calendar.DecimalWidth | infrastructure/modules/monitoring/templates/log_exporter.py:48 | a number below 10^w takes exactly w digits |
| Calendar.HourStamp | infrastructure/modules/monitoring/templates/log_exporter.py:48 | `%Y/%m/%d/%H` is at least 13 characters |
| Calendar.HourStampFields | infrastructure/modules/monitoring/templates/log_exporter.py:48 | for years 0 to 9999 the stamp has 13 characters, slashes at 4, 7 and 10, and fields that read back as year, month, day and hour |
| CostCommon.Query | infrastructure/modules/observability/lambda/cost_exporter.py:44-59 | every query excludes the Credit, Refund and Tax record types |
| CostCommon.SevenDayWindow | infrastructure/modules/observability/lambda/cost_exporter.py:29-31 | the seven-day window starts exactly 7 days before its end, today, with daily granularity |
| CostCommon.Record | infrastructure/modules/observability/lambda/cost_exporter.py:214-226 | the record `publish_metric` builds: the given name, value and timestamp, unit None, and the Project and Environment dimensions followed by the extra ones |
| CostCommon.RecordShape | infrastructure/modules/observability/lambda/cost_exporter.py:214-226 | a record's dimensions are Project, then Environment, then exactly the extra dimensions in order; name, value and timestamp are those given, and the unit is None |
| CostCommon.Upper | infrastructure/modules/observability/lambda/cost_exporter.py:230 | ASCII upper-casing keeps the length and maps each character, a–z to A–Z and every other character to itself |
| CostCommon.Namespace | infrastructure/modules/observability/lambda/cost_exporter.py:230 | the namespace is the ASCII upper-cased project followed by `/Costs` |
| CostCommon.FriendlyName | infrastructure/modules/observability/lambda/cost_exporter.py:181 | `service_mapping.get(name, name)`: the table's entry for a known service, the name itself otherwise |
| CostCommon.FriendlyNameCases | infrastructure/modules/observability/lambda/cost_exporter.py:166-181 | a mapped name becomes its table entry; a name outside the table passes through unchanged; a changed name came from the table |
| CostCommon.FriendlyNameExamples | infrastructure/modules/observability/lambda/cost_exporter.py:166-176 | ECS and Lambda are renamed, an unknown service keeps its name |
| CostCommon.FirstFailure | infrastructure/modules/observability/lambda/cost_exporter.py:228-236 | the index of the first raising call: all earlier calls succeed, and that one raises |
| CostCommon.Send | infrastructure/modules/observability/lambda/cost_exporter.py:198-200 | the calls made are a prefix of those planned; all were made and succeeded exactly when delivered; otherwise the last call made raised and all before it succeeded |
| CostCommon.SendAll | infrastructure/modules/observability/lambda/cost_exporter.py:228-236 | when every call succeeds, every planned call is made |
| CostCommon.SendStopsAt | infrastructure/modules/observability/lambda/cost_exporter.py:234-236 | a run stops exactly at its first raising call |
| CostCommon.StoppedAt | infrastructure/modules/observability/lambda/cost_exporter.py:234-236 | a raising send of the next planned record ends the run there |
| CostCommon.StillSent | infrastructure/modules/observability/lambda/cost_exporter.py:228-233 | a succeeding send extends the sent prefix by one record |
| CostCommon.Singles | infrastructure/modules/observability/lambda/cost_exporter.py:229-232 | one call per record, each carrying just that record |
| CostCommon.SinglesAppend | infrastructure/modules/observability/lambda/cost_exporter.py:229-232 | sending two lists one record at a time is sending their concatenation |
| ServiceCosts.Total | infrastructure/modules/observability/lambda/cost_exporter.py:161-163 | the sum of the amounts of the groups naming a service, starting from 0 |
| ServiceCosts.Services | infrastructure/modules/observability/lambda/cost_exporter.py:155-163 | the services of the groups, each once, in the order they first appear |
| ServiceCosts.ServicesSpec | infrastructure/modules/observability/lambda/cost_exporter.py:155-163 | the dictionary keys are distinct, and a service is a key exactly when some group names it |
| ServiceCosts.MentionsSnoc | infrastructure/modules/observability/lambda/cost_exporter.py:158-162 | a service is named by a list of groups exactly when the last group or an earlier one names it |
| ServiceCosts.TotalAppend | infrastructure/modules/observability/lambda/cost_exporter.py:155-163 | a service's sum over two runs of groups is the sum of the two sums |
| ServiceCosts.TotalOverBuckets | infrastructure/modules/observability/lambda/cost_exporter.py:156-163 | a service's aggregated cost is the sum of its per-bucket sums |
| ServiceCosts.TotalOfAbsent | infrastructure/modules/observability/lambda/cost_exporter.py:161-162 | a service that never appears sums to zero, which is where a new key starts |
| ServiceCosts.GroupStep | infrastructure/modules/observability/lambda/cost_exporter.py:157-163 | one group inserts its service at the end if new and adds its amount to that service only |
| ServiceCosts.ServicesPrefix | infrastructure/modules/observability/lambda/cost_exporter.py:161-163 | later groups never reorder the keys already present |
| ServiceCosts.Aggregate | infrastructure/modules/observability/lambda/cost_exporter.py:155-163 | the keys are the services in order of first appearance, and each maps to its sum over all groups of all buckets |
| ServiceCosts.AddBucket | infrastructure/modules/observability/lambda/cost_exporter.py:157-163 | one bucket's groups extend the keys and sums as if its groups followed the earlier ones |
| ServiceCosts.AddGroup | infrastructure/modules/observability/lambda/cost_exporter.py:158-163 | one group updates the keys and sums as `GroupStep` says |
| ServiceCosts.ServiceBreakdown | infrastructure/modules/observability/lambda/cost_exporter.py:155-181 | the positive per-service totals of all groups of all buckets, with friendly names, in key order |
| ServiceCosts.PositiveCosts | infrastructure/modules/observability/lambda/cost_exporter.py:179-181 | at most one cost per key, and every reported amount is positive |
| ServiceCosts.PositiveCostsSnoc | infrastructure/modules/observability/lambda/cost_exporter.py:179-181 | one more key appends its friendly name and sum exactly when the sum is positive, and nothing otherwise |
| ServiceCosts.PositiveCostsExact | infrastructure/modules/observability/lambda/cost_exporter.py:179-181 | a key is reported, with its friendly name and sum, exactly when its sum is positive |
| ServiceCosts.NoPositiveCosts | infrastructure/modules/observability/lambda/cost_backfill.py:137-156 | with no positive sum nothing is reported |
| ServiceCosts.PositiveCostsPrefix | infrastructure/modules/observability/lambda/cost_exporter.py:179-191 | reported services keep the keys' order |
| ServiceCosts.ServiceRecords | infrastructure/modules/observability/lambda/cost_exporter.py:184-191 | one ServiceCost record per reported cost |
| ServiceCosts.ServiceRecordsAt | infrastructure/modules/observability/lambda/cost_exporter.py:184-191 | the i-th ServiceCost record carries the i-th cost's amount, the clock reading, and a ServiceName dimension with its friendly name |
| ServiceCosts.ServiceRecordsSnoc | infrastructure/modules/observability/lambda/cost_exporter.py:184-191 | one more cost appends one more record |
| ServiceCosts.ServiceRecordsPrefix | infrastructure/modules/observability/lambda/cost_exporter.py:179-191 | the records of a prefix of the costs are a prefix of the records |
| ServiceCosts.ServiceRecordsBase | infrastructure/modules/observability/lambda/cost_exporter.py:219-226 | every ServiceCost record starts with the Project and Environment dimensions |
| ServiceCosts.ServiceRecordsPositive | infrastructure/modules/observability/lambda/cost_exporter.py:179-191 | every ServiceCost record has a positive value |
| CostExporter.MonthToDateWindow | infrastructure/modules/observability/lambda/cost_exporter.py:32 | the month-to-date query runs from the first of the month to today, monthly, ungrouped |
| CostExporter.LatestRecords | infrastructure/modules/observability/lambda/cost_exporter.py:103-117 | a TotalCost of the last daily result stamped with the clock reading, or nothing when the answer is empty |
| CostExporter.MonthToDateRecords | infrastructure/modules/observability/lambda/cost_exporter.py:119-132 | a MonthToDateCost of the first monthly result, or nothing when the answer is empty |
| CostExporter.DailyRecords | infrastructure/modules/observability/lambda/cost_exporter.py:135-152 | one TotalCost per daily result, in order, stamped with its own start date |
| CostExporter.Planned | infrastructure/modules/observability/lambda/cost_exporter.py:103-191 | every record the handler publishes when no call raises: latest, month to date, the days, then the services |
| CostExporter.DailyRecordsAt | infrastructure/modules/observability/lambda/cost_exporter.py:135-152 | one TotalCost per daily result, in order, stamped with that result's own start date |
| CostExporter.PlannedLayout | infrastructure/modules/observability/lambda/cost_exporter.py:103-191 | the records are the last day's TotalCost, then the first monthly MonthToDateCost, then each day, then each service, each at its stated position |
| CostExporter.PlannedHeadAt | infrastructure/modules/observability/lambda/cost_exporter.py:103-132 | the plan holds one record per day and per service after the head; it opens with the last day's TotalCost when there are days, and the head ends with the first MonthToDateCost when the month query returned results |
| CostExporter.PlannedDailyAt | infrastructure/modules/observability/lambda/cost_exporter.py:135-152 | right after the head, the i-th planned record is the TotalCost of the i-th day stamped with its start date |
| CostExporter.PlannedServicesAt | infrastructure/modules/observability/lambda/cost_exporter.py:179-191 | after the days, the j-th planned record is the ServiceCost of the j-th positive cost |
| CostExporter.HeadBase | infrastructure/modules/observability/lambda/cost_exporter.py:219-226 | the latest-day and month-to-date records start with the Project and Environment dimensions |
| CostExporter.DailyBase | infrastructure/modules/observability/lambda/cost_exporter.py:219-226 | every daily TotalCost record starts with the Project and Environment dimensions |
| CostExporter.PlannedDimensions | infrastructure/modules/observability/lambda/cost_exporter.py:219-226 | every published record starts with the Project and Environment dimensions |
| CostExporter.OnlyPositiveServiceCosts | infrastructure/modules/observability/lambda/cost_exporter.py:179-191 | no ServiceCost with a zero or negative value is ever published |
| CostExporter.PublishMetric | infrastructure/modules/observability/lambda/cost_exporter.py:203-273 | `publish_metric` and `publish_metric_with_timestamp` send exactly one record with the fixed dimensions then the extra ones; the result says whether that call raised |
| CostExporter.PublishNext | infrastructure/modules/observability/lambda/cost_exporter.py:228-236 | sending the next planned record either extends the successful prefix by that record or ends the run exactly where the fail-fast send of the plan ends |
| CostExporter.PublishDaily | infrastructure/modules/observability/lambda/cost_exporter.py:135-152 | the daily loop sends exactly the daily records one per call, or stops the run at the first raising call |
| CostExporter.PublishDay | infrastructure/modules/observability/lambda/cost_exporter.py:136-152 | one pass of the daily loop sends the i-th day's record, extending the prefix sent by that record, or ends the run as the fail-fast send of the plan does |
| CostExporter.DailySnoc | infrastructure/modules/observability/lambda/cost_exporter.py:136-152 | the daily records of i + 1 days are those of i days followed by the TotalCost of day i |
| CostExporter.DailyPrefix | infrastructure/modules/observability/lambda/cost_exporter.py:136-152 | the daily records of a prefix of the results are a prefix of all daily records |
| CostExporter.RecordsPrefix | infrastructure/modules/observability/lambda/cost_exporter.py:136-152 | the records sent after i + 1 days are a prefix of those planned |
| CostExporter.PublishServices | infrastructure/modules/observability/lambda/cost_exporter.py:179-191 | the service loop sends exactly the positive costs one per call, or stops the run at the first raising call |
| CostExporter.PublishService | infrastructure/modules/observability/lambda/cost_exporter.py:180-191 | one key is sent if and only if its sum is positive |
| CostExporter.ServicePrefix | infrastructure/modules/observability/lambda/cost_exporter.py:179-191 | the records sent for the first keys are a prefix of those planned |
| CostExporter.Handler | infrastructure/modules/observability/lambda/cost_exporter.py:27-200 | a raising query ends the run with the queries so far and no metric call; otherwise the calls are exactly the fail-fast send of the planned records, and the run raises if a call raised or the seven-day answer was empty, and otherwise returns 200 with the latest day's total |
| CostExporter.PublishAll | infrastructure/modules/observability/lambda/cost_exporter.py:103-191 | publishing makes exactly the fail-fast send of the planned records |
| CostBackfill.Queries | infrastructure/modules/observability/lambda/cost_backfill.py:27-76 | both queries cover the seven days before today, daily; the first ungrouped, the second by service |
| CostBackfill.HistoryTime | infrastructure/modules/observability/lambda/cost_backfill.py:100 | the i-th day's stamp is the clock reading moved back 6 − i days |
| CostBackfill.DailyHistory | infrastructure/modules/observability/lambda/cost_backfill.py:95-114 | one DailyCostHistory record per daily result |
| CostBackfill.DailyHistoryAt | infrastructure/modules/observability/lambda/cost_backfill.py:95-114 | the i-th record has the i-th amount, a Date dimension with that result's start, and the clock reading moved back 6 − i days |
| CostBackfill.HistorySpacing | infrastructure/modules/observability/lambda/cost_backfill.py:100 | consecutive day stamps are exactly one day apart, and day 7 is stamped with the clock reading |
| CostBackfill.BuildHistory | infrastructure/modules/observability/lambda/cost_backfill.py:93-114 | the loop builds exactly the daily history list |
| CostBackfill.BuildServiceMetrics | infrastructure/modules/observability/lambda/cost_backfill.py:137-153 | the loop builds exactly one ServiceCost per key with a positive sum, in key order |
| CostBackfill.Batches | infrastructure/modules/observability/lambda/cost_backfill.py:117-118 | the list cut into consecutive chunks of 20, the last one shorter |
| CostBackfill.BatchesConcat | infrastructure/modules/observability/lambda/cost_backfill.py:117-123 | the chunks put back together are the list: nothing lost, duplicated or reordered |
| CostBackfill.BatchesShape | infrastructure/modules/observability/lambda/cost_backfill.py:117-123 | there are ⌈n / 20⌉ chunks, each of 1 to 20 records, all but the last of exactly 20 |
| CostBackfill.BatchesOf45 | infrastructure/modules/observability/lambda/cost_backfill.py:117-123 | 45 records give chunks of 20, 20 and 5 |
| CostBackfill.BatchAt | infrastructure/modules/observability/lambda/cost_backfill.py:117-118 | the k-th chunk exists exactly when 20k is below the length, and it is the slice from 20k of up to 20 records |
| CostBackfill.BatchCalls | infrastructure/modules/observability/lambda/cost_backfill.py:117-122 | one call per chunk, carrying that chunk |
| CostBackfill.BatchCallsCarry | infrastructure/modules/observability/lambda/cost_backfill.py:157-162 | every call carries 1 to 20 records to the namespace, and there are ⌈n / 20⌉ calls |
| CostBackfill.PublishBatches | infrastructure/modules/observability/lambda/cost_backfill.py:117-123 | the loop stepping by 20 sends exactly the chunk calls, or stops the run at the first raising call |
| CostBackfill.Planned | infrastructure/modules/observability/lambda/cost_backfill.py:117-162 | the chunk calls of the daily history, then those of the service records, all to the namespace |
| CostBackfill.QuietServices | infrastructure/modules/observability/lambda/cost_backfill.py:156-162 | with no positive service sum, only the daily chunks are sent |
| CostBackfill.Handler | infrastructure/modules/observability/lambda/cost_backfill.py:25-172 | a raising query ends the run with no metric call; otherwise the calls are exactly the fail-fast send of the daily chunks then the service chunks, and success replies 200 with the number of daily results |
| CostBackfill.Publish | infrastructure/modules/observability/lambda/cost_backfill.py:91-162 | publishing makes exactly the fail-fast send of the planned chunks |
| CostBackfill.PublishServiceList | infrastructure/modules/observability/lambda/cost_backfill.py:137-162 | building the service records and sending them in chunks after successful daily chunks does what the fail-fast send of the whole plan does |
| LogExporter.HourWindow | infrastructure/modules/monitoring/templates/log_exporter.py:18-19 | the window ends at the current time truncated to the hour and starts one hour earlier |
| LogExporter.HourWindowUnique | infrastructure/modules/monitoring/templates/log_exporter.py:18 | the end is the only whole hour in the last hour up to now |
| LogExporter.WindowMillis | infrastructure/modules/monitoring/templates/log_exporter.py:21-23 | in milliseconds the window spans exactly 3 600 000 and starts on a whole hour |
| LogExporter.Dashed | infrastructure/modules/monitoring/templates/log_exporter.py:48 | `replace('/', '-')` of a group name |
| LogExporter.DashedAt | infrastructure/modules/monitoring/templates/log_exporter.py:48 | every '/' of the name becomes '-', other characters stay, and the length is kept |
| LogExporter.DashedProperties | infrastructure/modules/monitoring/templates/log_exporter.py:48 | the dashed name has no '/', dashing is idempotent, and it changes a name exactly when the name has a '/' |
| LogExporter.DestinationPrefix | infrastructure/modules/monitoring/templates/log_exporter.py:48 | `cloudwatch-logs/`, the dashed group name, '/', then the hour stamp |
| LogExporter.PrefixLayout | infrastructure/modules/monitoring/templates/log_exporter.py:48 | the prefix is `cloudwatch-logs/`, the dashed name, '/', and the hour stamp, and its length is 17 plus those of the name and the stamp |
| LogExporter.PrefixHourLayout | infrastructure/modules/monitoring/templates/log_exporter.py:48 | for four-digit years the prefix has 30 plus the name's length in characters, with the stamp's slashes in place |
| LogExporter.Attempts | infrastructure/modules/monitoring/templates/log_exporter.py:43-86 | the retry loop from one attempt on: each attempt makes one create call; a success appends a PENDING task, counts it and paces while groups remain; a rate limit sleeps and doubles the delay unless it was the last attempt, which counts a failure, as any other error does |
| LogExporter.AttemptsShape | infrastructure/modules/monitoring/templates/log_exporter.py:43-86 | the retry loop bumps exactly one counter by one, appends a PENDING task of that group only on success, and makes one to three identical create calls |
| LogExporter.ExportGroup | infrastructure/modules/monitoring/templates/log_exporter.py:29-91 | one pass over a group: a missing group is skipped, a failed existence check counts a failure, a found group goes through the retry loop |
| LogExporter.ExportGroupShape | infrastructure/modules/monitoring/templates/log_exporter.py:29-91 | one group bumps at most one counter, keeps the earlier tasks, and appends at most one PENDING task of that group, exactly when it adds a success |
| LogExporter.OneCounterPerGroup | infrastructure/modules/monitoring/templates/log_exporter.py:32-40 | a missing group changes nothing; a failed check bumps only the failure counter; otherwise exactly one counter goes up |
| LogExporter.AlwaysRateLimited | infrastructure/modules/monitoring/templates/log_exporter.py:43-81 | a group rate-limited every time gets exactly 3 calls, sleeps 30 s then 60 s, and is counted once as failed |
| LogExporter.FirstAttemptErrors | infrastructure/modules/monitoring/templates/log_exporter.py:83-86 | a non-rate-limit error fails the group after exactly one call |
| LogExporter.FirstAttemptSucceeds | infrastructure/modules/monitoring/templates/log_exporter.py:58-71 | a successful attempt appends one PENDING task with the returned id, counts one success, and sleeps 5 s only while fewer tasks than groups exist |
| LogExporter.FirstAttemptCounts | infrastructure/modules/monitoring/templates/log_exporter.py:29-71 | a group that exists and whose first attempt succeeds adds one success and no failure |
| LogExporter.Exports | infrastructure/modules/monitoring/templates/log_exporter.py:25-91 | the state after the loop has handled the first n groups, starting with no task and both counters at 0 |
| LogExporter.ExportsShape | infrastructure/modules/monitoring/templates/log_exporter.py:25-91 | after n groups, successful + failed ≤ n, successful = number of tasks, and every task is PENDING and names a configured group |
| LogExporter.CountedStep | infrastructure/modules/monitoring/templates/log_exporter.py:29-91 | handling one more group keeps those counts and tasks consistent |
| LogExporter.PendingStep | infrastructure/modules/monitoring/templates/log_exporter.py:58-62 | appending at most one PENDING task of a configured group keeps every task PENDING and configured |
| LogExporter.AllExported | infrastructure/modules/monitoring/templates/log_exporter.py:29-71 | when every group exists and its first attempt succeeds, every group counts as a success and none fails |
| LogExporter.CreateWithRetry | infrastructure/modules/monitoring/templates/log_exporter.py:43-86 | the retry `for` loop with its breaks and doubling delay does exactly what `Attempts` specifies |
| LogExporter.Attempt | infrastructure/modules/monitoring/templates/log_exporter.py:46-86 | one attempt either ends the retry loop in the state `Attempts` gives, or leaves exactly the remaining attempts with the doubled delay |
| LogExporter.ExportAll | infrastructure/modules/monitoring/templates/log_exporter.py:29-91 | the loop over groups reaches exactly the state `Exports` specifies |
| LogExporter.ProcessGroup | infrastructure/modules/monitoring/templates/log_exporter.py:29-91 | one pass of the group loop reaches the state `ExportGroup` specifies |
| LogExporter.RoundResult | infrastructure/modules/monitoring/templates/log_exporter.py:98-114 | the task list after one round: each task in order, kept with its reported status unless it finished or its check raised |
| LogExporter.RoundExact | infrastructure/modules/monitoring/templates/log_exporter.py:98-114 | a round removes exactly the tasks that reached COMPLETED, FAILED or CANCELLED or whose check raised; every other task stays with its reported status |
| LogExporter.RoundKeepsOpen | infrastructure/modules/monitoring/templates/log_exporter.py:104-110 | no task with a terminal status is left in the list |
| LogExporter.RoundLength | infrastructure/modules/monitoring/templates/log_exporter.py:98-114 | a round never adds tasks |
| LogExporter.PollRound | infrastructure/modules/monitoring/templates/log_exporter.py:98-114 | checking a copy of the list and updating or removing in the live list gives `RoundResult`; each task is checked once, in order |
| LogExporter.CheckTask | infrastructure/modules/monitoring/templates/log_exporter.py:99-114 | checking one task replaces it in place with its reported status, or removes it when it finished or its check raised; the rest of the list is unchanged |
| LogExporter.RoundStep | infrastructure/modules/monitoring/templates/log_exporter.py:98-114 | the checked task sits at a known position of the live list, so updating or removing it there is one step of `RoundResult` |
| LogExporter.Polling | infrastructure/modules/monitoring/templates/log_exporter.py:97-117 | the polling loop from a round on: another round while tasks remain and less than 240 s have passed |
| LogExporter.PollingShape | infrastructure/modules/monitoring/templates/log_exporter.py:94-117 | polling ends with no task left or 240 s elapsed, within 24 rounds, never adds tasks, and never leaves a finished one |
| LogExporter.Poll | infrastructure/modules/monitoring/templates/log_exporter.py:94-117 | the `while` loop does what `Polling` specifies and sleeps 10 s after every round that left tasks |
| LogExporter.Handler | infrastructure/modules/monitoring/templates/log_exporter.py:7-134 | the summary has statusCode 200, the number of groups, and the export loop's counters (polling does not touch them), with successful + failed ≤ groups; polling ends empty or at 240 s with no finished task left; it sleeps 10 s after every polling round that left tasks |

## Left out

- AWS clients and calls are inputs to the model: Cost Explorer answers, the `put_metric_data` success oracle, and the CloudWatch Logs oracles. The existence check's prefix match (`logGroupNamePrefix`) is folded into the existence oracle.
- These are not modelled: `print` logging, `:.2f` formatting, and the text of the reply bodies, that is the exporter's and backfill's messages and the log exporter's JSON with `message` and `timeRange`. The replies keep only their numbers.
- Environment variables and `json.loads(LOG_GROUPS)` are parameters.
- Clocks are parameters.
  - The cost jobs take `today` as a day number and one clock reading `now` in seconds. Each record's own `datetime.utcnow()` call is not modelled separately.
  - The log exporter takes a naive local time in seconds. `.timestamp()` is taken as the identity on seconds, so local-timezone offsets and DST are not modelled.
- Query dates are day numbers, not `strftime('%Y-%m-%d')` strings. The daily results' start dates are carried as strings in `StartOfDate`, without the `strptime` parse.
- Amounts are `real`, not binary floating point, and `float(...)` parsing of the amount strings is not modelled. So are malformed responses (missing keys); a missing `Groups` list is the empty bucket.
- Only the first key of each group is read, as the code does.
- The cost exporter's one-day window (`start_date_1d`) is computed but never used, so it is not modelled.
- The outer `except` of the log exporter (log_exporter.py:88-91) is not reachable in the model: every modelled error is caught by an inner handler. Errors raised by `time.sleep` or `print` are not modelled.
- LogExporter.PollRound: `export_tasks.remove(task)` removes the first entry equal in value. The model removes the entry at the task's own position. The two differ only when two pending entries are equal in value, which needs a repeated task id.
- LogExporter.Elapsed: the time seen by the 240 s check is its ten-second sleeps plus an input `latency`. The wall clock is not modelled.
- CostCommon.Upper: only the ASCII letters a–z are upper-cased, while Python's `str.upper()` is Unicode-aware (`'é'` becomes `'É'`, `'ß'` becomes `'SS'` and changes the length); a project name with non-ASCII letters gives a different namespace here than in the code.
- Calendar.YearText: years are zero-padded to four digits. Platform `strftime` may not pad years below 1000.
