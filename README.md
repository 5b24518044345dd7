# Turret-press planning engine — a verified model

This project models the planning core of a turret-press tooling planner in
Dafny. The planner decides which parts (each a quantity at a production rate
in units per hour, a sheet thickness, a sheet size and a list of tool
numbers) go on which machine within a budget of hours per machine, and which
tool goes in which station of the machine's turret. It has three pieces, and
each is modelled with its own loops and local state:

* **The greedy grouping/assignment engine** (`backend/app/utils/algoritmo_asignacion.py`).
  It has a pairwise compatibility score. Parts are grouped greedily in
  ascending-rate order, under a unique-tool ceiling. The least compatible
  member is evicted when a group is too long. A part is split by the hours
  available. Parts left over go through a pending pass that counts splits per
  part. A bounded consolidation merges machines.
* **The distribution service** (`backend/app/services/distribucion_service.py`).
  Requirements are grouped by thickness and sheet size. Machines are filtered
  by two hard rules. Pieces are allocated greedily per machine under an hour
  budget. Each machine's tool occurrences are unified into one record per
  tool number. The station layout pins autoindex tools, places the others
  first-fit on undamaged matching stations and sends the excess to an
  overflow list. Last come the feasibility verdict and the summary.
* **The standalone unified-layout calculator** `calcular_estilo_unificado`
  (`backend/app/services/machine_template_service.py`). It unifies and places
  the tools the same way as the service, without the overflow list and
  without the damaged-station filter.

Python dicts are modelled as a `map` plus a key-order `seq` (`Common.IsDict`), so
iteration order is kept. Lists are `seq`. Hours are exact `real`s. Python's
`int()` on a float is `Common.Trunc` (truncation toward zero), and its stable
`sorted`/`list.sort` is `Common.SortBy`. Quantities are integers. The
assignment engine's process-global split counter `_num_divisiones` is a
`map<int, nat>` that is passed in and returned. Alerts and errors are
datatypes rather than formatted strings. The engine's conservation ledger is
`Parts.Pieces`: the multiset of part ids, each repeated as many times as its
quantity, so splitting a part moves pieces without creating or losing any.

Modules, in dependency order: `Common`, `Parts`, `Compatibility`, `Grouping`,
`TimeFit`, `Consolidation`, `Assignment` (the engine); `Stations` (tool
unification and station placement, shared by the service and the
calculator), `TemplateLayout` (the calculator); `Requirements`, `Allocation`,
`ServiceLayout`, `Distribution`, `Feasibility` (the service).

## Model

| member | source | states |
|---|---|---|
| Common.Trunc | backend/app/utils/algoritmo_asignacion.py:431 | int() of a non-negative float is the largest integer not above it, and is positive exactly when the float is at least 1 |
| Common.SortBy | backend/app/utils/algoritmo_asignacion.py:89 | the sort returns a permutation of its input ordered by the key |
| Common.SortByStable | backend/app/utils/algoritmo_asignacion.py:89 | the sort is stable: elements with equal keys keep their input order |
| Common.Remove | backend/app/utils/algoritmo_asignacion.py:454 | list.remove drops exactly one occurrence of a present element and leaves a list without it untouched |
| Parts.ToolSetMembership | backend/app/utils/algoritmo_asignacion.py:121-132 | a tool number is counted iff some part of the list uses it |
| Parts.ToolSetConcat | backend/app/utils/algoritmo_asignacion.py:121-132 | the tool set of two lists together is the union of their tool sets |
| Parts.UniqueToolCountMonotone | backend/app/utils/algoritmo_asignacion.py:121-132 | adding parts never lowers the unique-tool count |
| Parts.UniqueToolCountBound | backend/app/utils/algoritmo_asignacion.py:121-132 | the unique-tool count never exceeds the number of tool entries |
| Parts.HoursPart | backend/app/utils/algoritmo_asignacion.py:135-144 | a part's hours are never negative, produce exactly its quantity at its rate, and are 0 for a rate that is not positive |
| Parts.HoursGroup | backend/app/utils/algoritmo_asignacion.py:147-151 | a list's hours are never negative |
| Parts.HoursGroupConcat | backend/app/utils/algoritmo_asignacion.py:147-151 | hours add up over concatenation |
| Parts.HoursGroupPermutation | backend/app/utils/algoritmo_asignacion.py:147-151 | reordering a list does not change its hours |
| Parts.HoursGroupMember | backend/app/utils/algoritmo_asignacion.py:147-151 | no member needs more hours than its list |
| Parts.HoursGroupRemove | backend/app/utils/algoritmo_asignacion.py:147-151 | removing a member takes exactly its hours off the list |
| Parts.HoursGroupZero | backend/app/utils/algoritmo_asignacion.py:147-151 | a list that needs no hours holds only parts that need none |
| Parts.IdleHours | backend/app/utils/algoritmo_asignacion.py:147-151 | dropping parts that need no hours leaves a list's hours unchanged |
| Parts.Portion | backend/app/utils/algoritmo_asignacion.py:268-277 | a split portion has the given quantity, is marked as a division of the original quantity, and copies every other field |
| Parts.PortionsPieces | backend/app/utils/algoritmo_asignacion.py:268-277 | the two portions of a split stand for exactly the pieces of the part |
| Parts.PortionHours | backend/app/utils/algoritmo_asignacion.py:268-277 | a portion never needs more hours than the whole part |
| Compatibility.IsRound | backend/app/utils/algoritmo_asignacion.py:15-21 | a tool number is round iff its text starts with '1' |
| Compatibility.Score | backend/app/utils/algoritmo_asignacion.py:24-52 | the score is one of 0, 30, 40, 60, 70, 100 |
| Compatibility.ScoreMeaning | backend/app/utils/algoritmo_asignacion.py:24-52 | 40 of the score is present iff both tool sets share a tool number; the score is at least 70 iff a tool is shared and one dimension is equal; it is 100 iff all three hold and 0 iff none does |
| Compatibility.ScoreSymmetric | backend/app/utils/algoritmo_asignacion.py:24-52 | the score does not depend on the order of its arguments |
| Compatibility.MeanScore | backend/app/utils/algoritmo_asignacion.py:181-201 | a member's average score against the others is within [0, 100] |
| Compatibility.LeastCompatible | backend/app/utils/algoritmo_asignacion.py:181-201 | there is no answer exactly when the group is empty, and otherwise the answer is a member of the group |
| Compatibility.LeastCompatibleIsLeast | backend/app/utils/algoritmo_asignacion.py:181-201 | the returned member has the lowest average score, and every earlier member a strictly higher one (ties go to the earliest, as the sort is stable) |
| Compatibility.PairScoresArePairs | backend/app/utils/algoritmo_asignacion.py:165-178 | every entry averaged is the score of a pair i < j of the group |
| Compatibility.PairMeanBetween | backend/app/utils/algoritmo_asignacion.py:165-178 | the average pair score lies between any lower and upper bound of the pair scores |
| Compatibility.AverageGroupCompatibility | backend/app/utils/algoritmo_asignacion.py:165-178 | the result is 100 for fewer than two members, and otherwise the mean of the scores of all pairs i < j |
| Compatibility.AverageGroupCompatibilityBounds | backend/app/utils/algoritmo_asignacion.py:165-178 | the average compatibility is a score in [0, 100], within any bounds that every pair score meets |
| Grouping.CompatibleWithAll | backend/app/utils/algoritmo_asignacion.py:99-104 | the check succeeds iff the part scores at least the threshold against every member |
| Grouping.JoinKeepsGood | backend/app/utils/algoritmo_asignacion.py:97-112 | a compatible, not-faster part that keeps the group within the tool limit leaves the group pairwise compatible, within the limit and sorted by rate |
| Grouping.JoinFirstFit | backend/app/utils/algoritmo_asignacion.py:97-112 | the part joins the first group it is compatible with and that stays within the tool limit, or none; every other group is unchanged |
| Grouping.PlacePart | backend/app/utils/algoritmo_asignacion.py:93-116 | the groups become Join of the part: it joins the first group it can join (every earlier group refuses it, the others are unchanged) or opens a new group at the end; the parts grow by exactly that part |
| Grouping.GroupSorted | backend/app/utils/algoritmo_asignacion.py:91-118 | the loop over rate-sorted parts builds exactly Grouped, the first-fit fold of Join over the list, whose groups are good and hold exactly the parts seen |
| Grouping.GroupStep | backend/app/utils/algoritmo_asignacion.py:93-116 | one more part keeps the grouping loop's invariant |
| Grouping.GroupByCompatibility | backend/app/utils/algoritmo_asignacion.py:72-118 | the groups are the first-fit fold over the parts sorted by rate; they partition the parts; none is empty; members of a group score at least the threshold pairwise; a group of two or more stays within the tool limit; each group is in ascending rate order |
| Grouping.FirstFitFromIsFirstFit | backend/app/utils/algoritmo_asignacion.py:97-112 | the scan from a point past which no group accepts the part returns the first group that does, or -1 |
| Grouping.FirstFitUnique | backend/app/utils/algoritmo_asignacion.py:97-112 | the first-fit position is unique |
| Grouping.GroupingDone | backend/app/utils/algoritmo_asignacion.py:91-118 | at the end of the loop the groups partition the parts, are non-empty, pairwise compatible, within the tool limit and sorted by rate |
| TimeFit.EvictLeastCompatible | backend/app/utils/algoritmo_asignacion.py:230-232 | the member removed is the one LeastCompatible picks and the rest is the group without its first occurrence; it takes its hours with it |
| TimeFit.AdjustGroupToTime | backend/app/utils/algoritmo_asignacion.py:204-234 | the result is Adjusted (the least compatible member removed while the group is too long and has two or more); kept and removed together are the group; the kept part fits or has at most one member; a group that fits is unchanged; the last removal was needed |
| TimeFit.AdjustedStep | backend/app/utils/algoritmo_asignacion.py:210-232 | one eviction of a too-long group of two or more: the adjustment is that of the rest, with the evicted member first among the removed |
| TimeFit.EvictsRest | backend/app/utils/algoritmo_asignacion.py:230-232 | evicting from a group of two or more leaves a non-empty group of valid rates |
| TimeFit.TimeCheckFits | backend/app/utils/algoritmo_asignacion.py:424 | a group that fits passes the time check untouched |
| TimeFit.TimeCheckLone | backend/app/utils/algoritmo_asignacion.py:426-450 | a lone part that does not fit is split into an assigned and a queued portion, or kept whole with a new machine opened when not one piece fits |
| TimeFit.TimeCheckEvict | backend/app/utils/algoritmo_asignacion.py:451-456 | a too-long group of two or more passes the time check as its rest does, with the evicted member queued first |
| TimeFit.SplitPartByTime | backend/app/utils/algoritmo_asignacion.py:237-279 | a part that fits is returned whole; with no whole piece fitting it is all pending; otherwise int(t*uph) pieces are assigned and fit in t, the pending rest is positive, and the two share out the quantity, both marked as divisions |
| TimeFit.MarkDivision | backend/app/utils/algoritmo_asignacion.py:64-69 | the part's split count goes up by one, and every other part's is unchanged |
| Consolidation.HoursByMachine | backend/app/utils/algoritmo_asignacion.py:301 | every machine, and only those, gets the hours of its parts |
| Consolidation.MergeIntoFirstFit | backend/app/utils/algoritmo_asignacion.py:315-330 | the machine is merged into the first other machine, in dict order, whose hours at the start of the round leave room for it, and is deleted; with no such machine nothing changes |
| Consolidation.MergeTarget | backend/app/utils/algoritmo_asignacion.py:315-330 | the first machine of the key order after the start, other than the one visited, whose hours at the start of the round leave room for it, or -1 when no machine has room |
| Consolidation.StuckIffNoTarget | backend/app/utils/algoritmo_asignacion.py:308-331 | a machine cannot be deleted or merged iff it needs hours and no other machine has room for it |
| Consolidation.VisitMachine | backend/app/utils/algoritmo_asignacion.py:308-331 | a zero-hour machine is deleted with its parts; otherwise it is merged exactly when MergeTarget finds an earlier-listed machine with room at the start of the round, into that machine, and is removed; else nothing changes; only parts needing no hours are lost |
| Consolidation.RoundStep | backend/app/utils/algoritmo_asignacion.py:308-333 | one visit keeps the round's invariant, or ends the round with its outcome |
| Consolidation.ConsolidationRound | backend/app/utils/algoritmo_asignacion.py:300-333 | no machine is added; survivors keep their parts first and stay within the budget when they grow; only parts needing no hours are lost; the round does nothing exactly when every machine is stuck (Settled), and then changes nothing; otherwise it removes a machine |
| Consolidation.VisitSettles | backend/app/utils/algoritmo_asignacion.py:308-331 | a visit that deletes or merges shows the dict was not settled; a visit that does nothing shows the machine is stuck |
| Consolidation.Consolidate | backend/app/utils/algoritmo_asignacion.py:300-336 | the rounds shrink the dict as each round does, and stop early only when nothing can be merged or deleted any more |
| Consolidation.NumberInOrder | backend/app/utils/algoritmo_asignacion.py:339-341 | the listed machines become keys 1..n in list order |
| Consolidation.Renumber | backend/app/utils/algoritmo_asignacion.py:338-343 | the machines become keys 1..n in ascending order of their old ids |
| Consolidation.SettledRenumbered | backend/app/utils/algoritmo_asignacion.py:338-343 | renumbering a settled dict leaves it settled |
| Consolidation.MinimizeMachines | backend/app/utils/algoritmo_asignacion.py:282-343 | keys exactly 1..n, in ascending order of the surviving ids, no more machines than before; every survivor still holds its own parts first; one that grew is within the budget; only parts needing no hours disappear; unless all five rounds removed a machine, no machine can be deleted or merged any more |
| Consolidation.MinimizeMachinesKeepsHours | backend/app/utils/algoritmo_asignacion.py:282-343 | the consolidation keeps the total hours of work |
| Assignment.FitGroupInTime | backend/app/utils/algoritmo_asignacion.py:419-458 | the group and the queued parts are exactly TimeCheck of the group against the hours left, and a machine is opened exactly when TimeCheck says so; the group then fits the current machine, unless a new machine was opened for a lone part of the group; pieces are conserved |
| Assignment.TrimLone | backend/app/utils/algoritmo_asignacion.py:426-450 | a lone part that does not fit is split into the portion that fits and a queued portion, or kept whole with stop when not one piece fits; exactly as TimeCheck; pieces conserved |
| Assignment.TrimEvict | backend/app/utils/algoritmo_asignacion.py:451-456 | the least compatible member is queued and the rest kept (Evicts); exactly as TimeCheck; the tool ceiling and pieces are kept |
| Assignment.TrimStep | backend/app/utils/algoritmo_asignacion.py:424-456 | one pass of the time loop keeps the trimming invariant and shrinks the group or makes it fit, or stops on a lone part |
| Assignment.TrimToTime | backend/app/utils/algoritmo_asignacion.py:419-458 | the loop computes exactly TimeCheck of the group: the group kept, the parts queued and whether a machine is opened; the kept group fits unless stopped on a lone part; pieces conserved |
| Assignment.TimeTraceDone | backend/app/utils/algoritmo_asignacion.py:424-456 | a finished trace of the time loop gives TimeCheck of the original group |
| Assignment.AfterTimeCheckKeeps | backend/app/utils/algoritmo_asignacion.py:444-458 | after the time check the plan queues exactly the parts removed, opens a machine exactly when asked, and keeps pieces, tool and time rules |
| Assignment.StationEvict | backend/app/utils/algoritmo_asignacion.py:474-479 | an empty machine over 52 tools queues the least compatible member of the group and keeps the rest (Evicts); pieces conserved |
| Assignment.StationCheck | backend/app/utils/algoritmo_asignacion.py:466-505 | exactly StationOutcome: within 52 tools the group goes on the current machine; over it, an empty machine evicts the least compatible member of a group of two or more or takes a lone part anyway, and a busy machine is closed; pieces are conserved and the time rule is kept |
| Assignment.Attempt | backend/app/utils/algoritmo_asignacion.py:413-505 | AttemptOutcome: the time check then the station check, exactly as TimeCheck and StationOutcome define them; at most one machine opened; pieces conserved; tool and time rules kept |
| Assignment.PlaceGroup | backend/app/utils/algoritmo_asignacion.py:408-505 | a trail of attempts (Tried) starts from the plan and the group, each step exactly one Attempt taken while the group is unplaced, at most three; the result is the last plan of a finished trail; the only error is the machine limit, reached at the start of an attempt with more than 20 machines opened; pieces of the group end on machines, pending or dropped, and none is dropped for a group within 52 tools |
| Assignment.TriedSnoc | backend/app/utils/algoritmo_asignacion.py:410-416 | one more attempt after an unplaced last step extends a trail of attempts |
| Assignment.NextGroupPlaced | backend/app/utils/algoritmo_asignacion.py:399-505 | one more group adds its trail of attempts, starting from the plan the previous group left, to the group fold; an error is the machine limit, with more than 20 machines opened; the group pass's ledger is kept |
| Assignment.PlaceAllGroups | backend/app/utils/algoritmo_asignacion.py:399-505 | the groups are tried in order (GroupsTried), each from the plan the one before left, and the result is the plan the last trail ends with; the only error is the machine limit, reached with more than 20 machines opened; the pass conserves pieces, keeps no more than 21 machines, keeps every multi-part machine within 52 tools, drops nothing when every group is within 52 tools, and keeps the time rule when every part fits |
| Assignment.GroupsTriedSnoc | backend/app/utils/algoritmo_asignacion.py:399-416 | a finished trail for the next group, starting from the plan the fold so far ends with, extends the group fold |
| Assignment.FirstWithRoom | backend/app/utils/algoritmo_asignacion.py:515-527 | the first machine, by ascending id, with room for the part, or none when no machine has room |
| Assignment.FirstRoom | backend/app/utils/algoritmo_asignacion.py:515-527 | the first machine from a point on with room for the hours, or -1 when none has room |
| Assignment.MostRoom | backend/app/utils/algoritmo_asignacion.py:545-548 | the first machine with the most hours left |
| Assignment.Roomiest | backend/app/utils/algoritmo_asignacion.py:545-548 | a machine with the most hours left, the first such one after the start |
| Assignment.PutOn | backend/app/utils/algoritmo_asignacion.py:532-542 | the parts are appended to the chosen machine and every other machine is unchanged, or they form a new last machine, refused past 20 machines; the time rule is kept when they fit |
| Assignment.SplitOnRoomiest | backend/app/utils/algoritmo_asignacion.py:544-569 | a part split fewer than twice is split for the roomiest machine, the split is counted, and the remainder is queued; pieces are conserved |
| Assignment.PortionPlaced | backend/app/utils/algoritmo_asignacion.py:544-569 | putting the fitting portion on a machine, counting the split and queueing the rest places the part |
| Assignment.SplitOutcomePlaced | backend/app/utils/algoritmo_asignacion.py:544-569 | the split for the roomiest machine places the part, or fails only on the machine limit |
| Assignment.PlacePending | backend/app/utils/algoritmo_asignacion.py:508-593 | exactly PendingOutcome: the part goes whole on the first machine with room (FirstRoom), or on a new machine when it fits the budget; else, split fewer than twice, it is split for the roomiest machine (SplitOutcome); otherwise the error names the part and its split count, and the part needs more than the budget and fits no machine |
| Assignment.PlacePendingParts | backend/app/utils/algoritmo_asignacion.py:508-595 | a trail of plans (PendingFold) from the group pass's plan, each step exactly PendingOutcome of the next pending entry; the result is the last plan, reached after every entry; an error is the outcome of the entry the trail stops at (PendingStuck), and the machine limit only when a new machine would be the 21st; every held piece ends on a machine, and no part is split more than twice |
| Assignment.PendingFoldSnoc | backend/app/utils/algoritmo_asignacion.py:508-593 | a plan that is the outcome of the next pending entry extends the pending fold |
| Assignment.PendingStep | backend/app/utils/algoritmo_asignacion.py:508-593 | one pending entry extends the pending fold or stops it with its outcome's error (the machine limit only when a new machine would be the 21st); the pass ledger is kept, and the step either uses up a split or adds no queued part |
| Assignment.PlaceGrouped | backend/app/utils/algoritmo_asignacion.py:399-595 | the group pass then the pending pass, as Placements states: the group trails, then the pending trail from the plan they end with; an error is the machine limit with more than 20 machines opened, or the outcome of the pending entry the trail stops at; on success every piece is on a machine |
| Assignment.NonEmptyMachinesOf | backend/app/utils/algoritmo_asignacion.py:595 | the result keeps keys within 1..21 for non-empty machines, within the budget when every part fits |
| Assignment.AssignOptimizedFinal | backend/app/utils/algoritmo_asignacion.py:346-598 | empty input gives no machines and leaves the split counter alone; no part is split more than twice; returned machines are keyed 1..21 and non-empty and hold exactly the input's pieces; within the budget when each part fits; an unplaceable part needs more than the budget; the groups are the greedy grouping of the parts by ascending rate, and the machines are the last plan of the placement (Placements); an error is exactly the placement's, and the machine limit is raised only with more than 20 machines opened (group pass) or when a new machine would be the 21st (pending pass) |
| Stations.ConfigOfAbsent | backend/app/services/machine_template_service.py:71-75 | a station the template does not list gets type "A", no guide, not autoindex |
| Stations.ConfigOfPresent | backend/app/services/machine_template_service.py:71-75 | a listed station gets its own configuration |
| Stations.UsesOf | backend/app/services/machine_template_service.py:63-69 | each tool of a setup becomes one occurrence attributed to its part number |
| Stations.FirstIndexIsFirst | backend/app/services/machine_template_service.py:77-94 | no occurrence before the first one names the tool number |
| Stations.OrderIsDict | backend/app/services/machine_template_service.py:77-94 | the key order lists every tool number used exactly once |
| Stations.OrderByFirstOccurrence | backend/app/services/machine_template_service.py:77-94 | the key order follows the first occurrence of each tool number |
| Stations.DescribesFresh | backend/app/services/machine_template_service.py:83-94 | a first occurrence creates the record that describes it |
| Stations.DescribesBump | backend/app/services/distribucion_service.py:465-474 | a later occurrence bumps the count, lists its part once and (in the service) promotes an autoindex occurrence, and the record still describes all occurrences |
| Stations.DescribesOther | backend/app/services/machine_template_service.py:77-94 | an occurrence of another tool number leaves a record's description valid |
| Stations.MergeUseKeeps | backend/app/services/distribucion_service.py:453-487 | folding one more occurrence keeps the unification |
| Stations.UnifyTools | backend/app/services/distribucion_service.py:453-487 | after a part's tools are folded in, the records describe every occurrence so far: the first fixes angle, guide, type and original station; count and parts reflect all of them |
| Stations.Values | backend/app/services/distribucion_service.py:511 | the records in key order |
| Stations.PinAutoindex | backend/app/services/distribucion_service.py:517-532 | every autoindex record, in order, becomes an entry at its original station, and those stations are taken |
| Stations.FindStation | backend/app/services/distribucion_service.py:541-552 | the first station, in template order, that is free and matches type and guide, or none |
| Stations.PlacementDistinct | backend/app/services/machine_template_service.py:118-144 | no station is picked twice, and none taken by the autoindex pass |
| Stations.LabelsDistinct | backend/app/services/machine_template_service.py:118-144 | two placed records share a station name only when both are "SIN_ASIGNAR" |
| Stations.EmptyNameUnassigned | backend/app/services/machine_template_service.py:137 | a station whose name is empty counts as not found, and the entry is labelled "SIN_ASIGNAR" |
| Stations.PlaceNext | backend/app/services/machine_template_service.py:121-144 | one scan, the station it claims and the entry it produces |
| Stations.LaidOutToolNumbers | backend/app/services/machine_template_service.py:99-144 | the layout has exactly one entry per tool number used |
| Stations.LaidOutAutoindexFirst | backend/app/services/machine_template_service.py:101-115 | autoindex entries precede all others |
| Stations.LaidOutEntries | backend/app/services/machine_template_service.py:99-144 | every entry repeats its tool number's unified record, and an autoindex entry sits at its original station |
| Stations.LaidOutStationsDistinct | backend/app/services/machine_template_service.py:118-144 | no two non-autoindex entries share a real station |
| Stations.LaidOutKeepsPinned | backend/app/services/machine_template_service.py:98-133 | no non-autoindex entry takes a station an autoindex entry holds |
| TemplateLayout.UnifySetups | backend/app/services/machine_template_service.py:63-94 | the records unify every tool occurrence of the setups, the autoindex flag being the first occurrence's |
| TemplateLayout.PlaceRestOne | backend/app/services/machine_template_service.py:118-144 | one record of the second pass is skipped (autoindex) or placed first-fit |
| TemplateLayout.PlaceRest | backend/app/services/machine_template_service.py:118-144 | every non-autoindex record, in order, gets its first-fit station or "SIN_ASIGNAR" |
| TemplateLayout.CalculateUnifiedStyle | backend/app/services/machine_template_service.py:41-146 | one entry per tool number used; each agrees with its record; autoindex entries first, at their original station; the others on distinct first-fit stations never held by an autoindex entry |
| Requirements.PartToolsZip | backend/app/services/distribucion_service.py:436-447 | without tools_data or angles, station i pairs with tool number i at angle 0, as far as the shorter list goes |
| Requirements.CollectGroup | backend/app/services/distribucion_service.py:36-45 | the inner loop collects exactly the class of the starting requirement's key, in dict order, with the union of their tools |
| Requirements.CollectOne | backend/app/services/distribucion_service.py:36-45 | one position of the inner loop keeps its invariant |
| Requirements.NextGroup | backend/app/services/distribucion_service.py:18-47 | one step of the outer loop keeps the groups distinct classes and the grouped set exact |
| Requirements.GroupByPreferences | backend/app/services/distribucion_service.py:10-52 | every group is the class of one (thickness, sheet size) key with the union of its tools; no group twice; every key covered; most tools first |
| Requirements.ClassesByKey | backend/app/services/distribucion_service.py:10-52 | two groups with the same key are the same group |
| Requirements.GroupsPartition | backend/app/services/distribucion_service.py:10-52 | a requirement is in a group iff it has the group's key, is in some group, and in only one |
| Requirements.ToolsOfMembership | backend/app/services/distribucion_service.py:24-44 | a group's tools are exactly the tool numbers some member lists |
| Requirements.CheckMachine | backend/app/services/distribucion_service.py:254-267 | the scan accepts iff both rules hold for every requirement |
| Requirements.ApplyHardRules | backend/app/services/distribucion_service.py:229-275 | the machines meeting both rules, in input order |
| Requirements.HardRulesKeep | backend/app/services/distribucion_service.py:229-275 | a machine is kept iff it was offered and fits every requirement |
| Allocation.IdleTracks | backend/app/services/distribucion_service.py:291-300 | a fresh machine state meets the tracking invariant |
| Allocation.OrderMachines | backend/app/services/distribucion_service.py:55-91 | every machine exactly once, by descending preference score |
| Allocation.OrderMachinesStable | backend/app/services/distribucion_service.py:89 | machines with equal scores keep their list order |
| Allocation.ShareFits | backend/app/services/distribucion_service.py:343-344 | a positive share up to int(t*uph) pieces takes positive hours within t |
| Allocation.CutLeavesNoPiece | backend/app/services/distribucion_service.py:343-344 | after int(t*uph) pieces not one more whole piece fits |
| Allocation.ShareBounds | backend/app/services/distribucion_service.py:343-347 | the share is between 0 and what is pending, positive iff the machine is not full, fits in the hours left, and leaves the machine full when less than pending |
| Allocation.TakeAt | backend/app/services/distribucion_service.py:326-385 | what one machine takes: never negative nor above what is pending, and positive iff something is pending and the machine is not full |
| Allocation.Added | backend/app/services/distribucion_service.py:366-385 | a machine gains one allocation record exactly when it takes pieces at a positive rate |
| Allocation.TookAdds | backend/app/services/distribucion_service.py:366-385 | a visit appends exactly that record and never lowers the hours used |
| Allocation.FullLater | backend/app/services/distribucion_service.py:343-347 | a machine full for a requirement stays full when its hours grow |
| Allocation.Visit | backend/app/services/distribucion_service.py:326-385 | a full machine takes nothing (an alert for an invalid rate); otherwise it takes its share; the machine stays tracked and within the budget, and is full when it took less than pending |
| Allocation.TracksAdd | backend/app/services/distribucion_service.py:366-385 | adding an allocation whose hours fit keeps a machine tracked |
| Allocation.AllocateStep | backend/app/services/distribucion_service.py:326-385 | one machine of the loop keeps the allocation invariant |
| Allocation.StepShares | backend/app/services/distribucion_service.py:326-385 | one machine more keeps the per-position shares up to it |
| Allocation.TakesStep | backend/app/services/distribucion_service.py:326-385 | one machine of the fold takes TakeAt of what is pending |
| Allocation.TakesInOrder | backend/app/services/distribucion_service.py:326-385 | the fold gives each machine, in order, TakeAt of what the earlier ones left |
| Allocation.TakesOrdered | backend/app/services/distribucion_service.py:326-385 | from no pieces taken, each machine in the order takes TakeAt of what the earlier ones left |
| Allocation.AllocateLoop | backend/app/services/distribucion_service.py:326-385 | the loop stops at the end of the order or when nothing is pending, and its shares are the fold over the order |
| Allocation.AllocateRequirement | backend/app/services/distribucion_service.py:310-393 | machines are visited in the given order and each takes exactly TakeAt of the pieces still pending when it is reached; each machine changes only by its pieces; pieces taken add up to the quantity allocated, never above it; the rate alert appears exactly where due; a shortfall remains only when every machine is full |
| Allocation.AllocationEnd | backend/app/services/distribucion_service.py:326-328 | when the loop stops, the alerts are exactly those due and a shortfall leaves every machine full |
| Distribution.ShortfallsConcat | backend/app/services/distribucion_service.py:388-392 | the errors of two logs are those of each, in order |
| Distribution.NoShortfalls | backend/app/services/distribucion_service.py:388-392 | nothing short, no error |
| Distribution.RecordShortfall | backend/app/services/distribucion_service.py:390-392 | every machine records the same error, and nothing else changes |
| Distribution.RecordKeepsTracks | backend/app/services/distribucion_service.py:390-392 | recording an error keeps every machine tracked |
| Distribution.LedgerConcat | backend/app/services/distribucion_service.py:306-393 | ledgers of two logs together form one, and each machine's records are those of the first followed by those of the second |
| Distribution.GrewSnoc | backend/app/services/distribucion_service.py:308-393 | one more requirement grows each machine by exactly its record |
| Distribution.GrewConcat | backend/app/services/distribucion_service.py:306-393 | growth over two logs composes |
| Distribution.AllocatedStep | backend/app/services/distribucion_service.py:308-393 | what AllocateOne ensures is one Allocated step: ranking, TakeAt shares, Took changes, alerts and the error of a shortfall |
| Distribution.FollowedSnoc | backend/app/services/distribucion_service.py:308-393 | one more allocated requirement extends a trail of machine states |
| Distribution.FollowedConcat | backend/app/services/distribucion_service.py:306-393 | two trails where the second starts at the end of the first form one trail |
| Distribution.GroupTrailSnoc | backend/app/services/distribucion_service.py:308-393 | one more requirement of a group extends the group's trail, ranked for the group's thickness |
| Distribution.GroupsTrailSnoc | backend/app/services/distribucion_service.py:306-393 | one more group's run extends the group loop's trail, each requirement ranked for its own group's thickness |
| Distribution.ShortStaysFull | backend/app/services/distribucion_service.py:306-393 | machines full for a requirement stay full as they take more |
| Distribution.AllocateOne | backend/app/services/distribucion_service.py:308-393 | one requirement: the machines are ranked by OrderMachines for the group thickness, and each, in that order, takes exactly TakeAt of the pieces still pending; each machine changes as Took says (one record of its share, its hours and its tools) and records the invalid-UPH alert for a positive quantity; the shares add up to the quantity allocated; pending within [0, total] for a positive total; every machine records the error iff something is pending, and then every machine is full |
| Distribution.AllocateGroup | backend/app/services/distribucion_service.py:306-393 | the group's requirements in order until one is left short; a trail of machine states links every requirement of the run to one Allocated step ranked for the group's thickness (the ranking, TakeAt shares, Took changes, alerts and error of AllocateOne); every machine's records grow by exactly its shares, in order; all machines carry one error per requirement left short and are full for it |
| Distribution.GroupStep | backend/app/services/distribucion_service.py:308-393 | one requirement either continues the group or ends its run |
| Distribution.GroupStopped | backend/app/services/distribucion_service.py:390-393 | a requirement left short ends the group's run, logs one error on every machine and leaves every machine full for it |
| Distribution.NextGroupRun | backend/app/services/distribucion_service.py:306-393 | one more group keeps the outer loop's invariant |
| Distribution.SetUnifiedCount | backend/app/services/distribucion_service.py:407-408 | every allocation gets the layout's station count, nothing else changes |
| Distribution.Report | backend/app/services/distribucion_service.py:397-424 | the report of a used machine: its identity, allocations with the layout's station count, hours within the budget, alerts and errors, and a layout plus overflow that are exactly what GenerateStyle builds from its unified tools (Styled) and hold each tool number once |
| Distribution.ReportStep | backend/app/services/distribucion_service.py:397-424 | one machine of the report loop: skipped without parts, reported with |
| Distribution.BuildAssignments | backend/app/services/distribucion_service.py:395-426 | exactly the machines that got parts are reported, in list order |
| Distribution.AssignPartsToMachines | backend/app/services/distribucion_service.py:278-426 | groups are the preference classes, most tools first, and no machine appears in two of them; each is processed until a requirement is left short; a trail of machine states from all-idle to the final states links every processed requirement to one Allocated step ranked for its group's thickness; every machine holds exactly its shares of the processed requirements, in order, and the shares of each requirement add up to what was allocated of it; every machine is full for each requirement left short; the reported machines are those with parts, each with the layout GenerateStyle builds; every report carries the same errors, one per shortfall |
| ServiceLayout.RoutedSnoc | backend/app/services/distribucion_service.py:564-575 | an entry stays in the layout iff a station was found and the running total is within the undamaged stations; otherwise it goes to the overflow |
| ServiceLayout.EmptyNameOverflows | backend/app/services/distribucion_service.py:555-575 | an entry whose found station has an empty name does not stay in the layout |
| ServiceLayout.PlaceOne | backend/app/services/distribucion_service.py:535-575 | one record of the second pass is skipped (autoindex) or placed and routed |
| ServiceLayout.PlaceOrOverflow | backend/app/services/distribucion_service.py:535-575 | every non-autoindex record gets its first-fit station and is routed to the layout or the overflow |
| ServiceLayout.GenerateStyle | backend/app/services/distribucion_service.py:490-577 | autoindex entries at their original stations first; the others first-fit on undamaged stations; each routed to layout or overflow, both in order |
| ServiceLayout.StyleToolsOnce | backend/app/services/distribucion_service.py:490-577 | every unified tool appears exactly once in layout and overflow together |
| ServiceLayout.StyleWithinStations | backend/app/services/distribucion_service.py:564-569 | the layout is no longer than the undamaged stations unless the pinned autoindex tools alone are |
| Feasibility.TallyParts | backend/app/services/distribucion_service.py:595-599 | the tally of one machine adds its pieces per part number |
| Feasibility.TallyPieces | backend/app/services/distribucion_service.py:593-599 | one entry per part number mentioned, holding its pieces over all reports |
| Feasibility.PiecesAbsent | backend/app/services/distribucion_service.py:605 | a part number no report mentions has no pieces (the `.get(pn, 0)` default) |
| Feasibility.Shortages | backend/app/services/distribucion_service.py:601-611 | at most one shortage per requirement, each with a positive missing count |
| Feasibility.ShortagesEmpty | backend/app/services/distribucion_service.py:601-611 | no requirement is short iff every one got its quantity |
| Feasibility.ListShortages | backend/app/services/distribucion_service.py:601-611 | the requirement loop lists the shortages in order, one error each |
| Feasibility.Tolerated | backend/app/services/distribucion_service.py:622-627 | at most one alert per report |
| Feasibility.Critical | backend/app/services/distribucion_service.py:628-634 | at most one entry per report, each with more than ten tools out |
| Feasibility.CriticalEmpty | backend/app/services/distribucion_service.py:618-634 | no machine is critical iff each has at most ten tools out |
| Feasibility.ScanOverflow | backend/app/services/distribucion_service.py:618-634 | alerts for one to ten tools out, errors for more |
| Feasibility.OverflowChecks | backend/app/services/distribucion_service.py:617-644 | the overflow checks plus the slack alert about the last report when some machine is critical |
| Feasibility.QuantityErrors | backend/app/services/distribucion_service.py:601-615 | the shortages, one error each, headed by the capacity summary when there is any |
| Feasibility.ProblemOrder | backend/app/services/distribucion_service.py:614-638 | both summaries inserted at the front give the documented error order |
| Feasibility.Verdict | backend/app/services/distribucion_service.py:580-651 | no shortage, no critical machine and some report iff every quantity is met, no machine has more than ten tools out and there is a machine |
| Feasibility.EvaluateFeasibility | backend/app/services/distribucion_service.py:580-651 | feasible iff every quantity is met, no machine has more than ten tools out, and some machine is used; the errors and alerts in their exact order |
| Feasibility.Summarize | backend/app/services/distribucion_service.py:654-672 | fails exactly when there are reports and the budget is zero; counts and echoes; efficiency 0 with no reports |
| Feasibility.HoursWithinBudget | backend/app/services/distribucion_service.py:662 | reports within the budget sum to at most the budget times their number |
| Feasibility.EfficiencyBounds | backend/app/services/distribucion_service.py:670 | with a positive budget and every report within it, the efficiency is a percentage |
| Feasibility.DistributionEfficiency | backend/app/services/distribucion_service.py:670 | the reports of the distribution give a defined efficiency in [0, 100] for a positive budget |

## Left out

- Persistence, routers and the UI are out of scope. This covers
  `crear_distribucion` and `calcular_requerimientos` (distribucion_service.py:93-226), the database sessions, and the ORM and pydantic types. Requirements and machines are passed in as values. Machines are identified by their position in the list.
- `calcular_carga_maquina` (algoritmo_asignacion.py:154-162) is a one-line percentage of a fixed 24 hours that no modelled operation calls. It is not part of this model.
- `generar_reporte_asignacion` (algoritmo_asignacion.py:601-658) only formats text, so it is not part of this model.
- Alerts and errors are structured values, not formatted strings.
- The assignment engine's `alertas` list is never returned (algoritmo_asignacion.py:596-598), so it is not modelled.
- `round(..., 2)` and `round(..., 1)` on reported hours and efficiency are display rounding; the model keeps exact reals. The JSON decoding of a template given as a string is left out, and templates are taken as already-decoded ordered lists of (station, configuration).
- A `part_number` given as a dict (distribucion_service.py:313-315) is not modelled: part numbers are strings.
- Floating-point arithmetic is modelled as exact real arithmetic.
- Assignment.AssignOptimizedFinal: requires every part's rate to be non-negative. A negative rate would make `int(t * uph)` negative and produce negative quantities, which the quantity type cannot hold.
- Assignment.AssignOptimizedFinal: the promise "never exceed horas_objetivo" (algoritmo_asignacion.py:355) is proved only when every part fits in the budget on its own. The break at line 450 opens a new machine when not one piece of a lone part fits. The part is then appended whole at line 503 without rechecking its hours, and that can take a machine over the budget.
- Assignment.PlaceGroup: the source would drop a group still unplaced after MAX_INTENTOS = 3 attempts (algoritmo_asignacion.py:411-413). That cannot happen to a group within the 52-tool rule (a lone part, or a group whose unique tools are at most 52), and every group the grouping builds is one (algoritmo_asignacion.py:109). The contract names the pieces of such a drop `dropped` and proves it empty for a group within the rule; AssignOptimizedFinal therefore places every piece.
- Assignment.TrimLone: the first-pass split (algoritmo_asignacion.py:433-444) does not call `marcar_division_parte`, as in the source. Only pending-pass splits are counted.
- Requirements.GroupByPreferences: the groups are ordered by descending tool count, but the order among groups with the same tool count (the order of first appearance, kept by Python's stable `sorted` at distribucion_service.py:50) is not stated, though the model computes it.
- A part's `uph` is a required field of the model's Part and Requirement. The source reads it with a default that differs by site: `parte.get('uph', 0)` for the sort key (algoritmo_asignacion.py:89) and `.get('uph', 1)` for hours and splits (algoritmo_asignacion.py:141, 429). A part without `uph` is not modelled.
- Assignment.StationCheck: the 52-tool ceiling holds only for machines with two or more parts. The pending pass places a part above the ceiling with only an alert, both on an existing machine (algoritmo_asignacion.py:521-523) and as a lone part on a new machine (algoritmo_asignacion.py:533-536). When a split portion would push the roomiest machine above the ceiling, it raises an alert and moves that portion to a new machine of its own (algoritmo_asignacion.py:555-562), which SplitOutcome models. Pass-3 placements are therefore not bound by the ceiling.
- Assignment.PlacePending: the fallback at algoritmo_asignacion.py:571-589 is dead code. Its two conditions were just checked and failed at 515-527 and 532, so an unplaceable part raises directly.
- The `if not grupo` branch at algoritmo_asignacion.py:460-464 is dead code: trimming never empties a group. The branch is omitted.
- Compatibility.IsRound: `es_redondo` is modelled, but no score or matcher of the source uses it.
- Consolidation.MinimizeMachines: deletes a zero-hour machine together with its parts (algoritmo_asignacion.py:309-313). Those parts need no hours but are lost from the result; the contract names them. `asignar_optimizado_final` does not call it.
- ServiceLayout.GenerateStyle: both overflow branches (distribucion_service.py:570-575) append to the overflow, so the +10 limit does not change placement. The entry's `station_final` (set at line 473 by a later autoindex occurrence) is not used: autoindex entries are placed at `station_orig` (line 520).
- Allocation.Visit: the re-check at distribucion_service.py:356-362 is omitted because it can never fire. The share is at most int(t * uph), so its hours never exceed the hours left, and it is positive.
- Allocation.OrderMachines: as in the source, the score compares the machine's own `thickness_min` with the group's thickness, not the thickness of the parts already on it (distribucion_service.py:72-76). It measures the time left against a fixed 24 hours, not the budget (line 83).
- Distribution.AssignPartsToMachines: the `break` at distribucion_service.py:393 ends the rest of the group, not only the machine loop. The remaining requirements of that group get no allocation and no error, and the contract states this through the group runs.
- Feasibility.EvaluateFeasibility: the shortage check sums pieces per part number over all requirements sharing it. The slack alert uses the loop variable `asig` left over from the overflow loop (the last report) and fires only when some machine is critical (distribucion_service.py:636-644). The model does the same.
- Feasibility.Summarize: a zero budget with reports raises ZeroDivisionError in the source; the model returns `Err(DivisionByZero)`.
- TemplateLayout.CalculateUnifiedStyle: template station names are assumed distinct, as in a dict.
