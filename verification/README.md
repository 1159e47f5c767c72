# A Dafny model of PolyWAN

PolyWAN is a multi-uplink policy-routing daemon: it plans kernel routing rules
and routes, compares them with what the kernel reports, and applies the
difference in an order chosen so that every intermediate state is safe. An
nftables program keeps each connection on the uplink it started on. This
project models that control loop and its smaller cores and proves what they
promise. `dafny verify dfyconfig.toml` checks all of it.

| file | what it models |
|---|---|
| Marks | the 8-bit field of a 32-bit mark, with bitwise operations defined on numbers |
| Order, Configuration, Model | sorting and enumeration; the configuration and its table and priority arithmetic |
| Planner, PlannedRoutes | the planned rules and routes, and what holding paths back changes |
| Meaning, ClassTable | what a rule list does to a packet, and the class table it stands for |
| Observed, View | rules and routes as reported, and the incrementally kept view of them |
| Reconcile, Runs, RunSafety, Convergence | the difference, its execution, safety of all prefixes of all runs, convergence |
| Teardown | cleanup over several layouts |
| Nft, Stickiness, Journeys | the marking chains, and whole journeys of the packets of a connection |
| Assignments, Barrier, Daemon, Application | the nftables step as a barrier between planning and routing |
| Commands, CommandLoop | commands, reloads and the drain intent |
| Settings | write-ahead system settings |
| Calendar, History, Notifier, Admission, Base64, Checksum, Health | the smaller cores |

Objects that the program updates in place are classes (`Daemon.Control`,
`CommandLoop.Orders`, `Settings.Machine`, `View.Cache`, `History.Ring`,
`Admission.Gate`, `Health.Path`) whose methods are tied to functions on values;
the theorems are about those functions and their runs.

Differences are modelled as any operation list that the code could produce: the
order of operations with equal keys is left open, so the run theorems hold for
every such order. A run is any sequence of new plans, each executed up to an
arbitrary point.

## What does not hold as stated

- One execution of a whole difference with paths held back does not reach the
  desired state when a desired route is already there and the state before the
  nftables step wants another one (`Convergence.DisplacedExample`). It does
  exactly otherwise (`Convergence.OneShotConvergesIff`). The daemon recomputes
  the difference after the nftables step, and that always converges
  (`Application.DaemonConverges`).
- On a cold start, while the first transaction is in flight and no table is
  known, a reload followed by a pass can install a path that the transaction
  does not mark; when it succeeds, the table is known and the barrier is broken
  (`Barrier.ColdGapReached`). Passes keep it exactly if the configuration has no
  assignment the transaction leaves out (`Barrier.ColdGapIff`). The nftables step
  is then pending again, and the pass that reaches it restores the barrier
  (`Barrier.LaunchRecovers`). From a known table with the invariant, the barrier
  holds in every later state (`Barrier.KnownForever`).
- A member taken out of, or merged into, a multipath route can leave the view
  wrong without a re-read: when the members of a route of `main` partly have
  gateways (`View.MixedMember`, `View.MixedJoin`), and when another route has the
  identity of the member (`View.SharedMember`). The conditions are exact
  (`View.SplitIff`, `View.MergedIff`, `View.NotifiedIff`). These statements are
  about any kernel that reports such routes.
- A setting that is recorded but not yet written, then changed by somebody else
  and then applied, is later restored to the old baseline
  (`Settings.StaleBaseline`, a run from a fresh installation). Restoring returns
  the value PolyWAN replaced exactly if that was the recorded baseline when the
  write was made (`Settings.RestoresReplacedIff`); for keys nobody else changed
  it always was (`Settings.UntouchedReplaced`).
- An event larger than the whole ring empties it (`History.LatestKept`).

## Model

| member | source | states |
|---|---|---|
| Marks.ValueSelector | crates/polywan/src/plan.rs:172-174 | Matching a mark under the mask against an encoded value is the same as the field holding that value, for every shift 0 to 24 and every 32-bit mark. |
| Marks.ClassSelector | crates/polywan/src/plan.rs:176-178 | Matching under the class mask selects exactly the marks of that class. |
| Marks.GuardSelector | crates/polywan/src/plan.rs:232-244 | The k-th path guard selects exactly the path values whose k-th id bit is set. |
| Marks.GuardsCoverPathValues | crates/polywan/src/plan.rs:232-244 | Together the six path guards select exactly the 63 non-zero path values. |
| Marks.SetFieldMeaning | crates/polywan/src/nft.rs:94-97 | A constant-only write stores the value in the field, keeps every bit outside the mask and stays a 32-bit mark. |
| Marks.MaskAccepted | crates/polywan/src/model.rs:122-126 | A mask is accepted if and only if it is eight contiguous bits at a shift of 0 to 24, and that shift is found. |
| Planner.StaticRuleList | crates/polywan/src/plan.rs:182-259 | The loop emits exactly the static rules of the given uplinks. |
| Planner.SourceRuleList | crates/polywan/src/plan.rs:262-282 | The loop over a path's addresses emits exactly its source rules and source guards. |
| Planner.PlanFamily | crates/polywan/src/plan.rs:306-370 | The loop over the uplinks of a managed family builds its rules and one route for each table. |
| Planner.MakePlan | crates/polywan/src/plan.rs:306-370 | The planner computes the desired rules and routes of both families. |
| Meaning.Decider | crates/polywan/src/plan.rs:182-282 | Walking a sorted rule list is decided by a rule of the set that no deciding rule precedes by priority; without one the packet passes on. |
| Meaning.DecisionByField | crates/polywan/src/plan.rs:182-282 | What a rule of the plan decides depends on the mark only through its field, kind by kind. |
| Meaning.SomePathGuardRejects | crates/polywan/src/plan.rs:232-244 | Every non-zero path value is rejected by some path guard. |
| ClassTable.PlannedRulesMean | crates/polywan/src/plan.rs:182-282 | For every mark, source, uplink set and table content, walking the planned rules gives the class table: probes use their path table or are rejected, path values use main, their table or are rejected, policy values likewise or fall to balancing, unassigned traffic uses its source rules and then balancing, and nothing passes the final guard. |
| ClassTable.PlannedComplete | crates/polywan/src/plan.rs:306-333 | The plan of a managed family has all guards, lookups and source rules the class table relies on. |
| ClassTable.UnmanagedPassesOn | crates/polywan/src/plan.rs:309-312 | A family that is not managed is not touched by the planned rules. |
| PlannedRoutes.PlannedWellFormed | crates/polywan/src/plan.rs:306-370 | Every planned route is in an owned table, under its own key, with sorted next hops of valid weight, so that it survives the trip through the kernel. |
| PlannedRoutes.WithoutHeldBack | crates/polywan/src/plan.rs:284-303 | Holding paths back changes no rule, adds no table and leaves every path table as it is. |
| PlannedRoutes.MembersAre | crates/polywan/src/plan.rs:345-350 | The balancing members are exactly the active ready paths, with their configured weights. |
| Assignments.TablesLeadOut | crates/polywan/src/plan.rs:321-366 | A path or policy table leads out of its own uplink's interface only; the balancing table holds every member once, with its weight. |
| Observed.RouteRoundTrip | crates/polywan/src/netlink/msg.rs:411-439 | A planned route reported back by the kernel is recognised as itself if and only if it is well formed. |
| Observed.RuleForm | crates/polywan/src/netlink/msg.rs:176-198 | The reported form of a rule is the one and only observed rule that counts as that rule. |
| Observed.PresentIsOwn | crates/polywan/src/reconcile.rs:117-122 | A route counts as present exactly if it is the route of its table in the view. |
| Observed.ObservedIsOwn | crates/polywan/src/reconcile.rs:215-223 | The tables found to hold a PolyWAN route are exactly those of the layout with a PolyWAN-shaped route of its protocol. |
| Reconcile.Diff | crates/polywan/src/reconcile.rs:137-213 | The operations are the seven parts in order, each element once, additions and deletions of rules in their orders. |
| Reconcile.Execute | crates/polywan/src/reconcile.rs:345-412 | Operations are applied in order up to the first failure or the nftables step, and the view follows each success. |
| Runs.SourceRuleFirst | crates/polywan/src/reconcile.rs:78-91 | A source rule is added before the source guard of its address. |
| Runs.SourceGuardFirst | crates/polywan/src/reconcile.rs:225-237 | A source guard is deleted before the source rules of its address. |
| Runs.AddingSafe | crates/polywan/src/reconcile.rs:78-91 | After any number of additions the rules are safe: lookups have their class guards, a final guard its main bypass and balancing rule, a source guard a source rule. |
| Runs.DeletingSafe | crates/polywan/src/reconcile.rs:93-107 | The same after any number of deletions. |
| RunSafety.PassSafe | crates/polywan/src/reconcile.rs:137-213 | Executing any prefix of any difference keeps safe rules safe. |
| RunSafety.PlannedWhole | crates/polywan/src/plan.rs:182-282 | Every plan has all common rules of each family it has a rule of, and a source rule for each source guard. |
| RunSafety.RunKeepsGuards | crates/polywan/src/reconcile.rs:80-213 | In every state of every run from a kernel without PolyWAN rules, with each difference executed up to an arbitrary prefix: any lookup rule has all class guards of its family, a final guard has the main bypass and balancing rules, a source guard has a source rule for its address. |
| RunSafety.RunConfines | crates/polywan/src/reconcile.rs:80-213 | In every such state a packet of a guarded class only meets its own table, main or a rejection, and passes PolyWAN's rules only while its family has no lookup rule; with a final guard nothing passes. |
| RunSafety.SourceConfines | crates/polywan/src/plan.rs:262-282 | With safe rules, unassigned traffic from a local address with a source guard is confined to the tables of its source rules or rejected. |
| Convergence.RunRoute | crates/polywan/src/reconcile.rs:352-412 | Executing operations changes each PolyWAN table on its own, as the operations on that table say. |
| Convergence.BeforeNftRoute | crates/polywan/src/reconcile.rs:139-176 | What each table holds after the operations before the nftables step. |
| Convergence.WholeRoute | crates/polywan/src/reconcile.rs:137-213 | What each table holds after the whole difference. |
| Convergence.WholeRules | crates/polywan/src/reconcile.rs:177-205 | The whole difference leaves exactly the desired rules and every rule that is not PolyWAN's. |
| Convergence.FullPassConverges | crates/polywan/src/reconcile.rs:137-213 | From any state, executing a whole difference with nothing held back reaches the desired state and keeps everything that is not PolyWAN's. |
| Convergence.EmptyDiffIff | crates/polywan/src/reconcile.rs:137-213 | A difference is empty if and only if the system is in the desired state. |
| Convergence.OneShotConvergesIff | crates/polywan/src/reconcile.rs:137-213 | With paths held back, one execution of the whole difference converges if and only if no desired route is displaced. |
| Convergence.DisplacedExample | crates/polywan/src/reconcile.rs:139-165 | A concrete state in which a desired route is displaced. |
| Convergence.TwoPassesConverge | crates/polywan/src/daemon.rs:2203-2236 | The operations before the nftables step followed by a recomputed difference reach the desired state, and a third difference is empty. |
| Teardown.MakeTeardown | crates/polywan/src/reconcile.rs:260-294 | The loops produce the owned rules of all layouts in removal order and the PolyWAN tables, each once. |
| Teardown.RoleIff | crates/polywan/src/reconcile.rs:239-262 | A rule has a role in a layout if and only if it is a rule the planner can write there. |
| Teardown.RolesOrdered | crates/polywan/src/reconcile.rs:225-237 | Whatever the layouts, lookups with a role sort before class guards, final guards before everything else, source guards before the source rules of their address. |
| Teardown.TeardownExact | crates/polywan/src/reconcile.rs:267-294 | Cleanup removes exactly the rules and PolyWAN-shaped routes that carry a listed protocol within its layout and keeps everything else. |
| Teardown.TeardownState | crates/polywan/src/reconcile.rs:284-293 | At every prefix, rules are removed in order first, and routes only after all rules. |
| Teardown.TeardownOrdered | crates/polywan/src/reconcile.rs:225-294 | At every prefix, what must go before a removed rule is gone. |
| Teardown.TeardownKeepsGuards | crates/polywan/src/reconcile.rs:225-294 | Cleanup keeps the guard properties of every listed layout at every prefix. |
| Nft.GenerateRestores | crates/polywan/src/nft.rs:169-181 | One restore rule for each of the 63 path values. |
| Nft.GeneratePaths | crates/polywan/src/nft.rs:194-199 | The inbound and outgoing rules of every path, in configuration order. |
| Nft.Generate | crates/polywan/src/nft.rs:184-306 | The generator builds the prerouting, output and postrouting chains. |
| Stickiness.Restored | crates/polywan/src/nft.rs:169-181 | Restoration copies the field of the conntrack mark to the packet mark for exactly the 63 path values and otherwise does nothing. |
| Stickiness.PinnedChains | crates/polywan/src/nft.rs:203-305 | What the three chains do to a packet whose connection has a path. |
| Stickiness.ChainKeepsForeign | crates/polywan/src/nft.rs:94-97 | No chain changes a bit of either mark outside the field. |
| Stickiness.InboundMeans | crates/polywan/src/nft.rs:233-245 | The inbound rules assign exactly the uplink whose interface the original packet arrived on. |
| Stickiness.OutgoingMeans | crates/polywan/src/nft.rs:293-304 | The outgoing rules assign exactly the uplink whose interface the original packet leaves through. |
| Journeys.PoliciesMean | crates/polywan/src/nft.rs:109-167 | The first matching policy marks the packet, and only the packet. |
| Journeys.FreshPrerouting | crates/polywan/src/nft.rs:203-258 | Prerouting of a connection without a path: skipped, assigned to its uplink, or marked by the first matching policy. |
| Journeys.FreshPostrouting | crates/polywan/src/nft.rs:278-305 | Postrouting assigns the uplink a connection without a value leaves through, and changes nothing else. |
| Journeys.PolicySteers | crates/polywan/src/nft.rs:109-167 | End to end: a packet a policy selects first uses main's other routes, the policy's own table, and then balancing or nothing, as its fallback says. |
| Journeys.JourneyKeepsPath | crates/polywan/src/nft.rs:203-305 | Whatever way a packet takes, a path in the conntrack mark stays, and the packets that are steered are routed with it. |
| Journeys.JourneyKeepsForeign | crates/polywan/src/nft.rs:94-97 | No journey changes a bit outside the field. |
| Journeys.JourneyAssigns | crates/polywan/src/nft.rs:233-304 | A connection without a value gets none, or the path of the uplink its original packet arrived on or left through. |
| Journeys.PathIsForever | crates/polywan/src/nft.rs:203-305 | Over any history of packets and rulesets with one mask, a path never changes. |
| Journeys.ForeignIsForever | crates/polywan/src/nft.rs:94-97 | Over any such history the foreign bits of the conntrack mark never change. |
| Journeys.ConnectionSticks | crates/polywan/src/plan.rs:182-259 | End to end: every later steered packet of a connection with a path is answered by a non-default main route, by that path's table, or rejected, exactly as main and the table allow. |
| Journeys.ConnectionConfined | crates/polywan/src/reconcile.rs:80-213 | The same in every state of every run of reconciliation: no other table of PolyWAN is ever used. |
| Assignments.GeneratedAssignments | crates/polywan/src/daemon.rs:1872-1881 | The assignments recognised in a generated table are exactly the configured ones. |
| Assignments.AssignmentPins | crates/polywan/src/nft.rs:278-305 | An assignment in the table pins an unassigned connection that leaves through its interface to its path. |
| Assignments.PlannedMarked | crates/polywan/src/plan.rs:284-303 | The planned balancing and policy routes only use configured paths that are not held back, each next hop the path it is planned for. |
| Barrier.SettledHoldsNothing | crates/polywan/src/daemon.rs:2082-2097 | Without a pending nftables step no path is held back. |
| Barrier.PassValue | crates/polywan/src/daemon.rs:2148-2237 | After the executed part of a pass every table holds what it held, nothing, or the route planned before the nftables step. |
| Barrier.LaunchMarks | crates/polywan/src/daemon.rs:2203-2229 | When the nftables step is reached, the balancing and policy routes only use paths that are configured and not held back. |
| Barrier.StepKeeps | crates/polywan/src/daemon.rs:2041-2260 | Every pass, reload, flight, success, failure, listing and restart keeps the barrier's invariant, and a known table stays known. |
| Barrier.KnownForever | crates/polywan/src/daemon.rs:2076-2108 | From a known table with the invariant, in every later state every next hop of every installed balancing and policy route has the assignment of the path it was planned for in the kernel's table and in the one in flight. |
| Barrier.FromStart | crates/polywan/src/daemon.rs:2076-2108 | The same from a cold or warm start, whenever a table is known, given the condition on the first flight. |
| Barrier.ColdGapIff | crates/polywan/src/daemon.rs:132-136 | During the first flight of a cold start, every pass keeps what it will mark if and only if the configuration has no assignment it leaves out. |
| Barrier.ColdGapReached | crates/polywan/src/daemon.rs:132-136 | From any cold start, a reload during the first flight that adds an assignment can end with a known table that does not mark an installed route, with the nftables step pending again. |
| Barrier.LaunchRecovers | crates/polywan/src/daemon.rs:2203-2229 | With a known table, a pass that reaches the nftables step has the invariant and the barrier again, whatever was installed before. |
| Daemon.UntilNft | crates/polywan/src/daemon.rs:2148-2155 | The operations before the nftables step. |
| Daemon.Control.constructor | crates/polywan/src/daemon.rs:678-696 | Startup adopts the configured assignments that the table found has. |
| Daemon.Control.Replan | crates/polywan/src/daemon.rs:2074-2122 | The plans with and without the held paths, and whether the nftables step is pending. |
| Daemon.Control.Pass | crates/polywan/src/daemon.rs:2041-2238 | One pass takes exactly one step of the model: operations up to a failure or the nftables step, and a launched flight if it is reached and the lane takes it; it keeps the invariant. |
| Daemon.Control.KernelApplies | crates/polywan/src/daemon.rs:2206-2223 | The transaction in flight reaches the kernel as a whole. |
| Daemon.Control.NftApplied | crates/polywan/src/daemon.rs:2240-2260 | The outcome of a flight: the table is known to be applied, or nothing changed. |
| Daemon.Control.Commit | crates/polywan/src/daemon.rs:2499-2514 | A committed reload replaces the configuration and its transaction. |
| Application.AppliedPassConverges | crates/polywan/src/daemon.rs:2110-2236 | With the table applied, one complete pass reaches the planned state and the next difference is empty. |
| Application.SettledRecovers | crates/polywan/src/daemon.rs:2110-2236 | With the table applied, one complete pass has the invariant and the barrier again, whatever was installed before. |
| Application.DaemonConverges | crates/polywan/src/daemon.rs:2041-2260 | A pass up to the nftables step, its success and a recomputed pass reach the planned state, with nothing left to do and the barrier kept. |
| View.Cache.ApplyRoute | crates/polywan/src/system.rs:185-202 | After a plain addition to, or deletion from, the kernel's routes, the view is again that of the kernel. |
| View.Cache.Notify | crates/polywan/src/daemon.rs:996-1016 | A notification is judged before it is applied; for any kernel change it may report, the view stays in agreement outside the tables due for a re-read exactly if the change is followed. |
| View.Cache.ReplaceTable | crates/polywan/src/system.rs:206-228 | A re-read replaces exactly the table's entries by those of the dump, and with the kernel's routes in it the table is settled. |
| View.OneView | crates/polywan/src/system.rs:52-57 | A kernel has exactly one view. |
| View.RereadSettles | crates/polywan/src/system.rs:206-228 | After a re-read the table's part of the view is that of a fresh dump. |
| View.PlainApplies | crates/polywan/src/system.rs:185-273 | Whenever no re-read is asked for, applying a plain addition, deletion or replacement gives the view a fresh dump would give. |
| View.MergedIff | crates/polywan/src/system.rs:252-260 | After an append the view is right or a re-read is asked for, exactly if the member is kept or the route it joins was not. |
| View.SplitIff | crates/polywan/src/system.rs:252-258 | After the deletion of a member the view is right or a re-read is asked for, exactly if a kept member has no entry of its own, or what remains after a member that is not kept is not kept or was there already. |
| View.MixedMember | crates/polywan/src/system.rs:252-258 | A concrete deletion of a member with a gateway that leaves the view wrong without a re-read, in any kernel that reports such a route. |
| View.SharedMember | crates/polywan/src/system.rs:252-258 | A concrete deletion of a member whose identity another route has: the view loses the route that stays. |
| View.MixedJoin | crates/polywan/src/system.rs:252-260 | A concrete append of a member with a gateway: the view keeps a route that is gone. |
| View.NotifiedIff | crates/polywan/src/system.rs:185-273 | A notified change leaves the view in agreement outside the tables due for a re-read if and only if it is followed: always for plain changes, for members exactly in the cases above. |
| View.RunAgrees | crates/polywan/src/system.rs:185-273 | In every run of followed changes and re-reads the view agrees with the kernel outside the tables due for a re-read. |
| Commands.StartReloadKeeps | crates/polywan/src/daemon.rs:2371-2392 | Starting a reload starts it, lets it follow the one in progress, or defers it, and keeps the exclusion. |
| Commands.IntentWrittenKeeps | crates/polywan/src/daemon.rs:1330-1336 | A deferred reload starts when the intent it waited for is written. |
| Commands.StepKeeps | crates/polywan/src/daemon.rs:1312-1526 | Every event keeps the exclusion of reloads and intents, the generations, the stored drain intent and the account of the orders. |
| Commands.RunInv | crates/polywan/src/daemon.rs:1312-1526 | The same in every state of every run: a reload in progress never coexists with an intent being written, and a deferred reload implies one. |
| Commands.AnsweredOnce | crates/polywan/src/daemon.rs:1312-1328 | An order is answered at most once, and exactly once if it was taken and is neither dropped nor in progress. |
| Commands.LeavesAnswered | crates/polywan/src/daemon.rs:1430-1526 | The command in progress leaves its slot only by being answered, once. |
| Commands.DeferredStarts | crates/polywan/src/daemon.rs:1330-1336 | A deferred reload stays deferred while the intent is being written and starts with the step that ends it. |
| Commands.IntentSurvives | crates/polywan/src/daemon.rs:2447-2514 | The drain intent on disk is always the daemon's or the one being written, so no reload overwrites a drain. |
| Commands.TargetPlanned | crates/polywan/src/daemon.rs:2618-2630 | The target of a command is the generation of the first plan made after its change. |
| Commands.SuccessMeansApplied | crates/polywan/src/daemon.rs:1490-1526 | A success answer means that the plan including the change was applied. |
| Commands.EventPromised | crates/polywan/src/daemon.rs:1312-1526 | Every enabled event keeps the invariant, and a command in progress stays, moves on, or is answered, with success only once its target is applied. |
| CommandLoop.Orders.constructor | crates/polywan/src/daemon.rs:553-562 | A start without commands or reloads, with the stored drain intent, satisfies the protocol's invariant. |
| CommandLoop.Orders.BeginReload | crates/polywan/src/daemon.rs:2371-2392 | A reload is then in progress or deferred, never beside an intent being written; orders and generations are untouched and the invariant is kept. |
| CommandLoop.Orders.FinishReload | crates/polywan/src/daemon.rs:2419-2424 | Once a reload without an unfinished binding ends, another one is in progress exactly if it was to follow, and the exclusion, the stored intent and the account of orders hold. |
| CommandLoop.Orders.FailReload | crates/polywan/src/daemon.rs:2394-2417 | The command that asked for the reload is answered with its refusal exactly if no other reload follows; the exclusion, the stored intent and the account hold. |
| CommandLoop.Orders.IntentDone | crates/polywan/src/daemon.rs:1330-1336 | With the intent written, a reload is in progress exactly if one was deferred, and the exclusion holds. |
| CommandLoop.Orders.Take | crates/polywan/src/daemon.rs:1312-1436 | Taking an order when nothing is in progress keeps the invariant: the order is dropped, refused or in progress, exactly one of them. |
| CommandLoop.Orders.Drained | crates/polywan/src/daemon.rs:1456-1488 | The completion of a drain intent keeps the invariant, and the command in progress stays, moves on or is answered: no reload overwrites it. |
| CommandLoop.Orders.Forgotten | crates/polywan/src/daemon.rs:1437-1454 | The completion of a forget keeps the invariant, and the command in progress stays, moves on or is answered. |
| CommandLoop.Orders.Validate | crates/polywan/src/daemon.rs:2429-2447 | The outcome of a validation keeps the invariant, and the command in progress stays, moves on or is answered. |
| CommandLoop.Orders.Prepare | crates/polywan/src/daemon.rs:2449-2488 | Prepared listeners, or the failure to prepare them, keep the invariant, and the command in progress stays, moves on or is answered. |
| CommandLoop.Orders.Bind | crates/polywan/src/daemon.rs:2499-2563 | The outcome of a binding keeps the invariant, and the command in progress stays, moves on or is answered: the intent on disk is the one then in force. |
| CommandLoop.Orders.Fail | crates/polywan/src/daemon.rs:2292-2301 | A failed step keeps the invariant, and the command in progress stays, moves on or is answered. |
| CommandLoop.Orders.PassDone | crates/polywan/src/daemon.rs:2618-2630 | A planned pass keeps the invariant, and the command in progress stays, moves on or is answered. |
| CommandLoop.Orders.CheckAnswer | crates/polywan/src/daemon.rs:1490-1526 | The check keeps the invariant, and the command in progress stays, moves on or is answered, with success only once its target is applied. |
| Settings.FindDifferences | crates/polywan/src/sysctl.rs:131-148 | The loop finds the settings that differ, or the first error. |
| Settings.DifferencesAre | crates/polywan/src/sysctl.rs:131-148 | They are exactly the present settings with another value. |
| Settings.RecordAll | crates/polywan/src/sysctl.rs:150-156 | The loop records every difference. |
| Settings.RecordedAre | crates/polywan/src/state.rs:395-401 | A baseline is recorded the first time only, with the value before PolyWAN's first write, and nothing else changes. |
| Settings.StepKeeps | crates/polywan/src/worker.rs:569-614 | Every step, crash included, keeps the write-ahead rule of every key, whoever changed it, and keeps every key that nobody else changed at its original value or recorded with it. |
| Settings.RunInv | crates/polywan/src/worker.rs:569-614 | The same at every point of every run: a key holding a value PolyWAN wrote last is in the durable manifest. |
| Settings.RestoreReturns | crates/polywan/src/sysctl.rs:158-183 | After any run a successful restore returns every key nobody else changed to its original value and touches no other key. |
| Settings.RestoreFromFresh | crates/polywan/src/sysctl.rs:158-183 | The same from a fresh installation, with every key PolyWAN wrote last in the durable manifest. |
| Settings.RestoresReplacedIff | crates/polywan/src/state.rs:395-401 | For every key, whoever changed it: at every point of every run, restoring a key PolyWAN wrote last returns it to the value PolyWAN replaced if and only if the recorded baseline was that value when the write was made. |
| Settings.UntouchedReplaced | crates/polywan/src/state.rs:395-401 | For a key nobody else changed that condition always holds: the value replaced and the recorded baseline are the original value. |
| Settings.Restore | crates/polywan/src/sysctl.rs:158-183 | The loop restores every recorded key that still has PolyWAN's value and reports the ones it could not. |
| Settings.Machine.Apply | crates/polywan/src/worker.rs:569-614 | Baselines are recorded and stored first; without that nothing is written; writes stop at the first failure. |
| Settings.ApplyIsRun | crates/polywan/src/worker.rs:597-612 | An application is a run of the steps above: one durable store, then single writes. |
| Settings.StaleBaseline | crates/polywan/src/state.rs:395-401 | A run from a fresh installation on which restoring returns the old baseline instead of the value replaced. |
| Calendar.Epoch | crates/polywan/src/events.rs:334-347 | Day 0 is 1970-01-01. |
| Calendar.CivilValid | crates/polywan/src/events.rs:334-347 | Every result is a date of section 5.7 of RFC 3339. |
| Calendar.CivilNext | crates/polywan/src/events.rs:334-347 | For every day count the next one gives the next date of the calendar. |
| Calendar.CivilBijective | crates/polywan/src/events.rs:334-347 | Every date of the calendar is that of exactly one day count. |
| Calendar.WeekdayAdvances | crates/polywan/src/mail.rs:271-288 | The weekday of section 3.3 of RFC 5322 advances with the date from a Thursday, and dates and weekdays repeat every 400 years. |
| History.Ring.Push | crates/polywan/src/events.rs:260-269 | The ring is always the longest end of all events within both bounds, and its byte count is exact. |
| History.Ring.Read | crates/polywan/src/events.rs:275-306 | A page is computed by skipping what is not newer and taking events up to the limits. |
| History.LatestKept | crates/polywan/src/events.rs:260-269 | The latest event is kept if and only if it is not larger than the ring. |
| History.PageAnswers | crates/polywan/src/events.rs:275-306 | A page holds consecutive events right after the cursor, or says that some were evicted, exactly when they were; it is empty only if nothing is newer. |
| History.ResetIff | crates/polywan/src/events.rs:275-283 | Another instance or a cursor beyond the latest event, and nothing else, starts over from the oldest event kept. |
| History.NoSilentGap | crates/polywan/src/events.rs:275-306 | What a client receives strictly increases, without gaps unless a page said truncated. |
| History.ClientSeesEverything | crates/polywan/src/events.rs:195-306 | The same for every run of emissions and polls, with both bounds of the ring. |
| Notifier.StepKeeps | crates/polywan/src/events.rs:114-130 | Every atomic step keeps the counter exact, the queue bounded and the events conserved. |
| Notifier.QueuePromise | crates/polywan/src/events.rs:214-228 | Under every interleaving the counter never falls below the bytes queued, the bounds hold, delivery is in order, and emitted events are delivered, queued, dropped or being handed over. |
| Notifier.DroppedForCause | crates/polywan/src/events.rs:214-228 | An event is over the bound exactly if it does not fit beside what is queued or being received. |
| Base64.EncodeGroup | crates/polywan/src/mail.rs:297-307 | Four characters of a group of one to three bytes. |
| Base64.EncodeLines | crates/polywan/src/mail.rs:290-311 | The nested loops produce the encoding in lines of 57 bytes. |
| Base64.DecodeText | crates/testbed/src/sendmail.rs:132-148 | The loop with its 32-bit accumulator decodes, or fails on a character outside the alphabet. |
| Base64.GroupDecodes | crates/testbed/src/sendmail.rs:132-148 | A group decodes to its bytes whatever the accumulator held. |
| Base64.RoundTrip | crates/polywan/src/mail.rs:290-311 | Decoding the encoder's output returns the input, for every byte sequence. |
| Base64.EncodedShape | crates/polywan/src/mail.rs:290-311 | Every line has at most 76 characters, and padding occurs only in the last group. |
| Admission.Gate.Admit | crates/polywan/src/mail.rs:208-226 | The deque loop and the decision. |
| Admission.RecordKeeps | crates/polywan/src/mail.rs:208-226 | Every call keeps the window, the notices and the account of suppressions. |
| Admission.AdmissionPromise | crates/polywan/src/mail.rs:208-226 | Admissions less than an hour apart are at most the limit, notices are at least an hour apart, and suppressions made equal those reported plus those pending. |
| Checksum.AddUp | crates/polywan/src/probe.rs:392-397 | The loop adds the big-endian words in 32 bits. |
| Checksum.Checksum16 | crates/polywan/src/probe.rs:392-402 | The fold loop ends, with the complement of the folded sum. |
| Checksum.FoldResidue | crates/polywan/src/probe.rs:398-400 | Folding gives the residue modulo 65535, with 65535 for zero unless the sum is zero. |
| Checksum.ZeroIff | crates/polywan/src/probe.rs:392-402 | A message checks out exactly if its words add up to a positive multiple of 65535. |
| Checksum.EchoRequest | crates/polywan/src/probe.rs:404-418 | Every IPv4 echo request has checksum 0. |
| Checksum.ReplyRecovered | crates/polywan/src/probe.rs:427-454 | A correctly checksummed reply is parsed to exactly its identifier, sequence number and token. |
| Checksum.CorruptionIff | crates/polywan/src/probe.rs:392-402 | Changing one word goes unnoticed if and only if the change is a multiple of 65535 that leaves a positive sum. |
| Checksum.CorruptedRejected | crates/polywan/src/probe.rs:427-454 | A reply with any other change of one word is rejected. |
| Health.Path.constructor | crates/polywan/src/health.rs:91-122 | The start of a path: down, resumed or optimistic; down if it is not ready. |
| Health.Path.Move | crates/polywan/src/health.rs:148-156 | A transition is reported if and only if the level changes, from the old level to the new one. |
| Health.Path.ChangeReady | crates/polywan/src/health.rs:158-169 | A transition is reported if and only if the level changed; a path that is not ready is down; gained readiness starts the streaks afresh. |
| Health.Path.CompleteRound | crates/polywan/src/health.rs:171-214 | The level falls exactly after `fall` rounds in a row that did not pass, or at the first of a cold start, and rises exactly after `rise` passed ones, by the path's whole history; a transition is reported if and only if the level changed. |
| Health.CountersAreStreaks | crates/polywan/src/health.rs:91-214 | In every history the counters are the streaks of rounds, saturated, and a path that is not ready is down. |
| Health.RoundIff | crates/polywan/src/health.rs:171-214 | A round takes a path down exactly after `fall` consecutive rounds that did not pass, or at the first round of a cold start, and up exactly after `rise` consecutive passed ones. |
| Health.ReadinessIff | crates/polywan/src/health.rs:158-169 | Losing readiness takes a path down at once, gaining it starts the streaks afresh. |
| Health.TransitionsAlternate | crates/polywan/src/health.rs:148-156 | Reported transitions alternate from the first state to the present one. |

## Left out

- Netlink, sockets, subprocesses, timers and signals: they are events with a success or failure outcome. Sequence numbers of completions are only modelled for commands and reloads.
- The rendered text of the nftables program: chains are rule lists. The NAT chain is not part of this model; a transaction carries a number for everything outside the marking chains.
- Third-party changes to routing objects, held repairs and ownership conflicts: the kernel changes only through PolyWAN's operations, except in View and Settings, where other changes are events.
- The external firewall mode, a change of the layout while running, and a listing that fails at startup: the barrier is about managed mode with one layout, a restart sees the kernel's table, and no transaction outlives the daemon that launched it.
- Duplicates in the list of observed rules: the view holds a set of rules.
- Checksum.ZeroIff: covers messages of at most 131072 bytes, because the 32-bit sum can overflow beyond; IP packets are shorter.
- View.RunAgrees: is about changes that are followed, which View.NotifiedIff shows to be necessary; notifications are processed in step with the kernel, so a re-read never races with notifications still queued; additions and replacements keep the identities of kept routes distinct.
- History.PageAnswers: the client belongs to the same instance and asks for at least one event, which the API enforces.
- Commands.RunInv: ends with the first loss of a lane, after which the daemon stops.
- Notifier.QueuePromise: the memory order of the counter is that of single atomic steps, and its 64-bit wrap-around is not reached because it never exceeds the bytes held.
- Calendar.CivilNext: day counts are unbounded; the 64-bit range of the code is not modelled.
- Route expiries, discovery, path selection, quality gates, uplink bindings in the manifest, metrics, the API and file permissions: not modelled; they feed the planner's input, present its results, or are operating-system calls.
