# Verified models of StompyMUX maintenance, routing and battle bookkeeping

A Dafny 4.11 project that models the parts of StompyMUX whose correctness is global: the
database repair planner, notification routing, transactional movement, and the clocked state
machines and allocators of the BattleTech simulation. `dafny verify dfyconfig.toml` checks
everything.

- **Database repair** (`Worlds`, `Lists`, `Reachability`, `Repair`, `RepairProofs`,
  `RepairTheorems`, `RepairMeaning`, `RepairPlanner`). An arbitrarily corrupt object graph and its persisted linked
  lists go in. One ascending pass leaves every surviving occupant with rooted, acyclic chains; the
  rebuilt lists walk back to the true members; the plan succeeds, and repeating it changes nothing,
  under exact conditions. `RepairPlanner` holds the loops; `Repair` holds the same planner as
  functions; `RepairMeaning` says what becomes of every object, list and report entry without naming
  those functions; the other modules prove what they achieve.
- **Notification** (`Routing`, `Traversal`, `Notification`). `Routing` says who forwards a message to
  whom; the budgeted explicit-stack walk of `Notification` delivers exactly the pre-order of the
  recursive, depth-limited traversal, or nothing, and fails exactly at that traversal's first visit
  over a limit.
- **Movement** (`Movement`). Two participants, script callbacks that may do anything, one domain
  commit, all or nothing.
- **BattleTech** (`Artillery`, `ArtilleryRuns`, `ArtilleryRegistration`, `BoosterChecks`,
  `BuildingRepair`, `BattlefieldIdentity`, `AmmunitionFeed`, `WeaponRating`, `Sorting`). Statements
  over every run of a clock, every dice stream or every loadout.
- **Report truncation** (`ReportTruncation`). A binary search over a predicate nothing is known about.

Conventions. References between objects are integers that may dangle; stored identities are
natural numbers, which is what a persisted list can address. Sizes and counters are unbounded
except where a bound shows (artillery ordinals and countdowns, retry and queue limits). The byte
sums the source saturates at the machine word are exact here, which differs only for a configured
limit equal to the largest word. Battle values, heats and ranges are reals. Whole-world checks that
read state outside the model (accounts, macros, the BattleTech store) are arbitrary predicates
passed in as `Host`. Map iteration is ascending by key. Where the source would abort the process on
a missing object in the middle of a movement, the model reports a failed movement.

Findings about the source, each proved below with its exact condition. A protected object that is an
exit can be purged by a successful repair, after which every later repair refuses to start: exactly
when that exit's claimed endpoints are unusable. Configuring a building as damaged starts no repair:
until it is configured again it stays without a timer exactly as long as no reload of an interior
that some entrance leads to finds it still standing. Adding a weapon can lower a unit's Weapon Battle
Rating: exactly when twice its value falls short of the value it pushes past the heat efficiency.

## Model

| member | source | states |
|---|---|---|
| Worlds.ContainmentChain | src/world/containment.rs:52-79 | the traversal loop returns the chain of enclosing containers or refuses a repeat, a wrong kind, a dangling reference or a located room |
| Worlds.SafeIffGrounded | src/dbck.rs:86-95 | on every world, a destination is safe exactly when some number of location steps leads through live containers to an unlocated live room without meeting the moved object |
| Worlds.GroundedDepthIsUnique | src/dbck.rs:86-95 | an object's distance to its room is unique, which rules out cycles on safe chains |
| Worlds.SafeSurvives | src/dbck.rs:287-294 | moving or unplacing an object that lies on no safe chain leaves every safe chain of every other object safe |
| Worlds.UnsafeOccupantIsUngrounded | src/dbck.rs:291-294 | an occupant whose own location is unsafe lies on no safe chain at all |
| Worlds.PlacementSoundIff | src/world/containment.rs:81-110 | placing an occupant leaves it on a sound, acyclic chain exactly where the move is valid |
| Lists.WalkChain | src/dbck.rs:111-135 | the loop returns the usable prefix of a persisted list, stopping at a repeat, a missing object or a wrong kind |
| Lists.ChainFacts | src/dbck.rs:111-135 | a walked list has no duplicates and only existing objects of the right kind |
| Lists.ChainExactly | src/dbck.rs:111-135 | the walk is the one listing that starts at the head slot, follows the next slots, and ends exactly where the next value is negative, repeated, missing or of the wrong kind |
| Lists.OrderedMembersListMembersOnce | src/dbck.rs:136-161 | the listing holds exactly the objects located in the owner, each once |
| Lists.OrderedMembersKeepPersistedOrder | src/dbck.rs:156-160 | members the persisted list still reaches keep their persisted order |
| Lists.OrderedMembersAppendAdditions | src/dbck.rs:156-160 | members the persisted list reaches come first, all others after them in ascending order |
| Lists.WriteList | src/dbck.rs:174-178 | writing a list sets its head and its members' next slots and nothing else |
| Lists.RebuildAt | src/dbck.rs:166-180 | one object's turn adds exactly its own heads, or an exit's source, and its members' next slots |
| Lists.RebuildLinks | src/dbck.rs:163-182 | the in-place rebuild computes the same slots as the per-object definition |
| Lists.RebuiltListsRoundTrip | src/dbck.rs:111-182 | walking a rebuilt list of any container returns exactly its ordered members |
| Lists.RebuiltSpareSlots | src/dbck.rs:163-182 | slots no list uses: an exit stores its source, and unlisted objects, exits and garbage have -1 elsewhere |
| Lists.RebuildingTwiceIsRebuildingOnce | src/dbck.rs:163-182 | rebuilding from rebuilt lists changes no slot |
| Reachability.FindReachable | src/dbck.rs:370-383 | the loop terminates with the set of places connected to the start |
| Reachability.FollowExits | src/dbck.rs:373-379 | one pass adds only connected places and every destination one exit away from a known place |
| Reachability.ReachableIsLeastClosed | src/dbck.rs:370-383 | that set is exactly what some route of exits reaches, and the least set holding the start and closed under exits |
| Repair.FirstSafe | src/dbck.rs:108-109 | the chosen candidate is listed and safe, and none is chosen only if none is safe |
| RepairProofs.ReplacementHomeIsPreferred | src/dbck.rs:96-110 | a replacement home is the first safe one of controlled location, controlled home, default home, starting home and starting room, and missing only when none is safe |
| RepairPlanner.ClearProtected | src/dbck.rs:194-214 | succeeds exactly when every protected object exists and is not garbage, clearing GOING on those and nothing else |
| RepairPlanner.CollectClaims | src/dbck.rs:216-226 | every object's claim list is the live containers that reach it, in ascending order |
| RepairPlanner.ResolveClaim | src/dbck.rs:232-240 | a claimed stored location wins, otherwise the least claimant, otherwise none |
| RepairPlanner.ResolveClaims | src/dbck.rs:227-242 | every live occupant and exit gets its resolved location; nothing else changes |
| RepairPlanner.DoomExits | src/dbck.rs:243-252 | a single pass over the changing world dooms exactly the exits with a bad endpoint in the starting world |
| RepairPlanner.RepairOne | src/dbck.rs:265-296 | one iteration computes the specified tidy, home and location steps or fails |
| RepairPlanner.RepairAll | src/dbck.rs:265-296 | the loop computes the specified ascending pass or its first failure |
| RepairPlanner.Entomb | src/dbck.rs:297-319 | purged objects become empty tombstones, purged players are detached, all others are untouched |
| RepairPlanner.Compare | src/dbck.rs:334-356 | the field and relocation reports list exactly the differences, in ascending order |
| RepairPlanner.Plan | src/dbck.rs:183-405 | the loops as a whole compute the functional planner, including which error comes first |
| RepairProofs.RepairStep | src/dbck.rs:265-296 | an iteration settles its own object, leaves that object's safe home and location alone, and breaks no safe chain anywhere |
| RepairProofs.PassSettles | src/dbck.rs:265-296 | after one ascending pass every survivor has live references and every surviving occupant a safe home and location; safe occupants are not moved |
| RepairProofs.PassCannotFail | src/dbck.rs:96-110 | the pass cannot fail when a configured home is a live room with no location |
| RepairProofs.StepFailsIff | src/dbck.rs:275-295 | an iteration fails exactly on a surviving occupant whose home or location is unsafe while no place its policy offers is safe |
| RepairProofs.PassFailsIff | src/dbck.rs:265-296 | on any world the pass succeeds exactly when no object it reaches is so stranded, and otherwise names the one that is |
| RepairProofs.FinishedByPass | src/dbck.rs:253-333 | purging after the pass keeps every settled fact, and everything not live is garbage |
| RepairProofs.RepairedIsClean | src/dbck.rs:243-333 | no survivor is GOING or dangles, every surviving exit joins live containers, and channels, aliases and pages name only live objects |
| RepairTheorems.CleanWorldValidIff | src/world/validation.rs:74-127 | a repaired world passes object validation exactly when the starting places are rooms and no surviving non-exit has a stale destination |
| RepairTheorems.PlanSucceedsIff | src/dbck.rs:183-405 | given one unlocated configured room, planning succeeds exactly under stated conditions on the input and the outside checks |
| RepairTheorems.PlanSucceedsExactly | src/dbck.rs:183-405 | on any world and configuration, planning succeeds exactly when its foundations hold, nobody is stranded, the starting places are rooms, no survivor has a stale destination and the outside checks pass |
| RepairTheorems.StoredWorldIsPlannedIff | src/dbck.rs:183-405 | where only exits carry destinations, which every writer ensures, an unlocated configured room leaves just the foundations, the starting rooms and the outside checks |
| RepairTheorems.ProtectedSurviveIff | src/dbck.rs:194-252 | all protected objects survive repair exactly when none is an exit with unusable claimed endpoints |
| RepairTheorems.RepairIsIdempotentIff | src/dbck.rs:183-405 | planning again on the repaired world and rebuilt lists changes nothing exactly when no protected exit was doomed, and otherwise reports a protected object unavailable |
| RepairTheorems.RepairIsIdempotent | src/dbck.rs:183-405 | in particular when no protected object is an exit: no field repairs, relocations, purges, detachments or list changes |
| RepairTheorems.OrphanedProtectedExitBreaksIdempotence | src/dbck.rs:243-252 | a concrete world whose first repair succeeds and whose second refuses |
| RepairMeaning.MarkedExactly | src/dbck.rs:194-252 | on any world, each live occupant or exit keeps its stored location if that live container's own list reaches it, else goes to the least live container that does, else nowhere; GOING ends on exactly the unprotected doomed and the exits that do not join live containers; nothing else changes |
| RepairMeaning.PurgedExactly | src/dbck.rs:253-264 | the purged and the surviving objects, from the world before repair |
| RepairMeaning.PassRehouses | src/dbck.rs:287-294 | each surviving occupant ends with its safe home and location, or the first safe place of the policy in the world the pass has reached |
| RepairMeaning.RepairedExactly | src/dbck.rs:265-319 | each survivor keeps generation, name, kind, destination, flags and exactly its live references; each purged object is a tombstone of its generation; garbage is untouched |
| RepairMeaning.DirectoryExactly | src/dbck.rs:320-333 | accounts lose the purged; aliases, page lists, channel users and owners keep exactly their live members, in order |
| RepairMeaning.ReportExactly | src/dbck.rs:334-405 | the report lists exactly the changed fields and moved occupants in order, the changed list slots, the detached players and the unreachable rooms |
| RepairMeaning.PlanExactly | src/dbck.rs:183-405 | all of this of every successful plan |
| RepairMeaning.FoundationExactly | src/dbck.rs:184-205 | what must hold before repair begins, and which error comes first |
| Routing.ChildrenExactly | src/notification.rs:146-205 | a visit forwards to exactly the exits, neighbouring exits, contents, neighbours and place its policy and audibility allow |
| Routing.ChildrenInOrder | src/notification.rs:146-205 | the list of forwarded visits: exits, neighbouring exits, contents, neighbours and place, each by ascending identity and once for each |
| Routing.InitialExactly | src/notification.rs:48-91 | a request starts from its target under its policy, or with exclusions from the unexcluded target and exactly the unexcluded occupants |
| Routing.InitialInOrder | src/notification.rs:48-91 | the unexcluded target first, then the unexcluded occupants in ascending order |
| Notification.NetworkExactly | src/notification.rs:98-137 | which visits are heard, that a heard player with the personal bit gets exactly its document, and the whole list a visit leads to |
| Notification.NetworkForwards | src/notification.rs:98-205 | the walked web leads on from a visit exactly when it is not empty, too deep or unaddressable, and then by those rules |
| Notification.VisitsStep | src/notification.rs:98-206 | taking the first visit and queueing its children ahead of the rest leaves the remaining pre-order |
| Notification.DeliveredInOrder | src/notification.rs:121-128 | deliveries follow the visits, one for each that delivers, in the order visited |
| Notification.DeliveringExactly | src/notification.rs:121-128 | which positions of the traversal deliver |
| Notification.Queue | src/notification.rs:129-145 | queueing succeeds exactly when the whole batch fits the entry and byte budgets |
| Notification.InitialStack | src/notification.rs:48-91 | the starting stack reverses the target followed by its unexcluded occupants, refused exactly when the occupants alone exceed a budget; the target is never counted |
| Notification.Turn | src/notification.rs:109-210 | a turn stages the visit's own delivery and pushes its children in reverse, or reports exactly which limit stops it |
| Notification.Walk | src/notification.rs:92-211 | terminates; stages exactly the deliveries of the recursive traversal, or reports the error of its first visit that exceeds a limit |
| Notification.VisitErrorExactly | src/notification.rs:109-145 | the error of one visit, from what fits after it: too many visits, then the message or the outbox, then the queue |
| Notification.WalkSucceedsIff | src/notification.rs:98-211 | a walk succeeds exactly when every prefix of the traversal leaves room for the next visit in the visit, message, entry and byte budgets, queued visits being counted from the traversal alone |
| Notification.SuccessfulWalkIsWithin | src/notification.rs:109-133 | a successful walk has kept visits, messages, entries and bytes within their limits |
| Notification.AffordableWalkSucceeds | src/notification.rs:98-211 | a traversal that fits the budgets as a whole never fails |
| Notification.Send | src/notification.rs:42-214 | the outbox gains exactly the traversal's deliveries or is untouched, with the exact condition and error of every refusal |
| Movement.Scripts.PassLocks | src/movement.rs:313-351 | every lock is tested in order in a still valid world; the first not passed runs its own callback and refuses |
| Movement.LocksExactly | src/movement.rs:313-333 | a teleport tests the destination and then every enclosing container, a silent one only the latter |
| Movement.HookTable | src/movement.rs:400-490 | the callbacks of each kind of journey, before and after the placement, written out |
| Movement.Scripts.Depart | src/movement.rs:233-440 | a linked history from the world given: a refusal (already there, or a lock), or exactly the locks and departure callbacks of the journey, each in a still valid world |
| Movement.Scripts.Arrive | src/movement.rs:441-491 | the mover is placed and nothing else touched, then exactly the arrival callbacks run, each after the look in a still valid world, and the last notice goes to an actor moving something else |
| Movement.Scripts.Apply | src/movement.rs:232-492 | success is a refusal or a departure, one commit and an arrival, each step starting from the world the previous one left, under the mover's cause |
| Movement.Scripts.Perform | src/movement.rs:59-71 | a completed movement is such a history from the old world to the new one and still valid at the end; being already there changes only the outbox; failure restores world and staged output; the cause is restored |
| Movement.Scripts.PerformPair | src/movement.rs:85-126 | for any callback behaviour: true means one linked history from the old world to the new of both departures, one commit and both arrivals in reverse, still valid for the first; false exactly when a participant refused, and then nothing was committed; anything but true restores world and output |
| Movement.PairMilestones | src/movement.rs:85-126 | callbacks aside, a completed pair is both departures, one commit, then placement and arrival of the second and of the first |
| Movement.QuietMove | src/movement.rs:59-71 | when callbacks change nothing, a movement changes the world by its commit and by placing the mover, and by nothing else |
| Movement.QuietPair | src/movement.rs:85-126 | and a pair by its commit and by placing the second mover and then the first |
| Artillery.FlightSecondsExactly | src/btech/artillery.rs:466-470 | the largest whole number of five-hex seconds within the range, at least ten and at most the sixteen-bit maximum |
| Artillery.LaunchedExactly | src/btech/artillery.rs:188-231 | which flights some launch can have produced: coordinates, weapon, payload, scatter and countdown |
| Artillery.ReloadRestoresIff | src/btech/artillery.rs:218-231 | a saved flight reloads to itself exactly when some launch could have produced it |
| Artillery.SecondRollsLandings | src/btech/artillery.rs:289-313 | a second succeeds exactly when every shot can fly and every landing resolves; the dice then stand where resolving the landings alone, in launch order, leaves them |
| Artillery.AdvanceShots | src/btech/artillery_queue.rs:131-206 | the snapshot loop removes exactly the arriving shots, in launch order, and steps every other countdown by one, or reports the first failure |
| Artillery.StoredMap.Enqueue | src/btech/artillery_queue.rs:55-109 | a launch takes the next ordinal, or the queue is unchanged and the first failed check is reported: shooter, map, placement, position, terrain, room, sequence, validity |
| Artillery.RefusedExactly | src/btech/artillery_queue.rs:63-89 | a launch reaches the queue exactly from a live placed shooter on its own hex of a ready map |
| Artillery.EnqueueExactly | src/btech/artillery_queue.rs:89-109 | a valid queue accepts a launch exactly when it has room and an ordinal left and the shot is valid, and stays valid |
| Artillery.StoredMap.AdvanceQueue | src/btech/artillery_queue.rs:122-206 | a failed arrival restores every shot and the dice |
| ArtilleryRuns.RunTracked | src/btech/artillery_queue.rs:55-206 | over every run, pending shots carry exactly their remaining seconds and landings are recorded in their due second |
| ArtilleryRuns.EveryShotLandsOnceOnTime | src/btech/artillery_queue.rs:122-206 | at any point of any run a shot is queued once with the seconds it has left, or has landed once in the second its launch countdown named |
| ArtilleryRuns.QueueStaysBoundedAndOrdered | src/btech/artillery_queue.rs:92-101 | the queue never exceeds 4096 and pending ordinals stay in launch order although ordinals are reused |
| ArtilleryRuns.RunRollsLandings | src/btech/artillery.rs:289-313 | over every run the dice equal the fold of the impacts of the landed shots, in landing order, from the first dice: launches and seconds of flight draw nothing |
| ArtilleryRuns.PendingShotsReload | src/btech/artillery.rs:218-231 | any pending shot of any run reloads to itself |
| ArtilleryRegistration.Piece.Register | src/btech/artillery_registration.rs:75-98 | in-place registration resets on a new post, ignores repeats and evicts the oldest of 64 |
| ArtilleryRegistration.EveryRunTracks | src/btech/artillery_registration.rs:13-155 | over every run, registered hexes are distinct, at most 64, struck from the current post since the last clearing, include the last strike, and are all of them while at most 64 were struck |
| ArtilleryRegistration.RecordIsMostRecent | src/btech/artillery_registration.rs:75-155 | over every run the record is the last 64 registrations since the post was taken, in order |
| BoosterChecks.Device.Advance | src/btech/booster_control.rs:182-247 | one second keeps the state valid, and rolls exactly at a boundary after use |
| BoosterChecks.IntervalAfterRest | src/btech/booster_control.rs:68-86 | after a check at interval c and k rested turns the next check is at min(c + 1, 5) or max(1, c - k) |
| BoosterChecks.IntervalClimbs | src/btech/booster_control.rs:204-224 | consecutive turns of use climb one interval each, up to the fifth, whatever the dice |
| BoosterChecks.CertainFailureIff | src/btech/booster_control.rs:37-48 | a check fails on every two-dice result exactly at the fifth interval |
| BoosterChecks.CheckOutcome | src/btech/booster_control.rs:204-247 | a check fails on 2, 4, 6 or 10 or less and at last always; failing breaks a supercharger for good and leaves a MASC enabled |
| BoosterChecks.ShutdownStartsOver | src/btech/booster_control.rs:60-66 | after a shutdown the next check is at the first interval, and failed hardware stays failed |
| BoosterChecks.FiveTurnsCannotAllPass | src/btech/booster_control.rs:34-48 | from any valid state five consecutive turns of use include a certain failure |
| BoosterChecks.FourTurnsCanAllPass | src/btech/booster_control.rs:37-48 | four do not: a fresh system rolling twelves passes four checks |
| BoosterChecks.RunsStayValid | src/btech/booster_control.rs:50-87 | over every run the state stays valid, a failed device stays failed and MASC never fails for good |
| BuildingRepair.Interior.Hit | src/btech/building_damage.rs:44-94 | a packet takes no more than what stands and starts the timer only on first damage |
| BuildingRepair.HitTakes | src/btech/building_damage.rs:61-94 | timed or not, a hit that is not immune takes its damage down to zero, and the timer changes only when a whole structure survives it |
| BuildingRepair.EntryTakes | src/btech/building_entry.rs:314-320 | an entry takes a point for each ten tons begun, by the same rule |
| BuildingRepair.TimedWear | src/btech/building_damage.rs:61-136 | between two repairs, over every run, integrity is the start less all losses, clamped at zero, and the timer counts the seconds |
| BuildingRepair.Interior.Tick | src/btech/building_damage.rs:114-136 | one second of the countdown, restoring a clamped amount when it ends |
| BuildingRepair.Interior.Configure | src/btech/building.rs:78-94 | an edit within bounds replaces integrity, maximum and factor and leaves the timer; any other changes nothing |
| BuildingRepair.Interior.Reload | src/persistence/btech_building_repair.rs:43-61 | loading gives a damaged interior that some entrance leads to the timer it lacks, and touches no other |
| BuildingRepair.EveryRunIsSound | src/btech/building_damage.rs:61-136 | over every mix of hits, entries, seconds, configuration and reloads integrity stays in bounds and timers within 1 to 120 |
| BuildingRepair.EveryRunKeepsSchedule | src/btech/building_damage.rs:61-136 | without configuration, over every mix of hits, entries, seconds and reloads a timer runs whenever the structure stands damaged and only below its maximum, and ruins stay ruins |
| BuildingRepair.ReloadCovers | src/persistence/btech_building_repair.rs:43-61 | whatever came before, from a reload of a referenced interior until the next configuration every damaged state has a timer |
| BuildingRepair.NeverTimedIff | src/btech/building.rs:78-94 | over every run a structure without a timer stays without one exactly when, counting damage and configuration alone, no reload of a referenced interior finds it damaged and no damage finds it whole and leaves it standing |
| BuildingRepair.UntimedUntilReloadIff | src/persistence/btech_building_repair.rs:43-61 | configured as damaged and not configured again, it gets no timer exactly when each reload comes after losses of at least its integrity, and until then integrity is exactly what the losses leave |
| BuildingRepair.FullRepairTakesExactly | src/btech/building_damage.rs:116-136 | undisturbed, full repair takes exactly timer + 120 * (ceil(missing / factor) - 1) seconds |
| BuildingRepair.IntegrityAfterSeconds | src/btech/building_damage.rs:116-136 | undisturbed, integrity after any number of seconds is one signed factor for each repair due, clamped between ruin and the maximum |
| BuildingRepair.RuinTimerEnds | src/btech/building_damage.rs:125-131 | a ruin's timer runs out and is not renewed |
| BuildingRepair.RepairedEventuallyIff | src/btech/building_damage.rs:116-136 | left alone, a structure is ever whole exactly when it is now, or it stands damaged with a timer and a positive factor |
| BattlefieldIdentity.Retry | src/btech/battlefield_identity.rs:55-65 | the bounded loop stops at the wish if free, else at the first free roll, and gives up only after 4096 used rolls |
| BattlefieldIdentity.Choose | src/btech/battlefield_identity.rs:49-68 | the label is the wish if free, else the first free roll within the bound, else the alphabetically first free label |
| BattlefieldIdentity.Battlefield.Assign | src/btech/battlefield_identity.rs:22-74 | labels stay unique on each map for any dice and preference; it fails only when all 676 labels are taken and changes nothing then |
| BattlefieldIdentity.ExhaustionNeedsManyUnits | src/btech/battlefield_identity.rs:39-43 | running out of labels needs at least 676 other units on the map |
| BattlefieldIdentity.LabelAtExactly | src/btech/battlefield_identity.rs:39-43 | the 676 positions are exactly the two-letter labels |
| BattlefieldIdentity.LabelAtAscends | src/btech/battlefield_identity.rs:39-43 | in alphabetical order |
| BattlefieldIdentity.RolledExactly | src/btech/battlefield_identity.rs:60-64 | a roll spells the label of its first and second die, in that order |
| BattlefieldIdentity.PreferredExactly | src/btech/battlefield_identity.rs:49-54 | a preference becomes two capital letters, keeping capitals, raising small letters and clamping the rest |
| BattlefieldIdentity.Validate | src/btech/battlefield_identity.rs:76-114 | the single pass accepts exactly the rosters with printable labels, one per placed unit and none repeated on a map |
| AmmunitionFeed.PlanDraws | src/btech/ammunition_feed.rs:119-137 | the loop computes the specified plan |
| AmmunitionFeed.PlanDrawsRequestOrSupply | src/btech/ammunition_feed.rs:119-137 | the plan draws exactly the lesser of the request and the supply |
| AmmunitionFeed.PlanDrawsAreBounded | src/btech/ammunition_feed.rs:119-137 | draws come from distinct listed bins, each positive and within its bin |
| AmmunitionFeed.BetterBinsDrainFirst | src/btech/ammunition_feed.rs:119-137 | a bin is touched only after every bin of strictly better priority is drained |
| AmmunitionFeed.PlanIgnoresListing | src/btech/ammunition_feed.rs:119-137 | with distinct keys the plan does not depend on listing order |
| AmmunitionFeed.EligibleFacts | src/btech/ammunition_feed.rs:38-61 | eligible sources are exactly the compatible, loaded, available bins, in loadout order |
| AmmunitionFeed.Feed | src/btech/ammunition_feed.rs:22-63 | the whole feed draws the lesser of request and supply from distinct compatible bins within what they hold |
| AmmunitionFeed.SoonerBinsDrainFirst | src/btech/ammunition_preference.rs:7-17 | a bin is drawn only once every compatible bin of the selected section, then of the mount's own, then of lower section and slot is drained |
| AmmunitionFeed.FeedByBin | src/btech/ammunition_feed.rs:22-63 | read as bins and rounds, the feed is the compatible bins in feed order drawn until the request is met |
| AmmunitionFeed.FeedIgnoresListing | src/btech/ammunition_feed.rs:22-63 | with bins in distinct critical slots, which bins are drawn, in which order and for how much does not depend on how the loadout lists them |
| WeaponRating.WeaponBattleRating | src/btech/battle_value.rs:175-223 | the computation with its early exit equals the heat-ordered rating |
| WeaponRating.RatingIgnoresOrder | src/btech/battle_value.rs:205-210 | the rating depends only on the multiset of weapons |
| WeaponRating.RatingRisesWithEfficiency | src/btech/battle_value.rs:197-222 | with nonnegative values a higher heat efficiency never lowers the rating |
| WeaponRating.AccumulatedIsPrefix | src/btech/battle_value.rs:211-222 | the loop counts in full exactly the shortest prefix whose heat reaches the efficiency, and half of the rest |
| WeaponRating.CountingOrder | src/btech/battle_value.rs:205-210 | heated weapons are counted by falling value, equal values by rising heat |
| WeaponRating.LeastHeatFirstIsBest | src/btech/battle_value.rs:201-222 | counting ties by least heat is the best of all orders by falling value |
| WeaponRating.WithinEfficiencyIsFull | src/btech/battle_value.rs:197-200 | within the efficiency the early exit and the loop agree |
| WeaponRating.RatingBounds | src/btech/battle_value.rs:175-223 | the rating lies between half and all of the heated value above the unheated terms |
| WeaponRating.NewcomerAdds | src/btech/battle_value.rs:175-223 | one more weapon, wherever it is listed, adds its value or half of it, less half the value it pushes past the efficiency |
| WeaponRating.NewcomerKeepsRatingIff | src/btech/battle_value.rs:175-223 | the rating does not fall exactly when twice the newcomer's value covers what it pushes past the efficiency, which is nothing for a cold weapon or on a vehicle |
| WeaponRating.AddingAWeaponCanLowerTheRating | src/btech/battle_value.rs:201-222 | a concrete loadout whose rating falls when a hot, valuable weapon is added |
| ReportTruncation.BuildPrefix | src/sessions.rs:292-310 | the loop keeps spans up to the given length and appends the notice |
| ReportTruncation.TruncatedShowsPrefixAndNotice | src/sessions.rs:292-310 | a truncated report shows exactly that prefix of the visible text, then the notice |
| ReportTruncation.KeptKeepsStyles | src/sessions.rs:299-303 | kept spans keep order and style, and all but the last are whole |
| ReportTruncation.BoundSpans | src/sessions.rs:266-322 | for any fit predicate: a fitting report is kept, otherwise the result fits and the next boundary does not, and it fails only if the bare notice does not fit |

## Left out

- Repair findings as text, Wizard observations, SQL writes and session detachment: presentation and storage around the plan.
- Object descriptions, powers, scripted state and parents: cleared on purge and read by no modelled rule.
- Account names, macros, roll retention and BattleTech validation inside the plan: arbitrary predicates of the world, so the model does not say when they hold.
- Movement.Scripts.Depart: hook bodies, lock evaluation, home notices and the final world validation are arbitrary changes and outcomes, because scripts may do anything.
- Savepoints drop effects of sessions detached in the meantime; movement restores only world and staged output here.
- Flights resolve their arrival through an arbitrary function of the dice: scatter geometry, impact cells, damage and homing guidance depend on hex and damage code outside this model.
- Artillery.StoredMap.AdvanceQueue: models one map's queue and assumes arrival effects do not themselves edit that queue.
- ArtilleryRegistration.Piece.Register: one piece's record; which piece moved or spent movement is given.
- BoosterChecks.Device.Advance: critical hits, falls and notices after a failed check are not modelled.
- BuildingRepair.Interior.Hit: finding the entrance and interior, and notices, are not modelled; the entry countdown and the damage a unit takes on entering would only add easy members.
- BuildingRepair.Interior.Configure: that the map exists, is not GOING and has decoded terrain is taken as given, and building flags appear only as immunity.
- BuildingRepair.Interior.Reload: a saved timer is taken to reload to itself; its storage as a deadline on the simulation clock is not modelled.
- BattlefieldIdentity.Battlefield.Assign: object kind and GOING checks count as an unplaced unit, and labels derived from map slots are taken as given.
- Defensive rating, weapon modifiers, ammunition caps, speed factor and rounding of Battle Value: single expressions or printed tables that would only add easy members.
- Floating-point rounding in ratings and flight times: arithmetic is over reals.
- Grapheme segmentation, telnet rendering and style controls: given as boundaries and a fit predicate.
- Lua hosting, sockets, help, configuration parsing, passwords, line of sight and hex geometry.
