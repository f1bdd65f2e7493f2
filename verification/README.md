# MCPDoll gateway: verified model

A Dafny model of the gateway's decision logic, with proofs. It covers the plugin pipeline (patches, verdicts,
budgets, breakers), the signed request-state protocol between client, plugins and backends, and the state machines
and indexes around the backends (pool, drift, health, admission). `dafny verify dfyconfig.toml` checks everything.

Where the Go code updates things in place there is a class or a method with loops that does the same and is proved
equal to a function; the theorems are about that function. Hosts, backends, clocks, JSON text, the MAC, the hash and
the glob matcher are parameters: an oracle giving an answer, a reading of a clock, or a function with the assumption
named where it is used (`Faithful`, `CollisionFree`, `Unforgeable`, `Ticks`, `Punctual`). The cryptographic ones speak
only of the tokens and arguments that occur, and `DispatchRuns.DeferThenRetry` builds a run that meets them all.

## How it is laid out

| files | what they hold |
|---|---|
| `Options`, `Json`, `Text`, `Base64`, `Permutations`, `Targets` | shared vocabulary: results, JSON trees, the string and base64url functions used, list permutations |
| `JsonPatch`, `ScopeFrame`, `PatchAlgebra` | JSON Pointer and the patch operations on trees; what write scopes are worth; laws of edits |
| `DocumentHeap`, `PatchInPlace` | the same patch engine on mutable maps and arrays, proved to do what `JsonPatch` says |
| `Entitlements` | the entitlements plugin, and its patch run through the patch engine |
| `PluginBreaker`, `BackendBreaker`, `BreakerRuns` | the two circuit breakers, and what they promise over any interleaving |
| `Verdicts`, `Engine`, `EngineRun` | the hook engine as a function, and as the code's own loops over mutable state |
| `EngineTrace`, `EngineBudget`, `EngineShadow`, `EngineLockout`, `EngineBreakers` | the engine's theorems: declarative fold and trace, time budget, shadow plugins, the lost half-open slot, breakers over any hooks |
| `RequestState`, `Dispatch`, `DispatchRuns` | the signed envelope, one tools/call, and runs of calls with an untrusted client |
| `Drift`, `HealthRegistry`, `Prober` | drift classification, the index of refused tools, and how long a refusal lasts |
| `Pool`, `PoolRuns`, `PoolHistory` | reconciling the pool with a snapshot; a breaker over the calls that overlap on it; whole histories of publishes and overlapping calls |
| `Toolsets`, `Admission`, `AdmissionLaws`, `CatalogLaws`, `RegistrySpec` | from published tools to an admitted catalog; what validating the registry document is worth to it |

## Where the code and its documentation part

The model follows the code. In each case the exact behaviour is a theorem.

- A closed failure policy denies only when `Invoke` fails. An open circuit, a missing host or an invalid verdict never
  denies, whatever the policy (`EngineTrace.HasASay`).
- The half-open slot is taken before the host is looked up and is not given back when the lookup fails
  (internal/dataplane/pipeline/engine.go:278-293). `EngineLockout.SlotLeaks` says exactly when that happens. With hooks
  one after another the plugin then never runs again (`EngineLockout.LockedForever`); with overlapping ones, exactly
  when no invocation of it was under way at the leak (`EngineLockout.LockedOutForGood`).
- A scope check ignores numeric pointer parts, but `-` is not numeric. Declared scopes keep a patch inside themselves
  exactly when no scope is `*`, `-`, or names the append position of an array that no scope covers
  (`ScopeFrame.ScopeFrame`).
- A backend's deferral is bound to the arguments the plugins left, a retry is checked against those the client sends.
  `DispatchRuns.RepeatIsRedeemed` says exactly when repeating the call redeems the token.
- Arguments that do not encode share a sentinel digest that is meant to match nothing; it matches itself
  (`RequestState.DigestBinds`). docs/adr/0012-mrtr-requeststate-wrapping.md:132-135 speaks of canonical arguments; the
  code hashes the encoder's text of them.
- `HookResult.Payload` stays unset when no plugin is configured (`EngineTrace.Answer`), which is the one difference
  two runs with the same enforced plugins can show (`EngineShadow.ShadowsAreSilent`).
- The index of refused tools has no tenant: a strict backend of one tenant refuses the qualified name for all
  (`HealthRegistry.Registry.Blocked`).
- The recorded reason of a refusal is the first drift with that name, blocking or not; it is a blocking one because
  drift lists are sorted, through any run of sweeps (`Prober.ReasonsStayBlocking`).
- The two breakers grant the same requests exactly when no failure arrives stale: while the backend breaker is open, no trial is
  in flight, and the reading is not the opening's (`BreakerRuns.AgreeUnlessStale`). Such a failure restarts only the
  backend breaker's cooldown.
- The envelope names the tool and the tenant but not the server (internal/dataplane/edge/requeststate.go:71-101). State
  is back with the server that produced it exactly when the name still stands for that server
  (`DispatchRuns.BackendGetsItsOwn`); `DispatchRuns.DeferThenRetry` is a run in which it does not.
- Denied tools are hidden only if `hide_denied` is set, and the two hooks of the entitlements plugin judge a tool by
  different names when a credential spans tenants (`Entitlements.OfferedIffCallable`,
  `Entitlements.SpanningOffersUncallable`).
- `TotalBudget` is documented as the cap for one request (internal/dataplane/pipeline/engine.go:61-63), but the gateway
  makes a new HookRequest for every hook of a client request. `EngineBudget.TotalHoldsIffHooksFit` says exactly when the
  cap holds for the client request.
- Shadow plugins are silent only up to their time: spent budget (`EngineShadow.SlowShadowStarves`) and a cooldown that
  ends meanwhile (`EngineShadow.ShadowOutlastsCooldown`) can show.

## Model

| member | source | states |
|---|---|---|
| JsonPatch.PointerRoundTrip | internal/dataplane/pipeline/patch.go:191-203 | every path of member names has a pointer, and parsing that pointer (splitting, unescaping) gives the path back |
| JsonPatch.PointersTell | internal/dataplane/pipeline/patch.go:191-203 | a pointer is unreadable iff it is not empty and does not begin with a slash; escapes are read left to right in one pass, and an escape of neither kind stays as it is |
| JsonPatch.PatchIsAllOrNothing | internal/dataplane/pipeline/patch.go:56-103 | a patch is accepted iff it is empty, or has at most 256 operations, all targets and sources in scope, and every operation succeeding in turn; the result is all of them applied |
| JsonPatch.RefusalTells | internal/dataplane/pipeline/patch.go:56-103 | why a patch is refused, in this order: not a patch, more than 256 operations, the first path no scope covers (a target before its source), the first operation that fails |
| ScopeFrame.ScopeFrame | internal/dataplane/pipeline/patch.go:73-149 | erasing everything the scopes cover gives the same document before and after every accepted patch, for all documents and patches, iff the scopes pass a check on the manifest alone |
| ScopeFrame.UnsafeScopeEscapes | internal/dataplane/pipeline/patch.go:107-149 | every scope that fails the check lets some accepted patch change some document outside the scopes; the lemma returns the document and the patch |
| ScopeFrame.EditIsFramed | internal/dataplane/pipeline/patch.go:232-375 | one edit at a covered path, at any depth of objects and arrays, is invisible once covered members are erased |
| ScopeFrame.CoverGrows | internal/dataplane/pipeline/patch.go:107-149 | a scope that covers a path covers every path below it |
| ScopeFrame.DeclaredIsCovered | internal/dataplane/pipeline/patch.go:107-149 | a scope that spells the dotted member names of a path covers that path |
| ScopeFrame.IndicesDoNotCount | internal/dataplane/pipeline/patch.go:134-149 | leaving out an array index never changes what is in scope |
| ScopeFrame.ScopeExactly | internal/dataplane/pipeline/patch.go:107-149 | a path whose member names hold no dots is in scope iff some scope is the star or spells its names or those of a path above it |
| ScopeFrame.DeclaredPatchIsAccepted | internal/dataplane/pipeline/patch.go:56-149 | any at most 256 operations that succeed in turn, at or below declared paths, are accepted and give their result |
| PatchAlgebra.RemoveUndoesAdd | internal/dataplane/pipeline/patch.go:232-325 | removing right after adding restores the document iff the addition went to a numbered array slot or an absent member |
| PatchAlgebra.ReplaceUndoesReplace | internal/dataplane/pipeline/patch.go:156-289 | a replaced value can be read back, and putting the old one back restores the document |
| PatchAlgebra.EditsCommute | internal/dataplane/pipeline/patch.go:232-375 | two edits whose paths part at an object give the same result in either order, failures included |
| PatchAlgebra.GetElsewhere | internal/dataplane/pipeline/patch.go:232-375 | an edit changes nothing at any path that parts from its own at an object |
| PatchAlgebra.OpsCommute | internal/dataplane/pipeline/patch.go:156-189 | two patch operations of any kind, tests and refused ones included, may be swapped when their paths part at an object: same success, same document |
| PatchAlgebra.GetSpelled | internal/dataplane/pipeline/patch.go:327-348 | where a path leads, one member or element further: an object by name, an array by an index in range, anything else nowhere |
| PatchAlgebra.EditSpelled | internal/dataplane/pipeline/patch.go:232-375 | an edit is possible iff its path leads to a container in which the last part can be added, replaced or removed (a dash appends), and the container is then exactly the edited one |
| PatchAlgebra.OperationSpelled | internal/dataplane/pipeline/patch.go:156-189 | which edit each operation name asks for; a test compares; any other name, a missing value or an unreadable path fails |
| PatchInPlace.GetPointerParts | internal/dataplane/pipeline/patch.go:327-348 | walking the mutable document reaches the part the path denotes, or fails where it denotes none |
| PatchInPlace.ReplaceSlice | internal/dataplane/pipeline/patch.go:352-375 | re-attaching a rebuilt array changes that array and nothing else in the document |
| PatchInPlace.SetPointer | internal/dataplane/pipeline/patch.go:232-289 | the in-place add or replace leaves exactly the document the tree edit describes, and fails exactly when it does |
| PatchInPlace.RemovePointer | internal/dataplane/pipeline/patch.go:291-325 | the in-place removal leaves exactly the document the tree edit describes, and fails exactly when it does |
| PatchInPlace.ApplyOpInPlace | internal/dataplane/pipeline/patch.go:156-189 | one operation on the mutable document, test and refused operations included, does what the tree specification says |
| PatchInPlace.CheckScope | internal/dataplane/pipeline/patch.go:107-132 | the loop over scopes finds out whether some scope authorizes the pointer's dotted path |
| PatchInPlace.ApplyPatchInPlace | internal/dataplane/pipeline/patch.go:56-103 | the whole patch engine, decoding, scope checks, in-place operations and re-encoding, equals the tree specification in result and in error |
| Entitlements.IsAllowed | plugins/entitlements/main.go:137-157 | the search returns the verdict of the first rule that decides, deny winning inside a rule, else the default |
| Entitlements.RulesTell | plugins/entitlements/main.go:137-208 | the first rule that speaks to a tool, by name pattern and effect class, decides: nobody in a group it denies, and only those in a group it allows if it names any; with no such rule the default decides |
| Entitlements.EnforceCall | plugins/entitlements/main.go:110-121 | the call hook denies exactly what the rules do not allow |
| Entitlements.FilterCatalog | plugins/entitlements/main.go:67-108 | the catalog hook sends one removal per hidden tool, last first |
| Entitlements.KeptIsSubsequence | plugins/entitlements/main.go:67-108 | the filtered list is the kept items in their old order and no others |
| Entitlements.RemovalsFilter | internal/dataplane/pipeline/patch.go:291-325 | descending index removals applied one by one are the list filter |
| Entitlements.CatalogIsFiltered | plugins/entitlements/main.go:67-108 | the plugin's patch is accepted iff at most 256 tools are hidden and the writes cover `catalog`; then the catalog is exactly the allowed tools in order and the rest of the payload is untouched |
| Entitlements.OfferedIffCallable | plugins/entitlements/main.go:67-157 | in the catalog that applying the catalog hook's verdict leaves, a tool is offered iff it is allowed under the name shown or denied tools are not hidden; that means it can be called exactly when the rules treat the shown and the called name alike, or, with denied tools not hidden, when the call is allowed |
| Entitlements.OneNameOneAnswer | internal/dataplane/snapshot/view.go:499-504 | within one tenant the two names are the same, so a hiding filter offers exactly what can be called |
| Entitlements.SpanningOffersUncallable | internal/dataplane/snapshot/view.go:499-504 | with a credential that spans tenants a deny rule matching only the qualified name leaves the tool offered and refuses the call |
| PluginBreakers.Breaker.TryAllow | internal/dataplane/pipeline/breaker.go:47-64 | the plugin breaker's request step, grant included |
| PluginBreakers.Breaker.RecordFailure | internal/dataplane/pipeline/breaker.go:76-97 | the plugin breaker's failure step, re-opening and tripping |
| PluginBreakers.Breaker.ReportPhase | internal/dataplane/pipeline/breaker.go:117-127 | the state the plugin breaker reports at a given time |
| BackendBreakers.Breaker.TryAllow | internal/dataplane/backends/breaker.go:74-100 | the backend breaker's request step, grant included |
| BackendBreakers.Breaker.RecordFailure | internal/dataplane/backends/breaker.go:112-132 | the backend breaker's failure step, re-opening and tripping |
| BackendBreakers.Breaker.ReportPhase | internal/dataplane/backends/breaker.go:136-142 | the state the backend breaker reports at a given time |
| BreakerRuns.SoundP | internal/dataplane/pipeline/breaker.go:47-96 | in every reachable state the plugin breaker is open iff the consecutive failures reached the threshold |
| BreakerRuns.SoundB | internal/dataplane/backends/breaker.go:74-132 | in every reachable state the backend breaker is not closed iff the consecutive failures reached the threshold |
| BreakerRuns.NoGrantInCooldownP | internal/dataplane/pipeline/breaker.go:47-96 | under any interleaving an open plugin breaker grants nothing before its cooldown, unless a success lands first |
| BreakerRuns.NoGrantInCooldownB | internal/dataplane/backends/breaker.go:74-132 | under any interleaving an open backend breaker grants nothing before its cooldown, unless a success lands first |
| BreakerRuns.OneProbeP | internal/dataplane/pipeline/breaker.go:47-64 | while the plugin breaker is tripped, between two outcomes at most one request is granted |
| BreakerRuns.OneProbeB | internal/dataplane/backends/breaker.go:74-100 | while the backend breaker is tripped, between two outcomes at most one request is granted |
| BreakerRuns.GrantsExactlyP | internal/dataplane/pipeline/breaker.go:47-127 | over any history, by the history alone: the plugin breaker lets a request through iff the failures since the last success are below the threshold, or the cooldown since it last opened is over and no trial is out; and it reports the state accordingly |
| BreakerRuns.GrantsExactlyB | internal/dataplane/backends/breaker.go:74-142 | the same for the backend breaker, which opens again with every failure at the threshold |
| BreakerRuns.AgreeUnlessStale | internal/dataplane/backends/breaker.go:74-142 | under any interleaving of requests and outcomes, overlapping calls included, both implementations would grant exactly the same requests throughout iff no failure arrives stale |
| BreakerRuns.StaleTellsThemApart | internal/dataplane/pipeline/breaker.go:76-97 | after the first stale failure there is a request one grants and the other refuses, on a forward clock one that can still come |
| BreakerRuns.BreakersAgree | internal/dataplane/backends/breaker.go:74-142 | after any history of calls one after another they also report the same state before, during and after the next |
| BreakerRuns.LateFailureTellsThemApart | internal/dataplane/pipeline/breaker.go:76-97 | for every threshold and cooldown a run from new that tells the two apart: one request more than the threshold is let through by both, all fail, the last one late |
| EngineRun.PluginEngine.Run | internal/dataplane/pipeline/engine.go:154-261 | the loops over mutable breakers, payload, consumed time and trace compute the specified run, and append exactly one hook trace |
| EngineRun.PluginEngine.Attempt | internal/dataplane/pipeline/engine.go:277-396 | one plugin's breaker, host, invocation and settlement |
| EngineRun.PluginEngine.BreakerFor | internal/dataplane/pipeline/engine.go:508-517 | finds or creates the plugin's breaker and disturbs no other |
| EngineRun.MarkShortCircuited | internal/dataplane/pipeline/engine.go:481-499 | appends a pre-empted outcome for each plugin behind the deciding one |
| EngineRun.AddAnnotations | internal/dataplane/pipeline/engine.go:246-253 | adds every annotation under the plugin's name, in any map order |
| EngineTrace.RunIsFold | internal/dataplane/pipeline/engine.go:154-397 | with unique ids, a run's result, trace, payload, consumed time and every breaker are those of a left fold in which each plugin is seen alone, with the breaker the hook began with and the payload the accepted patches leave |
| EngineTrace.DecisionRule | internal/dataplane/pipeline/engine.go:209-260 | the decision, reason, decider and deferral are those of the only enforced deny or defer; failing that, mutate by the last accepted patch, else allow |
| EngineTrace.PayloadIsFold | internal/dataplane/pipeline/engine.go:226-260 | the payload carried on is the given one with the trace's accepted patches applied in order; the result carries it unless the hook was ended before any patch, or had no plugins |
| EngineTrace.EveryoneIsShown | internal/dataplane/pipeline/engine.go:313-319 | until a patch is accepted every plugin of a hook, in shadow or enforced, is shown the payload the hook was given |
| EngineTrace.AnnotationsTell | internal/dataplane/pipeline/engine.go:246-253 | each annotation lands under the plugin's name, a dot and its key, and every other entry stays as it was |
| EngineTrace.TraceIsComplete | internal/dataplane/pipeline/engine.go:180-224 | one outcome per configured plugin in order, marked pre-empted iff an earlier one decided, run only within both budgets, and with no say unless it ran |
| EngineTrace.OutcomeTells | internal/dataplane/pipeline/engine.go:185-197 | exactly when a plugin is skipped for the request's budget, for the hook's, or as pre-empted |
| EngineTrace.HasASay | internal/dataplane/pipeline/engine.go:277-397 | a plugin has a say iff its breaker lets it through, its host is up, it is enforced, and it answers nothing, or a verdict that is consistent, or fails while its policy for the effect class says closed (without such a policy it fails open); what it then says, and the deadline it is given |
| EngineTrace.TurnReads | internal/dataplane/pipeline/engine.go:277-397 | what the trace records of a turn: whether the plugin ran, and exactly when it was skipped by its breaker or for its host, failed, or answered with an inconsistent verdict |
| EngineTrace.VerdictReads | internal/dataplane/pipeline/engine.go:326-428 | the failure mode recorded is closed iff the policy for the effect class says so, else open; exactly when a verdict is enforced, and when a shadow verdict is recorded as diverging |
| EngineTrace.ExhaustedTells | internal/dataplane/pipeline/engine.go:191-197 | a hook is marked exhausted iff some plugin was skipped because the hook's deadline had passed |
| EngineTrace.DefaultsTell | internal/dataplane/pipeline/engine.go:124-142 | the settings an engine runs with: 250, 50 and 25 milliseconds, five failures and thirty seconds wherever nothing positive is configured |
| EngineTrace.PreemptedTail | internal/dataplane/pipeline/engine.go:481-499 | with unique ids exactly the plugins behind the deciding one are marked |
| EngineBudget.BudgetHolds | internal/dataplane/pipeline/engine.go:185-197 | over any sequence of hooks run on one HookRequest the plugins consume at most the total budget plus one overrun; with punctual hosts, at most the budget |
| EngineBudget.ClientRequestWithin | internal/dataplane/wiring/pipeline.go:67-76 | a client request of k hooks, each on a HookRequest of its own, consumes at most k times the lesser of hook and total budget, each with one overrun |
| EngineBudget.TotalHoldsIffHooksFit | internal/platform/config/config.go:367-377 | with punctual hosts and hooks one after another the total budget holds for every client request of k hooks iff k hook budgets fit into it |
| EngineBudget.TwoHooksOverspend | internal/dataplane/wiring/pipeline.go:147-155 | a hook budget above half the total, which configuration allows: two punctual one-plugin hooks that together exceed the total |
| EngineBudget.ConsumedWithin | internal/dataplane/pipeline/engine.go:300-324 | within a hook, consumed time is bounded by elapsed time and by the budget and one overrun |
| EngineBudget.SpentIsSpent | internal/dataplane/pipeline/engine.go:185-190 | once the budget is spent every later plugin is skipped and nothing changes |
| EngineBudget.InTimeSkipsNobody | internal/dataplane/pipeline/engine.go:166-197 | if every plugin's turn comes before the hook's deadline, nobody is skipped for want of budget: a condition on clock and budgets for the shadow theorems |
| EngineShadow.ShadowsAreSilent | internal/dataplane/pipeline/engine.go:202-204 | two runs with the same enforced plugins and hosts that answer alike, no plugin out of budget, and each enforced plugin let through by its breaker in both or in neither, agree on result and payload; the breaker of every plugin both list behind the same enforced ones, shadow plugins included, ends the same up to the time it last opened, and exactly if it settles at the same reading; no unlisted breaker is touched |
| EngineShadow.RetainedBreaker | internal/dataplane/pipeline/engine.go:277-397 | under those assumptions a plugin, shadow or enforced, listed in both behind the same enforced plugins ends with the same breaker up to the time it last opened |
| EngineShadow.ShadowsComeAndGo | internal/dataplane/pipeline/engine.go:202-204 | deleting, adding or replacing shadow plugins anywhere in a list, whatever time they take, leaves the result, the payload and, up to the time it last opened, every other plugin's breaker as they were, provided nobody is out of budget and every other plugin is let through by its breaker in both runs or in neither |
| EngineShadow.ClosedBreakersNeedNoClock | internal/dataplane/pipeline/breaker.go:47-64 | while the other plugins' breakers are closed that proviso about breakers always holds |
| EngineShadow.GrantsDecide | internal/dataplane/pipeline/engine.go:277-288 | and it is needed: two runs of one enforced plugin that would deny if asked come to the same decision iff its breaker lets it through in both or in neither |
| EngineShadow.ShadowOutlastsCooldown | internal/dataplane/pipeline/breaker.go:47-64 | with budget to spare a shadow plugin whose time carries an enforced one past its cooldown turns an allow into that plugin's denial |
| EngineShadow.LabelsAreInert | internal/dataplane/pipeline/engine.go:399-411 | only who is enforced matters, not by which rollout: runs over relabelled plugins agree in everything but the labels in the trace, whatever the budgets |
| EngineShadow.CanaryAtTheEnds | internal/dataplane/pipeline/engine.go:399-411 | with the default sampler a canary at 100 or more runs as the same plugin enforced, one at 0 or less as the same plugin in shadow |
| EngineShadow.SlowShadowStarves | internal/dataplane/pipeline/engine.go:185-190 | without the budget assumption that fails: a shadow plugin that spends the budget turns a later plugin's denial into an allow |
| EngineShadow.ShadowFold | internal/dataplane/pipeline/engine.go:202-204 | such a run adds up to the fold over its enforced plugins alone |
| EngineShadow.CanaryShares | internal/dataplane/pipeline/engine.go:554-564 | nobody is in the sample at 0, everybody at 100, and nobody leaves when the share grows |
| EngineLockout.SlotLeaks | internal/dataplane/pipeline/engine.go:277-293 | a turn leaves the breaker's only slot taken iff it was taken before, or the half-open breaker granted and the host was missing |
| EngineLockout.LockedForever | internal/dataplane/pipeline/engine.go:277-293 | with hooks one after another, once leaked, in no later hook of any request does the plugin run |
| EngineLockout.OnlyALateOutcomeFrees | internal/dataplane/pipeline/engine.go:277-397 | with overlapping hooks, after a leak nothing is granted until an invocation that was under way at the leak comes back |
| EngineLockout.ALateOutcomeFrees | internal/dataplane/pipeline/breaker.go:66-97 | and any such outcome does free the slot: a success at once, a failure once the cooldown it starts is over |
| EngineLockout.LockedOutForGood | internal/dataplane/pipeline/engine.go:277-397 | a leak locks the plugin out for good, whatever overlapping hooks follow, iff no invocation of it is under way |
| EngineLockout.TurnIsMoments | internal/dataplane/pipeline/engine.go:277-397 | a turn of the engine is a begin and, if the plugin ran, a settlement of that model |
| EngineLockout.TurnIsBracket | internal/dataplane/pipeline/engine.go:277-370 | while the host is found a turn is one bracketed use of the breaker, and only a valid verdict counts as success |
| EngineBreakers.BreakerIsItsTurns | internal/dataplane/pipeline/engine.go:277-397 | over any hooks of any requests a plugin's breaker is the run, from the one it had, of the requests and outcomes the traces tell of; a refused patch counts as a success |
| EngineBreakers.TurnedAwayExactly | internal/dataplane/pipeline/engine.go:277-288 | over all hooks since the engine was made, a plugin whose turn comes is turned away by its breaker iff its failures since its last success reached the threshold and the breaker is cooling down or its one trial is out |
| Base64.Base64RoundTrip | internal/dataplane/edge/requeststate.go:157-177 | decoding an encoded byte string gives it back |
| Base64.DecodeTells | internal/dataplane/edge/requeststate.go:168-177 | besides line breaks a text decodes iff it is over the alphabet and leaves no single digit over |
| Base64.Ungroup | internal/dataplane/edge/requeststate.go:168-177 | the four digits of a group can be read back off the three bytes it decodes to |
| RequestState.Cut | internal/dataplane/edge/requeststate.go:220-227 | the index loop cuts at the first separator |
| RequestState.CutAtDot | internal/dataplane/edge/requeststate.go:220-227 | cutting a dot-free part, a dot and anything else gives the two parts back |
| RequestState.UnwrapOfWrap | internal/dataplane/edge/requeststate.go:140-209 | parsing a printed token gives the same envelope, subject to its age only |
| RequestState.VouchedTells | internal/dataplane/edge/requeststate.go:163-185 | a signature vouches for a text iff the token is the version, that dot-free text and its own MAC |
| RequestState.UnwrapTells | internal/dataplane/edge/requeststate.go:163-209 | a token is read iff it carries an envelope of this version at most ten minutes old and at most a minute ahead; expired iff it carries one that is older; else invalid |
| RequestState.DigestBinds | internal/dataplane/edge/requeststate.go:230-241 | unless the two texts collide, argument digests agree iff the arguments' JSON texts do, and arguments without one agree with each other |
| RequestState.CollisionFreeHasAModel | internal/dataplane/edge/requeststate.go:230-241 | any fewer than 256 to the 32nd arguments have a 32-byte hash without collisions among them, so the assumption can be met |
| RequestState.RetryOutcome | internal/dataplane/edge/requeststate.go:291-329 | an honest token is redeemed exactly by the same call, at most 600 seconds later and at most 60 seconds ahead by its whole-second stamp, and gives back exactly the inner state; every other use fails with the stated error |
| RequestState.RedeemingTells | internal/dataplane/edge/requeststate.go:291-329 | any token: none is no retry, no key is refused, an unreadable token fails as reading it does, and a readable one is redeemed iff each of tool, principal, tenant and argument digest is empty in it or the caller's |
| RequestState.OtherTextIsRefused | internal/dataplane/edge/requeststate.go:230-241 | a retry whose arguments have another text is refused, even if they are the same tree with its members reordered |
| RequestState.AcceptedWasIssued | internal/dataplane/edge/requeststate.go:163-209 | any accepted token redeems an earlier deferral for the same tool, principal, tenant and arguments, at most ten minutes old and at most a minute ahead |
| Dispatch.ToolHandler | internal/dataplane/edge/dispatch.go:31-288 | the handler's steps, rewriting arguments and retry as they go, produce the specified record of replies and messages, whose meaning the next six rows give |
| Dispatch.Gates | internal/dataplane/edge/dispatch.go:44-213 | plugins see exactly the admitted calls, and the backend exactly those that plugins neither fail, deny nor defer |
| Dispatch.Refusals | internal/dataplane/edge/dispatch.go:44-143 | each refusal before the hooks has one cause, the earlier gate speaking first, and reaches nobody |
| Dispatch.Addressing | internal/dataplane/edge/dispatch.go:201-213 | the backend is called under its own server, tenant and tool name, with the arguments the plugins left |
| Dispatch.RepliesTell | internal/dataplane/edge/dispatch.go:147-288 | the client gets an answer iff the backend was sent the call and answered without asking for input and the result hook, if there are plugins, did not fail or deny; it is the hook's replacement if given, else the backend's own; likewise iff for a denied result, an unavailable backend and a denied call, each with its reason |
| Dispatch.HoldsTell | internal/dataplane/edge/dispatch.go:159-276 | the client is asked for input iff plugins or backend asked and there is a key to sign with, and for what they asked; exactly when the reply is an error of wrapping or of the pipeline |
| Dispatch.FirstCallIsSent | internal/dataplane/edge/dispatch.go:123-213 | a call without a token is shown to plugins and backend without state, with the client's own responses |
| Dispatch.Issuing | internal/dataplane/edge/dispatch.go:169-256 | a token is only issued for a deferral the plugins or the backend of this very call asked for, bound to this call |
| Dispatch.Routing | internal/dataplane/edge/dispatch.go:526-546 | on a retry, inner state and client answers reach the party that asked and no other |
| DispatchRuns.RetriesAreEarned | internal/dataplane/edge/requeststate.go:163-330 | in any run with any tokens presented, every accepted retry redeems a deferral issued earlier in the run for the same call and in time |
| DispatchRuns.BackendGetsItsOwn | internal/dataplane/edge/dispatch.go:201-213 | on a retry a backend is handed exactly the state the earlier call's backend answered with, or nothing if a plugin had asked; it is the same backend iff server and tenant id of the name are unchanged |
| DispatchRuns.StateStaysHome | internal/dataplane/edge/dispatch.go:201-213 | in a run in which no name moves between servers, no backend is ever sent a byte of state it did not itself produce, for a call of the same tool with the same arguments text |
| DispatchRuns.DeferThenRetry | internal/dataplane/edge/requeststate.go:71-101 | a run that meets every assumption and has an accepted retry; given two servers under one name, the second is handed the state of the first |
| DispatchRuns.PluginGetsItsOwn | internal/dataplane/edge/dispatch.go:147-154 | the plugins, as one party, are handed state only from an earlier deferral of the same call by one of them, and nothing on a backend's retry; every plugin of the hook is shown it (`EngineTrace.EveryoneIsShown`) |
| DispatchRuns.NoStateWithoutToken | internal/dataplane/edge/dispatch.go:130-133 | a call without a token hands nobody any state |
| DispatchRuns.RepeatIsRedeemed | internal/dataplane/edge/dispatch.go:123-133 | repeating a deferred call in time succeeds iff a plugin asked or the plugins left the arguments' text unchanged, and returns the exact inner state |
| DispatchRuns.ReencodingLosesTheRetry | internal/dataplane/wiring/pipeline.go:180-185 | if the plugins hand back the client's arguments as the same tree encoded otherwise, repeating the call does not redeem the backend's deferral |
| DispatchRuns.UnchangedArguments | internal/dataplane/edge/dispatch.go:189-191 | without a rewrite by the plugins the backend is sent, and its deferral bound to, the client's arguments |
| DispatchRuns.DispatchesAreEarned | internal/dataplane/edge/dispatch.go:44-213 | every dispatch of a run was callable, authenticated, not drifted, let through by the plugins, and a first call or the redemption of an earlier deferral |
| DispatchRuns.RefusedCallsAreInert | internal/dataplane/edge/dispatch.go:44-143 | a call that a gate refuses reaches nobody and issues nothing; without it the run issues the same deferrals |
| Drift.Diff | internal/dataplane/health/drift.go:101-168 | the loops over both maps, in any order, and the sort give exactly one entry per differing name, most severe first, then by name |
| Drift.DiffIsUnique | internal/dataplane/health/drift.go:155-166 | there is only one such list, so map order cannot show |
| Drift.EmptyIffAgree | internal/dataplane/health/drift.go:101-153 | the diff is empty iff both catalogs have the same names with the same digests |
| Drift.OnePerName | internal/dataplane/health/drift.go:107-153 | no name appears twice, and each kind fixes which sides have the name and which digests differ |
| Drift.ListedIffDiffers | internal/dataplane/health/drift.go:107-153 | a name is listed iff only one side has it or the full digests differ |
| Drift.EntryTells | internal/dataplane/health/drift.go:107-153 | each kind of entry, field by field: whose qualified name, which digests, which words |
| Drift.OrderTells | internal/dataplane/health/drift.go:53-66 | the report lists removed, semantic, cosmetic and added entries in that order, and by name within a kind |
| HealthRegistry.Registry.Set | internal/dataplane/health/state.go:148-154 | records one backend and leaves the index in agreement with a scan of all drift lists |
| HealthRegistry.Registry.Forget | internal/dataplane/health/state.go:161-171 | keeps exactly the listed backends and leaves the index in agreement with a scan |
| HealthRegistry.Registry.RebuildBlocked | internal/dataplane/health/state.go:173-188 | in any map order the index holds exactly the names some strict backend blocks, each with a reason of such a backend |
| HealthRegistry.AddBlocked | internal/dataplane/health/state.go:173-188 | one backend adds exactly its blocked names, each with the first drift carrying the name |
| HealthRegistry.Registry.Blocked | internal/dataplane/health/state.go:195-212 | a name is refused iff some held strict backend, of any tenant, has a blocking drift with it |
| HealthRegistry.Registry.Summarise | internal/dataplane/health/state.go:256-276 | each count is the number of backends in that state, and the five sum to the total |
| HealthRegistry.ReasonIsBlocking | internal/dataplane/health/state.go:173-188 | for lists sorted by severity the recorded reason is of a blocking kind |
| HealthRegistry.ReasonsAreBlocking | internal/dataplane/health/state.go:173-212 | with every held list sorted so, every reason in the index is of a blocking kind |
| HealthRegistry.DiffIsSeverestFirst | internal/dataplane/health/drift.go:161-166 | a diff is sorted that way |
| Prober.AdmittedByBinding | internal/dataplane/health/prober.go:193-210 | groups the snapshot's tools by server and tenant under the backend's own names, the last definition winning |
| Prober.AdmittedTells | internal/dataplane/health/prober.go:193-210 | the tools admitted for a target are those filed under its server and tenant, each as it was filed last |
| Prober.ProbeLoop.Observe | internal/dataplane/health/prober.go:219-300 | the three exits of a probe: no answer, an unreadable catalog, a diff |
| Prober.ProbeLoop.ProbeAll | internal/dataplane/health/prober.go:135-191 | a sweep forgets what left the snapshot and settles every bound target by its own probe |
| Prober.ProbeTells | internal/dataplane/health/prober.go:212-302 | what one probe of a sweep leaves, field by field and for each kind of answer, given what was held before: strictness, counts, last success, drift and state |
| Prober.ConditionIsItsProbes | internal/dataplane/health/prober.go:135-302 | over any sweeps that bind a target its entry is there iff it was probed, counts the failures in a row since the last answer and remembers when that came |
| Prober.DiffBlocks | internal/dataplane/health/state.go:105-117 | with a fresh diff a strict backend blocks exactly the admitted tools that are gone or whose semantic digest changed |
| Prober.AfterSweep | internal/dataplane/health/prober.go:212-302 | what each kind of probe does to a block: cancelled and unreadable ones leave it, a readable one decides it |
| Prober.BlocksAreSticky | internal/dataplane/health/prober.go:250-285 | over any number of sweeps a tool stays blocked while its target is served strictly and no readable catalog clears it |
| Prober.BlockLifts | internal/dataplane/health/prober.go:212-302 | a probed block stands after a sweep iff that condition holds of the sweep |
| Prober.ReasonsStayBlocking | internal/dataplane/health/prober.go:135-302 | after any sweeps from an empty registry, whatever the probes found, every recorded reason is of a blocking kind |
| Pool.BackendPool.Sync | internal/dataplane/backends/pool.go:201-245 | entries become exactly the wanted ones; those whose endpoint stands are the same objects, all others are new, and what was dropped or moved is closed |
| Pool.BackendPool.CallTool | internal/dataplane/backends/pool.go:344-405 | asks the breaker, dials, calls and settles, touching only the target's entry |
| Pool.CallIsBracket | internal/dataplane/backends/pool.go:355-404 | a call is answered iff the breaker admits it, there is a session or a dial makes one, and the backend answers; it fails, is not connected or finds the circuit open exactly otherwise; each grant is settled once, by its own call, as a success iff the call was answered, and a refused call leaves no mark |
| Pool.CallTouchesItsTarget | internal/dataplane/backends/pool.go:344-354 | a call touches its target's entry only, and is told when there is none |
| Pool.DefaultsTell | internal/dataplane/backends/pool.go:139-144 | five failures and thirty seconds wherever nothing positive is configured |
| Pool.WantedExact | internal/dataplane/backends/pool.go:209-218 | a snapshot wants exactly its bound server and tenant pairs, at an endpoint they are bound to |
| Pool.LastBindingWins | internal/dataplane/backends/pool.go:209-218 | a pair bound more than once gets the server and endpoint of its last binding |
| PoolRuns.SyncIsExact | internal/dataplane/backends/pool.go:201-260 | after a publish the entries are the bound pairs at their endpoints; breaker and session survive iff the endpoint stands, and otherwise are new: closed, without failures, with the server's own threshold if it is positive, else the pool's |
| PoolRuns.SyncIsIdempotent | internal/dataplane/backends/pool.go:201-245 | publishing the same snapshot again changes nothing |
| PoolHistory.BreakerIsItsCalls | internal/dataplane/backends/pool.go:193-405 | over any history of publishes and overlapping calls, every entry's breaker, current or replaced, is exactly the run of the requests and outcomes of its own calls from new |
| PoolHistory.PublishesAreInvisible | internal/dataplane/backends/pool.go:193-245 | while every publish wants a target where it is, the target keeps its entry and breaker, whatever publishes and calls come and whatever is in flight |
| PoolHistory.OutcomesAreOwned | internal/dataplane/backends/pool.go:355-404 | every outcome a breaker sees belongs to a call that breaker let through before |
| PoolHistory.CooldownHolds | internal/dataplane/backends/pool.go:355-404 | over any such history no call is dispatched while its entry's breaker cools down, unless a call under way when the breaker stood open comes back successful first |
| PoolHistory.PublishIsSync | internal/dataplane/backends/pool.go:201-245 | a publish in that model leaves what Sync leaves |
| PoolHistory.CallToolIsItsSteps | internal/dataplane/backends/pool.go:344-405 | undisturbed, the steps of a call, settled as a success iff it got through and was answered, do to every breaker what CallTool does |
| Toolsets.ResolveToolsets | internal/controlplane/snapshotter/snapshotter.go:687-727 | the loops fill the three indexes, or fail at the first unknown or repeated claim |
| Toolsets.OrderIsImmaterial | internal/controlplane/snapshotter/snapshotter.go:687-727 | permuting the toolsets changes neither success nor the index |
| Toolsets.LookupIsUnambiguous | internal/controlplane/snapshotter/snapshotter.go:676-685 | a lookup finds the only toolset naming the tool, else the only one claiming its namespace, unless the tool is excluded |
| Toolsets.ResolvesIff | internal/controlplane/snapshotter/snapshotter.go:687-727 | the toolsets resolve iff every namespace they name exists and, over all of them, no namespace is claimed twice and no tool named twice |
| Toolsets.FaultsAreTrue | internal/controlplane/snapshotter/snapshotter.go:687-727 | whichever error comes out is true: the toolset names a namespace that does not exist, or the two toolsets named, in that order, make the same claim |
| Admission.BuildCatalog | internal/controlplane/snapshotter/snapshotter.go:154-340 | the nested admission loops, errors included, compute the specified build |
| Admission.BuildTools | internal/controlplane/snapshotter/snapshotter.go:270-330 | one binding's tools: exclusion, effect class, length, collision and toolset, checked in that order |
| AdmissionLaws.CatalogIsKeyed | internal/controlplane/snapshotter/snapshotter.go:191-340 | in every admitted catalog tenant and qualified name are a key, each tool was published and is admissible under the spec with one server and toolset, and every report counts what its backend published as admitted plus excluded |
| AdmissionLaws.CatalogIsComplete | internal/controlplane/snapshotter/snapshotter.go:191-340 | no admissible tool of any reached binding of any server is missing from the catalog |
| CatalogLaws.CatalogIsDeclared | internal/controlplane/snapshotter/snapshotter.go:154-340 | every admitted tool is what the document declares for a tool a reached binding published: tenant, server, namespace, last declared prefix, a dot and the name within 64 characters, not excluded, the effect class read from its override where that names one, else from the server's default, and the one toolset it is filed under |
| CatalogLaws.FailureTells | internal/controlplane/snapshotter/snapshotter.go:154-340 | each error of a build is true of what it was given: tenant listed twice, toolsets that do not resolve, or a server or one of its published tools that cannot be admitted for the reason named |
| CatalogLaws.SuccessTells | internal/controlplane/snapshotter/snapshotter.go:154-340 | a build that succeeds rules all of them out |
| AdmissionLaws.AdmitAllIsFilter | internal/controlplane/snapshotter/snapshotter.go:270-330 | a binding admits exactly its admissible tools in name order and excludes all others |
| AdmissionLaws.BackendOrderIsImmaterial | internal/controlplane/snapshotter/snapshotter.go:250-254 | reordering what backends list changes neither success nor the catalog, duplicates included |
| AdmissionLaws.ToolsetOrderIsImmaterial | internal/controlplane/snapshotter/snapshotter.go:176-182 | nor does reordering the toolsets |
| AdmissionLaws.CollisionsStayInTheirNamespace | internal/controlplane/snapshotter/snapshotter.go:292-300 | with dot-free distinct prefixes and known namespaces a collision is always between servers of one namespace |
| AdmissionLaws.PrefixIsReadable | internal/controlplane/registry/spec.go:602-618 | a qualified name under a dot-free prefix has one reading |
| RegistrySpec.ValidatePrefix | internal/controlplane/registry/spec.go:602-618 | a prefix passes iff it is at most 12 long and of lower-case letters, digits, underscore and hyphen; the fault reported is one it has |
| RegistrySpec.ValidateNamespaces | internal/controlplane/registry/spec.go:342-364 | no problem is reported iff every namespace has an id, a good prefix, and neither in common with an earlier one; each reported problem is one the document has |
| RegistrySpec.Validate | internal/controlplane/registry/spec.go:342-437 | no problem is reported iff namespaces and servers (ids, namespace, bindings, serving mode, effect classes) are as they should be; each reported problem is one the document has |
| RegistrySpec.FitsTells | internal/controlplane/registry/spec.go:342-437 | what that means, spelled out on the document: ids and prefixes, prefix alphabet and length, bindings, modes and effect classes |
| RegistrySpec.FitsIsValid | internal/controlplane/registry/spec.go:342-380 | a document without problems has what admission relies on: dot-free distinct prefixes and known namespaces |
| RegistrySpec.ValidatedBuilds | internal/controlplane/snapshotter/snapshotter.go:191-340 | a build of such a document never fails on a serving mode or an effect class, and its collisions are between servers of one namespace |

## Left out

- Real concurrency: methods under a lock are atomic steps, and calls or probes that overlap are interleavings of such steps.
- JSON text and canonicalization: documents are trees, equality of canonical text is equality of trees, and a payload that is not JSON does not occur. Call arguments carry the encoder's text beside the tree; the encoder itself is not modelled.
- Strings: characters stand for bytes; case folding, glob matching and invalid UTF-8 in envelope fields are not modelled.
- Cryptography: HMAC, SHA-256 and FNV are functions, assumed faithful, collision-free or unforgeable only where a lemma says so, and only on the tokens and arguments that occur.
- The SDK, sessions, dialing beyond success or failure, credential caching and exchange, and context cancellation inside a call.
- Numbers in durations: nanoseconds are unbounded integers; saturation of Go durations is not modelled.
- Engine metrics, logs, span data, durations and budgets as milliseconds in a trace, and `Trace.Summary`.
- EngineShadow.ShadowsAreSilent: assumes that no plugin is skipped for want of budget in either run, and that each enforced plugin is let through by its breaker in both or in neither, since a shadow plugin does take time (`EngineShadow.SlowShadowStarves`, `EngineShadow.ShadowOutlastsCooldown`); `EngineBudget.InTimeSkipsNobody` and `EngineShadow.ClosedBreakersNeedNoClock` give conditions. Hosts are assumed to answer the same whatever their deadline.
- EngineTrace.RunIsFold: assumes unique plugin ids, as the registry assigns them.
- Dispatch: tracing metadata, result texts and metric labels of refusals; failures of the random source or the encoder while wrapping a token.
- RequestState.AcceptedWasIssued: an empty principal or tenant in a deferral binds nothing, as in the code, and within its ten minutes a token may be redeemed more than once.
- HealthRegistry.AddBlocked: the sort inside `BlockedTools` is not modelled, since every name gets the same reason in any order.
- EngineBudget.BudgetHolds: is about one HookRequest; what it means for a client request is `EngineBudget.ClientRequestWithin`.
- Entitlements.FilterCatalog: the verdict's reason text and annotations are not modelled.
- PoolHistory.CallToolIsItsSteps: says what becomes of the breakers; sessions are those of `Pool.BackendPool.CallTool`.
- RegistrySpec.Validate: document header, endpoints and replicas, token exchange, health, toolsets, policies, plugins and tenants are not checked; problems carry no message texts.
- Drift.Diff: the wording of details is a parameter; `sort.Slice` is an insertion sort by the same order.
- Prober.ProbeLoop.ProbeAll: replicas, latency averages and the sweep's concurrency are left out; targets of one snapshot are assumed distinct.
- Admission.BuildCatalog: discovery, policies, plugins, warnings and signing; effect-class and serving-mode spellings are parameters.
- `internal/dataplane/snapshot`, `internal/platform/authz` and the databases are not part of this model, nor are HTTP handlers, the CLI and the console.
