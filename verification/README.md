# The core of the dsc host, modelled and verified

dsc is a Go host that runs language-model agents, their tools and their plugins. This project models the parts of its
`core` package on which everything else rests, and proves what they keep:

- **The request window** (`Messages`, `Pairing`, `PairingLaws`, `PairingMeaning`, `Ceiling`, `CeilingLaws`,
  `Calibration`, `Overflow`, `OverflowMeaning`, `Router`). Before a request goes to a provider the host repairs the
  pairing of tool calls and results, cuts history behind an omission note, measures the scaled estimate against the
  window and fills an output budget. After a refusal it tightens what it knows of the window and tries again, over
  attempts, providers and a retry listener. A whole request is told as a story of its attempts (`Router.Story`): what
  each began with, what the rules made of it, under which limits, what was sent to whom, and what its refusal taught.
- **Pending plugins** (`CapabilityDeps`, `Inject`). Plugins wait until the capabilities they require are provided; a
  worklist re-resolves dependencies and promotes plugins until nothing moves.
- **The pre-step waterfall** (`Waterfall`). All plugins see an event, one may rewrite it, any may ask for messages to
  be appended, and projections run over the result.
- **The gates before a tool** (`Gates`, `GateLaws`, `GateReasons`). Escalation, approval with a ledger of granted
  scopes, a never-approval gate and the sandbox, as a chain of listeners, any of which can stop a call; then the
  hooks, which may veto or rewrite it, and the policies' last word.
- **Four self-contained algorithms**: the credential file (`Ordering`, `Credentials`, `CredentialLaws`), the catalogue
  sync (`SyncTools`), the virtual path roots (`Pathmap`, `PathmapLaws`, `PathmapMeaning`), budgeted paging (`Paging`).

Code that works step by step is modelled by methods and classes; each is proved equal to a specification function or
relation, and the properties are lemmas about those. Most lemmas called `...Exactly` say what a specification computes
in terms of its input alone, without the functions it is built from. Recursive closures (`next`) are recursive methods
on the shared variables. Map iteration in Go's unspecified order is a loop that picks any remaining key, so what is
proved holds for every order. What the host cannot know in advance (a provider's stream, a plugin's reply, a user's
answer, whether a load succeeds, the token estimator) is a function-valued parameter, so each theorem is about all of
them.

## Where the code does less than its comments

Each of these is a lemma with the exact condition, or with a concrete input and the condition beside it.

- `dropped` is not the number of messages lost: `PairingLaws.DroppedVersusMessages` says when it is. A call id used
  twice stays unpaired (`ReusedIdStaysUnpaired`; `ExactPairing` is the condition).
- The stream protects output, not frames: frames without output are delivered again on a retry
  (`Router.EmptyFramesRepeat`); all frames come from the last call exactly when every call before it failed at its
  first step (`FramesComeOnce`).
- The output budget is taken from the unscaled estimate (`Router.BudgetIgnoresBias`), is kept when a retry finds a
  smaller window (`CarriedBudgetMayOverfill`; `CarriedBudgetExactly` is the condition), and an empty message list is
  not measured, tool catalogue included (`EmptyListIsUnmeasured`).
- A retry after a refusal is meant only to tighten. A refusal that names a count also moves the model's calibration,
  and a session without an anchor may then be trimmed to more than before (`Overflow.RefusalLoosens`).
  `LoosensExactly` says in which states some refusal does that, and `Tight.Steady` is what keeps a whole run from it
  (`RunTightens`).
- A refusal can widen the window while none was known (`Overflow.WindowNeverWidens`).
- The compaction role and the dependency on it are meant always to agree; with candidates of several types they need
  not (`CapabilityDeps.RoleAgreement`).
- The sandbox judges the arguments the gates see. Hooks may rewrite them afterwards, and the rewritten call is
  executed unjudged (`GateLaws.HookEscapes`); it is safe exactly if the mode the gates judged by allows it too
  (`ExecutedSafeExactly`).
- The role holder's own `append` list is delivered twice (`Waterfall.HoldersListTwice`, `DeliveredAppends`).
- Setting a credential of a plugin that is only on disk forgets its other credentials
  (`CredentialLaws.ColdSetForgets`).
- A sync is called idempotent; after a name conflict the second one takes over the other plugin's tool
  (`SyncTools.SecondSyncExactly`), which disappears when the name is given up (`TakenThenGivenUp`). The fingerprint is
  said to cover all that matters, but leaves out capabilities (`FingerprintExactly`), and a NUL inside a text can make
  two tools look alike (`NulCollides`).
- The drive-letter rule "must" be the last of the path table; its place makes no difference
  (`Pathmap.SameRulesSameMap`).
- The fetch headroom is said to be measured exactly as the ceiling measures; it ignores a window that a refusal has
  lowered (`Paging.FilledHeadroomExactly`).

## Model

| member | source | states |
|---|---|---|
| Pairing.SanitizeToolPairing | core/llm_pairing.go:30-101 | the repaired list is the specified one, and `dropped` counts exactly the named results and the calls that went missing, on every input |
| Pairing.RepairOne | core/llm_pairing.go:57-98 | one message becomes its kept calls followed by the results still unclaimed; lost calls are counted |
| Pairing.IndexResults | core/llm_pairing.go:43-53 | the first result of an id is kept, every later one is a counted duplicate |
| Pairing.HasToolTraffic | core/llm_pairing.go:105-115 | says whether any message calls or is a tool |
| Pairing.SanitizedIdempotent | core/llm_pairing.go:30-101 | repairing a repaired list changes nothing and drops nothing |
| PairingLaws.ExactPairing | core/llm_pairing.go:43-98 | every calling message is followed at once by exactly its results in declared order, and no other tool message appears, if and only if no id that some result answers is called twice |
| PairingLaws.ReusedIdStaysUnpaired | core/llm_pairing.go:66-72 | with one id called twice the second call goes out unanswered |
| PairingLaws.SanitizedOrder | core/llm_pairing.go:54-98 | messages other than results derive in order from input messages, with calls taken away at most; system and user messages come through verbatim |
| PairingLaws.DroppedVersusMessages | core/llm_pairing.go:20-30 | the drop count is the difference in list length exactly under the stated balance of calls without a result, nameless results and messages left empty |
| PairingLaws.LostIsNatural | core/llm_pairing.go:43-100 | no result is invented or handed out twice |
| PairingLaws.TokensNeverRise | core/llm_pairing.go:30-101 | the repair never raises the estimate, for any leaf estimator |
| PairingLaws.CommutesWithPrefix | core/context_ceiling.go:195-213 | a prefix without tool traffic is neither touched nor looked at |
| PairingMeaning.RepairedExactly | core/llm_pairing.go:30-101 | a list is the repaired one if and only if its messages other than results are the input's, each with exactly those calls, in order, whose non-empty id some named result answers and gone if that leaves it empty, every calling message is followed at once by results for its ids not answered before, in order, and each of these is the first result of its id in the input |
| PairingMeaning.AnswersAreKept | core/llm_pairing.go:63-93 | for every call of the input that some result answers, the first such result is in the output |
| PairingMeaning.DroppedExactly | core/llm_pairing.go:30-101 | the drop count is the results that did not come through and the calls that no result answers |
| Ceiling.CapMessagesToWindow | core/context_ceiling.go:155-215 | keeps what the specified cut keeps, with the specified drop count, on every exit |
| Ceiling.FindCut | core/context_ceiling.go:178-187 | the backward walk over the measured tail finds the specified cut |
| Ceiling.SkipOrphanResults | core/context_ceiling.go:222-227 | steps over results that lost their calls |
| Ceiling.CutIsEarliest | core/context_ceiling.go:178-187 | the cut is the earliest start whose tail fits, and never passes the last message |
| Ceiling.TrimShape | core/context_ceiling.go:155-227 | a trimmed list is the first system message if any, the note, and the repaired body; its first message that is not a system one is a user's, the body starts with no result, and a final message without tool traffic stays last |
| Ceiling.TrimFits | core/context_ceiling.go:160-213 | the body and the tools fit the reduced limit unless only the last message was kept |
| Ceiling.UntrimmedIsInput | core/context_ceiling.go:155-215 | with nothing dropped the input itself comes back, and the count is never negative |
| Ceiling.TrimIsStable | core/context_ceiling.go:155-215 | repairing a trimmed list returns it with nothing dropped |
| Ceiling.FitMeansWithinWindow | core/context_ceiling.go:300-330 | whenever the ceiling says it fits, the scaled estimate of what goes out is within the window, and with nothing dropped it says so exactly then |
| Ceiling.RepairKeepsFit | core/llm_router.go:200-214 | the later repair cannot push an accepted request over the window |
| Ceiling.RepairKeepsTrim | core/llm_router.go:200-214 | the later repair leaves a trimmed request alone |
| CeilingLaws.TrimExactly | core/context_ceiling.go:155-247 | a list and a count are the trim's if and only if nothing needed cutting and they are the input and 0, or the body is the repair of what stands behind the first message that is no result, from the earliest start that fits on, and the note between system message and body names how many messages are left out and their estimate |
| CeilingLaws.CeilingRules | core/context_ceiling.go:300-330 | a list within the scaled window passes as it is; one over it is trimmed, and fits if and only if something was dropped and what is left, scaled, is within the allowed share |
| CeilingLaws.DigitsRead | core/context_ceiling.go:241-247 | the number in the note reads back as the count, without leading zeros |
| Overflow.Manager.NoteOverflow | core/overflow_adjust.go:98-155 | the session's adjustment and the process's window become the tightened ones; other sessions keep their adjustments |
| Overflow.Manager.ClearOverflow | core/overflow_adjust.go:161-168 | only this session's adjustment goes |
| Overflow.Manager.RecordSessionAnchor | core/llm_router.go:467-494 | the usage becomes the session's latest anchor and its model's; of the other models' anchors none changes and at most one goes, only when there are four already; what refusals taught is forgotten, other sessions are left alone |
| Overflow.Manager.RecordUsageSample | core/token_calibration.go:151-175 | a plausible sample enters the moving average of its model and no other |
| Overflow.WindowNeverWidens | core/overflow_adjust.go:98-188 | the measured window never grows by a refusal if and only if the session is unnamed, the window was known, or the named limit is not above the default |
| Overflow.RunTightens | core/overflow_adjust.go:43-188 | from a steady state (an anchor, no average, or an average below what refusals taught), over any run of refusals and of the samples they leave, inflation stays in [1, 8] and never falls, and neither window nor trim limit ever grows |
| Overflow.InflationFallsExactly | core/llm_router.go:578-594 | a refusal lowers the inflation if and only if there is no anchor and a trusted average is above both what refusals taught and what this one reports |
| Overflow.LoosensExactly | core/overflow_adjust.go:98-155 | in a state with a known window some refusal makes the next trim limit grow if and only if there is no usable anchor, the model's average is trusted, and one token more than the present limit, scaled by the least inflation a refusal can leave, fits the next retry's share of the window |
| Overflow.LimitGrowsExactly | core/llm_router.go:342-357 | a given refusal that moves the average makes the next trim limit grow if and only if one token more than the present limit, scaled by all the evidence there then is, fits the remaining share of the window |
| Overflow.RefusalLoosens | core/token_calibration.go:133-175 | a refusal after which an unanchored session is trimmed to more than before |
| Overflow.RatioSteps | core/overflow_adjust.go:43-54 | from a clean named session the trim ratio steps 0.78, 0.68, 0.60 and holds |
| Overflow.AnchoredExactly | core/llm_router.go:517-536 | the anchored bias is that of the model's own anchor, or else of the latest, between 1 and 1.5 |
| Overflow.ColdExactly | core/context_ceiling.go:97-105 | without a usable anchor the bias is the model's average once it rests on three samples |
| OverflowMeaning.RunTeaches | core/overflow_adjust.go:98-155 | any run of refusals of a named session comes to this: they are counted, the strictest limit named and the largest bias shown are kept, and the window is the smallest of the one known before and the named limits of at least 1024 tokens |
| OverflowMeaning.WindowExactly | core/overflow_adjust.go:182-188 | requests are measured against the smaller of window and strictest named limit, against a default if neither is known |
| Overflow.LimitMonotone | core/context_ceiling.go:315-320 | a smaller window, a larger inflation or a smaller ratio never raises the trim limit |
| Router.AcceptedRequest | core/llm_router.go:322-405 | what the pre-step accepts is within the window before and after the pairing repair, and a trimmed list is sent as trimmed |
| Router.FilledBudgetFits | core/llm_router.go:386-400 | a budget filled into a request that came without one leaves surface, budget and reserve within the window |
| Router.PreparedByRules | core/llm_router.go:200-405 | the pre-step and the repair take the plugins' list if it is given and not empty and the one at hand otherwise, and yield the repair of what the ceiling lets through, with tool estimate, session and input mark as they were and the budget kept or filled; they yield nothing if and only if the ceiling refuses |
| Router.StreamExactly | core/llm_router.go:753-794 | what is delivered stands before the first frame that stops the stream, the failure is that frame's, output has started if and only if some frame seen so far puts out, and the usage is the latest one seen |
| Router.EmptyListIsUnmeasured | core/llm_router.go:342-400 | with no messages the filled budget fits exactly when the tool catalogue fits what the budget leaves unused, which is nothing unless a cap is smaller |
| Router.CarriedBudgetExactly | core/llm_router.go:386-400 | a budget carried to an accepted retry still fits if and only if the retry leaves the room it was filled for: as much as at first, or the cap and the reserve |
| Router.CarriedBudgetMayOverfill | core/llm_router.go:386-400 | a retry under a smaller window that keeps a budget which no longer fits |
| Router.Stream.Forward | core/llm_router.go:753-794 | forwards frames up to the first failure and reports failure, start of output and usage of exactly that stream |
| Router.Stream.CallWithRetry | core/llm_pipeline.go:39-54 | repeats a call only after a silent failure, within its bound, and reports the last call |
| Router.Stream.TryRoute | core/llm_router.go:115-150 | goes down the route while calls fail silently; the end tells the last call |
| Router.Stream.ChatStream | core/llm_router.go:101-190 | over a whole request all output comes from the last provider call; every attempt prepares by the rules what the one before it sent, under the limits of the state that exactly the refusals for length before it led to, and sends just that, to the providers of its route in order, each up to twice; it goes on only after a refusal for length or at the plugins' wish, and is rejected if and only if the last attempt is refused by the ceiling; a filled budget leaves the reserve and stays, from a calm state trim limits never loosen, calls are bounded; when it settles the reported usage becomes anchor and sample; other sessions and models are left alone |
| Router.OutputFromLastCall | core/llm_router.go:101-190 | if all calls but the last failed silently, the client saw output of one call only |
| Router.FixedRouteBound | core/llm_router.go:101-190 | with a fixed route there are at most 4 x 2 calls per provider |
| Router.FramesComeOnce | core/llm_router.go:753-794 | all frames a client saw come from the last call if and only if every call before it failed at its very first step |
| Router.EmptyFramesRepeat | core/llm_router.go:753-794 | frames without output are seen again when the call is repeated |
| CapabilityDeps.ParseRequiresCapability | core/capability_deps.go:26-46 | returns the specified parse of a requirement key |
| CapabilityDeps.ParseKeyExact | core/capability_deps.go:26-46 | a key parses to a type and a capability exactly when it is the key written for them |
| CapabilityDeps.RequiresExactly | core/capability_deps.go:26-46 | a plugin requires a capability of a type if and only if it has the key written for them |
| CapabilityDeps.TypeNames | core/capability_deps.go:79-83 | the five type names the host knows, every other one standing for itself |
| CapabilityDeps.AnswerIsTheOnlyDeclarer | core/capability_deps.go:181-244 | outside llm and compaction a provider is found exactly when it is the only declarer besides the asker, and none exactly when there is no declarer |
| CapabilityDeps.HolderExactly | core/notify.go:157-188 | a configured backend holds the role of compaction if and only if it is loaded and its declaration is neither blank nor "false"; with none configured the holder is the only loaded plugin that declares it |
| CapabilityDeps.CompactionExactly | core/capability_deps.go:181-244 | a requirement of compaction leads to the role's holder, and is in conflict if and only if the role is vacant and two plugins could hold it |
| CapabilityDeps.PreferenceMatters | core/capability_deps.go:225-240 | two preferences give the same llm provider if and only if they are the same or neither names a declarer but the first by name |
| CapabilityDeps.RoleAgreement | core/notify.go:157-188 | the dependency on compaction and the role name the same holder exactly under the stated condition on the candidates |
| CapabilityDeps.PreferenceDecides | core/capability_deps.go:137-240 | an llm dependency is met under some preference exactly if some declarer is usable, and under every one exactly if there is one and all are |
| Inject.Manager.FindProvider | core/capability_deps.go:181-244 | the answer is a function of the metadata, whatever the map order |
| Inject.Manager.PickCompaction | core/notify.go:157-188 | holder and candidates are functions of metadata, loaded plugins and configuration |
| Inject.PickPrimaryLLM | core/inject.go:310-327 | the provider of the least capability name among the resolved llm dependencies, or none |
| Inject.PrimaryExactly | core/inject.go:310-327 | a plugin is primary if and only if it provides an llm dependency and none with a provider comes before it by capability name |
| Inject.Manager.ReactivateAgent | core/inject.go:260-305 | the preferred LLM becomes the primary of the resolved dependencies exactly if a waiting agent has one, and the aggregate service is then up if the broker is; the agent leaves PENDING if and only if moreover the service is up, that LLM is loaded, the agent is there and its registration is accepted |
| Inject.Manager.VisitPending | core/inject.go:197-248 | one visit is a step of the relation between states: cleared, waiting, promoted or failed; an agent's visit changes the preferred LLM to its primary or not at all |
| Inject.VisitExactly | core/inject.go:197-248 | of an entry that is no agent: cleared if loaded already, kept if not ready, loaded with its metadata, hook and services if the broker is up and the load succeeds, failed otherwise |
| Inject.ReadyExactly | core/capability_deps.go:137-180 | an entry with requirement keys is ready if and only if each leads to a provider that serves, any other if and only if its stored providers do |
| Inject.Manager.RepairPending | core/inject.go:177-251 | terminates; no agent leaves while it waits, and on a normal return every remaining agent is held back by a dependency or lacks something that activation takes, and every remaining provider entry is unloaded and held back by dependencies resolved in this host; none is ready if the host started with every LLM it knows loaded or served, which it then still has, or if no agent waited, or if no llm capability the entry requires has two declarers among all plugins or is contested at the end; where each requirement of a waiting provider has a sole declarer and loads succeed, the departed set is the least fixpoint and the host is the one with exactly these loaded |
| Inject.ReachedStep | core/inject.go:197-248 | in an orderly world a visit never fails and promotes only what every closed set holds, in any visiting order |
| Inject.StuckIsLeast | core/inject.go:177-251 | where nothing moves any more, what has left is the least fixpoint |
| Inject.MetStaysMet | core/capability_deps.go:137-244 | a requirement with a sole declarer, once met, stays met as the host grows, whatever LLM is preferred |
| Inject.ReopenedIsContested | core/inject.go:210-250 | an entry that was held back and is ready at the end requires an llm capability of several declarers, one of them unusable |
| Inject.PreferenceHoldsBack | core/inject.go:210-250 | of a plugin some preference makes ready, another holds it back if and only if it requires such a capability |
| Inject.KeptStep | core/inject.go:197-248 | what a visit keeps: that every known LLM is usable, that metadata is what plugins publish, and that in an orderly world only forced entries have left |
| Waterfall.Chain.Next | core/notify.go:684-730 | the nested closures compute the specified course: end, collected requests and the payload each plugin was sent |
| Waterfall.FinalCourse | core/notify.go:684-736 | without a veto every client is called, requests are collected in load order, and the result is the rewrite |
| Waterfall.SentPayload | core/notify.go:693-700 | each plugin is sent the light payload, or the event as rewritten before it |
| Waterfall.PayloadExactly | core/notify.go:693-700 | a plugin gets the full event if there is no light one, it holds the role, or it asked for it, and the light one otherwise |
| Waterfall.FullExactly | core/notify.go:198-211 | a plugin asked for it if and only if it declares the capability and not as "false" |
| Waterfall.VetoExactly | core/notify.go:711-714 | the chain is vetoed if and only if some client refuses the payload it would be sent |
| Waterfall.HolderAlone | core/notify.go:684-736 | without a veto the chain ends as if the role holder had been the only plugin, for any client list |
| Waterfall.OutcomeIsHolders | core/notify.go:684-736 | with distinct names the result is the holder's answer to the original event, or the original event |
| Waterfall.HolderAnswerExactly | core/notify.go:684-736 | the holder is the first plugin with the configured name, and what counts is its answer to the original event if it gives one |
| Waterfall.OthersCannotInterfere | core/notify.go:684-736 | two plugin lists with the same holder end alike |
| Waterfall.DeliveredAppends | core/notify.go:742-750 | the delivered list is the holder's own or the event's, followed by every request; each comes once exactly when that own list is empty |
| Waterfall.HoldersListTwice | core/notify.go:718-723 | the holder's list stands twice around the requests of the plugins loaded before it |
| Waterfall.RequestsOnTheOriginal | core/notify.go:718-723 | without a holder every request is made on the original event and stands in load order |
| Waterfall.FailedProjectionIsSkipped | core/notify.go:461-482 | a failing projection might as well not exist |
| Waterfall.NextViewExactly | core/notify.go:461-482 | a projection counts if and only if it answers with an object that carries messages |
| Waterfall.ViewsExactly | core/notify.go:439-499 | the views are those a run of the transforms goes through, each on what the ones before it left |
| Waterfall.PreStepResult | core/notify.go:619-752 | a pre-step dispatch is refused exactly when some plugin refuses; otherwise its fields are the holder's, its messages those of the holder or the event as the transforms leave them, and all requests are appended |
| Waterfall.RequestErrorAsBroadcast | core/notify.go:650-666 | asking the holder alone decides as a broadcast without a veto would |
| Waterfall.Manager.PreStep | core/notify.go:619-752 | the dispatch has the specified outcome |
| Waterfall.Manager.RequestError | core/notify.go:650-736 | likewise for request-error |
| Waterfall.Manager.ApplyProjections | core/notify.go:439-499 | the loop over transforms has the specified result |
| Gates.WiderAllowsMore | core/sandbox.go:62-88 | one mode allows all another allows if and only if it is the same or strictly wider on the ladder |
| Gates.Manager.ApprovalEscalation | core/approval.go:393-464 | marks the call or stops it exactly as specified, with every refusal named |
| Gates.Manager.ToolApprovalGate | core/approval.go:313-386 | asks, remembers and stops exactly as specified |
| Gates.Manager.MissingScopes | core/authorization.go:133-147 | returns the specified list |
| Gates.MissingIsTrimmed | core/authorization.go:133-147 | what is missing is the named scopes without the granted ones, each once, trimmed |
| Gates.Manager.SeedScopes | core/authorization.go:92-101 | the ledger grows by the trimmed, non-blank scopes |
| Gates.Manager.Next | core/eventbus.go:266-286 | the wrapped chain runs the listeners in order until one does not call `next`, and the hooks at its end |
| Gates.Manager.RunBeforeTool | core/notify.go:272-316 | the hooks in load order, each on the arguments the one before left, until one vetoes |
| Gates.Manager.ExecuteTool | core/tool_pipeline.go:131-165 | a fresh, unmarked invocation through gates, hooks and the policies' execute verdict, with the arguments the body runs with; only the ledger is written |
| GateLaws.BodyOnlyIfSafe | core/sandbox.go:185-204 | wherever the sandbox stands, the gates let a call pass only if it allows the call's arguments under the session's mode, or under a strictly wider one named, justified and allowed for this call |
| GateLaws.BodyExactly | core/tool_pipeline.go:131-165 | with the registered gates and any policies behind them, the body runs with given arguments if and only if escalation, tool, never-gate and policies consent, the sandbox allows the call, no hook vetoes, the hooks make these arguments of the call's, and no policy denies them at execution |
| GateLaws.PlainCallExactly | core/sandbox.go:62-110 | a call that asks for no wider mode and meets no hook runs, with its own arguments, if and only if tool gate, never-gate and policies consent and the session's mode permits it: read-only no shell and of the editor only "view", workspace-write an editor command other than "view" only on a non-empty path in the workspace |
| GateLaws.ModeNames | core/approval.go:169-183 | which names stand for which mode |
| GateReasons.PolicyExactly | core/approval.go:99-117 | no prompt may be shown if and only if the call says never, or does not say ask and its session, else the explicit global setting, else full access says so |
| GateReasons.QuestionsExactly | core/approval.go:313-464 | the user is asked about a wider mode and about the tool exactly under the stated conditions, in that order, naming what is missing |
| GateReasons.RefusalsAreTrue | core/approval.go:313-464 | whatever a refusal says is so |
| GateLaws.ExecutedSafeExactly | core/notify.go:272-316 | what is executed is safe if and only if the mode the gates judged by allows it; without a rewrite it always is |
| GateLaws.HookEscapes | core/notify.go:288-290 | in a read-only session a hook that turns a view into a write gets the write executed |
| GateLaws.OnlyTheLedgerChanges | core/approval.go:313-464 | a call leaves all settings as they were and only adds to the ledger, so an escalation ends with its call |
| GateLaws.NeverAsksNothing | core/approval.go:242-250 | under policy never no listener asks, and the ledger stays as it is |
| GateLaws.GrantsAreEarned | core/approval.go:359-374 | the ledger grows only by the scopes of a call allowed at per-scope granularity |
| GateLaws.GrantedAsksNothing | core/approval.go:345-356 | with its scopes granted a tool asks nothing |
| GateLaws.PerToolIgnoresLedger | core/approval.go:345-356 | at per-tool granularity any other ledger gives the same result, and it is not written |
| GateLaws.LedgerOverRun | core/authorization.go:84-147 | over any run of calls and settings changes grants stay, and each new one goes back to a seeding or an earning call |
| GateLaws.ConsentIsRemembered | core/approval.go:345-374 | after an allowed call, and anything in between, tools with those scopes ask nothing |
| Ordering.InsertionSort | core/credentials.go:183-188 | sorts the array in place, keeping its elements |
| Credentials.ReplaceAll | core/credentials.go:247-259 | the byte loop computes the specified replacement, non-ASCII bytes doubled as the code does |
| Credentials.SplitLines | core/credentials.go:212-225 | the specified lines |
| CredentialLaws.TrimmedExactly | core/credentials.go:227-236 | trimming takes spaces, tabs and carriage returns off both ends, all of them and nothing else |
| CredentialLaws.RuneExactly | core/credentials.go:247-259 | a byte from 128 up becomes the two bytes that encode it |
| Credentials.Load | core/credentials.go:141-169 | the specified credentials, later lines overriding earlier ones |
| Credentials.Print | core/credentials.go:174-198 | the keys in sorted order, each once, printed line by line |
| Credentials.PrintIsDeterministic | core/credentials.go:174-198 | the bytes do not depend on the order the map was enumerated in |
| Credentials.CredentialStore.Get | core/credentials.go:42-70 | cache, then file, then environment, and what the cache holds afterwards |
| Credentials.CredentialStore.Set | core/credentials.go:73-83 | the cache entry and the file written from it; other plugins' files stay |
| Credentials.CredentialStore.Delete | core/credentials.go:88-108 | removes one key from cache and file, reading the file first if needed |
| CredentialLaws.ValueRoundTrip | core/credentials.go:141-198 | a value returns from the file if and only if it is ASCII, without edge blanks and without text that looks like an escape |
| CredentialLaws.FileRoundTrip | core/credentials.go:141-198 | loading what was saved gives the same map if and only if every key and value is good |
| CredentialLaws.SavedFileReturns | core/credentials.go:141-198 | the same for any file the store wrote |
| CredentialLaws.ColdSetForgets | core/credentials.go:73-83 | setting a key of a plugin that is only on disk keeps the others if and only if there are none |
| CredentialLaws.EnvKeyExactly | core/credentials.go:203-208 | the variable of a credential, character by character |
| SyncTools.FingerprintExactly | core/sync_tools.go:120-140 | tools that agree in all fields but the capabilities have one fingerprint, and conversely where the texts hold no NUL |
| SyncTools.NulCollides | core/sync_tools.go:120-140 | two different tools with one fingerprint, a NUL passing for the separator |
| SyncTools.ByNameExactly | core/sync_tools.go:74-77 | of several definitions with one name the last one counts |
| SyncTools.JoinExactly | core/sync_tools.go:120-140 | one comma stands between any two scopes |
| SyncTools.Manager.ApplyPluginTools | core/sync_tools.go:60-114 | catalogue, services and owned names become the specified ones |
| SyncTools.SyncIsRebuild | core/sync_tools.go:60-114 | the incremental sync equals dropping the old names and adding the new definitions, up to fingerprints, if and only if no new name is in conflict and no owned tool is reported by name alone |
| SyncTools.SecondSyncExactly | core/sync_tools.go:80-102 | a second identical sync changes nothing if and only if there was no conflict, and otherwise takes over the other tool |
| SyncTools.OwnershipExactly | core/sync_tools.go:60-114 | ownership stays sound if and only if no reported name belongs to another plugin and what is reported by name alone is in the catalogue |
| SyncTools.TakenThenGivenUp | core/sync_tools.go:80-111 | a name taken from another plugin and given up removes that plugin's tool |
| Pathmap.OneRuleAtMost | core/pathmap.go:32-49 | no path is resolved by two rules |
| Pathmap.OrderIrrelevant | core/pathmap.go:120-148 | a list of rules answers exactly what one of them answers |
| Pathmap.SameRulesSameMap | core/pathmap.go:32-49 | two tables with the same rules map alike |
| Pathmap.LetterExactly | core/pathmap.go:199-222 | the drive-letter rule takes exactly "/c/..." and "/c:/..." |
| Pathmap.MntExactly | core/pathmap.go:169-182 | behind "/mnt" the drive rule takes exactly "/c" and "/c/...", to the drive's root and to the path on it |
| PathmapMeaning.MapExactly | core/pathmap.go:120-258 | a path is mapped to what its shape says, "/workspace" anywhere and "/tmp", "/mnt/c", "/c/" and "/c:/" on Windows, and comes back as written if it has none of these shapes |
| PathmapMeaning.SlashesExactly | core/pathmap.go:127-128 | each pair of backslashes makes one slash and one left over another |
| PathmapMeaning.CleanRootExactly | core/pathmap.go:245-249 | a directory is used without the separators at its end |
| PathmapMeaning.JoinExactly | core/pathmap.go:252-258 | one separator stands between a directory and what is below it |
| Pathmap.BareLetterStays | core/pathmap.go:199-222 | bare "/x" and "/x:" come back verbatim on any host |
| PathmapLaws.TwiceIsOnceExactly | core/pathmap.go:120-258 | on any host mapping twice is mapping once, for every path, if and only if the root, and on Windows the temporary directory, comes back as it is together with one path right below it |
| Pathmap.MapTwiceExactly | core/pathmap.go:120-157 | off Windows that is so if and only if the root is not below the alias |
| Paging.FitRunes | core/context_search_tool.go:277-295 | the binary search returns a prefix that fits while one more character does not |
| Paging.FittedIsLargest | core/context_search_tool.go:277-295 | for a monotone estimator that is the one longest prefix that fits |
| Paging.FetchMessage | core/context_search_tool.go:159-214 | the clamped offset, a slice that fits budget and cap, and whether there is more |
| Paging.FetchGetsOn | core/context_search_tool.go:177-186 | a fetch makes progress if, and for a monotone estimator only if, one character fits or the window is unknown |
| Paging.ReadingIsWhole | core/context_search_tool.go:159-214 | following the named offsets, whatever the budgets and caps, has read exactly the whole text when there is no more, and not before |
| Paging.ReadingEnds | core/context_search_tool.go:159-214 | with room for any one character a reading takes at most one fetch per character |
| Paging.HeadroomExactly | core/context_search_tool.go:245-271 | the headroom is the most tokens that stay, with the surface and scaled, within nine tenths of the window, but never under 1000, and 0 exactly without a window |
| Paging.HeadroomIsSafe | core/context_search_tool.go:245-271 | a message within the headroom, with some excess, leaves the request untrimmed by the ceiling |
| Paging.FilledHeadroomExactly | core/context_search_tool.go:231-271 | a message that fills the headroom stays untrimmed exactly when a full surface is within the enforced window |

## Left out

- Router.Stream.ChatStream: no other request changes the limits meanwhile; the provider's frames are given as scripts; cancellation and frames that arrive concurrently are not modelled.
- Router.AcceptedRequest: messages appended by plugins are part of the list given; how they are parsed is not modelled.
- Inject.Manager.RepairPending: a plugin's resolved dependencies are a set, so their order is lost; `u` is a ghost record of what every plugin publishes, used only by the contract.
- Waterfall.Manager.PreStep: the role holder is an argument (`Inject.Manager.PickCompaction` computes it); JSON is decoded by a parameter, and what the host does not look into is kept as text.
- Gates.Manager.ExecuteTool: the settings stay as they are while a call is in the chain; time limits that policies set, unknown tools and the post-execute stage are not modelled.
- Paging.FetchMessage: the header line and the list of tool calls around the slice are not part of the page.
- `Chat` without streaming, which runs the same loop without the question of repeated output.
- Nil messages and object identity; messages are values.
- Floating point: ratios and inflations are reals with Go's truncation written out; rounding is not modelled.
- Token coefficients: the leaf estimates are any two functions. Of the calibration only the averages are modelled, not
  the ledger files, the spread, the drift warning and the refit.
- The tool catalogue of a request appears as its token estimate only.
- Regular expressions that read numbers out of provider errors: the report is given as numbers.
- Panics of listeners and tools, which the host turns into errors, and removal of listeners.
- Disk errors and file permissions of the credential store; `ListKeys`.
- Symbolic links and junctions: being inside the workspace is any predicate.
- `MapDevicePath` and the choice of the temporary directory: one comparison and two environment variables.
- The search half of `context_search`: a conjunction of substring tests.
- gRPC, processes, hot reload, timers, admin routes and views: foreign calls and presentation.
