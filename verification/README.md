# A verified model of the k8s-ai-operator

The operator keeps three kinds of Kubernetes objects in step with Amazon Bedrock and serves
model traffic through a proxy. This project models the parts of it whose correctness depends
on unbounded runs, and proves what those runs keep:

- **Guardrail policies** (`GuardrailSync`, `GuardrailSafety`, `GuardrailReconciler`,
  `GuardrailConfig`): one object in the API server and any number of guardrails in Bedrock,
  kept in step by a reconciler whose calls fail, lose their answers or are cut short by a
  crash, with user edits and deletes landing between any two of them. A ledger accounts for
  every guardrail ever created.
- **Model endpoints and prompt templates** (`EndpointSync`, `EndpointSafety`,
  `EndpointReconciler`, `EndpointResidue`, `ClusterDns`, `TemplateSync`, `TemplateSafety`,
  `TemplateReconciler`): the health check, the Service and where it leads, the status and the
  traffic that the status lets through; a template's readiness runs beside the full protocol of
  every endpoint of its namespace.
- **Conditions** (`Conditions`): the in-place upsert as a fold over its whole history.
- **The client cache** (`ClientCache`, `ClientCacheSafety`, `BedrockClient`): double-checked
  locking with any number of threads and concurrent invalidation.
- **The proxy** (`Proxy`, `ProxyRate`, `RateLimit`, `Paths`, `RenderVariables`, `Accounting`, `Cost`,
  `PriceList`): both handlers, the token buckets and the rate that callers get, path parsing, template variables, counters
  under any interleaving, and the price arithmetic.
- **Common ground** (`Runs`, `Residue`, `ApiServer`, `Requeue`): runs of a state machine and what
  they leave behind in a store, one object in the API server, and what a reconcile returns to the
  work queue.

## How the model is built

Every protocol is a state machine, `Next(state, action)`, whose actions are single calls of the
reconciler or single steps of somebody else; an action that is not enabled changes nothing, so a
run is any sequence of actions whatsoever. A call has three endings: `Answered`, `Refused` (it did
not happen), and `Unanswered` (it happened and the caller saw an error).

The reconcilers are also written out as classes with the source's own control flow: local copies,
early returns, one call after another against a `Cluster` object. A call of that object is allowed
only where the protocol is at that call and with the arguments the protocol sends, and each of the
three `Reconcile` methods is proved to append exactly `Plan(state, schedule)` to the history. So
whatever is proved of all runs is proved of the code, and the `QuietPlan` lemmas tie an undisturbed
execution to the convergence theorems. The client cache, the limiters, the condition list and the
proxy handlers are treated alike: classes that change their fields, specified by functions that the
theorems are about.

Assumptions, none of which the operator's code can check:

- one worker per object key, and fresh reads at the start of a reconcile;
- only the controller writes status and its own finalizer; an `Update` with a stale resource
  version is refused; a status patch is a merge patch (section 2 of RFC 7396);
- Bedrock hands out fresh, non-empty guardrail identifiers, and an update replaces the whole
  content of a guardrail or, when the guardrail does not exist, fails;
- Bedrock reports non-negative token counts;
- variable names of a template are distinct (`api/v1alpha1/prompttemplate_types.go:54-56`);
- prices and costs are exact: a price is a whole number of thousandths of a dollar per million
  tokens, a cost a whole number of micro-dollars. The operator computes them in float64;
- the clock that a limiter sees does not go back, for the statements that mention windows.

The role of golang.org/x/time/rate is played by the class `RateLimit.Limiter`, in exact
arithmetic; rate, burst, keying, caching and the order of checks are the operator's.

## Where the code differs from its documentation

The model follows the code.

- `docs/architecture.md:89` says that callers cannot get more than the endpoint's `maxTokens`. A
  negative request passes the comparison in `internal/proxy/handler.go:119-122` and is then sent
  without a limit. `Proxy.CapIsKept` proves that the cap holds if and only if the requested number
  is not negative.
- `docs/architecture.md:88` says that the proxy enforces the rate limit per endpoint. Only
  `/invoke` asks the limiter and `/render` never does: `Proxy.RendersIgnoreTheRate` lets any number
  of renders out at one instant while the bucket is empty. A later change of the rate is ignored:
  the first rate seen for an endpoint stays (`internal/proxy/handler_test.go:190-191`,
  `RateLimit.Isolation`).
- `docs/architecture.md:132` says that cached clients are invalidated when the endpoint is deleted
  or its role or region changes. The code invalidates in deletion reconciles only, and under the
  key that the spec has then (`internal/controller/modelendpoint_controller.go:175-179`).
  `EndpointResidue.ClientsLeftExactly` says exactly which clients are cached after any run of any
  number of endpoints; in `EndpointResidue.EditLeavesTheOld` those of an edited role outlive the
  endpoint, and in `EndpointResidue.TrafficCachesAgain` those of an endpoint that was never edited
  do, because the proxy still serves it between the invalidation and the removal of the finalizer.

## What does not hold, and exactly when

- Deleting the recorded guardrail out of band is never repaired: the reconciler keeps updating the
  recorded identifier. `GuardrailSafety.RecoversExactly` proves that some run brings a policy in
  line if and only if its recorded guardrail, if it has one, exists; `StuckIsReachable` is such a
  policy. A guardrail that was created and deleted before its status patch does not matter: a
  restart or a refused patch forgets it.
- Without such a fault, the reconcile in progress still patches in the identifier that it was given,
  so `GuardrailSafety.Converges` is an equivalence with a stronger condition.
- Retry-After is always 10 seconds. `RateLimit.RetryAfterIsEnough` proves that this is enough if
  and only if the rate is at least six a minute.
- Between an edit and the next reconcile the proxy invokes a model that no health check has seen:
  `EndpointSafety.TrafficAheadOfChecks` is a run that does so. `EndpointSafety.JustifiedSpec` proves
  that a check of the invoked spec came first whenever the observed generation is the current one,
  and `EndpointSafety.CurrentExactly` that this is so if and only if a check of the current spec has
  been reported.
- An endpoint leaves availability series behind: one for each model that it was served as since the
  last restart and that no later deletion reconcile found current
  (`EndpointResidue.NoSeriesLeftExactly`, with the run in `EditLeavesTheOld`). When all its specs
  name one model it leaves none, in any run (`EndpointResidue.OneModelLeavesNone`).
- A request body without variables decodes to a nil map, and writing a default into it panics;
  `RenderVariables.NilMapPanics` says exactly when.
- An error of Bedrock is counted for `/invoke` and not for `/render`.

## Model

| member | source | states |
|---|---|---|
| GuardrailSafety.GuardrailLedger | internal/controller/guardrailpolicy_controller.go:64-128 | In every reachable state the live guardrails created for a policy are the disjoint union of five columns: recorded in the object, created and not yet patched, status patch lost, create answer lost, deletion failed. |
| GuardrailSafety.LiveBound | internal/controller/guardrailpolicy_controller.go:85-124 | Live guardrails number at most one more than the run lost track of: crashes and refused patches while a new guardrail is unrecorded, lost answers of creates, and failed deletes of a guardrail that is still there. |
| GuardrailSafety.CleanTeardown | internal/controller/guardrailpolicy_controller.go:211-237 | In every run without such a loss, once the policy is gone or only waits for other finalizers, no guardrail created for it is live, wherever the delete landed, whatever else crashed or failed, and however often a delete was repeated. |
| GuardrailSafety.TruthfulSynced | internal/controller/guardrailpolicy_controller.go:76-124 | Once the last write to Bedrock is reported, GuardrailSynced=True on a policy that is not being deleted means that the recorded guardrail carries the translation of the spec at ObservedGeneration, whatever was edited in between, and that Bedrock holds it in the recorded version. |
| GuardrailSafety.AddressesOwnGuardrail | internal/controller/guardrailpolicy_controller.go:170-229 | Updates and deletes only ever name a guardrail created for this policy, and the one to update is live unless somebody else deleted it. |
| GuardrailSafety.OthersUntouched | internal/controller/guardrailpolicy_controller.go:53-237 | Guardrails that the operator did not create come through every run unchanged. |
| GuardrailSafety.NoStalledPolicy | internal/controller/guardrailpolicy_controller.go:53-128 | A policy that is not being deleted, or still has our finalizer, is always queued or being worked on. |
| GuardrailSafety.ReconcileOnce | internal/controller/guardrailpolicy_controller.go:64-127 | One undisturbed reconcile of a wanted policy leaves the finalizer in place and, if it was in place before, converges exactly when the recorded guardrail exists: content, version, observed generation and condition are then in line. |
| GuardrailSafety.Converges | internal/controller/guardrailpolicy_controller.go:64-127 | From every reachable state, the reconcile in progress and two more bring content, version, observed generation and condition in line if and only if neither the recorded guardrail nor one just created was deleted behind the operator's back. |
| GuardrailSafety.StaysConverged | internal/controller/guardrailpolicy_controller.go:76-127 | One undisturbed reconcile of a converged policy keeps it converged, with the same guardrail, content, condition status and transition time. |
| GuardrailSafety.StaysInLine | internal/controller/guardrailpolicy_controller.go:76-127 | From a converged policy on, every run without edits and deletes keeps identifier and content, whatever crashes, fails or loses its answer. |
| GuardrailSafety.StuckForever | internal/controller/guardrailpolicy_controller.go:85-90 | Once the recorded guardrail is gone, no run whatsoever converges this incarnation of the policy. |
| GuardrailSafety.NeverConvergesAgain | internal/controller/guardrailpolicy_controller.go:85-90 | The same from every reachable state whose recorded guardrail is gone. |
| GuardrailSafety.RecoversExactly | internal/controller/guardrailpolicy_controller.go:76-127 | From a reachable state, some run brings this incarnation of the policy in line if and only if its recorded guardrail, if any, exists. |
| GuardrailSafety.StuckIsReachable | internal/controller/guardrailpolicy_controller.go:85-90 | For every spec, a run after which the recorded guardrail is gone. |
| GuardrailSafety.TeardownInOne | internal/controller/guardrailpolicy_controller.go:211-237 | One undisturbed reconcile of a deleting policy removes our finalizer and exactly the recorded guardrail. |
| GuardrailSync.MergePatchOfDiff | internal/controller/guardrailpolicy_controller.go:76-122 | Applying the merge patch computed against the copy turns the copy's status into the new status. |
| GuardrailReconciler.Reconciler.Reconcile | internal/controller/guardrailpolicy_controller.go:53-128 | Whatever the calls answer and whatever happens between them, the method makes exactly the planned calls in order; it reports an error when the last API call failed, an error of Bedrock alone is none, and otherwise result and persisted status say what happened. |
| GuardrailReconciler.Reconciler.SyncPolicy | internal/controller/guardrailpolicy_controller.go:76-127 | For a live policy with our finalizer: sync, then patch. The persisted status is about the generation that was read; after a success it has the identifier, the version and a condition that names both, and the interval is five minutes; after a failure identifier and version stay, the condition carries the error, and the interval is ten seconds. |
| GuardrailReconciler.Reconciler.SyncToBedrock | internal/controller/guardrailpolicy_controller.go:85-120 | Creates when no identifier is recorded and updates the recorded one otherwise, and the status to report is the success or the failure status accordingly. |
| GuardrailReconciler.Reconciler.HandleDeletion | internal/controller/guardrailpolicy_controller.go:211-237 | Deletes the recorded guardrail, proceeds whether or not that fails, and then removes our finalizer; without an error nothing of ours holds the object, and only the API server or an interfering edit makes one. |
| GuardrailReconciler.QuietPlan | internal/controller/guardrailpolicy_controller.go:53-128 | The planned calls of an undisturbed reconcile end in the state that the convergence theorems speak of. |
| GuardrailConfig.BuildContentPolicy | internal/controller/guardrailpolicy_controller.go:241-251 | The loop yields one filter per declared filter, in order, field by field. |
| GuardrailConfig.BuildTopicPolicy | internal/controller/guardrailpolicy_controller.go:253-264 | The loop yields one denied topic per declared topic, in order. |
| GuardrailConfig.BuildWordPolicy | internal/controller/guardrailpolicy_controller.go:266-279 | Both loops together yield the words and the managed lists, in order. |
| GuardrailConfig.BuildPiiPolicy | internal/controller/guardrailpolicy_controller.go:281-290 | The loop yields one entity configuration per declared entity, in order. |
| GuardrailConfig.BuildInput | internal/controller/guardrailpolicy_controller.go:134-160 | The body sent to Bedrock, filled in step by step, is the translation of name and spec, with absent parts left out. |
| GuardrailConfig.TranslationLosesNothing | internal/controller/guardrailpolicy_controller.go:170-201 | Every field of a spec can be read back from its translation, so the content of a guardrail determines the spec; every topic is denied, and a message is sent if and only if it is set. |
| EndpointSafety.UntornStatus | internal/controller/modelendpoint_controller.go:98-149 | Once a status patch has landed, the available flag, Ready and BedrockReachable agree, come from one health check of the spec at ObservedGeneration, and are dated by the one reconcile that began the current run of that answer. |
| EndpointSafety.JustifiedTraffic | internal/proxy/handler.go:102-105 | Every invocation is preceded by a health check of this incarnation of the endpoint that returned available, at the generation the status was about. |
| EndpointSafety.JustifiedSpec | internal/proxy/handler.go:102-105 | When the observed generation is the invoked one, that check was of the very spec that is invoked. |
| EndpointSafety.CurrentExactly | internal/controller/modelendpoint_controller.go:127-129 | In every reachable state the observed generation is the current one if and only if a health check of the current spec has been reported. |
| EndpointSafety.TrafficAheadOfChecks | internal/proxy/handler.go:230-233 | A run in which the proxy invokes a spec that no health check has seen. |
| EndpointSafety.NoStalledEndpoint | internal/controller/modelendpoint_controller.go:84-157 | An endpoint that is not being deleted, or still has our finalizer, is always queued or being worked on. |
| EndpointSafety.ReconcileOnce | internal/controller/modelendpoint_controller.go:88-157 | One undisturbed reconcile leaves the finalizer in place and, if it was in place before, brings Service and status in line with its own health check and adds exactly one report. |
| EndpointSafety.Converges | internal/controller/modelendpoint_controller.go:84-157 | From every reachable state, the reconcile in progress and two more reach finalizer, a Service that leads to the proxy, its name in the status, and a status that matches the last health check. |
| EndpointSafety.StaysConverged | internal/controller/modelendpoint_controller.go:98-157 | While checks give the same answer, Service, conditions and transition times stay. |
| EndpointSafety.TeardownInOne | internal/controller/modelendpoint_controller.go:160-187 | One undisturbed reconcile of a deleting endpoint removes our finalizer. |
| EndpointSafety.DesiredLeadsToProxy | internal/controller/modelendpoint_controller.go:219-235 | The Service that is written is an ExternalName with one port 8090, and its host name, split at the first dot, reads back as the name and the namespace of the proxy's Service, if and only if that name has no dot. |
| EndpointSync.ConditionsOfReports | internal/controller/modelendpoint_controller.go:131-145 | After any history of reports both conditions carry the last answer and date from the report that began its final run. |
| EndpointReconciler.Reconciler.Reconcile | internal/controller/modelendpoint_controller.go:72-158 | The method makes exactly the planned calls in order; no status is written and no gauge is set when the Service could not be; the persisted status, both conditions and the interval say what the health check answered, and the gauge shows the persisted availability; a cached client goes if and only if the reconcile read a deleting object of ours with its role and region. |
| EndpointReconciler.Reconciler.CheckAndReport | internal/controller/modelendpoint_controller.go:98-158 | Health check, Service, status; both conditions carry the reason and message of the check, and the interval is five minutes when it answered available and ten seconds when not. |
| EndpointReconciler.Reconciler.ReconcileServiceOf | internal/controller/modelendpoint_controller.go:197-242 | After success the Service leads to the configured proxy service and namespace on port 8090, and the name returned is "model-" and the endpoint's. |
| EndpointReconciler.Reconciler.HandleDeletion | internal/controller/modelendpoint_controller.go:160-187 | The gauge series of the current model and both cached clients of the endpoint's role and region go, and nothing else of either; then our finalizer. Without an error nothing of ours holds the object; with one the endpoint is queued. |
| EndpointReconciler.GaugeFollows | internal/controller/modelendpoint_controller.go:113-118 | The gauge after a reconcile holds exactly the series that the theorems about left-over items assign to its planned calls. |
| EndpointResidue.SeriesLeftExactly | internal/controller/modelendpoint_controller.go:113-118 | After any run of any number of endpoints, a series is left if and only if a reconcile served that model and since then neither the process restarted nor a deletion reconcile found the model current. |
| EndpointResidue.NoSeriesLeftExactly | internal/controller/modelendpoint_controller.go:171-173 | An endpoint has no series left if and only if every model it was served as was later lost to a restart or current in a deletion reconcile. |
| EndpointResidue.OneModelLeavesNone | internal/controller/modelendpoint_controller.go:160-187 | In every run, an endpoint whose specs all name one model has no series left once it is released. |
| EndpointResidue.ClientsLeftExactly | internal/controller/modelendpoint_controller.go:175-179 | After any run, clients are cached if and only if they were looked up, or there from the beginning, and since then neither the process restarted nor a deletion reconcile of any endpoint read their role and region. |
| EndpointResidue.ClientsGoExactly | internal/controller/modelendpoint_controller.go:175-179 | In a run in which nobody looks a cached key up again, its clients go if and only if the process restarts or a deletion reconcile reads the key as the current one. |
| EndpointResidue.EditLeavesTheOld | internal/controller/modelendpoint_controller.go:160-187 | For every pair of specs, a run after which the edited endpoint is gone and the series of its first model and the clients of its first role and region are left. |
| EndpointResidue.TrafficCachesAgain | internal/proxy/handler.go:102-105 | A run without edits after which the endpoint is gone and its clients are cached. |
| EndpointReconciler.ConditionsFor | internal/controller/modelendpoint_controller.go:131-145 | The two in-place upserts are BedrockReachable and then Ready, from one health check. |
| EndpointReconciler.QuietPlan | internal/controller/modelendpoint_controller.go:72-158 | The planned calls of an undisturbed reconcile end in the state that the convergence theorems speak of. |
| TemplateSafety.ReadyTemplate | internal/controller/prompttemplate_controller.go:105-123 | A persisted Ready=True means that one reconcile, whose patch was the last to land, found the template of the observed generation valid and its endpoint available, and that before that reading a Bedrock health check had found the same incarnation of the endpoint available, at the generation its status was about. |
| TemplateSafety.NoStalledTemplate | internal/controller/prompttemplate_controller.go:51-67 | A template that is not being deleted, or still has our finalizer, is always queued or being worked on. |
| TemplateSafety.ReconcileOnce | internal/controller/prompttemplate_controller.go:61-130 | One undisturbed reconcile leaves the finalizer in place and, if it was in place before, makes both conditions match parser and endpoint. |
| TemplateSafety.Converges | internal/controller/prompttemplate_controller.go:51-130 | From every reachable state, the reconcile in progress and two more make TemplateValid and Ready true exactly when the template parses and its endpoint is available. |
| TemplateReconciler.Reconciler.Reconcile | internal/controller/prompttemplate_controller.go:40-131 | The method makes exactly the planned calls in order; an absent endpoint is no error; the interval follows the endpoint alone, Ready follows parser and endpoint, and both conditions carry the reasons and messages of what was found. |
| TemplateReconciler.Reconciler.ValidateAndReport | internal/controller/prompttemplate_controller.go:69-130 | No status is written when the endpoint could not be read; otherwise the persisted status reports this reading. |
| TemplateReconciler.Conclude | internal/controller/prompttemplate_controller.go:105-119 | The status filled in field by field is the one the protocol writes: observed generation and both conditions in order. |
| TemplateReconciler.Describe | internal/controller/prompttemplate_controller.go:80-103 | Readiness, reason and message for an endpoint that is absent, unavailable or available. |
| TemplateReconciler.NextStatusSays | internal/controller/prompttemplate_controller.go:72-119 | TemplateValid carries the verdict and the error of the parser, Ready the verdict of both with the reason and message for an absent, unavailable or available endpoint, each dated now or, when its status stays, as before. |
| TemplateReconciler.QuietPlan | internal/controller/prompttemplate_controller.go:40-131 | The planned calls of an undisturbed reconcile end in the state that the convergence theorem speaks of. |
| Conditions.ConditionList.SetCondition | internal/controller/modelendpoint_controller.go:246-259 | The loop over the list is the functional upsert: first entry of the kind replaced in place, old time kept when the status is the same, appended when there is none. |
| Conditions.UpsertStatus | internal/controller/modelendpoint_controller.go:246-259 | One call sets the status of its own kind and of no other, also in a list with repeated kinds. |
| Conditions.UpsertSince | internal/controller/modelendpoint_controller.go:251-254 | One call moves the time of its own kind exactly when it changes the status, and the time of no other kind. |
| Conditions.UpsertSays | internal/controller/modelendpoint_controller.go:246-259 | After one call the entry of its kind says exactly what it was given, dated now or as before, and the entries of all other kinds are the same. |
| Conditions.ReplayIsDigest | internal/controller/modelendpoint_controller.go:246-259 | From a list with distinct kinds, the list after any calls is a fold over the whole history. |
| Conditions.ConditionHistory | internal/controller/modelendpoint_controller.go:244-259 | Kinds stay distinct in order of first appearance, every entry carries the latest status, reason and message, and its time is that of the entry that began the final unbroken run of its status. |
| ClientCacheSafety.Linearizable | internal/bedrock/client.go:126-188 | Every run of any number of threads is a legal history of an atomic get-or-create and delete object whose creates return clients that nobody has seen: each returned call took effect at one point with the result it returned, and the maps are what the history makes of them. |
| ClientCacheSafety.RealTimeOrder | internal/bedrock/client.go:126-176 | A call that returned before another began takes effect before it. |
| ClientCacheSafety.OwnCredentials | internal/bedrock/client.go:178-188 | A lookup never returns a client of another role, region or plane. |
| ClientCacheSafety.SameClientBetweenInvalidations | internal/bedrock/client.go:126-150 | Lookups of a key that take effect between two invalidations of it return the same client. |
| ClientCacheSafety.FreshAfterInvalidation | internal/bedrock/client.go:257-265 | After an invalidation of its key, a lookup never returns a client that anybody was given before. |
| ClientCacheSafety.LockDiscipline | internal/bedrock/client.go:127-149 | A writer excludes readers and writers, and a returned call holds no lock. |
| ClientCacheSafety.NoDeadlock | internal/bedrock/client.go:127-175 | While a call has not returned some call can move, also when waiting writers block readers, and each move brings its call closer to returning. |
| ClientCacheSafety.BuildBound | internal/bedrock/client.go:137-149 | In each map the clients ever built for a key number at most one more than its invalidations. |
| BedrockClient.BedrockClient.RuntimeClient | internal/bedrock/client.go:126-150 | Whatever others do between the two locks, the call is one atomic lookup, what it makes is a new client, and every path gives back its lock. |
| BedrockClient.BedrockClient.ControlClient | internal/bedrock/client.go:153-176 | The same for the control-plane map. |
| BedrockClient.BedrockClient.InvalidateCache | internal/bedrock/client.go:260-265 | The call is one atomic removal from both maps. |
| RateLimit.SlidingWindow | internal/proxy/handler.go:289-308 | After any history, requests of one key that span at most a window see at most max(1, rpm/10) + rpm * window admitted. |
| RateLimit.Isolation | internal/proxy/handler.go:289-307 | In any interleaving over any endpoints, the decisions about a key are those of one bucket with the rate of its first use, fed with its own requests. |
| RateLimit.SlidingWindowOfRun | internal/proxy/handler.go:107-116 | The window bound on whole runs of the proxy, with the rate of the first use. |
| RateLimit.NoStarvation | internal/proxy/handler.go:299-304 | For every positive rate, callers that keep 60/rpm seconds apart are all admitted. |
| RateLimit.RetryAfterIsEnough | internal/proxy/handler.go:110-114 | A rejected caller that waits the 10 seconds it was told, alone, is admitted if and only if the rate is at least six. |
| ProxyRate.InvokeWindow | internal/proxy/handler.go:107-116 | Over any sequence of /invoke requests to any paths, in order of time, from empty buckets and with unchanged endpoints, those of an endpoint of rate r that pass in any window number at most max(1, r/10) + r * window. |
| ProxyRate.InvokeNoStarvation | internal/proxy/handler.go:299-304 | In any such sequence, the requests of an endpoint of positive rate r that keep 60/r seconds apart all pass, whatever is asked of other endpoints. |
| RateLimit.Limiter.Allow | internal/proxy/handler.go:110-110 | Takes a token exactly when the level, capped at the burst, holds one, and leaves the bucket alone otherwise. |
| RateLimit.Limiters.GetLimiter | internal/proxy/handler.go:289-308 | Returns the limiter of the key, a full one on first use; no other limiter changes. |
| RateLimit.Limiters.Admit | internal/proxy/handler.go:107-116 | The check of one request, as the two events of the map of buckets. |
| Paths.ParsedExactly | internal/proxy/handler.go:312-319 | A path is accepted as (namespace, name) if and only if, trimmed, it spells their key, with a non-empty slash-free namespace and a non-empty name. |
| Paths.PathRoundTrip | internal/proxy/handler.go:310-319 | Building a path and parsing it gives the segments back. |
| Paths.PathRebuilds | internal/proxy/handler.go:312-319 | An accepted path that carries the prefix rebuilds to itself. |
| Paths.SameKeySameEndpoint | internal/proxy/handler.go:290-294 | Two accepted requests share a bucket if and only if they name the same endpoint. |
| RenderVariables.PrepareVariables | internal/proxy/handler.go:201-214 | The in-place loop, its early return and its panic on a nil map, tied to the function that the lemmas are about. |
| RenderVariables.PreparedExactly | internal/proxy/handler.go:201-214 | With distinct names and a map, the loop accepts if and only if every required name was supplied, and yields exactly the supplied entries plus the non-empty defaults of absent optional names. |
| RenderVariables.OrderIrrelevant | internal/proxy/handler.go:201-214 | Decision and result are the same for every permutation of the declarations. |
| RenderVariables.NilMapPanics | internal/proxy/handler.go:210-212 | Without a map the loop panics if and only if a default has to be written before a required name is found missing. |
| RenderVariables.NilMapAccepts | internal/proxy/handler.go:201-214 | Without a map the loop accepts if and only if no declared name is required or has a default. |
| RenderVariables.PreparedEither | internal/proxy/handler.go:201-214 | With or without a map: when the loop panics, that a refused request lacks a required name, and that an accepted one yields the supplied entries completed by the defaults. |
| Cost.AccumulatedError | internal/bedrock/cost.go:100-113 | Over any history the sum of the rounded costs differs from the sum of tokens times listed prices by at most half a micro-dollar per priced call. |
| Cost.AccumulatedErrorIsTight | internal/bedrock/cost.go:110-112 | The bound is attained, for histories of every length. |
| Cost.CostByTheMillion | internal/bedrock/cost.go:106-112 | Any number of millions of input tokens costs its listed input price, and of output tokens its output price, exactly. |
| Cost.CostIsThePrice | internal/bedrock/cost.go:100-113 | Exactly the models of the list are billed, for input times input price plus output times output price, to within half a micro-dollar. |
| Cost.CostMonotone | internal/bedrock/cost.go:106-112 | More tokens never cost less. |
| Cost.SplittingCost | internal/bedrock/cost.go:100-113 | Splitting one call into k moves the bill by at most (k + 1)/2 micro-dollars. |
| Cost.PrintedCostLosesNothing | internal/proxy/handler.go:154-159 | Printing a cost with six decimals and reading it back gives the amount that was added to the counter. |
| PriceList.ShippedPricesAreTight | internal/bedrock/cost.go:21-84 | With the shipped prices n calls can be billed exactly n/2 micro-dollars too much, for every n. |
| Accounting.CountersConserved | internal/proxy/handler.go:141-159 | In any interleaving of both handlers, with every counter update a step of its own, every time series is at rest exactly what the Bedrock replies under its labels amount to; rejected requests add nothing. |
| Accounting.CountersNeverAhead | internal/proxy/handler.go:148-159 | At every moment no time series exceeds what the replies so far amount to. |
| Accounting.CountersExplained | internal/proxy/handler.go:254-269 | At rest the counters of a label are the number of its successful calls, the sums of their tokens and the number of its failed /invoke calls, and the cost counter is within half a micro-dollar per success of tokens times listed prices. |
| Proxy.BuildInferenceConfig | internal/bedrock/client.go:214-222 | Only positive limits and temperatures are sent, and no configuration when there is neither. |
| Proxy.BuildConverse | internal/bedrock/client.go:198-222 | The request built step by step carries the endpoint's model and credentials, the messages in order and the system prompt if there is one. |
| Proxy.CapIsKept | internal/proxy/handler.go:118-122 | The call that is sent stays within the endpoint's cap if and only if the caller did not ask for a negative number; a request for nothing or too much gets the cap, a smaller one what it asked for, and without a cap every positive request does. |
| Proxy.RenderLimit | internal/proxy/handler.go:235-241 | A render is sent with the smaller of the limits of template and endpoint, with the one there is, or with none. |
| Proxy.CallTells | internal/bedrock/client.go:198-222 | Role, region, model, messages, system prompt, token limit and temperature can be read off the call, and each optional one is there exactly when it says something. |
| Proxy.InvokeGateIsFair | internal/proxy/handler.go:81-105 | A request that is let through names, by its own path, an endpoint that exists and is available, and is counted under its model. |
| Proxy.InvokeAnswers | internal/proxy/handler.go:76-116 | Which requests get 405, 400, 404, 503, and that the others pass or get 429 with ten seconds, the latter only from an endpoint with a rate. |
| Proxy.InvokeGateSpendsItsOwn | internal/proxy/handler.go:107-116 | A request turned away for another reason than its rate spends no token, and no request touches the bucket of another endpoint. |
| Proxy.RetryAsTold | internal/proxy/handler.go:107-116 | A caller that waits as long as the Retry-After of its refusal says, with no other request in between, is let through, at six a minute or more. |
| Proxy.RendersIgnoreTheRate | internal/proxy/handler.go:175-279 | While the bucket of an endpoint is empty, any number of renders for it go out at one instant, and an invocation after them is turned away. |
| Proxy.RenderGateIsFair | internal/proxy/handler.go:181-233 | What /render lets through has every required variable, is the rendering of the template with the supplied variables completed by the defaults, and goes to an available endpoint that the template names, in the template's namespace. |
| Proxy.RenderAnswers | internal/proxy/handler.go:175-233 | Which renders get 405, 400, 404, 503 or panic: 400 for a known template exactly when a required variable is missing or the completed variables do not render. |
| Proxy.ProxyHandler.AdmitInvoke | internal/proxy/handler.go:76-116 | The checks of HandleInvoke in their order, with the status each one answers, and the buckets afterwards. |
| Proxy.ProxyHandler.CountSuccess | internal/proxy/handler.go:148-159 | The four updates, in this order, add one success, the tokens and the cost under the labels of the call, and change no other series; an unknown cost is not added. |
| Proxy.ProxyHandler.Record | internal/proxy/handler.go:141-159 | A reply changes exactly the series under the labels of the call, in the order that the interleaving theorems assume; an error changes one for /invoke and none for /render. |
| Proxy.ProxyHandler.Forward | internal/proxy/handler.go:129-170 | One call goes out, one reply is counted, and the counters stay exactly what all replies amount to. |
| Proxy.ProxyHandler.HandleInvoke | internal/proxy/handler.go:75-170 | Which requests are turned away with which status and leave counters and Bedrock alone; the one call that goes out otherwise, its token limit, the response and the counters. |
| Proxy.ProxyHandler.HandleRender | internal/proxy/handler.go:175-279 | The same for /render, including the panic on a nil map and the missing error counter. |
| Proxy.ResponseTellsTheCharge | internal/proxy/handler.go:152-170 | The cost in the response, read back, is the amount added to the counter; an unpriced model answers "unknown" and adds nothing. |
| Proxy.ResponseTellsTheReply | internal/proxy/handler.go:161-170 | A caller gets the content, both token counts and the stop reason that Bedrock answered, or a 502 exactly for an error. |
| Proxy.StaysSettled | internal/proxy/handler.go:148-157 | One more reply and the four updates for it keep counters and replies equal. |

## Left out

- AWS SDK, STS, HTTP, JSON, mux, server start and shutdown, logging and flags: input and output. Bedrock, the API server and the outcome of every call are parameters or actions.
- text/template: parsing is a parameter (`parser`), rendering is a parameter (`render`).
- float64: prices, costs and bucket levels are exact; what rounding of doubles adds is not modelled.
- int32 and int64: token counts and rates are unbounded integers.
- Stale reads from an informer cache: every Get is fresh.
- GuardrailSafety.TruthfulSynced: says nothing while a write to Bedrock has not been reported, which is when the code cannot know better; a guardrail deleted out of band is exempt.
- RateLimit.NoStarvation: for times in order; the webhook's upper limit of 3600 for the rate is not needed.
- BedrockClient.BedrockClient.RuntimeClient: one call at a time, with what others do between its locks as a parameter; the interleaving of threads is in `ClientCache`.
- EndpointReconciler.Reconciler.Reconcile: what the health check adds to the client cache and what other threads do to it meanwhile; `EndpointResidue` and `ClientCache` have both.
- EndpointResidue.ClientsLeftExactly: clients of both maps under one key count as one item, and every lookup succeeds, as `internal/bedrock/client.go:178-188` never fails.
- EndpointReconciler.Reconciler.ReconcileServiceOf: only the Spec value that the mutate function writes; labels and owner reference are set on creation by library code, and server-side defaulting is not modelled.
- Proxy.ProxyHandler.HandleInvoke: one request at a time; the interleaving of requests is in `Accounting` and in `RateLimit.Isolation`. The constant or wrapped texts of error responses are not in the model.
- Proxy.ProxyHandler.HandleRender: the constant or wrapped texts of error responses, as for HandleInvoke.
- The duration histogram, the rate-limited counter and the reconcile error counter.
- Cost budgets, cost and token fields of the endpoint status, and passing a guardrail with an invocation: declared and not implemented in the source.
- Webhook checks, sanitizeLabel, the two-decimal FormatCost, KnownModel, deepcopy code and manifests: single-branch facts.
