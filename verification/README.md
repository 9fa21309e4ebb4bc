# Azure Workload Identity: a verified model

This project models the parts of Azure Workload Identity whose correctness spans calls, runs or
processes, and proves what they keep.

* **The proxy's credentials** (`CredentialFlight.dfy`, `Proxy.dfy`). Concurrent requests look a
  credential up, join or lead a flight, look again, create, add and complete, while cache entries
  expire or are evicted at any moment. The protocol is a step relation over any number of callers;
  a call of the proxy's own code, among any concurrent calls and with expiry and eviction in between
  its steps, is proved to be a run of it. Main results: conservation of credentials, isolation of keys, at most one credential
  while nothing is removed, and progress.
* **The pod webhook** (`Config.dfy`, `PodMutator.dfy`, `PodMutatorTheorems.dfy`,
  `PodMutatorContent.dfy`, `PodMutatorMeaning.dfy`). Methods with the loops of the code are proved against functions on pod
  values. Main results: handling is idempotent, it converges when other webhooks append containers
  in between, keeps the user's containers, environment, mounts and volumes, and does what annotations
  and configuration ask for, said in terms of their texts.
* **The azwi commands** (`Workflow.dfy`, `Naming.dfy`, `Cloud.dfy`, `AzureClient.dfy`,
  `CreateCommand.dfy`, `CreateData.dfy`, `Directory.dfy`, `CreateConvergence.dfy`,
  `CreateTheorem.dfy`, `CreateMeaning.dfy`, `CreateLimits.dfy`, `DeleteCommand.dfy`, `DeleteData.dfy`,
  `DeleteTheorem.dfy`, `DeleteMeaning.dfy`, `DeleteSafety.dfy`, `DeleteConvergence.dfy`,
  `RoundTrip.dfy`). Eight phases run on an explicit cloud and cluster, with
  caches, and with a fault at any remote call: lost before its effect, or reported as failed after
  it. Main results: create and delete converge after any history of disturbed runs, delete undoes
  create exactly where create had started from scratch and touches nothing else under any faults, the
  delete command's shortcut preserves meaning; and where the code falls short, exactly when.
* **Migration from pod identity** (`Bindings.dfy`, `Owners.dfy`, `Migration.dfy`, `Detect.dfy`,
  `DetectRun.dfy`, `DetectTheorem.dfy`). Sorting and filtering bindings, the walk to the top-level
  owner, and files written while maps are iterated in any order. Main results: the walk terminates
  exactly on acyclic chains, and the directory depends on no order exactly if its writers agree.
* **Token lifetimes** (`TokenLifetime.dfy`, `Text.dfy`): from the command line's duration through
  the annotation to the projected token, and from the token file to the cached assertion.

* **Across components** (`EndToEnd.dfy`): when create connects account, application and role; and
  that pods of a connected account, admitted by the webhook, act as the application.

`Common.dfy` holds the option and result types.

## How the remote world is modelled

The directory answers what was last written, reports not-found only for what is absent, and
conflicts on a second credential of one name in an application, a second service principal of an
application and a second assignment of one role, scope and principal. Deleting an application takes
its credentials and its service principal along. IDs are issued by the servers and never reused; an
assignment needs an existing principal. `Directory.Valid` collects what such a world keeps.
SHA-256 hashes are an opaque function.

## Where the code and its documentation differ

* `CreateRoleAssignment` declares a second `err` inside its loop (pkg/cloud/roleassignments.go:44,
  returned at line 56), so seven failed attempts count as success, whether the principal is missing
  or the calls met transient errors: `Cloud.AttemptsGiveUpExactlyWhen`,
  `CreateLimits.RoleRunExactlyWhen`.
* Errors of lookups become empty strings (pkg/cmd/serviceaccount/create.go:134-138), so a create whose
  lookup of the application fails writes an account without a client ID and reports success:
  `CreateLimits.AccountRunExactlyWhen`.
* A credential of the name counts as the right one
  (pkg/cmd/serviceaccount/phases/create/federatedidentitycredential.go:81-91), and names of
  credentials join namespace and name by a hyphen. So for two accounts on one application, such as
  `c` in `a-b` and `b-c` in `a`, the second create reports success and the application does not trust
  the second account: `CreateLimits.CredentialRunExactlyWhen`,
  `CreateLimits.SecondAccountIsNotTrusted`, `Naming.SharedCredentialNameExactlyWhen`.
* Likewise a service principal of the name counts as the application's:
  `EndToEnd.CreateConnectsExactlyWhen`.
* `GetFederatedCredential` returns an error that `IsFederatedCredentialNotFound` does not recognise
  (pkg/cloud/graph.go:140, pkg/cloud/errors.go:44-47), so deleting a credential that is missing from
  an existing application fails: `DeleteTheorem.PlainDeleteMeaning`. A delete that lost the answer to
  that deletion is therefore never completed by a later one, which does not get to the account:
  `DeleteConvergence.CredentialDeleteConvergesExactlyWhen`.
* `AZURE_KUBERNETES_CA_FILE` is set for every custom endpoint, also when no CA file is projected:
  `PodMutatorContent.CAFileExistsExactlyWhen`.
* Not-found is recognised by the text of an error, so a failed lookup whose text contains those
  words duplicates an application: `CreateLimits.LostLookupDuplicatesExactlyWhen`. Convergence is
  therefore proved for faults that do not read like that (`CreateConvergence.Honest`).
* With a service principal name other than the application's, and none of that name there, the
  application phase succeeds once and fails on every later run: `CreateLimits.AppRunTwiceExactlyWhen`.
* The comment on `createServiceAccountFile` promises the use label on the account; the code sets
  annotations only (pkg/cmd/podidentity/detect.go:241-271), so the account has the label exactly if
  the owner's own account had it: `Migration.LabelledExactlyWhen`.
* detect takes a container that runs proxy-init for the proxy, whose image name is a prefix of the
  other: `Migration.ProxyLeftOutExactlyWhen`, `Migration.MigratedShape`.

## Model

| member | source | states |
|---|---|---|
| CredentialFlight.ConservationTheorem | pkg/proxy/proxy.go:161-191 | in every reachable state of every interleaving, for each key: credentials created = entries removed + one if cached + one if its leader has created but not yet added |
| CredentialFlight.OneCredentialWithoutRemovals | pkg/proxy/proxy.go:173-185 | while nothing was removed for a key, exactly one credential was created for it and all its successful callers hold that one |
| CredentialFlight.FlightKeyCollision | pkg/proxy/proxy.go:171 | two client and tenant pairs share a flight key exactly if a NUL inside the longer client ID takes the separator's place |
| CredentialFlight.SameTenantIdentifies | pkg/proxy/proxy.go:139 | for one tenant the flight key identifies the client |
| CredentialFlight.NulFreeClientsIdentify | pkg/proxy/proxy.go:171 | for client IDs without NUL the flight key identifies client and tenant |
| CredentialFlight.IsolationTheorem | pkg/proxy/proxy.go:162-172 | every caller in every run gets a credential of its own key if and only if no two requests share a flight key without being equal |
| CredentialFlight.CollisionLeaks | pkg/proxy/proxy.go:171-172 | requests that do collide have a run in which one gets the other's credential |
| CredentialFlight.ProxyIsolates | pkg/proxy/proxy.go:139 | one proxy isolates all its requests, whatever clients they are for, since all are for its own tenant |
| CredentialFlight.WaiterHasOneLeader | pkg/proxy/proxy.go:172 | a waiting caller's leader leads for its key: either it is in flight and nobody else is for that key, or it is done and the caller can return with its result, made for that key |
| CredentialFlight.NotStuck | pkg/proxy/proxy.go:161-191 | a reachable state with an unfinished caller has an enabled step of some caller |
| CredentialFlight.StepDecreases | pkg/proxy/proxy.go:161-191 | every step of a caller decreases a measure that expiry leaves alone |
| CredentialFlight.ProgressTheorem | pkg/proxy/proxy.go:161-191 | in any run n callers take at most 6n steps, however often entries expire, and while one has not returned some caller can act |
| CredentialFlight.QuiescentState | pkg/proxy/proxy.go:172-190 | once all callers have returned no flight is left, whether creations succeeded or failed |
| Proxy.CredCache.Get | pkg/proxy/cred_cache.go:29-36 | a lookup misses, or gives the value last added for the key; expiry may remove it at any time before |
| Proxy.CredCache.Add | pkg/proxy/cred_cache.go:38-40 | the key now has the value; other entries may be evicted and none changes |
| Proxy.Proxy.Others | pkg/proxy/proxy.go:161-191 | whatever others do between two steps of a call is a run of the protocol and leaves the call where it is |
| Proxy.Proxy.CreateUnlessCached | pkg/proxy/proxy.go:172-186 | double-check, creation and addition, with others acting in between, are a run of the protocol; it fails only if the creation does |
| Proxy.Proxy.Do | pkg/proxy/proxy.go:172-186 | whoever opens the flight leads it to its end, whoever finds it open takes its leader's result or still waits; either is a run of the protocol |
| Proxy.Proxy.GetOrCreateCred | pkg/proxy/proxy.go:161-191 | among any concurrent calls, expiries and evictions, a call is a run of the protocol, returns a cached credential if there is one, and never one made for another key |
| Proxy.Proxy.MsiHandler | pkg/proxy/proxy.go:118-159 | a request is rejected exactly if it has no resource, or no client in either the query or the environment; otherwise, among any concurrent requests, a credential it gets was made for the queried client, or for the environment's if none is queried, and for the proxy's tenant |
| Proxy.Proxy.GetScope | pkg/proxy/proxy.go:278-283 | the scope is the resource with one /.default at its end |
| Config.ValidateConfig | pkg/config/config.go:46-74 | a configuration is accepted exactly if it names a tenant, at most one CA source, and a selector only with a signer; the first violation is reported |
| PodMutator.Handle | pkg/webhook/webhook.go:155-247 | the steps on the decoded pod give the response that the functions specify |
| PodMutatorTheorems.PatchedExactlyWhen | pkg/webhook/webhook.go:184-226 | a pod is refused exactly for a missing account, a proxy in the host's network, a port that is no number, or a lifetime that is none or out of bounds |
| PodMutatorMeaning.AdmittedExactlyWhen | pkg/webhook/webhook.go:184-226 | a pod is admitted exactly if its account is found, the first of its own and its account's lifetime annotations that is set writes a number from 3600 to 86400, and, where the proxy is asked for, it is not in the host's network and its port annotation, if any, writes a 32-bit number |
| PodMutatorMeaning.OwnAnnotationDecides | pkg/webhook/webhook.go:382-386 | a pod whose own annotation writes no valid lifetime is refused whatever its account says |
| PodMutatorMeaning.TokenAsAsked | pkg/webhook/webhook.go:374-398 | the projected token has the lifetime of the pod's annotation, else of the account's, else an hour, and the audience of the pod's endpoint; the volume is named by the prefix and the hash of the pod's name, cut to 63 characters |
| PodMutatorMeaning.ListedContainersStay | pkg/webhook/webhook.go:361-372 | exactly the containers named in the annotation, between semicolons and with any space around them, stay as they are; all others get the mount |
| PodMutatorMeaning.EndpointReachesContainer | pkg/webhook/webhook.go:347-358 | a container without such variables of its own sees the configured endpoint, server name, CA file and CA data exactly if the pod's annotation is true in any case |
| PodMutatorMeaning.ProxiesAsConfigured | pkg/webhook/webhook.go:266-337 | proxies that the pod does not bring have the configured images, and the port that was asked for or 8000 |
| PodMutator.GetTokenExpiration | pkg/webhook/webhook.go:379-398 | the pod's annotation, then the account's, then the default, within bounds |
| PodMutator.GetSkipContainers | pkg/webhook/webhook.go:361-372 | the loop collects the trimmed names |
| PodMutator.GetProxyPort | pkg/webhook/webhook.go:400-416 | the annotation as a 32-bit number, or the default |
| PodMutator.InjectProxy | pkg/webhook/webhook.go:198-219 | proxies are injected into the lists that the sidecar mode selects, or the pod is refused |
| PodMutator.InjectIdentity | pkg/webhook/webhook.go:221-239 | both container lists are mutated with one injection and the token volume is put, or the lifetime is refused |
| PodMutator.InjectProxyInitContainer | pkg/webhook/webhook.go:266-292 | the init proxy is appended exactly if no container has its name |
| PodMutator.InjectProxySidecarContainer | pkg/webhook/webhook.go:294-337 | the sidecar is prepended exactly if no container has its name |
| PodMutator.MutateContainerList | pkg/webhook/webhook.go:251-264 | the in-place loop mutates every container that is not skipped, each on its own |
| PodMutator.AddEnvironmentVariables | pkg/webhook/webhook.go:438-466 | the desired variables that the container lacks, and that have values, are appended in order |
| PodMutator.AddProjectedVolumeMount | pkg/webhook/webhook.go:468-484 | the first mount of the volume is replaced, or the mount is appended |
| PodMutator.AddProjectedVolume | pkg/webhook/webhook.go:486-552 | the first volume of that name is replaced, or the token volume with its CA projections is appended |
| PodMutatorTheorems.HandleIdempotent | pkg/webhook/webhook.go:155-247 | handling the result of a successful handling succeeds and changes nothing, for every pod, account, configuration and sidecar mode |
| PodMutatorTheorems.InsertionTheorem | pkg/webhook/webhook.go:251-264 | if others insert containers anywhere into a handled pod, handling again mutates exactly the inserted ones |
| PodMutatorTheorems.ReinvocationConverges | pkg/webhook/webhook.go:42 | appending a regular container between two calls gives what appending first and calling once gives |
| PodMutatorTheorems.InitReinvocationConverges | pkg/webhook/webhook.go:198-239 | for appended init containers the two orders differ only in where azwi-proxy-init sits |
| PodMutatorTheorems.WithProxyShape | pkg/webhook/webhook.go:198-219 | the user's containers stay in order; the sidecar comes first and the init proxy last |
| PodMutatorTheorems.ProxyPresent | pkg/webhook/webhook.go:213-218 | after injection both proxies are in the lists that the sidecar mode requires |
| PodMutatorContent.EnvResolution | pkg/webhook/webhook.go:443-463 | the effective value of each desired variable is the user's if there is one, else the desired one if not empty |
| PodMutatorContent.ContainerKept | pkg/webhook/webhook.go:251-264 | skipped containers are untouched; otherwise the user's environment is a prefix of the result, other fields stay, and distinct names stay distinct |
| PodMutatorContent.ContainersKept | pkg/webhook/webhook.go:155-247 | the original containers survive in order between at most one proxy in front and one behind, and nothing else of the pod changes but its volumes |
| PodMutatorContent.VolumesKept | pkg/webhook/webhook.go:543-551 | volumes of other names survive, distinct names stay distinct, and the token volume has a valid lifetime |
| PodMutatorContent.MountsStillResolve | pkg/webhook/webhook.go:236-239 | if every mount named an existing volume before, it does after |
| PodMutatorContent.IdentityReachesContainer | pkg/webhook/webhook.go:227-239 | an init or regular container that is not skipped and brings no identity variables sees its account's client ID, the account's tenant or else the cluster's, and a token file that exists: in a volume of the pod, mounted where the variable says, with the right audience and a valid lifetime |
| PodMutatorContent.ProxiesAgreeExactlyWhen | pkg/webhook/webhook.go:198-219 | in a handled pod, whether it brought one, both or neither of the proxies itself, the init proxy redirects to a port that the sidecar serves exactly if what the pod brought fits the port asked for, or each other |
| PodMutatorContent.ValidConfigHasOneCASource | pkg/webhook/webhook.go:486-541 | under a validated configuration projected paths are distinct, and CA data is never injected both as a variable and as a file |
| PodMutatorContent.CAFileExistsExactlyWhen | pkg/webhook/webhook.go:451-455 | the CA file variable is always set for a custom endpoint, and its file exists exactly if a ConfigMap or trust bundle is configured |
| TokenLifetime.RoundWithinBounds | pkg/kuberneteshelper/serviceaccount.go:30-33 | rounding an accepted duration to seconds moves it by at most half a second and not out of bounds |
| TokenLifetime.LifetimeRoundTrip | pkg/webhook/webhook.go:379-397 | what create accepts and prints, or omits as the default, the webhook reads back as a valid lifetime within half a second |
| TokenLifetime.ClientAssertionCredential.GetAssertion | examples/custom-token-endpoint-msal-go/token_credential.go:127-140 | a call rereads the file exactly if the copy is older than five minutes, fails only if that read fails, and then keeps the copy |
| TokenLifetime.AssertionIsFresh | examples/custom-token-endpoint-msal-go/token_credential.go:131-139 | over any run with a monotone clock, whichever reads fail, a call that returns text returns what a read gave at some call at most five minutes before; it fails exactly if the copy is older and the read fails |
| TokenLifetime.ReadsAreApart | examples/custom-token-endpoint-msal-go/token_credential.go:131-139 | calls within five minutes of the last successful read answer the copy, whatever the file gives; so contents that were read are more than five minutes apart |
| TokenLifetime.CachedAssertionMargin | docs/book/src/topics/self-managed-clusters/service-account-key-rotation.md:181 | with rotation by 80% of the lifetime, an assertion is returned at least seven minutes before it expires |
| TokenLifetime.AcceptedLifetimeIsLongEnough | pkg/cmd/serviceaccount/phases/create/serviceaccount.go:57-64 | a duration that create accepts leads to tokens whose cached copies never expire in use |
| Text.ParseDecimal | pkg/webhook/webhook.go:384-391 | a printed number that fits 32 or 64 bits is parsed back to itself |
| Text.ParseIntExactlyWhen | pkg/webhook/webhook.go:383-390 | exactly the texts that write a number of the width, with an optional sign and leading zeros, are parsed, to that number |
| Text.TrimExactlyWhen | pkg/webhook/webhook.go:369 | trimming gives the only text without space at its ends that the given one surrounds with space |
| Text.SplitJoined | pkg/webhook/webhook.go:366 | splitting gives back what was joined by a separator that no part contains |
| Text.LessExactlyWhen | pkg/kuberneteshelper/azureidentitybinding.go:21-26 | a text is less exactly if it is a proper prefix or has the smaller character where the two first differ |
| Workflow.RunTheorem | pkg/cmd/serviceaccount/phases/workflow/runner.go:124-153 | a run does the first k of all pre-runs and then all runs of the unskipped phases, stops at the first failure and returns it; an unknown skip name does nothing |
| Workflow.UnskippedNames | pkg/cmd/serviceaccount/phases/workflow/runner.go:130-137 | the phases that run are exactly those whose names are not skipped |
| Workflow.Runner.Run | pkg/cmd/serviceaccount/phases/workflow/runner.go:124-153 | the loops compute the run's outcome, trace included |
| Workflow.Runner.ComputeSkipPhases | pkg/cmd/serviceaccount/phases/workflow/runner.go:156-176 | the skip list as a set, or an error for its first unknown name |
| Workflow.Runner.IsPhaseActive | pkg/cmd/serviceaccount/phases/workflow/runner.go:61-68 | whether a name is not in the skip list |
| Workflow.Runner.AppendSkipPhases | pkg/cmd/serviceaccount/phases/workflow/runner.go:54-58 | appends the names of the phases in order |
| Workflow.Runner.AppendPhases | pkg/cmd/serviceaccount/phases/workflow/runner.go:49-51 | appends the phases in order |
| Workflow.RunOfFour | pkg/cmd/serviceaccount/create.go:50-55 | a run of four phases is their unskipped pre-runs and then runs in sequence, up to the first failure |
| Cloud.AttemptsGiveUpExactlyWhen | pkg/cloud/roleassignments.go:43-56 | for all faults: the loop ends without error and without result exactly if no attempt meets a conflict and, where the principal exists, every attempt meets a fault |
| Cloud.AttemptsAssignExactlyWhen | pkg/cloud/roleassignments.go:43-56 | for all faults: the assignment exists afterwards exactly if it did, or the principal exists and an attempt reached the server before the loop ended |
| AzureClient.Client.CreateRoleAssignment | pkg/cloud/roleassignments.go:20-57 | the retry loop makes up to seven attempts, stops at success or conflict, and loses the last error |
| AzureClient.Client.GetFederatedCredential | pkg/cloud/graph.go:116-141 | the search loop finds the first credential of issuer and subject, or reports the dedicated error |
| AzureClient.FirstOfSubject | pkg/cloud/graph.go:125-139 | filtering by subject on the server and by issuer in the client finds the first credential that matches both |
| AzureClient.Client.CreateOrUpdateServiceAccount | pkg/kuberneteshelper/serviceaccount.go:18-40 | an existing account is overwritten, a missing one created |
| AzureClient.Client.DeleteServiceAccount | pkg/kuberneteshelper/serviceaccount.go:43-49 | the account is looked up, then deleted |
| AzureClient.Client.GetApplication | pkg/cloud/graph.go:72-90 | the first application of a display name, or not-found |
| AzureClient.Client.GetServicePrincipal | pkg/cloud/graph.go:51-69 | the first service principal of a display name, or not-found |
| CreateData.Data.AADApplication | pkg/cmd/serviceaccount/create.go:104-113 | looked up once; a failed lookup is not cached |
| CreateData.Data.ServicePrincipal | pkg/cmd/serviceaccount/create.go:159-168 | looked up once; a failed lookup is not cached |
| CreateData.Data.AADApplicationName | pkg/cmd/serviceaccount/create.go:116-126 | the given name, else one of namespace, name and issuer |
| CreateData.Data.ServicePrincipalName | pkg/cmd/serviceaccount/create.go:171-180 | the given name, else the application's |
| CreateData.Data.AADApplicationClientID | pkg/cmd/serviceaccount/create.go:129-140 | the flag, else the application's client ID, else empty on any error |
| CreateData.Data.AADApplicationObjectID | pkg/cmd/serviceaccount/create.go:144-155 | the flag, else the application's object ID, else empty on any error |
| CreateData.Data.ServicePrincipalObjectID | pkg/cmd/serviceaccount/create.go:183-194 | the flag, else the principal's object ID, else empty on any error |
| CreateData.Data.RunAADApplication | pkg/cmd/serviceaccount/phases/create/aadapplication.go:49-98 | get or create the application and then its service principal, step by step under any faults |
| CreateData.Data.RunServiceAccount | pkg/cmd/serviceaccount/phases/create/serviceaccount.go:74-97 | writes the account with the client ID that the lookup gives |
| CreateData.Data.RunFederatedIdentity | pkg/cmd/serviceaccount/phases/create/federatedidentitycredential.go:64-99 | posts the credential and tolerates that it exists |
| CreateData.Data.RunRoleAssignment | pkg/cmd/serviceaccount/phases/create/roleassignment.go:58-84 | creates the assignment and tolerates a conflict |
| CreateTheorem.CreateConverges | pkg/cmd/serviceaccount/phases/create/aadapplication.go:49-98 | with the service principal's name unset, the application's, or that of a principal that is there: after any number of create runs, each with faults at any calls that do not read as not-found, one undisturbed run succeeds exactly if it would have succeeded at first, which depends on the flags and the original world only, and ends in the original world with the same kinds of missing objects added, under fresh IDs |
| CreateTheorem.CreateWorks | pkg/cmd/serviceaccount/create.go:31-33 | any run of create on a world with partial progress leaves it with more progress and nothing else changed; undisturbed, with all of it |
| CreateTheorem.HistoryWorks | pkg/cmd/serviceaccount/create.go:50-55 | a whole history of disturbed runs leaves the original world plus partial progress |
| CreateTheorem.SettledTwice | pkg/cmd/serviceaccount/create.go:50-55 | two complete progresses on one world add the same kinds of objects and equal accounts up to the client ID of a new application |
| CreateMeaning.CreateAnnounces | pkg/cmd/serviceaccount/phases/create/serviceaccount.go:74-94 | under the hypotheses of CreateConverges a full feasible create leaves an application of the given name, or else of one made of namespace, name and issuer, which is the one that was there before if there was one; and the account, annotated with the given client ID or else that application's, and with the tenant; no other account changes |
| CreateMeaning.CreateAssigns | pkg/cmd/serviceaccount/create.go:171-190 | likewise: the role is assigned to the principal given by its ID if it exists, else to the first one of the given name, or of the application's name if none is given; no principal is added if there is one of that name, else exactly one, of the application |
| CreateMeaning.CreateFederates | pkg/cmd/serviceaccount/phases/create/federatedidentitycredential.go:64-99 | likewise: the application given by its ID, else the one of the name, keeps its credentials, and unless it has one of the account's credential name gets one more, for the issuer, the account's subject and the default audience |
| CreateMeaning.CreateSetsLifetime | pkg/cmd/serviceaccount/phases/create/serviceaccount.go:74-94 | a pod of that account which asks for no lifetime itself gets the one given to create, to the nearest second |
| CreateMeaning.NoClientNoCreate | pkg/cmd/serviceaccount/phases/create/serviceaccount.go:67-70 | if the Kubernetes client cannot be had, create fails before it creates anything, in any phase |
| CreateConvergence.AppRunWorks | pkg/cmd/serviceaccount/phases/create/aadapplication.go:49-98 | the application phase under faults adds at most the missing application and principal; undisturbed it adds both, unless the existing application has a principal of another name |
| CreateConvergence.AccountRunWorks | pkg/cmd/serviceaccount/phases/create/serviceaccount.go:74-97 | the account phase under faults sets nothing but the account; undisturbed it sets the right one |
| CreateConvergence.CredentialRunWorks | pkg/cmd/serviceaccount/phases/create/federatedidentitycredential.go:64-99 | the credential phase under faults adds at most the missing credential; undisturbed it succeeds exactly if the application exists |
| CreateConvergence.RoleRunWorks | pkg/cmd/serviceaccount/phases/create/roleassignment.go:58-84 | the role phase under faults adds at most the missing assignment; undisturbed it succeeds exactly if the role is defined |
| CreateConvergence.LookupApp | pkg/cmd/serviceaccount/create.go:104-113 | a lookup through the cache agrees with the world, and not-found means absent |
| CreateConvergence.LookupPrincipal | pkg/cmd/serviceaccount/create.go:159-168 | a lookup through the cache agrees with the world, and not-found means absent |
| CreateLimits.LostLookupDuplicatesExactlyWhen | pkg/cmd/serviceaccount/phases/create/aadapplication.go:54-65 | a failed lookup duplicates an existing application exactly if the text of its error contains "not found" |
| CreateLimits.PrincipalStepExactlyWhen | pkg/cmd/serviceaccount/phases/create/aadapplication.go:74-89 | the principal step succeeds exactly if the name is found or the application has no principal yet |
| CreateLimits.AppRunTwiceExactlyWhen | pkg/cmd/serviceaccount/phases/create/aadapplication.go:74-89 | given an undisturbed first success of the application phase, a second run succeeds exactly if the service principal's name is not given, is the application's, or is that of a principal that was there before |
| CreateLimits.RoleRunExactlyWhen | pkg/cmd/serviceaccount/phases/create/roleassignment.go:58-84 | for all faults: the role phase reports success exactly if the role lookup finds the role or fails with a conflict; the assignment exists afterwards exactly if it did, or the principal exists and an attempt reached the server |
| CreateLimits.AccountRunExactlyWhen | pkg/cmd/serviceaccount/phases/create/serviceaccount.go:74-97 | for all faults: an account phase that reports success has written the right client ID exactly if the application's lookup was not needed, did not fail, or had nothing to find; otherwise an empty one |
| CreateLimits.CredentialRunExactlyWhen | pkg/cmd/serviceaccount/phases/create/federatedidentitycredential.go:64-99 | an undisturbed credential phase succeeds on every existing application, which trusts the account's tokens afterwards exactly if it had no credential of the name or trusted them before |
| CreateLimits.SecondAccountIsNotTrusted | pkg/cmd/serviceaccount/phases/create/federatedidentitycredential.go:81-91 | for accounts whose credential names collide, the phase of the second reports success, changes nothing and leaves it untrusted |
| Naming.SharedNameExactlyWhen | pkg/cmd/serviceaccount/create.go:116-125 | two accounts get one default application name exactly if namespace and name joined by a hyphen agree and the issuer hashes do |
| Naming.NamespacesOverlap | pkg/cmd/serviceaccount/create.go:120-122 | accounts of different namespaces can get one default name |
| Naming.NamesDiffer | pkg/cmd/serviceaccount/delete.go:111-120 | within one namespace and issuer default names tell accounts apart |
| Naming.SubjectsTellAccounts | pkg/cmd/serviceaccount/util/util.go:25-27 | a subject joins namespace and name by a colon, so subjects tell accounts apart |
| Naming.SharedCredentialNameExactlyWhen | pkg/cmd/serviceaccount/util/util.go:18-22 | where the hash does not collide, two accounts get one credential name exactly if namespace, name and issuer joined by hyphens agree; for one issuer, if namespace and name do |
| Naming.CredentialNamesOverlap | pkg/cmd/serviceaccount/util/util.go:16-27 | accounts of different namespaces can share a credential name while their subjects differ |
| CreateData.RunCreate | pkg/cmd/serviceaccount/create.go:31-55 | the runner with the four phases in order computes the command's outcome |
| DeleteData.RunDelete | pkg/cmd/serviceaccount/delete.go:36-44 | the command appends the credential phase to its skip list exactly if the application phase is active, and runs the rest |
| DeleteData.Data.AADApplication | pkg/cmd/serviceaccount/delete.go:99-108 | looked up once; a failed lookup is not cached |
| DeleteData.Data.AADApplicationObjectID | pkg/cmd/serviceaccount/delete.go:124-135 | the flag, else the application's object ID, else empty on any error |
| DeleteData.Data.RunRoleAssignment | pkg/cmd/serviceaccount/phases/delete/roleassignment.go:47-65 | deletes by ID and tolerates an assignment that is gone |
| DeleteData.Data.RunFederatedIdentity | pkg/cmd/serviceaccount/phases/delete/federatedidentitycredential.go:60-81 | finds the credential and deletes it; tolerates only the server's not-found |
| DeleteData.Data.RunServiceAccount | pkg/cmd/serviceaccount/phases/delete/serviceaccount.go:61-84 | deletes the account and tolerates not-found |
| DeleteData.Data.RunAADApplication | pkg/cmd/serviceaccount/phases/delete/aadapplication.go:49-62 | looks the ID up for the log line and again for the deletion, deletes the application; any error fails |
| DeleteTheorem.PlainDeleteMeaning | pkg/cmd/serviceaccount/delete.go:56-61 | for every skip list and world: exactly when all active phases succeed, and the world that the command leaves, also where it fails |
| DeleteTheorem.OptimisationPreserves | pkg/cmd/serviceaccount/delete.go:37-42 | wherever the plain command succeeds, the optimised one does with the same result; it succeeds more often exactly where only the credential phase fails |
| DeleteMeaning.FirstIsDeleted | pkg/cmd/serviceaccount/phases/delete/federatedidentitycredential.go:60-81 | with the application phase skipped, delete succeeds if the application has a credential for the account's issuer and subject, and takes exactly the first such one away |
| DeleteMeaning.NoneIsDeleted | pkg/cmd/serviceaccount/phases/delete/federatedidentitycredential.go:60-81 | if it has none, delete fails and leaves applications and accounts as they are |
| DeleteMeaning.CredentialRoundTrip | pkg/cmd/serviceaccount/phases/delete/federatedidentitycredential.go:63-77 | where create adds the first credential for the account's tokens, a delete with the same flags and the application phase skipped succeeds and restores all applications |
| DeleteMeaning.OtherAccountsKeepTrust | pkg/cmd/serviceaccount/phases/delete/federatedidentitycredential.go:63-77 | under every schedule of faults the credentials of other accounts stay in an application that is not to be deleted itself |
| DeleteMeaning.NoClientNoDelete | pkg/cmd/serviceaccount/phases/delete/serviceaccount.go:40-59 | if the Kubernetes client cannot be had, delete fails before it deletes anything, in any phase |
| DeleteData.Data.AADApplicationName | pkg/cmd/serviceaccount/delete.go:111-121 | the given name, else one of namespace, name and issuer |
| DeleteSafety.DeleteTouchesOnlyItsOwn | pkg/cmd/serviceaccount/delete.go:36-44 | under every schedule of faults a delete leaves the world with some of its active phases' effects, each complete, and no other change |
| DeleteSafety.OthersSurvive | pkg/cmd/serviceaccount/delete.go:36-44 | under every schedule of faults all other applications, principals, assignments and accounts survive |
| DeleteConvergence.DeleteConverges | pkg/cmd/serviceaccount/phases/delete/aadapplication.go:49-62 | with the application phase active, and no other application found in the place of the deleted one: after any number of disturbed deletes one undisturbed delete leaves what it would have left at once, and reports success exactly if the application was still there |
| DeleteConvergence.DeleteConvergesExactlyWhen | pkg/cmd/serviceaccount/phases/delete/aadapplication.go:49-62 | with the application phase active, delete converges over all histories if and only if no other application is found in the place of the deleted one |
| DeleteConvergence.CredentialDeleteConvergesExactlyWhen | pkg/cmd/serviceaccount/phases/delete/federatedidentitycredential.go:60-81 | with the credential phase active and the application phase not, delete converges over all histories if and only if no second credential for the account's tokens is left, and no account that a missing credential of an existing application would keep it from |
| DeleteConvergence.DeleteOfOthersConverges | pkg/cmd/serviceaccount/delete.go:36-44 | without the application and credential phases delete always converges, and succeeds |
| DeleteConvergence.UniqueIsEnough | pkg/cmd/serviceaccount/delete.go:99-108 | nothing is found in its place if the name is unique or the application is given by its ID |
| DeleteConvergence.HistoryPartly | pkg/cmd/serviceaccount/delete.go:36-44 | a whole history of disturbed deletes has some of the effects of one |
| DeleteTheorem.DeleteTwiceFails | pkg/cmd/serviceaccount/phases/delete/aadapplication.go:49-62 | deleting an application of a unique name a second time fails |
| DeleteTheorem.DeleteTwiceSame | pkg/cmd/serviceaccount/phases/delete/roleassignment.go:55-60 | without the application and credential phases a second delete succeeds and changes nothing |
| RoundTrip.CreateThenDelete | pkg/cmd/serviceaccount/delete.go:111-120 | a full and feasible create that adds a role assignment, under the hypotheses of CreateConverges and after any disturbed attempts, followed by a full delete by name with the ID of that assignment: delete succeeds, and the original world comes back if and only if there was no application and no account of those names and no credential went to another application |
| EndToEnd.CreateConnectsExactlyWhen | pkg/cmd/serviceaccount/create.go:50-55 | a full and feasible create without ID flags under the hypotheses of CreateConverges, however often disturbed before succeeds and leaves an account that names the application of the name; that application trusts the account and has the role if and only if a credential of the name and a service principal of the name that were there before did not stand in the way |
| EndToEnd.PodActsAsApplication | pkg/webhook/webhook.go:227-239 | an init or regular container without identity variables of its own in a pod of a connected account, admitted by the webhook, sees that application's client ID and a token for the audience that the application trusts |
| Bindings.StrictOrder | pkg/kuberneteshelper/azureidentitybinding.go:21-26 | the order of bindings is strict, and total up to equal namespace and name; Bindings.LessExactlyWhen says which order it is |
| Bindings.LessExactlyWhen | pkg/kuberneteshelper/azureidentitybinding.go:21-26 | a binding is less exactly if its namespace, or within one namespace its name, comes first by the first character that differs |
| Bindings.SortedExactlyWhen | pkg/kuberneteshelper/azureidentitybinding.go:35 | bindings of distinct names are sorted exactly if each comes before all later ones in that order |
| Bindings.Swap | pkg/kuberneteshelper/azureidentitybinding.go:17-19 | exchanges two items and keeps the list's contents |
| Bindings.Sort | pkg/kuberneteshelper/azureidentitybinding.go:35 | a sort by this order and exchange meets the contract of sort.Sort in place |
| Bindings.SortedUnique | pkg/kuberneteshelper/azureidentitybinding.go:35 | lists of distinct names have only one sorted form |
| Bindings.MapIdentities | pkg/cmd/podidentity/detect.go:152-157 | the loop collects the identities of the user-assigned type by name |
| Bindings.IdentityMapMeaning | pkg/cmd/podidentity/detect.go:152-157 | exactly the names of user-assigned identities are mapped, each to one of that name |
| Bindings.FilterAzureIdentities | pkg/cmd/podidentity/detect.go:454-480 | the loop binds a selector to the first of its bindings that resolves |
| Bindings.SelectionTheorem | pkg/cmd/podidentity/detect.go:454-480 | after sorting, exactly the selectors of resolving bindings are bound, each to the identity of the one of the smallest namespace and within it the smallest name, by the first character that differs |
| Bindings.IdentityMapPermuted | pkg/cmd/podidentity/detect.go:152-157 | identities of distinct names are mapped alike in every order of listing |
| Bindings.PermutationInvariance | pkg/kuberneteshelper/azureidentitybinding.go:29-37 | the selection does not depend on the order in which bindings and identities are listed or on how the sort is done |
| Bindings.SameNamesAreAmbiguous | pkg/kuberneteshelper/azureidentitybinding.go:21-35 | for equal names the unstable sort leaves the selection open |
| Owners.TerminatesExactlyWhen | pkg/cmd/podidentity/detect.go:407-420 | the owner walk terminates exactly if it visits no object twice, and then within as many steps as there are objects |
| Owners.OwnerTheorem | pkg/cmd/podidentity/detect.go:407-420 | on an acyclic chain of resolvable references it ends with an object that no controller owns, the same from every reference on the way |
| Owners.GetOwner | pkg/cmd/podidentity/detect.go:407-442 | the recursive walk gives the last object of the chain, or the error of the reference that does not resolve |
| Owners.OwnerObjectExactlyWhen | pkg/cmd/podidentity/detect.go:423-442 | a reference resolves exactly if it is of one of the seven kinds and the object of its kind and name exists; if only the latter is wanting, the error names it |
| Owners.ControllerExactlyWhen | pkg/cmd/podidentity/detect.go:413-417 | the walk goes on with the first reference that a controller set |
| Migration.AddProxyInitContainer | pkg/cmd/podidentity/detect.go:322-359 | the init proxy is appended exactly if no image has its prefix |
| Migration.AddProxyContainer | pkg/cmd/podidentity/detect.go:362-403 | the proxy is appended exactly if no image has its prefix |
| Migration.MigratedShape | pkg/cmd/podidentity/detect.go:292-319 | the user's containers come first in order, proxy-init is present, and the proxy is present unless the user's containers include proxy-init but not the proxy; kind, name and owners stay, the account is set and the resource version cleared |
| Migration.AddedForPort | pkg/cmd/podidentity/detect.go:322-403 | what is added has the proxies' names and images, and redirects to and serves the port of the options |
| Migration.GeneratedFits | pkg/cmd/podidentity/detect.go:243-281 | the resource runs as the generated account; owners of the default account get one of their own name, other accounts keep their names and other annotations, the tenant among these if none is given |
| Migration.LabelledExactlyWhen | pkg/cmd/podidentity/detect.go:241-271 | the generated account has the use label exactly if the owner's own account had it |
| Migration.MigrationIdempotent | pkg/cmd/podidentity/detect.go:243-319 | migrating a migrated resource with its generated account changes neither |
| Migration.ProxyLeftOutExactlyWhen | pkg/cmd/podidentity/detect.go:367-371 | the proxy is left out exactly if some image has its prefix, for which proxy-init is enough |
| Migration.GeneratedAccountReadBack | pkg/cmd/podidentity/detect.go:263-269 | the webhook reads back from a generated account the identity and, within half a second, the lifetime |
| Detect.OrderIndependentExactlyWhen | pkg/cmd/podidentity/detect.go:208-223 | the directory is the same for all iteration orders if and only if all writers of a file agree |
| Detect.ConsistentExactlyWhen | pkg/cmd/podidentity/detect.go:444-450 | writers agree exactly if outputs of one name are equal and no name is another's with the account suffix |
| Detect.WriteAllExpected | pkg/cmd/podidentity/detect.go:208-223 | if writers agree, the directory holds the old files and exactly an account and a resource file per output |
| DetectRun.DetectCmd.CreateServiceAccountFile | pkg/cmd/podidentity/detect.go:243-282 | a new account named after the owner, or the owner's own, annotated and written under the owner's name |
| DetectRun.DetectCmd.CreateResourceFile | pkg/cmd/podidentity/detect.go:292-319 | the migrated resource is written under its name |
| DetectRun.DetectCmd.Collect | pkg/cmd/podidentity/detect.go:166-195 | in any order of labels and pods, each bound pod is collected once, by its controller or as standalone |
| DetectRun.DetectCmd.Resolve | pkg/cmd/podidentity/detect.go:197-203 | in any order, all references resolve to their owners, or one that does not is reported |
| DetectRun.DetectCmd.WriteResults | pkg/cmd/podidentity/detect.go:208-223 | all outputs are written in some order, or a missing account is reported |
| DetectRun.DetectCmd.Run | pkg/cmd/podidentity/detect.go:130-233 | a run succeeds exactly if every bound pod has an output, and then the directory is that of writing all outputs in some order |
| DetectTheorem.RunsAgree | pkg/cmd/podidentity/detect.go:130-233 | for distinctly named bindings, identities and owners, any two runs, whatever the orders of listing, sorting and iteration, leave the same directory, as specified |
| DetectTheorem.BoundPodIsMigrated | pkg/cmd/podidentity/detect.go:130-233 | for distinctly named bindings and owners, every bound pod's top-level owner, or the pod itself without a controller, gets its two files, the account with the client ID of the identity that the selected binding of the pod's label refers to |
| DetectTheorem.WellNamedIsConsistent | pkg/cmd/podidentity/detect.go:197-223 | owners of distinct, non-colliding names whose pods share a label have agreeing writers |
| DetectTheorem.DifferentLabelsAreInconsistent | pkg/cmd/podidentity/detect.go:183 | pods of one owner bound to different clients make the account file depend on the order |

## Left out

- HTTP serving, routing, metadata forwarding, probing, metrics and logging, with the lookups that create makes for log lines after its last write.
- The inside of the Azure, Graph, Kubernetes and cobra clients, JSON and patches: replaced by explicit state and the contracts above; the delay between retries is not modelled.
- The LRU order of the cache library: any entry may be evicted at any time, more than the library does.
- SHA-256, base64, key parsing and JWKS generation: hashes are opaque functions.
- Sanitising of file names by path joining, and output that is half written when a write fails.
- The kind-specific accessors of pkg/cmd/podidentity/k8s: one object type with a pod spec stands for all kinds.
- Labels of the accounts that create makes, tags of created objects, and the single-phase subcommands: a run with one phase.
- A client answer of neither an object nor an error, for which create would wrap a nil error.
- Proxy.Proxy.GetOrCreateCred: blocking is modelled by returning nothing when what happens around the call ends before its leader has finished.
- Proxy.Proxy.MsiHandler: ends with the credential and scope of the token request; the token and its encoding are the library's.
- Bindings.Sort: stands for sort.Sort, whose algorithm is a library's; the results about selection use its contract only.
- EndToEnd.CreateConnectsExactlyWhen: not for flags that give the client ID, the application or the principal by ID; for these CreateMeaning gives where account, credential and role go.
- CreateTheorem.CreateConverges: for service principal names with which a second run can succeed (CreateLimits.AppRunTwiceExactlyWhen), for IDs given as flags that are not still to be issued, and for faults whose text does not read as not-found; CreateLimits gives what happens otherwise.
- DetectTheorem.RunsAgree: for successful runs; which files a failed run has written depends on the order.
