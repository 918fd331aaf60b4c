# A verified model of the DigitalOcean cloud controller manager

The cloud controller manager keeps two kinds of cloud objects in line with a Kubernetes
cluster: the load balancers of `LoadBalancer` services and one public firewall for the
worker nodes. This project models both reconcilers, and the code they rest on, in Dafny and
proves what they promise over whole runs.

**Load balancers.** A sync classifies the nodes by IP stack, sorts unusable ones by declared
network intent, gates the first admission of a node on its readiness, derives the request
from the admitted nodes, writes it, and returns nil or a retry. The main theorems:

- no flapping and strict first admission, over every run of syncs under arbitrary node
  changes, API failures, service edits and outside changes (`LoadBalancerRuns`);
- accounting: what a nil result and each retry delay say about every node. It is complete but
  for two exceptions, each with its exact condition and the inputs on which it occurs: nodes
  without a ProviderID that no droplet is found for, which may even empty a load balancer, and
  nodes that `EnsureLoadBalancer` judges by the wrong type (`LoadBalancerAccounting`,
  `UnfoundNodes`, `EnsureBlindSpot`);
- at most one load balancer is created per service although annotation patches get lost and
  creates are misreported, and the same one is found ever after (`LoadBalancerIdentity`);
- repeated syncs of an unchanged cluster write the same set of backends and reach a fixpoint
  (`LoadBalancerFixpoint`), Let's Encrypt renewals included (`CertificateTracking`);
- held-back nodes do not shape the request, dual stack is sound, and the node-less build of
  the admission webhook is a sound weakening of the real one (`LoadBalancerRequests`);
- what forwarding-rule compilation produces, and exactly when the order of its protocol
  overrides matters (`ForwardingMeaning`).

**Firewall.** A cache, a remote store, a periodic sync and a queue worker. The main theorems:

- the comparison behind the skip decision is an equivalence, with an exact account of when it
  hides the order of rules (`Firewalls`, on top of `StableSorting`);
- a request opens exactly the traffic the services call for, and requests for permuted
  services and map orders are equal for the decision (`FirewallMeaning`);
- there are never two firewalls of the worker name, for every interleaving of single API calls
  and cache writes in which no cache write loses a firewall, and that condition is exact
  (`FirewallInterleaving`); it is enough that creates happen with no sync read pending and
  while the cache differs from the request, and without either half there are two
  (`FirewallCreates`); a sync followed by a reconcile converges (`FirewallRuns`);
- no wake-up is lost under any interleaving of worker, sync and service events
  (`FirewallQueue`), in a state machine whose uninterrupted steps are the controller's
  operations (`FirewallStepwise`).

**Form.** Loops and objects of the source are methods and classes (`LoadBalancers`,
`ServiceObject`, `FirewallManager`, `FirewallCache`, `FirewallController`, `WorkQueue`), each
proved against a specification function; lemmas and run theorems are about those functions.
API calls, clocks and listers are parameters: an `Env` or `Api` value says which calls of one
operation fail and what they answer, and the theorems hold for all such values.

**What the code does where one might expect otherwise.**

- `EnsureLoadBalancer` looks for initializing nodes before it annotates the real type
  (`cloud-controller-manager/do/loadbalancers.go:243-248`), `UpdateLoadBalancer` after; hence
  the condition in `EnsureNilAccountsIff`. The comment at the update's call names the reason.
- A node without a ProviderID may resolve to no droplet, and a match by address does not use
  its name up (`cloud-controller-manager/do/loadbalancers.go:964-966`). The code only logs such
  nodes, so an update can return nil with an empty backend set although the comments promise
  never to write one (`UpdateEmpties`; `NoBackendsIff` says when).
- A node without a ProviderID has no admitted status: its droplet is dropped when it is not
  ready (`UnidentifiedDropped`, `UnreadyDropped`).
- The health port is never 0, so the guard at
  `cloud-controller-manager/do/firewall_controller.go:335` never fires. An annotated health port
  is a map key by reference, so equal ones of two services are not merged.
- `printOutboundRule` omits the load balancer IDs that the comparison includes.
- The implicit 443 is added after the duplicate check, and annotated ports are narrowed to
  32 bits after it.

## Model

| member | source | states |
|---|---|---|
| `LoadBalancerRuns.NoFlapping` | cloud-controller-manager/do/loadbalancers.go:735-759 | Over every run of Ensure and Update calls, service edits and outside changes: a droplet once written to a load balancer stays among its backends as long as every sync still lists a node with its ProviderID that is usable by its addresses, whatever that node's readiness and taints. |
| `LoadBalancerRuns.StepKeepsBackend` | cloud-controller-manager/do/loadbalancers.go:380-416 | One event of such a run keeps the backend, whether the sync writes, creates, fails part way or touches another load balancer. |
| `LoadBalancerRuns.WriteKeepsBackend` | cloud-controller-manager/do/loadbalancers.go:1140-1221 | A write keeps every previously written droplet that has a listed node usable by address. |
| `LoadBalancerRuns.WriteKeepsBackendIff` | cloud-controller-manager/do/loadbalancers.go:735-759 | When all listed nodes have ProviderIDs, a write keeps a backend if and only if some listed node usable by its addresses carries its ID. |
| `LoadBalancerRuns.WriteKeepsBackendExactly` | cloud-controller-manager/do/loadbalancers.go:735-759 | For any nodes: a write keeps a backend if and only if a listed usable node carries its ID or the droplet scan finds it for the names of the usable serving nodes without a ProviderID. |
| `LoadBalancerRuns.UnidentifiedDropped` | cloud-controller-manager/do/loadbalancers.go:746-759 | A droplet known only by nodes without a ProviderID is dropped by the first write that finds none of them NodeReady and untainted: such nodes have no admitted status. |
| `UnfoundNodes.UnreadyDropped` | cloud-controller-manager/do/loadbalancers.go:746-759 | That happens: inputs on which a backend, whose node is listed and usable, is dropped because the node is not ready. |
| `LoadBalancerRuns.StrictFirstAdmission` | cloud-controller-manager/do/loadbalancers.go:746-759 | Over every run, a droplet that became a backend became one at an event: it was none before and is one right after, and that event is a sync listing a node that stands for it, is usable by its addresses, NodeReady and without the critical-components taint, or an outside change. |
| `LoadBalancerRuns.BuildAdmitsServing` | cloud-controller-manager/do/loadbalancers.go:1180-1210 | Every newly written droplet ID belongs to a listed node that is usable by its addresses, NodeReady and free of the taint. |
| `LoadBalancerRuns.SyncEffect` | cloud-controller-manager/do/loadbalancers.go:230-453 | What any Ensure or Update call can do: leave the store alone, overwrite exactly the load balancer it retrieved with what it built, or, only when none was found, append one; and it edits nothing of the service but the ID, type and certificate annotations, the first taking that load balancer's ID at most. |
| `LoadBalancerRuns.DisownedUntouched` | cloud-controller-manager/do/loadbalancers.go:230-238 | A sync of a service whose disown flag reads as true returns nil and touches nothing; one whose flag cannot be read fails and touches nothing. |
| `LoadBalancerRuns.DisownedRun` | cloud-controller-manager/do/loadbalancers.go:422-430 | Over every run whose syncs all see a disowned service, the load balancers, the service and the number of creates are what they would be without the syncs. |
| `LoadBalancerIdentity.AtMostOneCreated` | cloud-controller-manager/do/loadbalancers.go:248-282 | From a service without a recorded ID, every run creates at most one load balancer, however many patches are lost and creates reported as failed, if the name annotation is stable and outsiders neither delete the load balancer nor rename it before its ID is recorded. |
| `LoadBalancerIdentity.SameLoadBalancerForever` | cloud-controller-manager/do/loadbalancers.go:505-557 | Once the ID is recorded it never changes, nothing more is created, and lookups return the load balancer of that ID across renames. |
| `LoadBalancerIdentity.StepKeepsInv` | cloud-controller-manager/do/loadbalancers.go:491-557 | The invariant behind both: at most one was created, and if one was, or an ID is recorded, the lookup finds it. |
| `LoadBalancerIdentity.SyncKeepsFound` | cloud-controller-manager/do/loadbalancers.go:248-282 | A sync that can find the load balancer creates none, and it can be found afterwards whether or not the patch succeeded. |
| `LoadBalancerAccounting.UpdateNilAccounts` | cloud-controller-manager/do/loadbalancers.go:422-453 | When UpdateLoadBalancer returns nil for an owned service, each listed node has a droplet among those written, or is private by label without a usable address, or IPv6-only on an external load balancer, if and only if it is not a usable node without a ProviderID whose name no listed droplet carries. |
| `LoadBalancerAccounting.UpdateReturnsDueRetry` | cloud-controller-manager/do/loadbalancers.go:824-839 | When an update writes and the patch succeeds, it returns a 15s retry exactly if some left-out node awaits readiness, else a 5s retry exactly if some awaits an address, else nil. |
| `LoadBalancerAccounting.EnsureNilAccountsIff` | cloud-controller-manager/do/loadbalancers.go:243-297 | When EnsureLoadBalancer returns nil for an existing load balancer, that is active, and all nodes are accounted for if and only if every usable one has a droplet to find and not: the type was REGIONAL before the call, the load balancer is an external REGIONAL_NETWORK one, and a public-intent node has no external address. |
| `LoadBalancerAccounting.EnsureNilWritesAllIff` | cloud-controller-manager/do/loadbalancers.go:243-297 | The same by IDs alone: where each node names a droplet of its own, every ID is in the written list, or its node left out for good, if and only if no node was misjudged. |
| `LoadBalancerAccounting.AwaitingNotWritten` | cloud-controller-manager/do/loadbalancers.go:649-695 | After a nil Ensure the ID of a node that awaits its address is not in the written list, unless another listed node stands for it. |
| `LoadBalancerAccounting.EnsureNilAccounts` | cloud-controller-manager/do/loadbalancers.go:243-297 | When the annotated type already is the load balancer's, the accounting is that of UpdateLoadBalancer, node by node. |
| `LoadBalancerAccounting.CreateNilAccounts` | cloud-controller-manager/do/loadbalancers.go:268-297 | When Ensure creates the load balancer and returns nil, the same accounting holds, node by node. |
| `LoadBalancerAccounting.EnsureReturnsDueRetry` | cloud-controller-manager/do/loadbalancers.go:284-297 | For an active load balancer of the annotated type, a writing and patching Ensure returns exactly the due retry. |
| `LoadBalancerAccounting.EnsureByStatus` | cloud-controller-manager/do/loadbalancers.go:284-290 | A writing and patching Ensure returns a 15s retry for a new load balancer, a failure for any status but active, and nil only for an active one. |
| `LoadBalancerAccounting.CreateByStatus` | cloud-controller-manager/do/loadbalancers.go:272-290 | The same after a create, by the status the API reports; an error of the create is a failure. |
| `LoadBalancerAccounting.PrepareExactly` | cloud-controller-manager/do/loadbalancers.go:792-817 | The pending nodes are exactly those that await an address, and a 5s retry is returned exactly if there are some and no node is usable. |
| `LoadBalancerAccounting.UpdateNilRecords` | cloud-controller-manager/do/loadbalancers.go:150-159 | Nil means recorded: the API server holds the ID and type of the load balancer. |
| `LoadBalancerAccounting.EnsureNilRecords` | cloud-controller-manager/do/loadbalancers.go:248-282 | The same for Ensure, for the load balancer found or else created. |
| `LoadBalancerAccounting.PatchOutcome` | cloud-controller-manager/do/loadbalancers.go:150-159 | A patch is sent exactly if an annotation changed; a failed one stores nothing and turns the error into an aggregate that hides a retry. |
| `LoadBalancerAccounting.WritesTheRequest` | cloud-controller-manager/do/loadbalancers.go:402-414 | A successful update leaves the load balancer, under its ID and type, with the name, rules, stack and droplet IDs of the last build, and changes no other. |
| `LoadBalancerAccounting.CreatesTheRequest` | cloud-controller-manager/do/loadbalancers.go:268-282 | A create appends one load balancer with what the build asks for, or nothing. |
| `LoadBalancerAccounting.WriteAccounts` | cloud-controller-manager/do/loadbalancers.go:1140-1221 | After any successful build each node is written, left out for good, awaits readiness, awaits an address or has no droplet to find; an admitted one is written exactly if it has. |
| `LoadBalancerAccounting.AccountedIff` | cloud-controller-manager/do/loadbalancers.go:649-695 | A build that holds nothing back accounts for exactly the nodes that neither await an address nor have no droplet to find. |
| `EnsureBlindSpot.EnsureMissesNode` | cloud-controller-manager/do/loadbalancers.go:243-248 | The exception is real: a family of inputs where Ensure returns nil although the droplet ID of a public-intent node with only a private address is not in the written list, because pending nodes are computed before the real type is annotated. |
| `EnsureBlindSpot.LateNodeExists` | cloud-controller-manager/do/loadbalancers.go:243-248 | That family is not empty. |
| `UnfoundNodes.UpdateEmpties` | cloud-controller-manager/do/loadbalancers.go:973-984 | The other exception is real too: a family of inputs where UpdateLoadBalancer returns nil and has replaced the backends by none, because the only node has no ProviderID and no listed droplet carries its name. |
| `UnfoundNodes.FamiliesExist` | cloud-controller-manager/do/loadbalancers.go:973-984 | The families of both witnesses are not empty. |
| `LoadBalancerFixpoint.WriteIdempotent` | cloud-controller-manager/do/loadbalancers.go:380-416 | Under unchanged conditions a second successful update writes the same set of droplet IDs, including for nodes without a ProviderID. |
| `LoadBalancerFixpoint.ThirdUpdateSettled` | cloud-controller-manager/do/loadbalancers.go:380-416 | From the second update on nothing changes: load balancer, service and held-back nodes are a fixpoint. |
| `LoadBalancerFixpoint.UpdatesSettle` | cloud-controller-manager/do/loadbalancers.go:422-453 | The same for whole UpdateLoadBalancer calls, through lookup by ID, annotation and patch: the second writes the same set of IDs and the third returns the same error and changes nothing. |
| `LoadBalancerFixpoint.OneUpdateSettles` | cloud-controller-manager/do/loadbalancers.go:380-416 | Where the nodes name droplets of their own, one update settles: a second one succeeds and changes nothing. |
| `LoadBalancerFixpoint.OneCallSettles` | cloud-controller-manager/do/loadbalancers.go:422-453 | The same for whole UpdateLoadBalancer calls: the second returns the same error and changes nothing. |
| `LoadBalancerFixpoint.SameIds` | cloud-controller-manager/do/loadbalancers.go:926-985 | Admitting again with the written IDs as the admitted set resolves to the same set of IDs. |
| `LoadBalancerRequests.HeldBackCannotShape` | cloud-controller-manager/do/loadbalancers.go:1151-1210 | Whenever building succeeds, building from the admitted nodes alone gives the same request and holds nothing back. |
| `LoadBalancerRequests.SameAdmittedSameRequest` | cloud-controller-manager/do/loadbalancers.go:1180-1210 | Two node lists with the same admitted nodes give the same request. |
| `LoadBalancerRequests.BuildMeaning` | cloud-controller-manager/do/loadbalancers.go:1140-1221 | A successful build has an admitted node, its droplet IDs resolve exactly the admitted nodes, it reports exactly the held-back ones, and every other field comes from the service and the admitted nodes' state. |
| `LoadBalancerRequests.BuiltRegionalRules` | cloud-controller-manager/do/loadbalancers.go:1400-1420 | A REGIONAL_NETWORK request has one rule per port, from the port to the same port with the port's own protocol, without TLS. |
| `LoadBalancerRequests.BuildRefuses` | cloud-controller-manager/do/loadbalancers.go:1151-1196 | Exactly when a build is refused for its nodes: no eligible backends, no ready nodes, or a 15s retry when no usable node is admitted. |
| `LoadBalancerRequests.WrittenStandsFor` | cloud-controller-manager/do/loadbalancers.go:1180-1210 | Every written ID has a listed usable node that stands for it and was already admitted or is serving. |
| `LoadBalancerRequests.OneIdPerNode` | cloud-controller-manager/do/loadbalancers.go:1199-1210 | When all admitted nodes have ProviderIDs the droplet IDs are non-empty, one per admitted node. |
| `LoadBalancerRequests.NoBackendsIff` | cloud-controller-manager/do/loadbalancers.go:1188-1210 | Exactly when a successful build writes an empty backend set: no admitted node has a ProviderID and no listed droplet carries the name of one. |
| `LoadBalancerRequests.DualStackSound` | cloud-controller-manager/do/loadbalancers.go:1991-2070 | An external REGIONAL_NETWORK request is DUALSTACK only if every admitted node is dual-stack, without an annotation exactly then; an INTERNAL one never is; an external REGIONAL one is by default; a successful build honours the annotation. |
| `LoadBalancerRequests.StackExactly` | cloud-controller-manager/do/loadbalancers.go:1991-2070 | Which stack is chosen, and exactly when and with which error it is refused, by the annotation text, type, network and node state. |
| `LoadBalancerRequests.BugUnreachable` | cloud-controller-manager/do/loadbalancers.go:2051-2066 | The "BUG detected" error never occurs, for any service, type, network and node state. |
| `LoadBalancerRequests.AdmissionIsWeaker` | cloud-controller-manager/do/loadbalancers.go:990-1105 | If the node-aware build succeeds the node-less one does and agrees on every service-derived field except the network stack, which differs exactly for un-annotated external REGIONAL_NETWORK services whose admitted nodes are all dual-stack. |
| `LoadBalancerRequests.BuildLoadBalancerRequest` | cloud-controller-manager/do/loadbalancers.go:1140-1221 | The method computes the specified build: errors, request and held-back nodes. |
| `LoadBalancerSync.LoadBalancers.EnsureLoadBalancer` | cloud-controller-manager/do/loadbalancers.go:230-325 | Leaves the error, the stored service, the load balancers and the number of creates of the specification that the run theorems are about. |
| `LoadBalancerSync.LoadBalancers.UpdateLoadBalancer` | cloud-controller-manager/do/loadbalancers.go:422-453 | Likewise for updates, which never create. |
| `LoadBalancerSync.LoadBalancers.UpdateExisting` | cloud-controller-manager/do/loadbalancers.go:380-416 | Writes what was built after the certificate was followed; on any error the store is unchanged. |
| `LoadBalancerSync.LoadBalancers.RetrieveAndAnnotate` | cloud-controller-manager/do/loadbalancers.go:491-536 | Retrieves by ID if one is annotated, else the first by name, and annotates ID and type exactly on success. |
| `LoadBalancerSync.LoadBalancers.Prepare` | cloud-controller-manager/do/loadbalancers.go:792-817 | Returns the public-intent nodes without a usable address, and a 5s retry when no node is usable but some are pending. |
| `LoadBalancerSync.LoadBalancers.RecordUpdatedLetsEncryptCert` | cloud-controller-manager/do/loadbalancers.go:340-378 | Annotates the load balancer's certificate or leaves the service alone, as specified. |
| `LoadBalancerSync.LoadBalancers.EnsureOwned` | cloud-controller-manager/do/loadbalancers.go:240-325 | The body of Ensure before the deferred patch. |
| `LoadBalancerSync.LoadBalancers.EnsureFound` | cloud-controller-manager/do/loadbalancers.go:254-297 | Ensure on an existing load balancer: status decides before the retry does. |
| `LoadBalancerSync.LoadBalancers.CreateNew` | cloud-controller-manager/do/loadbalancers.go:268-282 | Creating: appended once, annotated only when the API reports it. |
| `LoadBalancerSync.LoadBalancers.UpdateOwned` | cloud-controller-manager/do/loadbalancers.go:433-453 | The body of Update before the deferred patch. |
| `LoadBalancerSync.ServiceObject.Patch` | cloud-controller-manager/do/loadbalancers.go:150-159 | Persists changed annotations or aggregates the patch failure with the error; unchanged annotations are not sent. |
| `LoadBalancerSync.ServiceObject.SetAnnotation` | cloud-controller-manager/do/loadbalancers.go:573-578 | Sets one annotation and changes nothing else. |
| `LoadBalancerSync.ById` | cloud-controller-manager/do/loadbalancers.go:526-536 | The load balancer of that ID, or none exists. |
| `NodeAdmission.EveryNodeOnce` | cloud-controller-manager/do/loadbalancers.go:649-774 | Conservation: as multisets, the node list is the admitted, held-back, initializing, private-only and IPv6-only nodes together. |
| `NodeAdmission.AdmittedStable` | cloud-controller-manager/do/loadbalancers.go:1180-1198 | Re-classifying and re-gating the admitted nodes filters nothing out. |
| `NodeAdmission.AdmittedMember` | cloud-controller-manager/do/loadbalancers.go:746-774 | Who is admitted, held back or initializing, node by node, in both directions. |
| `NodeAdmission.ClassifyNode` | cloud-controller-manager/do/loadbalancers.go:843-878 | The two address scans compute the class defined by which external, or failing any internal, addresses exist. |
| `NodeAdmission.FilterAndClassifyNodes` | cloud-controller-manager/do/loadbalancers.go:649-695 | The loop's lists and counts are the order-preserving filters of the node list by class. |
| `NodeAdmission.FilterByReadiness` | cloud-controller-manager/do/loadbalancers.go:746-759 | Order-preserving split into already admitted or serving nodes and the rest. |
| `NodeAdmission.IsServing` | cloud-controller-manager/do/loadbalancers.go:706-731 | True exactly if the first NodeReady condition is true and no taint is readiness.k8s.io/DOKSCriticalComponentsReady. |
| `NodeAdmission.ServingIff` | cloud-controller-manager/do/loadbalancers.go:706-731 | The gate used by all admission results is that condition on the node's own data. |
| `NodeAdmission.AdmittedExactly` | cloud-controller-manager/do/loadbalancers.go:746-759 | Who is admitted, by the node's own data: listed, usable by its addresses, and its droplet already written or the node ready and untainted. |
| `NodeAdmission.LbReadyIff` | cloud-controller-manager/do/loadbalancers.go:638-695 | Who is usable, by network, type and the addresses that exist. |
| `NodeAdmission.ClassifyCases` | cloud-controller-manager/do/loadbalancers.go:843-878 | The four classes by the addresses that exist, case by case. |
| `NodeAdmission.IntendsPublicIff` | cloud-controller-manager/do/loadbalancers.go:701-703 | Private exactly if the label is "private" in any letter case. |
| `NodeAdmission.NothingUncounted` | cloud-controller-manager/do/loadbalancers.go:649-695 | Every node is usable or counted as filtered. |
| `NodeAdmission.PendingInitNodes` | cloud-controller-manager/do/loadbalancers.go:765-774 | Order-preserving split by the private label, in any letter case. |
| `CertificateTracking.CertificateAgrees` | cloud-controller-manager/do/loadbalancers.go:380-416 | After a successful update every rule carries no certificate or the one the service now resolves to. |
| `CertificateTracking.CertificateFixpoint` | cloud-controller-manager/do/loadbalancers.go:327-416 | With the same certificates a second update leaves the annotations unchanged, whatever else changed and however it ends. |
| `CertificateTracking.RenewalKept` | cloud-controller-manager/do/loadbalancers.go:340-378 | A renewed Let's Encrypt certificate with the same name, or whose annotated predecessor is gone, is annotated and kept on the rules; otherwise the service is untouched and the rules carry the annotated certificate. |
| `CertificateTracking.RecordedExactly` | cloud-controller-manager/do/loadbalancers.go:340-378 | The annotation moves exactly for renewals. |
| `CertificateTracking.RecordingFailsIff` | cloud-controller-manager/do/loadbalancers.go:340-378 | Following renewals fails exactly if a certificate that has to be looked at cannot be fetched. |
| `ForwardingMeaning.RuleShape` | cloud-controller-manager/do/loadbalancers.go:1315-1398 | Rule i maps service port i to its NodePort; https and http2 rules have exactly one of certificate (target http) and pass-through (target equals entry), other rules neither; at most one HTTP3 rule follows, with the service's certificate and the NodePort of the port it names. |
| `ForwardingMeaning.EntryProtocols` | cloud-controller-manager/do/loadbalancers.go:1339-1385 | Which protocol the rule of each TCP port has, read off the http, https and http2 annotations, the implicit 443 and the default. |
| `ForwardingMeaning.RuleCertificates` | cloud-controller-manager/do/loadbalancers.go:1484-1505 | No rule carries a certificate other than the one the service resolves to. |
| `ForwardingMeaning.RulesFailOn` | cloud-controller-manager/do/loadbalancers.go:1422-1505 | Compilation fails on a port that is neither TCP nor UDP, and on a TCP port made secure without exactly one of certificate and pass-through. |
| `ForwardingMeaning.RulesOkIff` | cloud-controller-manager/do/loadbalancers.go:1315-1398 | Exactly when compilation succeeds: the settings can be read, every port is UDP, or TCP that if secure has exactly one of certificate and pass-through, and an annotated HTTP3 port comes with a certificate and without pass-through. |
| `ForwardingMeaning.Http3Present` | cloud-controller-manager/do/loadbalancers.go:1278-1311 | The HTTP3 rule is there exactly if a port is annotated and is a service port. |
| `ForwardingMeaning.PlanOkIff` | cloud-controller-manager/do/loadbalancers.go:1318-1349 | The settings can be read exactly if each can and no port is annotated twice. |
| `ForwardingMeaning.RegionalRulesExactly` | cloud-controller-manager/do/loadbalancers.go:1400-1420 | REGIONAL_NETWORK rules: one per port, port to same port with its own protocol and no TLS; fails exactly on a port that is neither TCP nor UDP. |
| `ForwardingMeaning.DefaultProtocolMeaning` | cloud-controller-manager/do/loadbalancers.go:1534-1547 | tcp unless annotated, and an error exactly for a text that is no protocol. |
| `ForwardingMeaning.CertificateMeaning` | cloud-controller-manager/do/loadbalancers.go:1782-1799 | The annotated ID wins, else the first certificate of the annotated name, which has to exist, else none. |
| `ForwardingMeaning.PassThroughMeaning` | cloud-controller-manager/do/loadbalancers.go:1803-1806 | Pass-through exactly for a text that reads as true. |
| `ForwardingMeaning.Http3PortMeaning` | cloud-controller-manager/do/loadbalancers.go:1714-1726 | No annotation means no HTTP3 port, a text that is no number an error. |
| `ForwardingMeaning.OverrideOrderIff` | cloud-controller-manager/do/loadbalancers.go:1355-1366 | The order of the overrides is irrelevant, for every port and default, if and only if no port is claimed twice. |
| `ForwardingMeaning.ClashIffImplicit443` | cloud-controller-manager/do/loadbalancers.go:1339-1366 | For annotated ports within int32 that pass the duplicate check, order matters exactly when 443 is added implicitly and the http annotation already lists it. |
| `ForwardingMeaning.NarrowingClash` | cloud-controller-manager/do/loadbalancers.go:1355-1366 | Beyond int32 two different annotated numbers can pass the duplicate check and claim the same port. |
| `ForwardingRules.BuildForwardingRules` | cloud-controller-manager/do/loadbalancers.go:1315-1398 | The loop computes the specified rules or fails as specified. |
| `ForwardingRules.BuildPortRules` | cloud-controller-manager/do/loadbalancers.go:1368-1385 | One rule per port in order, or failure. |
| `ForwardingRules.FindDups` | cloud-controller-manager/do/loadbalancers.go:2072-2090 | Reports exactly the numbers that occur more than once over all lists, none if and only if the lists have no duplicates. |
| `ForwardingRules.GetPorts` | cloud-controller-manager/do/loadbalancers.go:1735-1754 | Parses the comma-separated ports, or fails. |
| `ForwardingRules.BuildAll` | cloud-controller-manager/do/loadbalancers.go:1400-1420 | Succeeds if and only if every port's rule does, and then in order. |
| `Droplets.ProviderIDRoundTrip` | cloud-controller-manager/do/droplets.go:176-196 | The printed ProviderID parses back to the droplet ID, exactly for 64-bit IDs. |
| `Droplets.DropletIDIff` | cloud-controller-manager/do/droplets.go:176-196 | Exactly the texts "digitalocean://" and a number name a droplet. |
| `Droplets.MatchesIff` | cloud-controller-manager/do/common.go:130-158 | The texts a droplet is found by: its name, and with a private IPv4 address that one and any public ones. |
| `Droplets.NodesToDropletIDs` | cloud-controller-manager/do/loadbalancers.go:926-985 | The two passes compute the specified IDs; fails on a malformed ProviderID or, only if some node has none, on a failed listing. |
| `Droplets.DropletIDsMeaning` | cloud-controller-manager/do/loadbalancers.go:926-985 | Every ID belongs to a node, by ProviderID or by name or address; every ProviderID node is resolved; one to one when all have ProviderIDs. |
| `Droplets.NodesResolved` | cloud-controller-manager/do/loadbalancers.go:943-971 | Every node is resolved as far as the scan goes: by ProviderID, else by the first droplet of its name, else by every droplet with that address. |
| `Droplets.WrittenIffFindable` | cloud-controller-manager/do/loadbalancers.go:926-985 | A resolved ID stands for a node if and only if the node has a ProviderID or a listed droplet carries its name as name or address. |
| `Droplets.NoIdsIff` | cloud-controller-manager/do/loadbalancers.go:926-985 | No ID at all is resolved exactly when no node has a droplet to find. |
| `Droplets.IdentifyNodes` | cloud-controller-manager/do/loadbalancers.go:926-941 | IDs in node order and the names of nodes without a ProviderID. |
| `Droplets.DiscoverDroplets` | cloud-controller-manager/do/loadbalancers.go:952-971 | The scan in which a match by name uses the name up and a match by address does not. |
| `Paging.ListAll` | cloud-controller-manager/do/common.go:32-127 | Against a server whose links report the page and mark only page n last, the loop terminates and returns pages 1..n concatenated, and fails exactly when a page is unusable. |
| `Paging.FindFirst` | cloud-controller-manager/do/common.go:65-95 | Returns the first match of that concatenation or nothing; fails exactly when an unusable page precedes every match. |
| `Paging.UsualLinksServe` | cloud-controller-manager/do/common.go:32-63 | A server that links to the page before, except on the first, and to the next, except on the last, is one the loops can walk. |
| `Paging.FirstMatchIsFirst` | cloud-controller-manager/do/common.go:75-79 | The match returned is the first: nothing before it matches, and none is returned only if none does. |
| `Paging.FindInPage` | cloud-controller-manager/do/common.go:75-79 | The first match on a page. |
| `Lookup.FirewallByName` | cloud-controller-manager/do/firewall_controller.go:415-425 | The firewall lookup by name is the first match of the listing. |
| `Lookup.LoadBalancerByName` | cloud-controller-manager/do/loadbalancers.go:538-557 | The load balancer lookup by name or legacy name is the first match of the listing. |
| `Lookup.CertificateIsFirst` | cloud-controller-manager/do/loadbalancers.go:327-334 | The certificate of a load balancer is that of its first rule with one, empty if none has. |
| `Firewalls.Equivalence` | cloud-controller-manager/do/firewall_controller_diff.go:76-130 | The comparison is reflexive, symmetric and transitive, absent firewalls included. |
| `Firewalls.RulesEqualIffSameTies` | cloud-controller-manager/do/firewall_controller_diff.go:76-130 | Unconditionally: two rule lists compare equal exactly when, for every printed key, the normalized rules with that key read the same in order. |
| `Firewalls.RulesEqualIffSameBag` | cloud-controller-manager/do/firewall_controller_diff.go:76-130 | Where the key determines the compared fields, they compare equal exactly when the multisets of normalized rules agree. |
| `Firewalls.EqualIffSameBags` | cloud-controller-manager/do/firewall_controller_diff.go:76-130 | Whole firewalls whose keys determine the compared fields are equal exactly when names, ordered tags and the multisets of normalized inbound and outbound rules agree. |
| `Firewalls.OrderInsensitiveIff` | cloud-controller-manager/do/firewall_controller_print.go:65-107 | A rule list compares equal to all its permutations if and only if its printed key determines the compared fields. |
| `Firewalls.OutboundOrderMatters` | cloud-controller-manager/do/firewall_controller_print.go:94-107 | The condition can fail: outbound rules differing in load balancer IDs alone, which are compared but not printed. |
| `Firewalls.NormalDecides` | cloud-controller-manager/do/firewall_controller_diff.go:86-127 | Two rules compare equal exactly when their normal forms are the same, and normalizing does not change the printed key. |
| `Firewalls.RuleEqualIff` | cloud-controller-manager/do/firewall_controller_diff.go:86-127 | Field by field: two rules compare equal exactly if protocol and action agree, the port ranges are equal or both among "", "all" and "0", and the peers are both absent or agree in addresses and load balancer IDs. |
| `FirewallMeaning.OpensExactly` | cloud-controller-manager/do/firewall_controller.go:282-407 | A tcp or udp port is opened to 0.0.0.0/0 and ::/0, or to a load balancer, if and only if a service calls for it by its own data: nonzero node ports of NodePort services whose flag does not read as false, ports of external REGIONAL_NETWORK services, and their health port, to the load balancer alone once its ID is annotated. |
| `FirewallMeaning.RequestFrame` | cloud-controller-manager/do/firewall_controller.go:323-395 | Name, tags and outbound rules are the fixed ones, the inbound rules are sorted by protocol and port range, and there is no request exactly if a type or network annotation of a load balancer service has an unknown text. |
| `FirewallMeaning.RequestIgnoresOrder` | cloud-controller-manager/do/firewall_controller.go:282-395 | For any permutation of the services and any walk over the port map, one request is built if and only if the other is, and they are equal for the reconcile decision. |
| `FirewallMeaning.SkippedExactly` | cloud-controller-manager/do/firewall_controller.go:469-506 | Exactly when a reconcile is skipped: the firewall exists, has the request's name and ordered tags, and its rules are the request's up to order, "all"/""/"0" and ignored fields. |
| `FirewallMeaning.EchoSkipped` | cloud-controller-manager/do/firewall_controller_diff.go:76-130 | A firewall that is rule by rule the request, up to how all ports are written and to ignored fields, is skipped. |
| `FirewallMeaning.ZeroEchoSkipped` | cloud-controller-manager/do/firewall_controller_diff.go:93-112 | In particular with "0" for all ports, as the API answers. |
| `FirewallMeaning.GeneratedKeysDetermine` | cloud-controller-manager/do/firewall_controller_print.go:65-83 | Every generated request meets the condition under which rule order is hidden. |
| `FirewallMeaning.KeyOfGeneratedInjective` | cloud-controller-manager/do/firewall_controller_print.go:65-83 | The printed key of a generated rule determines protocol, port and source. |
| `FirewallMeaning.RequestRulesAreGenerated` | cloud-controller-manager/do/firewall_controller.go:282-395 | Every inbound rule of a request has one of the generated shapes. |
| `FirewallRequests.CreateReconciledFirewallRequest` | cloud-controller-manager/do/firewall_controller.go:282-395 | Fails exactly when a service's type or network annotation is invalid; else the inbound rules are, sorted by protocol and port, exactly the multiset the services call for, and name, tags and outbound rules are the fixed ones. |
| `FirewallRequests.CollectAll` | cloud-controller-manager/do/firewall_controller.go:282-368 | The pass over the services. |
| `FirewallRequests.CollectService` | cloud-controller-manager/do/firewall_controller.go:285-368 | One service: its node ports or its load balancer ports, or nothing. |
| `FirewallRequests.CollectNodePorts` | cloud-controller-manager/do/firewall_controller.go:286-322 | The rules of a managed NodePort service, as a multiset. |
| `FirewallRequests.CollectLoadBalancer` | cloud-controller-manager/do/firewall_controller.go:323-366 | The port keys of an external REGIONAL_NETWORK service; fails on an invalid type or network. |
| `FirewallRequests.RulesOfKeys` | cloud-controller-manager/do/firewall_controller.go:369-381 | Whatever order the map is walked in, the same multiset of rules. |
| `FirewallRequests.SortByPort` | cloud-controller-manager/do/firewall_controller.go:382-388 | Sorted by protocol and port, and a permutation. |
| `FirewallRequests.KeysMeaning` | cloud-controller-manager/do/firewall_controller.go:323-366 | The map ends up with one key per open port, deduplicated across services, and one per annotated health port of each service. |
| `Cluster.HealthCheckPort` | cloud-controller-manager/do/loadbalancers.go:1620-1628 | The health port is never 0, so the branch of the request builder for 0 is dead. |
| `AnnotationMeaning.HealthPortMeaning` | cloud-controller-manager/do/loadbalancers.go:1620-1628 | The node port allocated for local-traffic load balancers, else 10256. |
| `AnnotationMeaning.TypeMeaning` | cloud-controller-manager/do/loadbalancers.go:1960-1972 | The annotated type, the default without one, an error exactly for any other text. |
| `AnnotationMeaning.NetworkMeaning` | cloud-controller-manager/do/loadbalancers.go:1974-1983 | External unless annotated INTERNAL, an error exactly for any other text. |
| `AnnotationMeaning.NameMeaning` | cloud-controller-manager/do/loadbalancers.go:211-223 | The annotated name, else an "a" and the UID without dashes, cut to 32 characters. |
| `AnnotationMeaning.BoolMeaning` | cloud-controller-manager/do/loadbalancers.go:1952-1958 | Which texts of a flag read as true, as false, and as neither. |
| `FirewallControl.FirewallManager.GetFirewall` | cloud-controller-manager/do/firewall_controller.go:194-228 | By cached ID, else by name; the cache is updated exactly when the read succeeds. |
| `FirewallControl.FirewallManager.GetPreferCached` | cloud-controller-manager/do/firewall_controller.go:184-190 | The cached firewall if the cache is set, else the read. |
| `FirewallControl.FirewallManager.SetFirewall` | cloud-controller-manager/do/firewall_controller.go:235-265 | Updates by ID, creates when the ID is empty or gone, and caches the answer; a failure changes nothing. |
| `FirewallControl.FirewallManager.EnsureReconciled` | cloud-controller-manager/do/firewall_controller.go:469-506 | Skips exactly when the firewall compares equal to the request for the services, else sets it. |
| `FirewallControl.FirewallCache.Update` | cloud-controller-manager/do/firewall_controller_cache.go:41-51 | Contents that compare equal keep the cached copy with its ID; the cache is set either way. |
| `FirewallControl.FirewallController.SyncResource` | cloud-controller-manager/do/firewall_controller.go:538-562 | The cache takes the read and the key is queued, exactly when the read succeeds. |
| `FirewallControl.FirewallController.ProcessNextItem` | cloud-controller-manager/do/firewall_controller.go:158-179 | A taken item is reconciled, re-added with a delay exactly on failure, and released. |
| `FirewallInterleaving.NeverTwoFirewalls` | cloud-controller-manager/do/firewall_controller.go:158-265 | For every interleaving of the single API calls and cache writes of worker and sync with service events, timers, restarts and outside edits or deletions: as long as no cache write loses a firewall, the store never holds two of the worker name, and but for the moment between the answer to a Set and its cache write, a cached ID is that of the one that exists. |
| `FirewallInterleaving.CarefulIff` | cloud-controller-manager/do/firewall_controller_cache.go:41-51 | The condition is exact: a cache write keeps the invariant if and only if neither what it keeps because it compares equal nor what it writes misses the firewall that exists. |
| `FirewallInterleaving.LostMakesTwoIff` | cloud-controller-manager/do/firewall_controller.go:235-265 | And it is necessary: from a cache, a reconcile that has something to do and whose calls work leaves two firewalls if and only if the cache misses the one that exists. |
| `FirewallInterleaving.StepKeepsWorldInv` | cloud-controller-manager/do/firewall_controller.go:158-265 | Each step keeps the invariant: what the worker holds in hand is a true view of the store, and so is the cache unless an answer is yet to be written. |
| `FirewallInterleaving.QuietWorld` | cloud-controller-manager/do/firewall_controller.go:113-179 | When all is quiet after an item was processed, the cache equals the request for the current services, and a firewall of the name, of which there is at most one, has the cached ID. |
| `FirewallCreates.NeverTwoWithCleanCreates` | cloud-controller-manager/do/firewall_controller.go:194-265 | A condition on creates suffices: there are never two in any interleaving whose creates happen with no sync read pending and while the cache differs from the request; all else is harmless at any moment. |
| `FirewallCreates.StepKeepsClean` | cloud-controller-manager/do/firewall_controller.go:194-265 | Under that condition no cache write loses a firewall, step by step. |
| `FirewallCreates.KeptIdMakesTwo` | cloud-controller-manager/do/firewall_controller_cache.go:41-51 | The second half matters: edited to the request, synced, deleted and created anew between decision and Set, a firewall is cached under its dead ID because the contents compare equal, and the next request is created a second time. |
| `FirewallRuns.SerializedNeverTwo` | cloud-controller-manager/do/firewall_controller.go:184-265 | In every serialized run of syncs, reconciles, restarts and outside edits or deletions the store never holds two firewalls of the worker name, and a cached ID is the ID of the one that exists. |
| `FirewallRuns.StepKeepsInv` | cloud-controller-manager/do/firewall_controller.go:469-506 | Each event keeps the invariant behind it. |
| `FirewallRuns.SetKeepsInv` | cloud-controller-manager/do/firewall_controller.go:235-265 | Setting keeps the invariant and converges: since the comparison is an equivalence, a re-created firewall's ID always replaces the stale one. |
| `FirewallRuns.SyncThenReconcileConverges` | cloud-controller-manager/do/firewall_controller.go:469-562 | A successful sync and then a successful reconcile leave exactly one firewall of the name, equal to the request; a skipped one changes nothing. |
| `FirewallRuns.ConvergedIsStable` | cloud-controller-manager/do/firewall_controller.go:469-506 | Once converged, reconciling the same services in any order is skipped. |
| `FirewallRuns.StaleReadMakesTwo` | cloud-controller-manager/do/firewall_controller.go:194-228 | The first half matters: a sync read that is cached only after a create leads to a second firewall. |
| `FirewallQueue.NoLostWakeup` | cloud-controller-manager/do/firewall_controller.go:113-179 | For every interleaving of worker steps, sync steps, timers and service events: once an item was processed, if the key is not queued, processing or delayed, all events are delivered and no sync lies between cache write and queue add, the cache equals the request for the current services. |
| `FirewallQueue.StepKeepsInv` | cloud-controller-manager/do/firewall_controller.go:469-562 | The invariant of that state machine: a stale worker or cache always leaves the key dirty, an event undelivered, a sync about to add, or a retry delayed. |
| `FirewallStepwise.WorkerSteps` | cloud-controller-manager/do/firewall_controller.go:158-179 | The worker steps of these state machines, uninterrupted, leave exactly what processing an item leaves: cache, cloud, delay, flags and everything else. |
| `FirewallStepwise.SyncSteps` | cloud-controller-manager/do/firewall_controller.go:538-562 | Its three sync steps, uninterrupted, leave exactly what a sync leaves. |
| `FirewallStepwise.Settles` | cloud-controller-manager/do/firewall_controller.go:158-179 | Progress: whenever worker and sync rest and an event, a timer or a queued key is pending, delivering it all and processing one item with the API working leaves the queue quiet and the cloud as one reconcile leaves it. |
| `StableSorting.SameSortIffSameTies` | cloud-controller-manager/do/firewall_controller_diff.go:78-83 | Two lists sort stably to the same result exactly when every group of ties reads the same in both. |
| `Text.AtoiOfItoa` | cloud-controller-manager/do/droplets.go:176-196 | Printing and parsing are inverse on 64-bit integers and parsing fails beyond. |
| `Text.AtoiUnsigned` | cloud-controller-manager/do/droplets.go:176-196 | A text without sign is a number exactly if it is digits, at least one, within 64 bits. |
| `Text.AtoiSigned` | cloud-controller-manager/do/droplets.go:176-196 | The same after one sign. |
| `Text.SplitIsAtCommas` | cloud-controller-manager/do/loadbalancers.go:1735-1754 | Splitting is the inverse of joining with commas, and no piece has one. |
| `Text.LexLeqIff` | cloud-controller-manager/do/firewall_controller.go:382-388 | The text order: a prefix, or smaller where they first differ. |

## Left out

- HTTP servers, metrics, health endpoints, environment parsing and start-up: plumbing without modelled state.
- Log messages, Prometheus wrappers and Kubernetes events: no effect on the modelled state.
- Patch generation: a patch succeeds and stores the annotations, or fails and stores nothing.
- Work queue and informer internals: modelled are deduplication by key, re-queueing when dirty during processing, delayed re-adds and undelivered events; shutdown is not.
- Single-annotation getters (health check numbers, algorithm, size, sticky sessions, proxy protocol, redirects, firewall ranges, subnet): any function `settingsOf` of the service that may fail; a failure is reported after the forwarding rules rather than between them.
- Error texts: errors are distinguished only where the code or its callers do.
- The fixed IP sent on create, the ingress status returned by EnsureLoadBalancer, GetLoadBalancer and EnsureLoadBalancerDeleted.
- Admission response mapping and tag synchronisation.
- IP and CIDR parsing: whether an address is IPv6 is part of the address.
- Letter case outside ASCII in the network-type label.
- Instance metadata, existence and shutdown checks of droplets beyond the ProviderID they report.
- Nil versus empty slices, which the comparison equates too.
- Paging.FindFirst: a missing response is a failure, where the source would dereference it; page links that do not follow the server's numbering are excluded by its `requires`.
- API behaviour assumed: updates store the droplet IDs, rules, name and stack sent and keep ID and type; failed calls have no effect, except creates of load balancers, which may take effect and be reported as failed; new IDs are fresh where a theorem says so; the firewall API echoes requests up to what the comparison ignores.
- FirewallInterleaving.NeverTwoFirewalls: excludes cache writes that lose a firewall, because with one the property is false (FirewallInterleaving.LostMakesTwoIff); the lookups by ID and by name of one read, and the update and create of one Set, are single steps.
- LoadBalancerRuns.NoFlapping: for nodes with a ProviderID, because a node without one has no admitted status in the code (LoadBalancerRuns.UnidentifiedDropped).
- Calls of one service are serialized, as the service controller does; two controllers at work on one service are not modelled.
