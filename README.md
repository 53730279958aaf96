# Kademlia DHT node: configuration and connection-event membership

This project models two sequential pieces of a Kademlia DHT node (a fork of
go-libp2p-kad-dht) and proves properties of the model.

- `options.dfy`, module `DhtOptions`: how the node's `config` record is built.
  The option setters are a datatype `Option`, one constructor per setter. The
  prepended `defaults` option is the constructor `Defaults`. `apply` folds the
  options over the record, stopping at the first failure and naming its index.
  `applyFallbacks` completes the default namespaced validator with `"pk"` and
  `"ipns"` entries, unless the user replaced the validator. `validate` enforces
  the rules of the reserved `/ipfs` protocol prefix. The pure functions
  `RunOption`, `FoldOptions`, `Fallbacks` and `Validate` specify the
  behaviour. The class `Config` holds the same fields and updates them in place.
  Its methods are proved against those functions.
- `notif.dfy`, module `Notif`: the network notifiee. `Connected`,
  `testConnection` and `Disconnected` keep the routing table in line with
  connect and disconnect events. The pure functions `AdmitStep`,
  `ConnectedStep`, `ProbeStep` and `DisconnectedStep` give each handler's
  effect on the state value `Membership`. That value holds the routing table,
  the peerstore's protocol cache, the protected peers and the refresh channel's
  pending count. The class `Dht` holds the same state plus the stream map of
  `MessageSender` objects. Its handler methods are proved against the step
  functions. Whether the node is closing and which peers are connected are
  inputs to each handler.

## Model

| member | source | states |
|---|---|---|
| DhtOptions.RunOption | dht_options.go:195-498 | running one option fails exactly when it is `NamespacedValidator` and the validator is not a namespace table, with that error; `Validator` sets the validator and marks it changed; `NamespacedValidator` sets key `ns` to `v`, keeps every other entry and leaves the changed flag; `BucketSize` sets the bucket size; `ProtocolPrefix` sets the prefix and `ProtocolExtension` appends to it; `DisableProviders`, `DisableValues` and `DisableAutoRefresh` switch their flag off; `ProtectedBuckets` sets the deepest protected bucket and `EnableProtectAllBuckets` turns protection of all buckets on |
| DhtOptions.RunOptionSets | dht_options.go:236-498 | every remaining setter succeeds and stores its argument: `Mode` the mode, `Concurrency` the concurrency, `Resiliency` the resiliency, `MaxRecordAge` the record age, `QueryFilter` the query filter, `RoutingTableFilter` the table's peer filter, the three routing-table durations their latency tolerance, refresh-query timeout and refresh interval, and `V1CompatibleMode` the v1-compatible flag; `EnableConsiderLatency` turns latency consideration on |
| DhtOptions.RunOptionFrame | dht_options.go:195-498 | a successful option leaves every field it does not write as it was |
| DhtOptions.FoldOptions | dht_options.go:84-91 | a failing `apply` reports an index inside the option list, and the cause is the namespaced-validator error |
| DhtOptions.FirstFailure | dht_options.go:84-91 | `apply` reports index `i` if and only if options `0..i-1` all succeed and option `i` fails; the config then holds only the effect of options `0..i-1`, so later options never run |
| DhtOptions.PassPrefix | dht_options.go:84-91 | a fold that succeeds on a prefix of the options also succeeded on every shorter prefix |
| DhtOptions.AllRan | dht_options.go:85-90 | when `apply` succeeds, every option ran in order, each on the state its predecessors left |
| DhtOptions.LastWriterWins | dht_options.go:85-90 | when `apply` succeeds, a field that no later option writes keeps the value option `k` gave it: the last setter of a field wins |
| DhtOptions.UntouchedField | dht_options.go:84-91 | a field that no option writes is unchanged, whether `apply` succeeds or fails |
| DhtOptions.LastBucketSizeWins | dht_options.go:305-310 | after a successful `apply`, the bucket size is the one given by the last `BucketSize` option |
| DhtOptions.WithDefaultNamespaces | dht_options.go:98-104 | afterwards `"pk"` and `"ipns"` are present; existing entries, including user-supplied `"pk"`/`"ipns"`, are not overwritten; missing ones become the public-key and IPNS validators; no other key is added |
| DhtOptions.Fallbacks | dht_options.go:95-110 | fails exactly when the validator is unmarked and not a namespace table; a marked validator leaves the config unchanged; otherwise only the validator changes, to the completed table |
| DhtOptions.Validate | dht_options.go:158-193 | any prefix other than `/ipfs` passes; under `/ipfs` a bucket size other than 20 fails with the bucket-size error, and disabled providers, disabled values or a validator that is not a namespace table fail |
| DhtOptions.ValidateIff | dht_options.go:158-193 | validation passes if and only if the prefix is not `/ipfs` or the config has bucket size 20, providers and values enabled and a namespace table of exactly `"pk"` (public-key validator) and `"ipns"` (IPNS validator) |
| DhtOptions.DefaultTableValidation | dht_options.go:172-192 | under the defaults, a table whose size is not two fails with the entry-count error, and validation passes if and only if the table is exactly the default two entries |
| DhtOptions.Construct | dht_options.go:117-193 | the defaults, then the options, then the fallbacks, then validation: a construction that passes under the `/ipfs` prefix has bucket size 20 |
| DhtOptions.ConstructEnforcesReservedNamespace | dht_options.go:95-193 | construction passes if and only if `apply` and the fallbacks succeed and the completed config uses a prefix other than `/ipfs` or has bucket size 20, providers and values enabled and exactly the `"pk"` public-key and `"ipns"` IPNS entries |
| DhtOptions.DefaultsOf | dht_options.go:119-156 | the defaults start an empty namespace table under `/ipfs` with bucket size 20, providers, values and auto-refresh on, set concurrency 10, resiliency 3, record age 36 hours, protect-all off, protected-bucket depth 1, consider-latency off, v1-compatible mode on, accept-all query and peer filters, a latency tolerance and refresh-query timeout of one minute and a refresh interval of ten minutes, and leave the mode and the changed-validator flag alone; once completed with `"pk"` and `"ipns"` the result meets the reserved-namespace rules |
| DhtOptions.DefaultsAreValid | dht_options.go:119-156 | the defaults alone, with their fallbacks, pass validation |
| DhtOptions.ReservedPrefixRejectsBucketSize | dht_options.go:162-164 | under the default prefix, any bucket size other than 20 is rejected |
| DhtOptions.ReservedPrefixNeedsProviders | dht_options.go:165-167 | under the default prefix, `DisableProviders` makes construction fail with the providers error |
| DhtOptions.ReservedPrefixNeedsValues | dht_options.go:168-170 | under the default prefix, `DisableValues` makes construction fail with the values error |
| DhtOptions.ExtraNamespaceNeedsOwnPrefix | dht_options.go:271-280 | adding a namespace other than `"pk"` or `"ipns"` to the defaults passes `apply` but fails validation under `/ipfs`, because the table then has three entries |
| DhtOptions.ThreeNamespacesRejected | dht_options.go:176-178 | a default table completed with one extra namespace fails the exactly-two-entries rule |
| DhtOptions.PkOverrideKeptUnderOwnPrefix | dht_options.go:95-104 | under a custom prefix, `NamespacedValidator("pk", v)` without `Validator` is accepted and the fallbacks keep the user's `"pk"` entry |
| DhtOptions.Config.constructor | dht_options.go:44-78 | a fresh config holds Go's zero values |
| DhtOptions.Config.ApplyDefaults | dht_options.go:119-156 | the in-place defaults leave the config equal to the defaults applied to the old value |
| DhtOptions.Config.ApplyOption | dht_options.go:195-498 | one option closure in place: the new config, or the error with the config untouched, is what `RunOption` gives |
| DhtOptions.Config.Apply | dht_options.go:84-91 | the loop leaves the config and returns the outcome that `FoldOptions` gives for the old config |
| DhtOptions.Config.ApplyFallbacks | dht_options.go:95-110 | the in-place fallback step agrees with `Fallbacks`; on failure nothing changes |
| Notif.SupportsDht | notif.go:35-36 | a peer absent from the peerstore, with no known protocols, or facing an empty protocol list has no cached support |
| Notif.SupportsDhtWitness | notif.go:35-36 | cached support holds if and only if the peerstore lists at least one of the node's protocols for the peer |
| Notif.WantsRefresh | notif.go:43-45 | a refresh is wanted only with auto-refresh on and a table no larger than the threshold; an empty table wants one exactly when auto-refresh is on |
| Notif.Sparse | notif.go:121 | the table is sparse when its size after removing `p` (one less if `p` was a member) is below the threshold |
| Notif.Signal | notif.go:45-50 | a non-blocking send adds a pending signal only when the slot is empty, and otherwise drops it |
| Notif.SignalsCoalesce | notif.go:45-50 | from a slot holding at most one signal, any number of sends leaves exactly one pending once at least one was sent |
| Notif.AddProtocol | notif.go:81 | the peer's known protocols become the old ones plus the negotiated one; every other peer's entry is kept |
| Notif.AdmitStep | notif.go:40-51 | a peer no longer connected changes nothing; otherwise it joins the table; a refresh is signalled exactly when auto-refresh is on, the table size before the update is at most the threshold and the slot is free; the slot never exceeds one; peerstore and protected peers are unchanged |
| Notif.ConnectedStep | notif.go:26-59 | when closing, without cached support, or when `p` is no longer connected, nothing changes; otherwise `p` joins and no member leaves; the peerstore and protected peers are unchanged; a refresh is signalled exactly when not closing, `p` has cached support and is connected, auto-refresh is on, the table was at most the threshold and the slot was free; otherwise the slot keeps its value, and it never exceeds one |
| Notif.ProbeStep | notif.go:61-98 | a stream-open or negotiation failure changes nothing; a selected protocol is added to `p`'s peerstore entry, giving it cached support; `p`, and no other peer, then joins if and only if it is still connected; protected peers are unchanged; the refresh rule is the one of the connect handler: the slot grows by one exactly then, otherwise keeps its value, and never exceeds one |
| Notif.Readmitted | notif.go:123-129 | the peers taken back are the connected peers with cached support, and no others |
| Notif.DisconnectedStep | notif.go:100-130 | when closing or when `p` is still connected, nothing changes; otherwise `p` leaves the table and the protected set; if the table is then below the threshold, exactly the connected peers with cached support are added; the peerstore and the refresh slot are never touched |
| Notif.RunKeepsOneRefresh | notif.go:45-50 | under any sequence of connect, probe and disconnect events, the refresh slot holds at most one signal |
| Notif.RunAdmitsOnlySupporting | notif.go:35-44 | under any sequence of events, every routing-table member has cached protocol support, if that held at the start |
| Notif.StepAdmitsOnlySupporting | notif.go:35-44 | one event keeps every routing-table member supported by the cache |
| Notif.DisconnectRestoresConnectivity | notif.go:114-120 | if every member was connected before `p` dropped, after `p`'s disconnect every member is connected |
| Notif.AdmissionKeepsConnectivity | notif.go:42-44 | connects and probes admit only connected peers |
| Notif.StaleConnectAfterDisconnect | notif.go:83-97 | a connect or a probe handled after the disconnect of a peer that is gone does not bring it back |
| Notif.StaleDisconnectKeepsPeer | notif.go:110-117 | a disconnect handled while the peer is connected again does not remove it |
| Notif.ProbeThenConnectFastPath | notif.go:34-36 | after a probe negotiated a protocol, the next connect of that peer needs no probe and admits the peer if it is connected |
| Notif.DisconnectIdempotent | notif.go:100-130 | handling the same disconnect twice has the effect of handling it once |
| Notif.SparseRecovery | notif.go:121-130 | after a disconnect that leaves the table sparse, every connected peer with cached support is a member, and every newcomer is such a peer |
| Notif.Dht.Admit | notif.go:86-97 | the locked admission in place agrees with `AdmitStep` |
| Notif.Dht.Connected | notif.go:26-59 | the handler in place agrees with `ConnectedStep`, and it dispatches a probe exactly when not closing and without cached support |
| Notif.Dht.TestConnection | notif.go:61-98 | the probe in place agrees with `ProbeStep` |
| Notif.Dht.ReadmitConnected | notif.go:123-129 | the loop over the connected peers adds exactly the readmitted set |
| Notif.Dht.Forget | notif.go:119-130 | removal, unprotection and sparse readmission in place agree with `DisconnectedStep` |
| Notif.MessageSender.Invalidate | notif.go:144 | the sender is marked invalidated |
| Notif.Dht.DropSender | notif.go:132-145 | the peer's stream-map entry, if present, is removed and its sender invalidated |
| Notif.Dht.Disconnected | notif.go:100-146 | the handler in place agrees with `DisconnectedStep`; it removes only `p`'s stream-map entry and only when it acted; the removed sender is invalidated; every remaining sender keeps its flag |

## Left out

- Goroutines and locks (`go nn.testConnection`, `plk`, `smlk`, `ms.lk`, the asynchronous invalidation) are left out. Each handler is one atomic step. The probe is a separate step whose outcome is an input. The sender is invalidated at once.
- Stream I/O (`NewStream`, multistream `SelectOneOf`, `FullClose`) becomes the `ProbeOutcome` input: the stream fails to open, negotiation fails, or a protocol is selected.
- `dht.Update` is modelled as set insertion and `routingTable.Remove` as set removal. Bucket capacity, eviction and peer filters are not modelled, so an admitted peer always joins the table.
- `ConnManager().Unprotect` is modelled as removal from a protected-peer set. The protection policy that adds peers to it, which `dht.Update` may apply, is not part of this model. So admission leaves the protected set unchanged only in this model.
- The peerstore is modelled as a map from peer to known protocols. An error from `SupportsProtocols` is treated like an empty answer, as the source does.
- The consumer of the refresh channel (`triggerRtRefresh`), the refresh manager, is not part of this model. Nothing drains the pending slot, so once one refresh is pending no later connect or probe adds another.
- `minRTRefreshThreshold`, `autoRefresh` and the DHT's protocol list are parameters (`Params`). The threshold's value is not part of this model.
- The routine that creates stream-map entries (`messageSenderForPeer`) is not part of this model. The map is only read and shrunk here.
- The no-op notifiees `OpenedStream`, `ClosedStream`, `Listen` and `ListenClose` have no effect to model.
- The floating-point fields `avgBitsImprovedPerStep` and `avgRoundTripPerStep`, including `math.Log2` in the defaults, are left out. Their setters are kept as options that change no modelled field, so option indices stay faithful.
- The datastore, `providersOptions` and `bootstrapPeers` payloads are foreign library handles. Their setters are kept as options that change no modelled field.
- Query and routing-table filters are named by tags (`FilterRef`), not functions. Validators are opaque kinds (`ValidatorKind`). The IPNS validator's key book is dropped.
- Go maps are reference values, and `NamespacedValidator` writes into the table in place. The model treats the table as a value, so aliasing a map the caller still holds is not captured. A write into a nil namespace table, which panics in Go, is not modelled either.
- `defaultProtectedBuckets` is defined outside the modelled files. The model takes the value 1 stated by the `ProtectedBuckets` doc comment (dht_options.go:429).
- `Construct` follows the order the DHT constructor uses: defaults, then options, then fallbacks, then validation. The constructor itself is not part of this model.
- DhtOptions.Construct: its own contract states only that a passing `/ipfs` construction has bucket size 20; the full if-and-only-if is `ConstructEnforcesReservedNamespace`.
- DhtOptions.Validate: its own contract states only the failing directions; the full if-and-only-if is `ValidateIff`.

## Notes

The doc comment of `NamespacedValidator` (dht_options.go:265-266) says the `"pk"` and `"ipns"` namespaces cannot be overridden without a new `Validator`. The code does let the user's entry stand, and the fallbacks keep it. Under `/ipfs`, validation then rejects it unless it is the right kind. The model follows the code (`PkOverrideKeptUnderOwnPrefix`).
