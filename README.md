# Machine scope of the IONOS Cloud Cluster API provider

This project models the machine scope of the IONOS Cloud infrastructure
provider for Cluster API (`scope/machine.go`). A machine scope is built once
per reconciliation of an `IonosCloudMachine`. It bundles the Cluster API
`Machine`, the `IonosCloudMachine`, the owning cluster scope and a resource
store client. The reconciler uses it to:

- look up the bootstrap data secret;
- read the data center ID;
- set the provider ID;
- count the machines listed for the cluster, this one included;
- pick the latest sibling machine;
- tell whether the machine has failed.

The model is written in Dafny in four modules:

- `Api` (`api.dfy`) holds the objects, reduced to the fields the scope uses, and the errors. Go pointers that may be nil are `Option` values.
- `Store` (`store.dfy`) holds the resource store client at its interface boundary. It is a map of the secrets the store holds and a map of the errors it answers for some keys. A ghost log of every key it was asked for lets contracts say how many lookups an operation performs.
- `Selection` (`selection.dfy`) holds the scan behind `FindLatestMachine` as functions over the listed machines. Its lemmas characterise the answer without reference to the scan.
- `Scope` (`machine.dfy`) holds the scope itself: the class `Machine` and the method `NewMachine` that builds it. `SetProviderID` updates the `IonosCloudMachine` field in place. `FindLatestMachine` is a loop proved against `Selection.LatestSibling`.

The cluster scope's `ListMachines` lives in a file that is not part of this model. Operations that list machines take the `(machines, err)` pair it returned as a parameter (`MachineList`). Creation timestamps are integers in whole seconds. "Before" is strict `<`, as `metav1.Time.Before` is on two non-nil times.

The doc comment of `FindLatestMachine` (scope/machine.go:133-137) says that nil is returned when no machine was found, or when the receiver is the only machine in the list. The code returns nil in more cases, and the model follows the code:

- It returns nil for any list of at most one machine (147-149), even when that one machine is not the receiver.
- It returns nil when the receiver is first in the list and newer than every sibling (151-159), although siblings exist. `Selection.NewestReceiverFirstYieldsNil` proves this.

`HasFailed` tests the failure reason and message pointers for nil (167), not for emptiness.

## Model

| member | source | states |
|---|---|---|
| `Scope.NewMachine` | scope/machine.go:57-82 | Checks the client, Machine, IonosCloudMachine and cluster scope for nil, in that order, and returns the first one missing as an error. A patch helper failure is wrapped. On success the scope's fields are exactly the inputs, and the patch helper holds a copy of the IonosCloudMachine. |
| `Scope.Machine.BootstrapDataSecretKey` | scope/machine.go:87-94 | NoBootstrapData exactly when the secret name is nil or empty. Otherwise the key is that name in the IonosCloudMachine's namespace. |
| `Scope.Machine.GetBootstrapDataSecret` | scope/machine.go:86-105 | Without a secret name: NoBootstrapData and no lookup. Otherwise exactly one lookup of that key; the store's secret or its error, whichever it is, is returned unchanged. |
| `Store.Client.Get` | scope/machine.go:100-103 | One lookup is logged. The result is the store's error for the key if it has one, else the stored secret, else NotFound. |
| `Scope.Machine.DatacenterID` | scope/machine.go:109-111 | Returns the data center ID of the IonosCloudMachine's spec. |
| `Scope.Machine.SetProviderID` | scope/machine.go:114-116 | Afterwards the provider ID is present and equals `"ionos://" + id`. Metadata, status, the data center ID and HasFailed are unchanged, and whether the record still has the identity the patch helper copied is unchanged. |
| `Scope.Machine.CountMachines` | scope/machine.go:120-123 | Returns the length of the listed machines, with the listing's error passed through unchanged. |
| `Scope.Machine.FindLatestMachine` | scope/machine.go:138-162 | A listing error is returned with nil. Otherwise the result equals `Selection.LatestSibling`: nil for at most one machine, and a non-nil result is a listed machine other than the receiver and the latest sibling there. For two or more machines the result is nil exactly when the first machine is the receiver and every other sibling is strictly older. |
| `Scope.Machine.HasFailed` | scope/machine.go:165-168 | True exactly when the failure reason or the failure message is set. |
| `Selection.CandidateAfter` | scope/machine.go:151-156 | The scan's candidate after any prefix of the list is a valid index. It is the seed, or an element already visited. |
| `Selection.CandidateAfterInvariant` | scope/machine.go:151-156 | After every prefix, the candidate is still the seed and every sibling seen is older than it. Otherwise it is the last newest sibling seen, and not older than the seed. |
| `Selection.ShortListHasNoSibling` | scope/machine.go:147-149 | A list of zero or one machine yields nil. |
| `Selection.LatestSiblingSound` | scope/machine.go:151-161 | A non-nil answer is a list element at an index that is a latest sibling. It is not the receiver, no sibling is newer, and every later sibling is strictly older. |
| `Selection.LatestSiblingNoneIff` | scope/machine.go:151-159 | For two or more machines: nil if and only if the first machine is the receiver and every other sibling is strictly older than it. |
| `Selection.FirstNotReceiverFindsSibling` | scope/machine.go:151-159 | For two or more machines whose first is not the receiver, the answer is non-nil. |
| `Selection.LatestSiblingUnique` | scope/machine.go:153-154 | At most one index is a latest sibling, so the last-wins tie-break determines the answer. |
| `Selection.LatestSiblingComplete` | scope/machine.go:151-161 | A latest sibling is the answer whenever the first machine is not the receiver, or the sibling is not older than the first machine. |
| `Selection.TieGoesToLaterSibling` | scope/machine.go:153-154 | Two siblings created in the same second: the later one in the list is returned. |
| `Selection.NewestReceiverFirstYieldsNil` | scope/machine.go:147-159 | The receiver first in the list and newer than every sibling: nil, although siblings exist. |

## Left out

- `PatchObject` (scope/machine.go:172-190): the Ready summary condition and the diff and patch come from Cluster API's `conditions` and `patch` libraries, which are not part of this model. The 10-second deadline is runtime plumbing.
- `Finalize` (scope/machine.go:195-204): a retry with client-go's default backoff around `PatchObject`. The retry loop and its sleeps belong to client-go, which is not part of this model.
- `ListMachines` (scope/machine.go:126-131): a pass-through to the cluster scope, which is not part of this model. Its result is the `MachineList` parameter of `CountMachines` and `FindLatestMachine`.
- `NewMachine`: whether `patch.NewHelper` fails is decided inside the patch library. It is the parameter `newHelperErr`, and the helper is reduced to its copy of the IonosCloudMachine.
- The store's errors are values of `ScopeError` chosen per key; what makes the API server fail (network, permissions, cancellation) is not modelled.
- The scope holds the IonosCloudMachine as a value. In the source it is a pointer shared with the reconciler, so the reconciler sees `SetProviderID`'s change through its own pointer. That aliasing is not modelled.
- Logging (scope/machine.go:96-98), `context` handling and concurrency against the API server are left out. So are the fields of the objects that the scope does not read.
- Wording of the Go error messages: each error is a constructor of `ScopeError`, not a string.
