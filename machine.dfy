/**
 The machine scope: the per-reconciliation view of one IonosCloudMachine,
 its Cluster API Machine and its cluster scope, with the operations the
 machine reconciler uses on it.

 The cluster scope's ListMachines is outside this model: every operation
 that lists machines takes the pair that call returned as a parameter.
 */
module Scope {
  import opened Api
  import opened Store
  import Selection

  /** The owning cluster's scope, a handle only: its operations are outside this model. */
  datatype ClusterHandle = ClusterHandle(clusterName: string)

  /** The patch helper, reduced to the copy of the IonosCloudMachine it takes when created. */
  datatype PatchHelper = PatchHelper(before: IonosCloudMachine)

  /** The parameters of NewMachine; every field may be nil. */
  datatype MachineParams = MachineParams(
    client: Client?,
    machine: Option<CapiMachine>,
    clusterScope: Option<ClusterHandle>,
    ionosMachine: Option<IonosCloudMachine>)

  /** The `(machines, err)` pair the cluster scope's ListMachines returned. */
  datatype MachineList = MachineList(items: seq<IonosCloudMachine>, err: Option<ScopeError>)

  /** The scheme SetProviderID puts in front of a server ID. */
  const ProviderIDPrefix: string := "ionos://"

  class Machine {
    const client: Client
    const patchHelper: PatchHelper
    const machine: CapiMachine
    var ionosMachine: IonosCloudMachine
    const clusterScope: ClusterHandle

    /**
     The IonosCloudMachine keeps the identity it had when the patch helper
     copied it: the copy PatchObject diffs against, which is outside this model.
     */
    ghost predicate Valid()
      reads this
    {
      ionosMachine.meta == patchHelper.before.meta
    }

    constructor (client: Client, patchHelper: PatchHelper, machine: CapiMachine,
                 clusterScope: ClusterHandle, ionosMachine: IonosCloudMachine)
      requires patchHelper.before.meta == ionosMachine.meta
      ensures Valid()
      ensures this.client == client && this.patchHelper == patchHelper && this.machine == machine
      ensures this.clusterScope == clusterScope && this.ionosMachine == ionosMachine
    {
      this.client := client;
      this.patchHelper := patchHelper;
      this.machine := machine;
      this.clusterScope := clusterScope;
      this.ionosMachine := ionosMachine;
    }

    /**
     The key GetBootstrapDataSecret looks up: the Machine's bootstrap data
     secret name in the IonosCloudMachine's namespace, or NoBootstrapData
     when that name is nil or empty.
     */
    function BootstrapDataSecretKey(): (r: Result<ObjectKey>)
      reads this
      ensures r.Err? <==> machine.dataSecretName == None || machine.dataSecretName == Some("")
      ensures r.Err? ==> r.error == NoBootstrapData
      ensures r.Ok? ==> r.value.name == machine.dataSecretName.value && r.value.name != ""
      ensures r.Ok? ==> r.value.namespace == ionosMachine.meta.namespace
    {
      var name := Deref(machine.dataSecretName, "");
      if name == "" then Err(NoBootstrapData)
      else Ok(ObjectKey(ionosMachine.meta.namespace, name))
    }

    /**
     The bootstrap data secret: no lookup at all without a secret name,
     otherwise exactly one lookup, whose error is returned unchanged.
     */
    method GetBootstrapDataSecret() returns (r: Result<Secret>)
      modifies client`lookups
      ensures BootstrapDataSecretKey().Err? ==>
                r == Err(NoBootstrapData) && client.lookups == old(client.lookups)
      ensures BootstrapDataSecretKey().Ok? ==>
                var key := BootstrapDataSecretKey().value;
                && client.lookups == old(client.lookups) + [key]
                && r == (if key in client.failures then Err(client.failures[key])
                         else if key in client.secrets then Ok(client.secrets[key])
                         else Err(NotFound(key)))
    {
      var key := BootstrapDataSecretKey();
      if key.Err? {
        return Err(key.error);
      }
      r := client.Get(key.value);
    }

    function DatacenterID(): (id: string)
      reads this
      ensures id == ionosMachine.spec.datacenterID
    {
      ionosMachine.spec.datacenterID
    }

    /**
     Stores `id` as the provider ID in URI form; metadata, data center ID
     and status stay as they were.
     */
    method SetProviderID(id: string)
      modifies this`ionosMachine
      ensures ionosMachine.spec.providerID == Some(ProviderIDPrefix + id)
      ensures ionosMachine.meta == old(ionosMachine.meta)
      ensures ionosMachine.status == old(ionosMachine.status)
      ensures DatacenterID() == old(DatacenterID())
      ensures HasFailed() == old(HasFailed())
      ensures Valid() == old(Valid())
    {
      ionosMachine := ionosMachine.(spec := ionosMachine.spec.(providerID := Some(ProviderIDPrefix + id)));
    }

    /** The number of machines listed, and the listing's error unchanged. */
    function CountMachines(listed: MachineList): (r: (nat, Option<ScopeError>))
      ensures r.0 == |listed.items| && r.1 == listed.err
    {
      (|listed.items|, listed.err)
    }

    /**
     The latest machine among those listed other than this one: nil for a
     list of at most one machine, and nil when the scan, seeded with the
     first machine, ends on this machine.
     */
    method FindLatestMachine(listed: MachineList) returns (latest: Option<IonosCloudMachine>, err: Option<ScopeError>)
      ensures listed.err.Some? ==> latest == None && err == listed.err
      ensures listed.err.None? ==> err == None
      ensures listed.err.None? ==> latest == Selection.LatestSibling(listed.items, ionosMachine.meta.name)
      ensures |listed.items| <= 1 ==> latest == None
      ensures latest.Some? ==> latest.value in listed.items && latest.value.meta.name != ionosMachine.meta.name
      ensures latest.Some? ==>
                exists k :: Selection.IsLatestSibling(listed.items, ionosMachine.meta.name, k) && listed.items[k] == latest.value
      ensures listed.err.None? && 2 <= |listed.items| ==>
                (latest == None <==>
                   && listed.items[0].meta.name == ionosMachine.meta.name
                   && forall j :: 0 < j < |listed.items| && listed.items[j].meta.name != ionosMachine.meta.name ==>
                        Selection.Timestamp(listed.items[j]) < Selection.Timestamp(listed.items[0]))
    {
      if listed.err.Some? {
        return None, listed.err;
      }
      var machines := listed.items;
      if |machines| <= 1 {
        return None, None;
      }
      var receiver := ionosMachine.meta.name;
      var latestMachine := machines[0];
      for i := 0 to |machines|
        invariant latestMachine == machines[Selection.CandidateAfter(machines, receiver, i)]
      {
        var item := machines[i];
        if !(item.meta.creationTimestamp < latestMachine.meta.creationTimestamp) && item.meta.name != receiver {
          latestMachine := item;
        }
      }
      Selection.LatestSiblingSound(machines, receiver);
      Selection.LatestSiblingNoneIff(machines, receiver);
      if latestMachine.meta.name == receiver {
        return None, None;
      }
      return Some(latestMachine), None;
    }

    /** Whether a failure reason or a failure message is set. */
    function HasFailed(): (failed: bool)
      reads this
      ensures failed <==> ionosMachine.status.failureReason.Some? || ionosMachine.status.failureMessage.Some?
    {
      var status := ionosMachine.status;
      status.failureReason != None || status.failureMessage != None
    }
  }

  /**
   A new machine scope, or the first missing parameter in the order client,
   Cluster API machine, IONOS Cloud machine, cluster scope. `newHelperErr` is
   the error, if any, of creating the patch helper, which is outside this model.
   */
  method NewMachine(params: MachineParams, newHelperErr: Option<string>) returns (m: Machine?, err: Option<ScopeError>)
    ensures params.client == null ==> m == null && err == Some(MissingClient)
    ensures params.client != null && params.machine.None? ==> m == null && err == Some(MissingMachine)
    ensures params.client != null && params.machine.Some? && params.ionosMachine.None? ==>
              m == null && err == Some(MissingIonosMachine)
    ensures params.client != null && params.machine.Some? && params.ionosMachine.Some? && params.clusterScope.None? ==>
              m == null && err == Some(MissingClusterScope)
    ensures params.client != null && params.machine.Some? && params.ionosMachine.Some? && params.clusterScope.Some? ==>
              if newHelperErr.Some? then m == null && err == Some(PatchHelperInit(newHelperErr.value))
              else
                && err == None && m != null && fresh(m) && m.Valid()
                && m.client == params.client
                && m.machine == params.machine.value
                && m.ionosMachine == params.ionosMachine.value
                && m.clusterScope == params.clusterScope.value
                && m.patchHelper == PatchHelper(params.ionosMachine.value)
  {
    if params.client == null {
      return null, Some(MissingClient);
    }
    if params.machine.None? {
      return null, Some(MissingMachine);
    }
    if params.ionosMachine.None? {
      return null, Some(MissingIonosMachine);
    }
    if params.clusterScope.None? {
      return null, Some(MissingClusterScope);
    }
    if newHelperErr.Some? {
      return null, Some(PatchHelperInit(newHelperErr.value));
    }
    var helper := PatchHelper(params.ionosMachine.value);
    m := new Machine(params.client, helper, params.machine.value, params.clusterScope.value, params.ionosMachine.value);
    err := None;
  }
}
