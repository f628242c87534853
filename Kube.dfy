/** The parts of the Kubernetes API objects that the provisioner reads or
    builds, as values. Only the fields the provisioner touches are kept. */
module Kube {
  import opened Wrappers
  import opened GoRunes

  /** A resource quantity ("1Gi", "500M", "1.5"), kept abstract: all the
      provisioner asks of it is Quantity.AsInt64, the exact value as a whole
      int64 number. Whether AsInt64 succeeds for a given amount depends on how
      the quantity holds it internally; the model leaves that abstract and keeps
      only the outcome. */
  datatype Quantity = Quantity(exact: Option<int64>) {
    function AsInt64(): Option<int64> {
      exact
    }
  }

  /** The zero value of a Go Quantity, which AsInt64 turns into 0. */
  const ZeroQuantity: Quantity := Quantity(Some(0))

  /** The key of the storage entry in a resource list. */
  const ResourceStorage: string := "storage"

  type ResourceList = map<string, Quantity>

  /** Indexing a Go map: the value under `key`, or the zero value when absent. */
  function Get<V>(m: map<string, V>, key: string, zero: V): (v: V)
    ensures key in m ==> v == m[key]
    ensures key !in m ==> v == zero
  {
    if key in m then m[key] else zero
  }

  /** The storage quantity of a resource list; a missing entry reads as zero. */
  function Storage(resources: ResourceList): (q: Quantity)
    ensures ResourceStorage in resources ==> q == resources[ResourceStorage]
    ensures ResourceStorage !in resources ==> q.AsInt64() == Some(0)
  {
    Get(resources, ResourceStorage, ZeroQuantity)
  }

  datatype AccessMode = ReadWriteOnce | ReadOnlyMany | ReadWriteMany

  datatype ReclaimPolicy = Retain | Recycle | Delete

  datatype ResourceRequirements = ResourceRequirements(limits: ResourceList, requests: ResourceList)

  /** The parts of a PersistentVolumeClaim's spec that provisioning reads. */
  datatype ClaimSpec = ClaimSpec(accessModes: seq<AccessMode>, resources: ResourceRequirements)

  /** What the external controller hands to Provision for one claim: the name
      chosen for the volume, the reclaim policy, the claim and the storage
      class parameters. */
  datatype VolumeOptions = VolumeOptions(
    pvName: string,
    reclaimPolicy: ReclaimPolicy,
    pvc: ClaimSpec,
    parameters: map<string, string>)

  datatype ObjectMeta = ObjectMeta(
    name: string,
    labels: map<string, string>,
    annotations: map<string, string>)

  datatype NFSVolumeSource = NFSVolumeSource(server: string, path: string, readOnly: bool)

  /** The volume spec; `nfs` is the only volume source this provisioner sets. */
  datatype PersistentVolumeSpec = PersistentVolumeSpec(
    reclaimPolicy: ReclaimPolicy,
    accessModes: seq<AccessMode>,
    capacity: ResourceList,
    nfs: Option<NFSVolumeSource>)

  datatype PersistentVolume = PersistentVolume(meta: ObjectMeta, spec: PersistentVolumeSpec)
}
