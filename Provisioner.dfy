/** The ZFS volume provisioner: it turns a volume claim into a ZFS dataset named
    `<parentDataset>/<pvName>` (with refquota, refreservation and optionally
    sharenfs set) plus the PersistentVolume describing it, and on deletion
    destroys the dataset recorded in the volume's dataset-path annotation,
    together with everything below it.

    The pure functions (`PlanProvision`, `ProvisionStep`, `DeleteStep`) say what
    one call does to the store and returns; the methods of `ZFSProvisioner`
    carry the calls out step by step against a `Store` and are proved to agree
    with them. */
module Provisioner {
  import opened Wrappers
  import opened GoRunes
  import opened Kube
  import opened ZfsStore

  const AnnCreatedBy: string := "kubernetes.io/createdby"
  const AnnDatasetPath: string := "gentics.com/kubernetes-zfs-provisioner/datasetpath"
  const CreatedBy: string := "zfs-provisioner"

  /** Names of the dataset properties the provisioner sets. */
  const RefQuota: string := "refquota"
  const RefReservation: string := "refreservation"
  const ShareNfs: string := "sharenfs"

  /** NFS export settings of a storage class. */
  datatype NFSParameters = NFSParameters(
    additionalShareOptions: string,
    enabled: bool,
    serverHostname: string,
    shareSubnet: string)

  /** The storage class parameters once decoded; a key missing from the raw
      parameters leaves its field at the zero value ("" or false). */
  datatype ZFSProvisionerParameters = ZFSProvisionerParameters(
    parentDataset: string,
    prometheus: bool,
    nfs: NFSParameters)

  datatype ProvisionError =
    | ParseParametersFailed
    | LimitNotConvertible
    | RequestNotConvertible
    | CreateDatasetFailed(cause: StoreError)

  datatype DeleteError = RetrieveDatasetFailed(cause: StoreError)

  // ---------------------------------------------------------------------------
  // Dataset path

  /** The dataset for a volume: the parent dataset, a separator, the volume name.
      Neither part is checked or escaped. */
  function DatasetPath(parent: string, pvName: string): (path: string)
    ensures |path| == |parent| + 1 + |pvName|
    ensures path[..|parent| + 1] == parent + "/"
    ensures path[|parent| + 1..] == pvName
  {
    parent + "/" + pvName
  }

  /** The volume name a path holds directly under `parent`, if it lies below it. */
  function NameUnder(parent: string, path: string): (name: Option<string>)
    ensures name.Some? <==> parent + "/" <= path
    ensures name.Some? ==> path == parent + "/" + name.value
  {
    if parent + "/" <= path then Some(path[|parent| + 1..]) else None
  }

  /** `NameUnder` inverts `DatasetPath` for a fixed parent, in both directions. */
  lemma NameUnderDatasetPath(parent: string, pvName: string, path: string)
    ensures NameUnder(parent, DatasetPath(parent, pvName)) == Some(pvName)
    ensures NameUnder(parent, path) == Some(pvName) ==> DatasetPath(parent, pvName) == path
  {
  }

  /** Under one parent, distinct volume names get distinct datasets. */
  lemma DatasetPathInjective(parent: string, a: string, b: string)
    ensures DatasetPath(parent, a) == DatasetPath(parent, b) <==> a == b
  {
    NameUnderDatasetPath(parent, a, DatasetPath(parent, a));
    NameUnderDatasetPath(parent, b, DatasetPath(parent, b));
  }

  /** A new dataset always lies below the parent dataset; with the parent left
      empty, the path is "/" followed by the volume name. */
  lemma DatasetPathBelowParent(parent: string, pvName: string)
    ensures InSubtree(DatasetPath(parent, pvName), parent)
    ensures parent == "" ==> DatasetPath(parent, pvName) == "/" + pvName
  {
  }

  /** Volume names are not sanitized: a name holding a separator lands inside
      another volume's dataset (so deleting that volume destroys it too), and
      the same path arises from two different parent/name pairs. */
  lemma UnsanitizedNames(parent: string, a: string, b: string)
    ensures InSubtree(DatasetPath(parent, a + "/" + b), DatasetPath(parent, a))
    ensures DatasetPath(parent, a + "/" + b) == DatasetPath(parent + "/" + a, b)
  {
  }

  /** At the byte level Go's formatting does the same: the bytes of the path
      are the parent's bytes, the separator byte 0x2F and the name's bytes. */
  lemma DatasetPathBytes(parent: string, pvName: string)
    ensures GoBytes(DatasetPath(parent, pvName)) == GoBytes(parent) + [0x2F] + GoBytes(pvName)
  {
    GoBytesConcat(parent + "/", pvName);
    GoBytesConcat(parent, "/");
    assert GoBytes("/") == EncodeRune('/') + GoBytes([]);
  }

  // ---------------------------------------------------------------------------
  // Volume pieces

  /** The sharenfs value: read-write for the subnet, then the extra options verbatim. */
  function ShareOptions(nfs: NFSParameters): (s: string)
    ensures |s| == 4 + |nfs.shareSubnet| + |nfs.additionalShareOptions|
    ensures s[..4] == "rw=@"
    ensures s[4..4 + |nfs.shareSubnet|] == nfs.shareSubnet
    ensures s[4 + |nfs.shareSubnet|..] == nfs.additionalShareOptions
  {
    "rw=@" + nfs.shareSubnet + nfs.additionalShareOptions
  }

  /** The NFS volume source: present only when exporting is enabled. */
  function NfsSource(nfs: NFSParameters, path: string): (src: Option<NFSVolumeSource>)
    ensures src.Some? <==> nfs.enabled
  {
    if nfs.enabled then Some(NFSVolumeSource(nfs.serverHostname, path, false)) else None
  }

  /** The properties the dataset is created with. */
  function DatasetProperties(nfs: NFSParameters, limitBytes: int64, requestBytes: int64): (props: Properties)
    ensures RefQuota in props && RefReservation in props
    ensures ShareNfs in props <==> nfs.enabled
    ensures |props| == if nfs.enabled then 3 else 2
  {
    var sized := map[RefQuota := RuneString(limitBytes), RefReservation := RuneString(requestBytes)];
    if nfs.enabled then sized[ShareNfs := ShareOptions(nfs)] else sized
  }

  /** The dataset path a volume records, "" when the annotation is missing. */
  function DatasetPathOf(volume: PersistentVolume): (path: string)
    ensures AnnDatasetPath in volume.meta.annotations ==> path == volume.meta.annotations[AnnDatasetPath]
    ensures AnnDatasetPath !in volume.meta.annotations ==> path == ""
  {
    Get(volume.meta.annotations, AnnDatasetPath, "")
  }

  /** Everything Provision decides before it touches the store. */
  datatype Plan = Plan(path: string, properties: Properties, volume: PersistentVolume)

  /** Provisioning up to, not including, the dataset creation: decode, then the
      limit, then the request, each able to fail in that order; on success the
      dataset path, its properties and the volume to return. */
  function PlanProvision(options: VolumeOptions, decoded: Option<ZFSProvisionerParameters>)
    : (r: Result<Plan, ProvisionError>)
    ensures r.Success? <==> decoded.Some? && Storage(options.pvc.resources.limits).AsInt64().Some?
                            && Storage(options.pvc.resources.requests).AsInt64().Some?
    ensures decoded.None? ==> r == Failure(ParseParametersFailed)
    ensures (decoded.Some? && Storage(options.pvc.resources.limits).AsInt64().None?)
              ==> r == Failure(LimitNotConvertible)
    ensures (decoded.Some? && Storage(options.pvc.resources.limits).AsInt64().Some?
             && Storage(options.pvc.resources.requests).AsInt64().None?)
              ==> r == Failure(RequestNotConvertible)
    ensures r.Success? ==>
              var params, plan := decoded.value, r.value;
              var limit := Storage(options.pvc.resources.limits).AsInt64();
              var request := Storage(options.pvc.resources.requests).AsInt64();
              && limit.Some? && request.Some?
              && plan.path == DatasetPath(params.parentDataset, options.pvName)
              // the volume
              && plan.volume.meta.name == options.pvName
              && plan.volume.meta.labels == map[]
              && plan.volume.meta.annotations == map[AnnCreatedBy := CreatedBy, AnnDatasetPath := plan.path]
              && DatasetPathOf(plan.volume) == plan.path
              && plan.volume.spec.reclaimPolicy == options.reclaimPolicy
              && plan.volume.spec.accessModes == options.pvc.accessModes
              && plan.volume.spec.capacity == map[ResourceStorage := Storage(options.pvc.resources.requests)]
              && (params.nfs.enabled ==>
                    plan.volume.spec.nfs == Some(NFSVolumeSource(params.nfs.serverHostname, plan.path, false)))
              && (!params.nfs.enabled ==> plan.volume.spec.nfs.None?)
              // the dataset properties
              && plan.properties.Keys == {RefQuota, RefReservation} + (if params.nfs.enabled then {ShareNfs} else {})
              && plan.properties[RefQuota] == RuneString(limit.value)
              && plan.properties[RefReservation] == RuneString(request.value)
              && (params.nfs.enabled ==> plan.properties[ShareNfs] == ShareOptions(params.nfs))
  {
    match decoded
    case None => Failure(ParseParametersFailed)
    case Some(params) =>
      var path := DatasetPath(params.parentDataset, options.pvName);
      var annotations := map[AnnCreatedBy := CreatedBy][AnnDatasetPath := path];
      var volume := PersistentVolume(
        ObjectMeta(options.pvName, map[], annotations),
        PersistentVolumeSpec(
          options.reclaimPolicy,
          options.pvc.accessModes,
          map[ResourceStorage := Storage(options.pvc.resources.requests)],
          NfsSource(params.nfs, path)));
      match (Storage(options.pvc.resources.limits).AsInt64(), Storage(options.pvc.resources.requests).AsInt64())
      case (None, _) => Failure(LimitNotConvertible)
      case (Some(_), None) => Failure(RequestNotConvertible)
      case (Some(limitBytes), Some(requestBytes)) =>
        Success(Plan(path, DatasetProperties(params.nfs, limitBytes, requestBytes), volume))
  }

  // ---------------------------------------------------------------------------
  // One call, as a state transition of the store

  /** Provision: on success exactly one new dataset, at the planned path, and
      the planned volume; on any failure no volume and the store untouched. */
  function ProvisionStep(options: VolumeOptions, decoded: Option<ZFSProvisionerParameters>, ds: Datasets)
    : (res: (Result<PersistentVolume, ProvisionError>, Datasets))
    ensures res.0.Failure? ==> res.1 == ds
    ensures res.0.Success? <==> PlanProvision(options, decoded).Success? && PlanProvision(options, decoded).value.path !in ds
    ensures PlanProvision(options, decoded).Failure? ==> res.0 == Failure(PlanProvision(options, decoded).error)
    ensures PlanProvision(options, decoded).Success? ==>
              var plan := PlanProvision(options, decoded).value;
              && (plan.path in ds ==> res.0 == Failure(CreateDatasetFailed(DatasetExists(plan.path))))
              && (plan.path !in ds ==>
                    && res.0 == Success(plan.volume)
                    && res.1.Keys == ds.Keys + {plan.path}
                    && |res.1| == |ds| + 1
                    && res.1[plan.path] == plan.properties
                    && forall k | k in ds :: res.1[k] == ds[k])
  {
    match PlanProvision(options, decoded)
    case Failure(e) => (Failure(e), ds)
    case Success(plan) =>
      match Create(ds, plan.path, plan.properties)
      case Failure(e) => (Failure(CreateDatasetFailed(e)), ds)
      case Success(after) => (Success(plan.volume), after)
  }

  /** Delete: the path comes from the annotation alone ("" when missing); a
      path the store lacks fails with nothing changed, otherwise that dataset
      and everything below it go and nothing else does. */
  function DeleteStep(volume: PersistentVolume, ds: Datasets): (res: (Outcome<DeleteError>, Datasets))
    ensures DatasetPathOf(volume) !in ds ==>
              res == (Fail(RetrieveDatasetFailed(DatasetNotFound(DatasetPathOf(volume)))), ds)
    ensures DatasetPathOf(volume) in ds ==>
              && res.0 == Pass
              && DatasetPathOf(volume) !in res.1
              && (forall k :: k in res.1 <==> k in ds && !InSubtree(k, DatasetPathOf(volume)))
              && (forall k | k in res.1 :: res.1[k] == ds[k])
  {
    var path := DatasetPathOf(volume);
    if path in ds then (Pass, DestroyRecursive(ds, path)) else (Fail(RetrieveDatasetFailed(DatasetNotFound(path))), ds)
  }

  // ---------------------------------------------------------------------------
  // Properties across calls

  /** Provisioning the same claim twice fails the second time, at creation,
      and leaves the store as the first call left it. */
  lemma ProvisionTwiceFails(options: VolumeOptions, decoded: Option<ZFSProvisionerParameters>, ds: Datasets)
    requires ProvisionStep(options, decoded, ds).0.Success?
    ensures var after := ProvisionStep(options, decoded, ds).1;
            var path := PlanProvision(options, decoded).value.path;
            ProvisionStep(options, decoded, after) == (Failure(CreateDatasetFailed(DatasetExists(path))), after)
  {
  }

  /** The volume a successful Provision returns leads Delete back to the very
      dataset it created; when nothing lay below that path beforehand, Delete
      restores the store exactly. */
  lemma DeleteUndoesProvision(options: VolumeOptions, decoded: Option<ZFSProvisionerParameters>, ds: Datasets)
    requires ProvisionStep(options, decoded, ds).0.Success?
    requires NoDescendants(ds, PlanProvision(options, decoded).value.path)
    ensures var (volume, after) := (ProvisionStep(options, decoded, ds).0.value, ProvisionStep(options, decoded, ds).1);
            && DatasetPathOf(volume) == PlanProvision(options, decoded).value.path
            && DeleteStep(volume, after) == (Pass, ds)
  {
    var plan := PlanProvision(options, decoded).value;
    DestroyUndoesCreate(ds, plan.path, plan.properties);
  }

  /** A second Delete of the same volume fails at the lookup and changes nothing. */
  lemma DeleteTwiceFails(volume: PersistentVolume, ds: Datasets)
    requires DeleteStep(volume, ds).0 == Pass
    ensures var after := DeleteStep(volume, ds).1;
            DeleteStep(volume, after) == (Fail(RetrieveDatasetFailed(DatasetNotFound(DatasetPathOf(volume)))), after)
  {
  }

  // ---------------------------------------------------------------------------
  // The provisioner

  /** The provisioner, driving the dataset store. */
  class ZFSProvisioner {
    const store: Store

    constructor (store: Store)
      ensures this.store == store
    {
      this.store := store;
    }

    /** Provisions a volume for `options`; `decode` stands for the decoding of
        the raw storage class parameters into ZFSProvisionerParameters. */
    method Provision(options: VolumeOptions, decode: map<string, string> -> Option<ZFSProvisionerParameters>)
      returns (r: Result<PersistentVolume, ProvisionError>)
      modifies store
      ensures (r, store.datasets) == ProvisionStep(options, decode(options.parameters), old(store.datasets))
    {
      // The volume to return; its annotation map is shared with `annotations`
      // below, so every write to that map is copied into the volume.
      var annotations: map<string, string> := map[];
      annotations := annotations[AnnCreatedBy := CreatedBy];
      var pv := PersistentVolume(
        ObjectMeta(options.pvName, map[], annotations),
        PersistentVolumeSpec(
          options.reclaimPolicy,
          options.pvc.accessModes,
          map[ResourceStorage := Storage(options.pvc.resources.requests)],
          None));

      var parameters := decode(options.parameters);
      if parameters.None? {
        return Failure(ParseParametersFailed);
      }
      var params := parameters.value;

      var datasetPath := DatasetPath(params.parentDataset, options.pvName);
      annotations := annotations[AnnDatasetPath := datasetPath];
      pv := pv.(meta := pv.meta.(annotations := annotations));
      var datasetProperties: Properties := map[];

      var limitBytes := Storage(options.pvc.resources.limits).AsInt64();
      if limitBytes.None? {
        return Failure(LimitNotConvertible);
      }
      datasetProperties := datasetProperties[RefQuota := RuneString(limitBytes.value)];
      var requestBytes := Storage(options.pvc.resources.requests).AsInt64();
      if requestBytes.None? {
        return Failure(RequestNotConvertible);
      }
      datasetProperties := datasetProperties[RefReservation := RuneString(requestBytes.value)];

      var nfs := params.nfs;
      if nfs.enabled {
        datasetProperties := datasetProperties[ShareNfs := ShareOptions(nfs)];
        pv := pv.(spec := pv.spec.(nfs := Some(NFSVolumeSource(nfs.serverHostname, datasetPath, false))));
      }

      var dataset := store.CreateFilesystem(datasetPath, datasetProperties);
      if dataset.Failure? {
        return Failure(CreateDatasetFailed(dataset.error));
      }
      return Success(pv);
    }

    /** Destroys the dataset recorded in the volume's annotation, recursively. */
    method Delete(volume: PersistentVolume) returns (r: Outcome<DeleteError>)
      modifies store
      ensures (r, store.datasets) == DeleteStep(volume, old(store.datasets))
    {
      var datasetPath := Get(volume.meta.annotations, AnnDatasetPath, "");
      var dataset := store.GetDataset(datasetPath);
      if dataset.Failure? {
        return Fail(RetrieveDatasetFailed(dataset.error));
      }
      store.Destroy(dataset.value);
      return Pass;
    }
  }
}
