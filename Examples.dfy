/** Worked examples proved about the provisioner's specification: claims a
    storage administrator would typically submit, and what they turn into. They
    show in particular that the capacity properties are single characters, not
    decimal byte counts. The successful creations are those of the model's
    store, which does not validate property values; the real zfs command would
    refuse these non-numeric sizes. */
module Examples {
  import opened Wrappers
  import opened GoRunes
  import opened Kube
  import opened ZfsStore
  import opened Provisioner

  const Gi: int64 := 1073741824

  function Claim(pvName: string, limits: ResourceList, requests: ResourceList): VolumeOptions {
    VolumeOptions(pvName, Retain, ClaimSpec([ReadWriteOnce], ResourceRequirements(limits, requests)), map[])
  }

  const NoNfs: NFSParameters := NFSParameters("", false, "", "")

  /** "pvc-1" under "pool/data", request 1Gi, limit 2Gi, no export: the dataset
      "pool/data/pvc-1" is accepted by the model's store, annotated on the volume, and both byte counts,
      being above U+10FFFF, are stored as U+FFFD. */
  lemma ProvisionWithoutExport(ds: Datasets)
    requires "pool/data/pvc-1" !in ds
    ensures var options := Claim("pvc-1", map[ResourceStorage := Quantity(Some(2 * Gi))],
                                          map[ResourceStorage := Quantity(Some(Gi))]);
            var params := ZFSProvisionerParameters("pool/data", false, NoNfs);
            var (r, after) := ProvisionStep(options, Some(params), ds);
            && r.Success?
            && DatasetPathOf(r.value) == "pool/data/pvc-1"
            && r.value.spec.nfs == None
            && "pool/data/pvc-1" in after
            && after["pool/data/pvc-1"] == map[RefQuota := [ReplacementChar], RefReservation := [ReplacementChar]]
            && after["pool/data/pvc-1"][RefQuota] != "2147483648"
  {
    var options := Claim("pvc-1", map[ResourceStorage := Quantity(Some(2 * Gi))],
                                  map[ResourceStorage := Quantity(Some(Gi))]);
    var params := ZFSProvisionerParameters("pool/data", false, NoNfs);
    assert DatasetPath("pool/data", "pvc-1") == "pool/data/pvc-1";
    var plan := PlanProvision(options, Some(params)).value;
    assert plan.properties == map[RefQuota := [ReplacementChar], RefReservation := [ReplacementChar]];
  }

  /** The same claim exported over NFS: sharenfs grants the subnet read-write
      access, and the volume points at the server and the dataset. */
  lemma ProvisionWithExport(ds: Datasets)
    requires "pool/data/pvc-1" !in ds
    ensures var options := Claim("pvc-1", map[ResourceStorage := Quantity(Some(2 * Gi))],
                                          map[ResourceStorage := Quantity(Some(Gi))]);
            var nfs := NFSParameters("", true, "nfs.example.com", "10.0.0.0/8");
            var (r, after) := ProvisionStep(options, Some(ZFSProvisionerParameters("pool/data", false, nfs)), ds);
            && r.Success?
            && r.value.spec.nfs == Some(NFSVolumeSource("nfs.example.com", "pool/data/pvc-1", false))
            && "pool/data/pvc-1" in after
            && after["pool/data/pvc-1"][ShareNfs] == "rw=@10.0.0.0/8"
  {
    var nfs := NFSParameters("", true, "nfs.example.com", "10.0.0.0/8");
    assert DatasetPath("pool/data", "pvc-1") == "pool/data/pvc-1";
    assert ShareOptions(nfs) == "rw=@10.0.0.0/8";
  }

  /** A claim without a limit: the missing entry reads as a zero quantity, which
      converts, so refquota is the one character U+0000; a request of 65 bytes
      becomes "A". The parent dataset left unset gives the path "/pvc-2". */
  lemma ProvisionWithoutLimit(ds: Datasets)
    requires "/pvc-2" !in ds
    ensures var options := Claim("pvc-2", map[], map[ResourceStorage := Quantity(Some(65))]);
            var params := ZFSProvisionerParameters("", false, NoNfs);
            var (r, after) := ProvisionStep(options, Some(params), ds);
            && r.Success?
            && DatasetPathOf(r.value) == "/pvc-2"
            && "/pvc-2" in after
            && after["/pvc-2"] == map[RefQuota := [0 as char], RefReservation := "A"]
  {
    var options := Claim("pvc-2", map[], map[ResourceStorage := Quantity(Some(65))]);
    var params := ZFSProvisionerParameters("", false, NoNfs);
    assert DatasetPath("", "pvc-2") == "/pvc-2";
    var plan := PlanProvision(options, Some(params)).value;
    assert plan.properties == map[RefQuota := [0 as char], RefReservation := "A"];
  }

  /** A volume without the dataset-path annotation is looked up under "", which
      fails on a store that holds no dataset of that name. */
  lemma DeleteWithoutAnnotation(ds: Datasets)
    requires "" !in ds
    ensures var volume := PersistentVolume(
              ObjectMeta("pv", map[], map[AnnCreatedBy := CreatedBy]),
              PersistentVolumeSpec(Retain, [], map[], None));
            DeleteStep(volume, ds) == (Fail(RetrieveDatasetFailed(DatasetNotFound(""))), ds)
  {
  }
}
