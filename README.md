# kubernetes-zfs-provisioner, provisioning core in Dafny

This project models the decision logic of a Kubernetes external provisioner that
backs PersistentVolumes with ZFS datasets (`pkg/provisioner/provisioner.go`):

- **Provision** turns a claim into a dataset `<parentDataset>/<pvName>`. It
  annotates the returned PersistentVolume with a created-by marker and with
  that dataset path. It sets `refquota` from the storage limit and
  `refreservation` from the storage request. When NFS export is enabled, it
  also sets `sharenfs` and attaches an NFS volume source. Then it creates the
  dataset. The checks run in this order: parameter decoding, limit conversion,
  request conversion, dataset creation. Any failure returns no volume and leaves
  the store unchanged.
- **Delete** reads the dataset path back from the annotation, with `""` when
  it is missing. It looks the dataset up, which fails when the dataset is
  absent. Otherwise it destroys the dataset together with everything below it.

The ZFS pool is an in-memory store: a map from dataset name to property map,
held by the class `ZfsStore.Store`, whose methods stand for go-zfs
`GetDataset`, `CreateFilesystem` and `Dataset.Destroy(DestroyRecursive)`.
`Provisioner.ZFSProvisioner.Provision` and `.Delete` build their results step
by step, as the Go code does, and mutate that store. They are proved equal to
the pure transitions `ProvisionStep` and `DeleteStep`, and the properties are
proved about those transitions.

Modules: `Wrappers` (Option, Result, Outcome), `GoRunes` (Go's `string(int64)`
conversion and the UTF-8 bytes it yields), `Kube` (the Kubernetes API values
that are read or built), `ZfsStore` (the dataset store), `Provisioner` (the
core), `Examples` (worked examples proved about the specification).

Where the code does something other than one might expect:

- Property values are not decimal byte counts. Lines 144 and 154 use Go's
  `string(int64)`, which yields the single character with that code point, or
  U+FFFD when the value is negative, a surrogate or above 0x10FFFF. A 2Gi limit
  therefore becomes `refquota` = U+FFFD, not `"2147483648"`
  (`Examples.ProvisionWithoutExport`). A 65-byte request becomes `"A"`.
- A missing `parentDataset` is not rejected. The decoded field stays `""` and
  the path becomes `"/" + pvName`.
- A missing dataset-path annotation is not a failure of its own. The path reads
  as `""`, and Delete fails only because the store lookup fails.
- A missing storage limit is the zero quantity. It converts to 0, so
  `refquota` becomes U+0000.

## Model

| member | source | states |
|---|---|---|
| `GoRunes.RuneString` | pkg/provisioner/provisioner.go:144 | `string(int64)` is one character. It is the value itself when that is a Unicode scalar value, and U+FFFD otherwise. |
| `GoRunes.RuneStringInverse` | pkg/provisioner/provisioner.go:144 | The value comes back from the property string exactly when it is a code point. Every other int64 gives U+FFFD. |
| `GoRunes.RuneStringCollision` | pkg/provisioner/provisioner.go:154 | Distinct code points give distinct strings. Every non-code-point gives the same string as 0xFFFD. |
| `GoRunes.LargeSizesCollapse` | pkg/provisioner/provisioner.go:144 | Every value of 0x110000 or more, so every size from about 1 MiB up (1Gi and 2Gi included), becomes the one string U+FFFD. |
| `GoRunes.EncodeRune` | pkg/provisioner/provisioner.go:144 | The bytes Go writes for the character: 1 to 4 bytes, one byte exactly below 0x80, and continuation bytes after the first. |
| `GoRunes.DecodeEncodeRune` | pkg/provisioner/provisioner.go:144 | Decoding the UTF-8 bytes of a character gives the character back. |
| `GoRunes.GoBytes` | pkg/provisioner/provisioner.go:128 | A Go string's bytes are its characters' UTF-8 encodings in order: at least one and at most four bytes per character. |
| `GoRunes.GoBytesConcat` | pkg/provisioner/provisioner.go:128 | The bytes of a concatenation are the concatenation of the bytes. |
| `GoRunes.RuneStringBytes` | pkg/provisioner/provisioner.go:144 | The stored property is one UTF-8 character of 1 to 4 bytes. It decodes to the value, or to U+FFFD for a non-code-point. |
| `Kube.Get` | pkg/provisioner/provisioner.go:136 | Indexing a Go map gives the entry, or the zero value when the key is absent. |
| `Kube.Storage` | pkg/provisioner/provisioner.go:136-146 | The storage quantity is the list's `storage` entry when present. When absent it is the zero quantity, whose `AsInt64` is 0. |
| `ZfsStore.Create` | pkg/provisioner/provisioner.go:169 | Creation fails exactly when the name is taken. Otherwise it adds that one entry with the given properties and leaves the others unchanged. |
| `ZfsStore.DestroyRecursive` | pkg/provisioner/provisioner.go:80 | Recursive destroy removes the root and every name below it, and keeps every other entry unchanged. |
| `ZfsStore.DestroyUndoesCreate` | pkg/provisioner/provisioner.go:169 | Destroying a freshly created dataset that had no descendants restores the store exactly. |
| `ZfsStore.DestroyIdempotent` | pkg/provisioner/provisioner.go:80 | A second recursive destroy of the same root changes nothing. |
| `ZfsStore.Store.GetDataset` | pkg/provisioner/provisioner.go:72 | The lookup succeeds exactly when the dataset exists, and fails with not-found otherwise. |
| `ZfsStore.Store.CreateFilesystem` | pkg/provisioner/provisioner.go:169 | The in-place store update agrees with `Create`. |
| `ZfsStore.Store.Destroy` | pkg/provisioner/provisioner.go:80 | The in-place store update agrees with `DestroyRecursive`. |
| `Provisioner.DatasetPath` | pkg/provisioner/provisioner.go:128 | The path starts with the parent and one separator, and the rest is the volume name. |
| `Provisioner.NameUnder` | pkg/provisioner/provisioner.go:128 | A name is found exactly when the path starts with the parent and a separator, and then the path is the parent, the separator and that name. |
| `Provisioner.NameUnderDatasetPath` | pkg/provisioner/provisioner.go:128 | `NameUnder` inverts `DatasetPath` for a fixed parent, in both directions. |
| `Provisioner.DatasetPathInjective` | pkg/provisioner/provisioner.go:128 | Under one parent, two paths are equal exactly when the volume names are. |
| `Provisioner.DatasetPathBytes` | pkg/provisioner/provisioner.go:128 | The path's bytes are the parent's bytes, the byte 0x2F and the volume name's bytes. |
| `Provisioner.DatasetPathBelowParent` | pkg/provisioner/provisioner.go:128 | The new dataset lies below the parent. An empty parent gives `"/" + pvName`. |
| `Provisioner.UnsanitizedNames` | pkg/provisioner/provisioner.go:127-128 | A name with a separator nests inside another volume's dataset, and different parent/name pairs can collide. |
| `Provisioner.ShareOptions` | pkg/provisioner/provisioner.go:159 | `sharenfs` is `rw=@`, then the subnet, then the additional options verbatim. |
| `Provisioner.NfsSource` | pkg/provisioner/provisioner.go:157-166 | The NFS source is present exactly when NFS is enabled. |
| `Provisioner.DatasetProperties` | pkg/provisioner/provisioner.go:131-159 | The properties always hold `refquota` and `refreservation`, and hold `sharenfs` exactly when NFS is enabled. That is 2 or 3 keys. |
| `Provisioner.DatasetPathOf` | pkg/provisioner/provisioner.go:71 | Delete's path is the annotation value, or `""` when the annotation is missing. |
| `Provisioner.PlanProvision` | pkg/provisioner/provisioner.go:99-166 | It succeeds exactly when decoding and both conversions succeed. Failures come in order: decode, then limit, then request. On success it gives the path, exactly the two annotations, name, empty labels, capacity = request, access modes, reclaim policy, the NFS source exactly when enabled, property keys exactly as listed, and rune-encoded values. |
| `Provisioner.ProvisionStep` | pkg/provisioner/provisioner.go:119-177 | Success means one new entry at the planned path with the planned properties, every other entry unchanged, and the planned volume returned. A taken path fails at creation. Every failure leaves the store unchanged. |
| `Provisioner.DeleteStep` | pkg/provisioner/provisioner.go:63-88 | An absent path fails with not-found and no change. Otherwise exactly that dataset and its descendants are removed. |
| `Provisioner.ProvisionTwiceFails` | pkg/provisioner/provisioner.go:169-174 | Provisioning the same claim again fails at creation and leaves the store as it was. |
| `Provisioner.DeleteUndoesProvision` | pkg/provisioner/provisioner.go:130 | The returned volume's annotation names the created dataset. When nothing lay below it, Delete restores the store exactly. |
| `Provisioner.DeleteTwiceFails` | pkg/provisioner/provisioner.go:71-77 | A second Delete of the same volume fails at the lookup and changes nothing. |
| `Provisioner.ZFSProvisioner.Provision` | pkg/provisioner/provisioner.go:92-178 | The step-by-step Provision returns what `ProvisionStep` gives and leaves the store as `ProvisionStep` says. |
| `Provisioner.ZFSProvisioner.Delete` | pkg/provisioner/provisioner.go:63-88 | The step-by-step Delete returns what `DeleteStep` gives and leaves the store as `DeleteStep` says. |
| `Examples.ProvisionWithoutExport` | pkg/provisioner/provisioner.go:128-169 | `pvc-1` under `pool/data` with 1Gi/2Gi is accepted by the model's store at `pool/data/pvc-1`. Both capacities are stored as U+FFFD, not as decimal. |
| `Examples.ProvisionWithExport` | pkg/provisioner/provisioner.go:157-166 | With NFS on, `sharenfs` is `rw=@10.0.0.0/8` and the volume's NFS source is server, path, read-write. |
| `Examples.ProvisionWithoutLimit` | pkg/provisioner/provisioner.go:136-154 | A missing limit gives `refquota` U+0000, a 65-byte request gives `"A"`, and an empty parent gives `/pvc-2`. |
| `Examples.DeleteWithoutAnnotation` | pkg/provisioner/provisioner.go:71-77 | Without the annotation, Delete looks up `""` and fails with not-found. |

## Left out

- Logging and the logger enrichment (lines 47-60, 64-68, 93-97, 176) are left out. They only observe. `NewZFSProvisioner` does nothing else, so the model's constructor only takes the store.
- `mapstructure.Decode` (line 120) is a reflection-based library. `Provision` takes it as a function parameter `decode` that yields the decoded record or nothing. Its key matching and type coercion rules are not modelled.
- The `prometheus` field is decoded and never used.
- Error values are kinds, not message texts. The `fmt.Errorf` strings carry no behaviour.
- `Quantity` is reduced to its `AsInt64` result. Its parsing and arithmetic are not modelled.
- The claim's namespace and storage class name are only logged, so they are not modelled.
- `ZfsStore.Store.CreateFilesystem`: creation fails only when the name is taken. The real zfs command also fails for a missing parent, an invalid name such as `/pvc-2`, or a full pool. Those failures come from the external CLI.
- `ZfsStore.Store.CreateFilesystem`: the store does not validate property values. The real create refuses a non-numeric `refquota` or `refreservation`, and a NUL character cannot be passed to the command at all. Since line 144 and line 154 yield one character (U+FFFD for every realistic capacity, U+0000 for zero), a real Provision nearly always fails at line 169, where the model's store accepts the dataset.
- `Provisioner.ZFSProvisioner.Delete`: never takes the "Destroying dataset failed" branch (lines 80-84). The store's recursive destroy always succeeds after a successful lookup. Destroy errors (busy datasets, CLI failures) belong to the external CLI.
- The store holds filesystems only. Snapshots (`name@snap`), which a recursive destroy also removes, are not modelled.
- The annotation map is shared between the local variable and the volume in Go (line 106, written at line 130). The model copies it into the volume after the write.
- Concurrency and the external controller's retry loop are left out. Each call runs to completion against the store.
