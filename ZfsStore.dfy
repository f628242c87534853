/** The ZFS pool the provisioner drives through the zfs command line, as an
    in-memory store: a map from dataset name ("pool/parent/child") to the
    dataset's property map. The pure functions say what creation and recursive
    destruction do to that map; the class `Store` holds the map and performs
    them in place. */
module ZfsStore {
  import opened Wrappers

  type Properties = map<string, string>

  type Datasets = map<string, Properties>

  /** A handle on a dataset, as go-zfs returns it. */
  datatype Dataset = Dataset(name: string)

  datatype StoreError = DatasetExists(path: string) | DatasetNotFound(path: string)

  /** `name` is `root` itself or lies below it in the hierarchy. */
  predicate InSubtree(name: string, root: string) {
    name == root || root + "/" <= name
  }

  /** Creating a filesystem: refused when the name is taken, otherwise the one
      new entry with the given properties and nothing else changed. */
  function Create(ds: Datasets, path: string, props: Properties): (r: Result<Datasets, StoreError>)
    ensures r.Failure? <==> path in ds
    ensures r.Failure? ==> r.error == DatasetExists(path)
    ensures r.Success? ==> r.value.Keys == ds.Keys + {path} && r.value[path] == props
    ensures r.Success? ==> forall k | k in ds :: r.value[k] == ds[k]
  {
    if path in ds then Failure(DatasetExists(path)) else Success(ds[path := props])
  }

  /** Recursive destruction: `root` and everything below it go, every other
      dataset stays as it was. */
  function DestroyRecursive(ds: Datasets, root: string): (r: Datasets)
    ensures root !in r
    ensures forall k :: k in r <==> k in ds && !InSubtree(k, root)
    ensures forall k | k in r :: r[k] == ds[k]
  {
    map k | k in ds && !InSubtree(k, root) :: ds[k]
  }

  /** No dataset lies strictly below `root`. */
  predicate NoDescendants(ds: Datasets, root: string) {
    forall k | k in ds :: !(root + "/" <= k)
  }

  /** Destroying what was just created, under a name that had no descendants,
      gives the store back exactly as it was. */
  lemma DestroyUndoesCreate(ds: Datasets, path: string, props: Properties)
    requires path !in ds && NoDescendants(ds, path)
    ensures Create(ds, path, props).Success?
    ensures DestroyRecursive(Create(ds, path, props).value, path) == ds
  {
  }

  /** Destroying twice is destroying once. */
  lemma DestroyIdempotent(ds: Datasets, root: string)
    ensures DestroyRecursive(DestroyRecursive(ds, root), root) == DestroyRecursive(ds, root)
  {
  }

  /** The dataset store, updated in place by create and destroy. */
  class Store {
    var datasets: Datasets

    constructor (initial: Datasets)
      ensures datasets == initial
    {
      datasets := initial;
    }

    /** zfs.GetDataset: a handle when the dataset exists, not-found otherwise. */
    method GetDataset(path: string) returns (r: Result<Dataset, StoreError>)
      ensures r.Success? <==> path in datasets
      ensures r.Success? ==> r.value == Dataset(path)
      ensures r.Failure? ==> r.error == DatasetNotFound(path)
    {
      if path in datasets {
        r := Success(Dataset(path));
      } else {
        r := Failure(DatasetNotFound(path));
      }
    }

    /** zfs.CreateFilesystem: adds the dataset unless its name is taken. */
    method CreateFilesystem(path: string, props: Properties) returns (r: Result<Dataset, StoreError>)
      modifies this
      ensures r.Success? <==> path !in old(datasets)
      ensures r.Success? ==> r.value == Dataset(path) && datasets == old(datasets)[path := props]
      ensures r.Failure? ==> r.error == DatasetExists(path) && datasets == old(datasets)
      ensures Create(old(datasets), path, props).Success? ==> datasets == Create(old(datasets), path, props).value
    {
      if path in datasets {
        r := Failure(DatasetExists(path));
      } else {
        datasets := datasets[path := props];
        r := Success(Dataset(path));
      }
    }

    /** Dataset.Destroy(DestroyRecursive): removes the dataset and its descendants. */
    method Destroy(dataset: Dataset)
      modifies this
      ensures datasets == DestroyRecursive(old(datasets), dataset.name)
    {
      datasets := map k | k in datasets && !InSubtree(k, dataset.name) :: datasets[k];
    }
  }
}
