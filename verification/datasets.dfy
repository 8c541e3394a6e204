/** `list_available_datasets` and the dataset paths of `main`: which datasets
    exist under the raw-data root, and where a named dataset's raw data and
    derivatives live. */
module Datasets {
  import opened Text
  import Paths

  /** Every raw-data directory is named `<dataset>-rawdata`. */
  const RawSuffix: string := "-rawdata"
  /** Every derivatives directory is named `<dataset>-derivatives`. */
  const DerivativesSuffix: string := "-derivatives"

  /** The entries of the raw-data root that end in `-rawdata`, each with its
      last eight characters removed, in listing order. */
  function ListDatasets(listing: seq<string>): (r: seq<string>)
    ensures |r| <= |listing|
    ensures forall d :: d in r ==> d + RawSuffix in listing
    ensures forall name :: name in listing && EndsWith(name, RawSuffix) ==>
              name[..|name| - 8] in r
  {
    if listing == [] then []
    else
      var name := listing[0];
      var rest := ListDatasets(listing[1..]);
      if EndsWith(name, RawSuffix) then
        assert name[..|name| - 8] + RawSuffix == name;
        [name[..|name| - 8]] + rest
      else rest
  }

  /** A dataset is listed exactly when its raw-data directory is an entry. */
  lemma ListedIffRawdataEntry(listing: seq<string>, d: string)
    ensures d in ListDatasets(listing) <==> d + RawSuffix in listing
  {
  }

  /** Listing is order-preserving: it commutes with concatenation of listings. */
  lemma {:induction false} ListDatasetsAppend(a: seq<string>, b: seq<string>)
    ensures ListDatasets(a + b) == ListDatasets(a) + ListDatasets(b)
  {
    if a == [] {
      assert a + b == b;
    } else {
      assert (a + b)[1..] == a[1..] + b;
      ListDatasetsAppend(a[1..], b);
    }
  }

  /** `os.path.join(root, dataset + "-rawdata")`. */
  function RawdataPath(root: string, dataset: string): string {
    Paths.Join(root, dataset + RawSuffix)
  }

  /** `os.path.join(root, dataset + "-derivatives")`. */
  function DerivativesPath(root: string, dataset: string): string {
    Paths.Join(root, dataset + DerivativesSuffix)
  }

  /** The directory that resolving a dataset looks for is the very entry
      under which listing shows that dataset, and both paths sit in the
      configured roots. */
  lemma LocateAgreesWithListing(rawRoot: string, derivativesRoot: string, d: string)
    requires '/' !in d
    ensures ListDatasets([Paths.Basename(RawdataPath(rawRoot, d))]) == [d]
    ensures StartsWith(RawdataPath(rawRoot, d), rawRoot)
    ensures StartsWith(DerivativesPath(derivativesRoot, d), derivativesRoot)
    ensures Paths.Basename(DerivativesPath(derivativesRoot, d)) == d + DerivativesSuffix
  {
    assert '/' !in d + RawSuffix;
    assert '/' !in d + DerivativesSuffix;
    Paths.JoinThenBasename(rawRoot, d + RawSuffix);
    Paths.JoinThenBasename(derivativesRoot, d + DerivativesSuffix);
    Paths.NoSlashIsRelative(d + RawSuffix);
    Paths.NoSlashIsRelative(d + DerivativesSuffix);
    Paths.JoinExtends(rawRoot, d + RawSuffix);
    Paths.JoinExtends(derivativesRoot, d + DerivativesSuffix);
    ListedIffRawdataEntry([d + RawSuffix], d);
    assert ListDatasets([d + RawSuffix]) == [(d + RawSuffix)[..|d + RawSuffix| - 8]];
    assert (d + RawSuffix)[..|d + RawSuffix| - 8] == d;
  }
}

