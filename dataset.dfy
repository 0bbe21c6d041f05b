/** The paired dataset (`GetDataset` in Train.py, lines 45-74): the MRI and
    PET folders are listed and sorted independently, and index i pairs the
    i-th name of each sorted list. Only the choice of the two files is
    modelled; decoding and colorising the images is not. */
module Dataset {
  import opened Wrappers
  import opened Sorting

  /** A dataset's fields: the two folders and their sorted file names. */
  datatype GetDataset = GetDataset(mriFolder: string, petFolder: string, mriFiles: seq<string>, petFiles: seq<string>)

  /** The two files a sample is read from. */
  datatype SamplePaths = SamplePaths(mriPath: string, petPath: string)

  /** Python's `IndexError` from subscripting a list out of range. */
  datatype IndexError = IndexError

  /** Builds a dataset from the folders and their listings (the names
      `os.listdir` returned, in whatever order it returned them). */
  function NewDataset(mriFolder: string, petFolder: string, mriListing: seq<string>, petListing: seq<string>): (ds: GetDataset)
    ensures ds.mriFolder == mriFolder && ds.petFolder == petFolder
    ensures Sorted(ds.mriFiles) && multiset(ds.mriFiles) == multiset(mriListing)
    ensures Sorted(ds.petFiles) && multiset(ds.petFiles) == multiset(petListing)
  {
    GetDataset(mriFolder, petFolder, Sort(mriListing), Sort(petListing))
  }

  /** `__len__`: the number of MRI files, so exactly the indices -n .. n-1
      subscript the MRI list. */
  function Length(ds: GetDataset): (n: nat)
    ensures forall i: int :: -(n as int) <= i < n <==> PyIndex(ds.mriFiles, i).Some?
  {
    |ds.mriFiles|
  }

  /** Python list subscription: a non-negative index counts from the front,
      a negative one from the back, anything else raises `IndexError`. */
  function PyIndex<T>(s: seq<T>, i: int): (r: Option<T>)
    ensures r.Some? <==> -|s| <= i < |s|
  {
    if 0 <= i < |s| then Some(s[i])
    else if -|s| <= i < 0 then Some(s[|s| + i])
    else None
  }

  /** `os.path.join` of a folder and a name: an absolute name replaces the
      folder, otherwise the two are joined with one separator. */
  function Join(folder: string, name: string): (r: string)
    ensures |name| <= |r| && r[|r| - |name|..] == name
    ensures name != [] && name[0] == '/' ==> r == name
    ensures (name == [] || name[0] != '/') ==>
      |folder| + |name| <= |r| && r[..|folder|] == folder &&
      r[|folder|..|r| - |name|] == (if folder == [] || folder[|folder| - 1] == '/' then "" else "/")
  {
    if name != [] && name[0] == '/' then name
    else if folder == [] || folder[|folder| - 1] == '/' then folder + name
    else folder + "/" + name
  }

  /** `__getitem__`: the MRI and PET files of sample `index`. Each list is
      subscribed separately, so either one can raise `IndexError`. */
  function GetItem(ds: GetDataset, index: int): (r: Result<SamplePaths, IndexError>)
    ensures r.Ok? <==> -|ds.mriFiles| <= index < |ds.mriFiles| && -|ds.petFiles| <= index < |ds.petFiles|
  {
    match PyIndex(ds.mriFiles, index)
    case None => Err(IndexError)
    case Some(mriName) =>
      match PyIndex(ds.petFiles, index)
      case None => Err(IndexError)
      case Some(petName) => Ok(SamplePaths(Join(ds.mriFolder, mriName), Join(ds.petFolder, petName)))
  }

  /** The length is the number of MRI files listed, whatever the PET folder holds. */
  lemma LengthIsMriCount(mriFolder: string, petFolder: string, mriListing: seq<string>, petListing: seq<string>)
    ensures Length(NewDataset(mriFolder, petFolder, mriListing, petListing)) == |mriListing|
  {
  }

  /** For a non-negative index, a sample exists exactly when the index is in
      range of both sorted lists, and it pairs the i-th MRI name with the i-th
      PET name. */
  lemma GetItemPairsSortedNames(ds: GetDataset, i: nat)
    ensures GetItem(ds, i).Ok? <==> i < |ds.mriFiles| && i < |ds.petFiles|
    ensures GetItem(ds, i).Ok? ==>
      GetItem(ds, i).value == SamplePaths(Join(ds.mriFolder, ds.mriFiles[i]), Join(ds.petFolder, ds.petFiles[i]))
  {
  }

  /** A negative index selects from the back of each list separately. */
  lemma GetItemNegativeIndex(ds: GetDataset, i: int)
    requires i < 0
    ensures GetItem(ds, i).Ok? <==> -|ds.mriFiles| <= i && -|ds.petFiles| <= i
    ensures GetItem(ds, i).Ok? ==>
      GetItem(ds, i).value == SamplePaths(Join(ds.mriFolder, ds.mriFiles[|ds.mriFiles| + i]),
                                          Join(ds.petFolder, ds.petFiles[|ds.petFiles| + i]))
  {
  }

  /** With folders of equal size every index below the length gives a sample
      and the length itself is out of range. */
  lemma AlignedIndexing(ds: GetDataset)
    requires |ds.mriFiles| == |ds.petFiles|
    ensures forall i: nat :: i < Length(ds) ==> GetItem(ds, i).Ok?
    ensures GetItem(ds, Length(ds)) == Err(IndexError)
  {
    forall i: nat | i < Length(ds)
      ensures GetItem(ds, i).Ok?
    {
      GetItemPairsSortedNames(ds, i);
    }
    GetItemPairsSortedNames(ds, Length(ds));
  }

  /** Nothing checks that the folders are of equal size: with fewer PET files
      than MRI files the length promises indices that fail. */
  lemma ShortPetFolderFailsInRange(ds: GetDataset)
    requires |ds.petFiles| < |ds.mriFiles|
    ensures |ds.petFiles| < Length(ds)
    ensures GetItem(ds, |ds.petFiles|) == Err(IndexError)
  {
    GetItemPairsSortedNames(ds, |ds.petFiles|);
  }

  /** The pairing does not depend on the order in which the folders are
      listed: the same names give the same dataset. */
  lemma PairingIgnoresListingOrder(mriFolder: string, petFolder: string,
                                   mri1: seq<string>, pet1: seq<string>, mri2: seq<string>, pet2: seq<string>)
    requires multiset(mri1) == multiset(mri2) && multiset(pet1) == multiset(pet2)
    ensures NewDataset(mriFolder, petFolder, mri1, pet1) == NewDataset(mriFolder, petFolder, mri2, pet2)
  {
    SortDeterministic(mri1, mri2);
    SortDeterministic(pet1, pet2);
  }
}
