# MATR training orchestration, modelled in Dafny

This project models the deterministic core of `MATR-main/Train.py`, the
training script of the MATR MRI/PET image-fusion network.

- **`AverageMeter`** (module `Meter`) is the running weighted mean that is
  kept for every logged quantity. It is a class with the fields `val`, `avg`,
  `sum` and `count`. A ghost history of observations ties the fields to
  specification functions, `WeightedSum`, `TotalCount` and `Mean`.
- **Loss composition** (module `Loss`): each of the four criterion values
  (`ssim_ir`, `ssim_vi`, `RMI_ir`, `RMI_vi`) is scaled by its entry of the
  weight list, and the four weighted terms are summed into the objective.
  The network and the criteria enter as function values.
- **One epoch** (module `Epoch`): `train` runs over a sequence of batches.
  Each batch is given as its size and its four raw criterion values. The loop
  folds the objective and the four weighted terms, scaled by the batch size,
  into five fresh meters. It returns the ordered summary `loss`,
  `loss_ssim_ir`, `loss_ssim_vi`, `loss_RMI_ir`, `loss_RMI_vi`.
- **The paired dataset** (modules `Sorting` and `Dataset`): the two folders'
  listings are sorted independently, with Python's ordering of strings.
  `__len__` is the number of MRI files. `__getitem__(i)` subscripts each
  sorted list separately, so either subscript can raise `IndexError`.
- **The run driver** (module `Run`): epochs `0 .. epochs-1` each train once.
  Each then saves a checkpoint named `models/<name>/model_<epoch+1>.pth`,
  because the guard `(epoch+1) % 1 == 0` always holds.

All arithmetic is exact (`real` for losses and averages, unbounded `nat` for
counts). `wrappers.dfy` holds `Option` and `Result`. `seqfacts.dfy` holds one
lemma about rearranged sequences.

Where the intended design and the code differ, the model follows the code,
with two exceptions listed under "## Left out". `__getitem__` joins the names
to undefined globals (lines 54-55), and `train` reads an undefined `use_gpu`
(line 106). Both would raise `NameError` as written. The model joins to the
dataset's own folders and leaves the device moves out. The code never checks
that the two folders hold the same number of files.
`ShortPetFolderFailsInRange` states the consequence: an index below `__len__`
can still raise `IndexError`. The code also does not require the weights to
be positive. A fresh meter reports
`avg == 0` rather than leaving the average undefined.

## Model

| member | source | states |
|---|---|---|
| `Meter.AverageMeter.constructor` | MATR-main/Train.py:79-86 | a new meter is reset: `val`, `avg`, `sum` and `count` are all zero and nothing has been observed |
| `Meter.AverageMeter.Reset` | MATR-main/Train.py:82-86 | zeroes all four fields and forgets every observation |
| `Meter.AverageMeter.Update` | MATR-main/Train.py:88-92 | sets `val` to the value, adds exactly `val*n` to `sum` and `n` to `count`, and appends the observation; `avg == sum/count` afterwards unless the new count is zero, when the division fails (`ok` false) and `avg` keeps its old value; the invariant tying the fields to the observations is kept |
| `Meter.SumsOfConcat` | MATR-main/Train.py:90-91 | folding two runs of observations one after the other adds their weighted sums and their counts |
| `Meter.OrderIndependentSums` | MATR-main/Train.py:90-91 | any rearrangement of the same observations gives the same `sum` and `count` |
| `Meter.OrderIndependent` | MATR-main/Train.py:88-92 | the meter's average does not depend on the order of the updates |
| `Meter.FrontFoldsAgree` | MATR-main/Train.py:90-91 | the meter's running sum and count equal the sums written from the first update on |
| `Meter.MeanIsWeightedAverage` | MATR-main/Train.py:88-92 | after updates (v_1,n_1)..(v_k,n_k) from reset with some item counted, `avg` is (sum v_i*n_i)/(sum n_i); with nothing counted it stays 0 |
| `Meter.SingleUpdateMean` | MATR-main/Train.py:88-92 | one update (v, n) with n > 0 from reset leaves `avg == v` |
| `Meter.ConstantMean` | MATR-main/Train.py:88-92 | if every observed value is v and something was counted, the average is v |
| `Meter.NonNegativeMean` | MATR-main/Train.py:88-92 | non-negative observed values give a non-negative average |
| `Loss.Compose` | MATR-main/Train.py:116-120 | the objective equals the dot product of the first four weights with the raw values (ssim_ir, ssim_vi, RMI_ir, RMI_vi), in that order |
| `Loss.ComposeTerms` | MATR-main/Train.py:116-120 | reported term k is weight[k] times raw value k, and the objective is the plain sum of the four reported terms |
| `Loss.BatchLoss` | MATR-main/Train.py:114-120 | each reported term is its weight times its criterion applied to the network output, with ssim_ir and RMI_ir compared against `ir` and ssim_vi and RMI_vi against `vi`; the objective is the weighted sum of the four criteria |
| `Loss.ZeroWeightTerm` | MATR-main/Train.py:116-120 | a zero weight still yields a reported term, equal to zero, and the objective is then the sum of the other three weighted terms |
| `Loss.NonNegativeLoss` | MATR-main/Train.py:116-120 | non-negative weights and raw values give non-negative terms and a non-negative objective |
| `Loss.DefaultWeightLoss` | MATR-main/Train.py:32 | under the default weights [1, 1, 1, 2.5] the objective is ssim_ir + ssim_vi + RMI_ir + 2.5*RMI_vi |
| `Epoch.Lookup` | MATR-main/Train.py:187-192 | a summary lookup succeeds exactly when some pair carries the key, and then returns the value of a pair with that key |
| `Epoch.LookupFirst` | MATR-main/Train.py:187-192 | a lookup returns the value of the first pair that carries the key |
| `Epoch.RecordBatch` | MATR-main/Train.py:116-126 | one batch appends, to each of the five distinct meters, its own quantity (objective or one weighted term) with the batch size, and every meter keeps its invariant |
| `Epoch.TrainEpoch` | MATR-main/Train.py:95-140 | the returned summary is the five channels' keys, in order, each with the mean that channel's meter holds after all batches in delivery order |
| `Epoch.EpochSummary` | MATR-main/Train.py:132-138 | the summary has exactly five keys: `loss`, `loss_ssim_ir`, `loss_ssim_vi`, `loss_RMI_ir`, `loss_RMI_vi`, in that order, and each key's value is the final average of the meter of the channel that key names |
| `Epoch.SummaryLookup` | MATR-main/Train.py:132-138 | looking up a channel's key gives that channel's meter average |
| `Epoch.EveryMeterCountsAllSamples` | MATR-main/Train.py:122-126 | each of the five meters ends with `count` equal to the total number of samples in the epoch |
| `Epoch.TotalSumIsSumOfTermSums` | MATR-main/Train.py:120-126 | the objective meter's `sum` is the sum of the four term meters' sums |
| `Epoch.AggregateMeanIsSumOfTermMeans` | MATR-main/Train.py:120-138 | the reported `loss` average equals the sum of the four reported term averages |
| `Epoch.ObservationsPermute` | MATR-main/Train.py:104-126 | rearranging the batches rearranges every meter's observations the same way |
| `Epoch.ShuffleInvariant` | MATR-main/Train.py:104-138 | any rearrangement of the same batches yields the same summary |
| `Epoch.NonNegativeSummary` | MATR-main/Train.py:116-138 | non-negative weights and criterion values give five non-negative averages |
| `Sorting.StrLe` | MATR-main/Train.py:50-51 | Python's string order: `a` sorts no later than `b` exactly when `a` is a prefix of `b` or, at the first position where they differ, `a` has the smaller code point |
| `Sorting.Sort` | MATR-main/Train.py:50-51 | `sorted` returns a sorted rearrangement of the listing, of the same length |
| `Sorting.SortedUnique` | MATR-main/Train.py:50-51 | two sorted lists that hold the same names are equal, so any correct sort gives this result |
| `Sorting.SortDeterministic` | MATR-main/Train.py:50-51 | the sorted list depends only on which names are listed, not on the order in which they are listed |
| `Dataset.NewDataset` | MATR-main/Train.py:46-51 | the dataset keeps both folders, and each file list is a sorted rearrangement of that folder's listing |
| `Dataset.PyIndex` | MATR-main/Train.py:54-55 | list subscription succeeds exactly for -len <= i < len |
| `Dataset.Join` | MATR-main/Train.py:54-55 | the joined path ends with the file name; an absolute name replaces the folder; a relative name stays under the folder, with exactly one `/` between them unless the folder is empty or already ends in `/` |
| `Dataset.Length` | MATR-main/Train.py:73-74 | `__len__` is the MRI count: exactly the indices -len .. len-1 subscript the MRI list |
| `Dataset.GetItem` | MATR-main/Train.py:53-55 | a sample is returned exactly when the index subscripts both sorted lists (-len <= i < len for each list); otherwise `IndexError` |
| `Dataset.LengthIsMriCount` | MATR-main/Train.py:73-74 | the length is the number of MRI files listed, whatever the PET folder holds |
| `Dataset.GetItemPairsSortedNames` | MATR-main/Train.py:53-55 | a non-negative index gives a sample exactly when it is below both list lengths; the sample pairs `sorted(mri)[i]` with `sorted(pet)[i]`, each joined to its folder |
| `Dataset.GetItemNegativeIndex` | MATR-main/Train.py:53-55 | a negative index counts from the back of each list separately |
| `Dataset.AlignedIndexing` | MATR-main/Train.py:50-74 | if the folders hold equally many files, every index below the length gives a sample and the length itself raises `IndexError` |
| `Dataset.ShortPetFolderFailsInRange` | MATR-main/Train.py:50-74 | with fewer PET files than MRI files, index `len(pet_files)` is below the length and still raises `IndexError` |
| `Dataset.PairingIgnoresListingOrder` | MATR-main/Train.py:50-51 | listing order does not matter: the same two sets of names give the same dataset |
| `Run.Decimal` | MATR-main/Train.py:196 | an epoch number is rendered as `str(n)`: a non-empty string of decimal digits with no leading zero |
| `Run.DecimalRoundTrip` | MATR-main/Train.py:196 | reading back the digits of the rendered number gives the number |
| `Run.CheckpointPath` | MATR-main/Train.py:196 | the checkpoint path starts with `models/<name>/model_` and ends in `.pth`, and the digits between read back as the epoch number |
| `Run.CheckpointPathsDistinct` | MATR-main/Train.py:196 | two checkpoint paths of one run are equal exactly when their epoch numbers are equal |
| `Run.CheckpointNumberingIsComplete` | MATR-main/Train.py:182-196 | the saved epoch numbers are exactly 1..N, each once, in increasing order |
| `Run.RunTraining` | MATR-main/Train.py:182-196 | over max(epochs, 0) epochs, epoch e returns the summary of its own batches, and one checkpoint is saved after every epoch e, at `models/<name>/model_<e+1>.pth` |
| `Run.NoCheckpointOverwritten` | MATR-main/Train.py:195-196 | no checkpoint of a run overwrites another |

## Left out

- Image loading and rendering (`MATR-main/Train.py:56-71`) is left out: `Image.open`, `cv2.imread`, the `jet` colormap, the background mask, the transforms and the channel concatenation are calls into foreign libraries. As written, these lines cannot run. `cv2` and `plt` are never imported, and the mask at line 60 is computed from an undefined `x` rather than from the PET intensities. Which array the mask should be computed from is left open.
- `Dataset.GetItem` joins names to the dataset's own folders. The source joins them to the names `MRIFolder` and `PETFolder` (lines 54-55). These are not defined at module level, so as written `__getitem__` would raise `NameError`.
- The network, `zero_grad`, `backward`, `optimizer.step` (lines 128-130), `DataParallel` and the device moves are left out. The model does not compute the effect of training on later batches. That effect is an input: each epoch receives the raw losses that the network of that moment produced. The device branch at line 106 reads an undefined `use_gpu`.
- `DataLoader` shuffling and batching (line 170) become an input: a sequence of batches, each with at least one sample, since the loader never yields an empty batch. `ShuffleInvariant` shows that the order does not change the summary when the batches are the same.
- Listing the folders (`os.listdir`, lines 50-51) is left out. The listings are inputs. A missing, non-directory or unreadable folder makes construction raise `FileNotFoundError`, `NotADirectoryError` or `PermissionError`, and the model does not have that error path.
- File names are assumed to be valid Unicode. On POSIX, `os.listdir` turns undecodable bytes into surrogate-escaped code points (U+DC80 to U+DCFF), which a Dafny string cannot hold.
- Argument parsing (lines 25-39) is left out, apart from the default weight list. The `--weight` option has `type=float`, so a value given on the command line would not be a list. The model takes a list of at least four weights.
- Writing the configuration (`args.txt`, `args.pkl`, lines 147-159), creating the output directory and writing checkpoint bytes (`torch.save`, line 196) are left out. Only the sequence of checkpoint paths is modelled.
- `print` output, `tqdm` progress and `cudnn.benchmark` are left out.
- Floating-point rounding is not modelled: sums and averages are exact reals.
- `Meter.AverageMeter.Update`: `n` is a natural number. The source also accepts negative or fractional `n`, and has a default `n=1`, which no caller here uses.
- `Sorting.Sort` is an insertion sort. Python uses Timsort. Both produce the one sorted arrangement (see `Sorting.SortedUnique`).
- `Dataset.Join` models two-argument POSIX `os.path.join` only.
- The unused `epoch` and `scheduler` parameters of `train` are not modelled.
