# PlantVillage dataset builder — a Dafny model

This project models the dataset-building pipeline of `create_datasets.py`.
The pipeline takes a catalog of PlantVillage leaf images
(vegetable type → class directory → images). It writes six families of
train/test datasets:

- binary healthy/unhealthy for each vegetable type, unbalanced and balanced;
- multiclass for each vegetable type, unbalanced and balanced;
- binary over all vegetable types together, unbalanced and balanced.

The modules follow the pipeline's parts:

- `Text`: the Python string operations used (`lower`, `in`, `replace` with and without a count, `strip`, integer formatting).
- `Labels`: `clean_class_name`, `get_veggie_type` and the `'healthy' in name.lower()` test.
- `LabelExamples`: the cleaning and detection worked out on real directory names.
- `Dicts`: Python's insertion-ordered `dict` with string keys, as a sequence of entries.
- `Random`: `random.shuffle` (the Fisher–Yates pass, in place on an array) and `random.sample` (the pool algorithm). Both draw from an arbitrary stream of raw numbers held by an `Rng` object.
- `Splitting`: `train_test_split`.
- `Balancing`: `undersample_balance`.
- `Bucketing`: the healthy/unhealthy `extend` loops.
- `Output`: the destination tree (a set of directories and a map from file path to the source image copied there) and `copy_images`.
- `Datasets`: `create_binary_dataset` / `create_multiclass_dataset`. Their bodies are identical, so one method models both.
- `Assembler`: `create_binary_per_veggie`, `create_multiclass_per_veggie`, `create_binary_all_veggies` and the dataset-writing part of `main`.

Float ratios are exact rationals: `0.8` is 4/5, `0.4` is 2/5 and `0.2` is 1/5. Python's
`int(x)` of a non-negative ratio is truncating division.

Two consequences of the order of the replacements in `clean_class_name` (create_datasets.py:18-22) are easy to miss:

- `clean_class_name("Pepper__bell___healthy", "Pepper")` gives `"bell_healthy"`, not `"healthy"`. The removal of `pepper__` happens before the separators are collapsed, and `bell` is not a vegetable token (`LabelExamples.CleanPepperBellHealthy`).
- Cleaning does not collapse every run of underscores. Five underscores become two, so cleaning is not idempotent on such input (`LabelExamples.CleanLeavesDoubledUnderscore`, `LabelExamples.CleanIsNotIdempotent`). It is idempotent on labels that are already clean (`Labels.CleanFixesCleanLabel`).

## Model

| member | source | states |
|---|---|---|
| `Text.Lower` | create_datasets.py:15-16 | `lower()` keeps the length |
| `Text.Contains` | create_datasets.py:28 | definition of `sub in s`: `sub` occurs at some position; the Python `in` tests at :28 and :98 are this predicate |
| `Text.ReplaceAll` | create_datasets.py:18-21 | definition of `replace(p, r)`: occurrences are found left to right and do not overlap; properties in `Text.ReplaceAllChars`, `ReplaceAllNoMatch`, `ReplaceAllAcross` |
| `Text.LowerChars` | create_datasets.py:15-16 | `lower()` works character by character, and no upper-case letter is left |
| `Text.ReplaceFirst` | create_datasets.py:20 | `replace(p, r, 1)`: unchanged when `p` does not occur; otherwise the length changes by `|r| - |p|`, and only characters of the input and of `r` appear |
| `Text.ReplaceFirstLeftmost` | create_datasets.py:20 | when `p` occurs, the replaced occurrence is the leftmost one: the result is the text before it, then `r`, then the text after it |
| `Text.ReplaceAllChars` | create_datasets.py:18-21 | `replace(p, r)` introduces only characters of `r`, and never lengthens when `r` is no longer than `p` |
| `Text.ReplaceAllNoMatch` | create_datasets.py:18-21 | `replace` leaves a string without the pattern unchanged |
| `Text.ReplaceAllAcross` | create_datasets.py:18-21 | `replace` works independently on the two sides of a character the pattern lacks |
| `Text.Strip` | create_datasets.py:22 | `strip('_')` gives a slice of the input with no `_` at either end, having removed only `_` characters |
| `Text.NatToString` | create_datasets.py:82 | the decimal rendering of the `{idx}` in the file name: non-empty, digits only |
| `Text.NatToStringInjective` | create_datasets.py:82 | different indexes render to different decimal strings |
| `Labels.RemoveVeggie` | create_datasets.py:18-20 | definition of the three vegetable-prefix removals in source order (all `veg___`, all `veg__`, the first `veg_`); its shape is in `Labels.RemoveVeggieShape` |
| `Labels.CollapseSeparators` | create_datasets.py:21-22 | definition of the two chained collapses and the strip; its shape is in `Labels.CollapseShape` |
| `Labels.CleanClassName` | create_datasets.py:14-24 | definition of `clean_class_name`: lower both names, remove the prefixes, collapse, strip; properties in `Labels.CleanClassNameShape`, `CleanFixesCleanLabel`, `CleanStripsTriplePrefix` |
| `Labels.IsHealthyClass` | create_datasets.py:98 | definition of the bucketing test `'healthy' in class_name.lower()`, also used at :185 |
| `Labels.CleanClassNameShape` | create_datasets.py:14-24 | a cleaned name is lower case, has no `_` at either end, is no longer than the input and uses only its characters |
| `Labels.CleanFixesCleanLabel` | create_datasets.py:14-24 | cleaning a label already in cleaned form returns it unchanged |
| `Labels.CleanStripsTriplePrefix` | create_datasets.py:13-24 | `Veg___label` cleans to the lower-cased label when that label is clean |
| `Labels.FirstNamedVeggie` | create_datasets.py:27-30 | returns the first list entry that occurs case-insensitively in the name, and None exactly when no entry does |
| `Labels.NamesVeggie` | create_datasets.py:28 | definition of the test `veggie.lower() in class_name.lower()` |
| `Labels.GetVeggieType` | create_datasets.py:26-30 | `get_veggie_type` with the list `Labels.Veggies` = `VEGGIES = [Potato, Tomato, Pepper]` (create_datasets.py:11) tried in that order |
| `Labels.UnhealthyIsBucketedHealthy` | create_datasets.py:98 | a class name containing "unhealthy" passes the `'healthy' in` test |
| `LabelExamples.CleanTomatoEarlyBlight` | create_datasets.py:13-24 | `clean_class_name("Tomato___Early_blight", "Tomato") == "early_blight"` |
| `LabelExamples.CleanPepperBellHealthy` | create_datasets.py:18-22 | `clean_class_name("Pepper__bell___healthy", "Pepper") == "bell_healthy"` |
| `LabelExamples.CleanLeavesDoubledUnderscore` | create_datasets.py:21 | five underscores collapse to two, not one |
| `LabelExamples.CleanIsNotIdempotent` | create_datasets.py:21-22 | cleaning twice can differ from cleaning once |
| `LabelExamples.VeggieOfTomatoEarlyBlight` | create_datasets.py:26-30 | "Tomato___Early_blight" is a Tomato directory |
| `LabelExamples.VeggieOfPepperBellHealthy` | create_datasets.py:26-30 | "Pepper__bell___healthy" is a Pepper directory |
| `LabelExamples.VeggieOfUnknownMysteryLeaf` | create_datasets.py:26-30 | a directory naming no vegetable gets None (the collector skips it) |
| `Dicts.Get` | create_datasets.py:130 | lookup finds a key exactly when it is among the keys |
| `Dicts.Assign` | create_datasets.py:130 | `d[k] = v`: an existing key keeps the length, a new key is appended at the end |
| `Dicts.GetAssign` | create_datasets.py:130 | after `d[k] = v`, `k` gives `v` and every other key gives what it gave before |
| `Dicts.KeysAssign` | create_datasets.py:143 | `d[k] = v` keeps the key order for an existing key and appends a new one |
| `Dicts.DistinctAssign` | create_datasets.py:143 | assignment keeps keys distinct |
| `Dicts.AssignAll` | create_datasets.py:141-143 | definition of a run of `d[k] = v` assignments in order; properties in `Dicts.AssignAllLastWins`, `AssignAllKeys` |
| `Dicts.AssignAllLastWins` | create_datasets.py:141-143 | of several assignments to one key, the last one wins |
| `Dicts.AssignAllKeys` | create_datasets.py:141-143 | the keys after a run of assignments are distinct: the old keys plus the assigned ones |
| `Random.Rng.Below` | create_datasets.py:57 | one draw below `n`, which advances the generator by one |
| `Random.ShuffledFrom` | create_datasets.py:57 | definition of the Fisher–Yates pass of `random.shuffle` from index `i` down to 1, swapping `i` with a draw below `i + 1` |
| `Random.Shuffled` | create_datasets.py:57 | definition of `random.shuffle` on a list; properties in `Random.ShuffledPermutes`, and `Random.Shuffle` computes it in place |
| `Random.Picked` | create_datasets.py:72 | definition of the pool algorithm of `random.sample`: draw below the remaining pool size, take that element, move the last one into its place; properties in `Random.PickedSubMultiset` |
| `Random.ShuffledPermutes` | create_datasets.py:57 | a shuffle is a permutation: same length, same multiset |
| `Random.Shuffle` | create_datasets.py:57 | the in-place Fisher–Yates pass on an array leaves the shuffle of its old contents and uses `n - 1` draws |
| `Random.PickedSubMultiset` | create_datasets.py:72 | a sample of `k` has exactly `k` elements drawn without replacement |
| `Random.Sample` | create_datasets.py:72 | `random.sample(population, k)` returns that sample and uses `k` draws |
| `Splitting.SplitIndex` | create_datasets.py:59 | definition of `int(len(images) * train_ratio)` on an exact ratio; bounds in `Splitting.SplitIndexBounds` |
| `Splitting.TrainHalf` | create_datasets.py:55-60 | definition of the first value of `train_test_split`: the shuffled copy up to the cut |
| `Splitting.TestHalf` | create_datasets.py:55-60 | definition of the second value: the shuffled copy from the cut; together with the first in `Splitting.SplitPartition` |
| `Splitting.SplitIndexBounds` | create_datasets.py:59 | the cut is `floor(n * ratio)` |
| `Splitting.SplitIndexAtMost` | create_datasets.py:59-60 | a ratio of at most one never cuts past the end |
| `Splitting.Cut` | create_datasets.py:59-60 | a slice bound past the end is the end |
| `Splitting.SplitPartition` | create_datasets.py:55-60 | train followed by test is the shuffled list; sizes are the cut and the rest; together they are a permutation of the input |
| `Splitting.TrainRatioSizes` | create_datasets.py:10 | with 0.8, `5 * train <= 4 * n < 5 * train + 5` |
| `Splitting.TrainTestSplit` | create_datasets.py:55-60 | the method returns those halves; the caller's list is a value and is not changed |
| `Balancing.MinCount` | create_datasets.py:64-65 | the size of some class, no larger than any class |
| `Balancing.TargetMax` | create_datasets.py:67 | definition of `int(min_count / target_ratio)` on an exact ratio; bounds in `Balancing.TargetMaxBounds` |
| `Balancing.TargetMaxBounds` | create_datasets.py:67 | the cap is `floor(min_count / ratio)` |
| `Balancing.TargetMaxAtLeastMin` | create_datasets.py:67 | with a ratio of at most one the cap is at least the smallest class |
| `Balancing.Balanced` | create_datasets.py:69-76 | balancing keeps the number of classes |
| `Balancing.BalancedShape` | create_datasets.py:70-74 | same keys in the same order; a class at most the cap is unchanged; a larger one becomes exactly `cap` of its own images without replacement |
| `Balancing.BalancedRatioBound` | create_datasets.py:62-76 | no class exceeds `min_count / ratio`, and with a ratio of at most one the smallest class is kept whole |
| `Balancing.BalancedEmptyClass` | create_datasets.py:65-74 | one empty class makes every class empty |
| `Balancing.UndersampleBalance` | create_datasets.py:63-76 | the loop computes the balanced dict and uses one draw per sampled image |
| `Bucketing.HealthyImages` | create_datasets.py:97-99 | definition of the healthy bucket: the images of the classes passing the test, in class order |
| `Bucketing.UnhealthyImages` | create_datasets.py:97-101 | definition of the unhealthy bucket: the images of the other classes, in class order |
| `Bucketing.AllClasses` | create_datasets.py:183-184 | definition of the nested iteration: the classes of every vegetable type, type after type |
| `Bucketing.HealthyConcat` | create_datasets.py:97-101 | bucketing a concatenation of classes concatenates the healthy buckets, so class order is kept |
| `Bucketing.UnhealthyConcat` | create_datasets.py:97-101 | the same for the unhealthy bucket |
| `Bucketing.BucketsPartition` | create_datasets.py:97-101 | the two buckets together hold every image exactly as often as the classes do; `|healthy| + |unhealthy|` is the total |
| `Bucketing.HealthyMembers` | create_datasets.py:98-99 | an image is in the healthy bucket iff some class passing the test has it |
| `Bucketing.UnhealthyMembers` | create_datasets.py:100-101 | an image is in the unhealthy bucket iff some class failing the test has it |
| `Bucketing.ExtendBuckets` | create_datasets.py:97-101 | the `extend` loop appends each class's images to the bucket the test picks, in class order |
| `Bucketing.AllClassesConcat` | create_datasets.py:183-184 | the classes of two catalogs joined are the classes of each joined |
| `Bucketing.BucketAllVeggies` | create_datasets.py:183-188 | the nested loop buckets the classes of all types, type after type |
| `Output.DestName` | create_datasets.py:82 | definition of the file name `"{class_name}.{idx}.jpg"`; injective by `Output.DestNameInjective` |
| `Output.Dest` | create_datasets.py:82 | definition of `dest_dir / name` |
| `Output.CopyStep` | create_datasets.py:83-86 | definition of one `copy2` attempt: the destination maps to the image when the copy succeeds, nothing changes otherwise |
| `Output.CopyAll` | create_datasets.py:81-86 | definition of the copy loop from index `start_idx`; properties in `Output.CopyAllWrites`, `CopyAllSkips`, `CopyAllFrame` |
| `Output.Ancestors` | create_datasets.py:79 | `mkdir(parents=True)` creates the directory and only prefixes of it |
| `Output.DestNameInjective` | create_datasets.py:82 | `"{class}.{i}.jpg"` names differ for different indexes |
| `Output.CopyAllWrites` | create_datasets.py:81-84 | a successful copy of image `i` puts it in `"{class}.{start_idx + i}.jpg"` |
| `Output.CopyAllSkips` | create_datasets.py:83-86 | a failed copy leaves its destination as it was |
| `Output.CopyAllFrame` | create_datasets.py:78-88 | every file not named by the call keeps its presence and content |
| `Output.OutputTree.MakeDirs` | create_datasets.py:79 | adds the directory and its ancestors; files unchanged |
| `Output.OutputTree.Copy` | create_datasets.py:83-86 | `copy2` overwrites the destination on success and changes nothing on failure |
| `Output.OutputTree.CopyImages` | create_datasets.py:78-88 | the loop leaves the files `CopyAll` describes and returns `len(images)` even when copies fail |
| `Datasets.TrainDir` | create_datasets.py:128 | definition of `output_dir / 'train' / class_name` |
| `Datasets.TestDir` | create_datasets.py:132 | definition of `output_dir / 'test' / class_name` |
| `Datasets.MaterialiseClass` | create_datasets.py:127-134 | definition of one loop iteration: split, copy the training images, copy the test images |
| `Datasets.Materialise` | create_datasets.py:126-134 | definition of the whole loop, class after class; properties in the `Datasets.Materialise*` lemmas |
| `Datasets.ClassDirsDistinct` | create_datasets.py:128-132 | train and test directories never coincide, and different classes have different directories |
| `Datasets.MaterialiseDraws` | create_datasets.py:126-127 | a dataset uses exactly one shuffle per class |
| `Datasets.MaterialiseFrame` | create_datasets.py:126-134 | files outside the classes' directories are untouched |
| `Datasets.MaterialiseOutside` | create_datasets.py:121-134 | nothing outside `output_dir` is written |
| `Datasets.MaterialiseTrainPlaces` | create_datasets.py:127-130 | training image `j` of a class, if copied, is `train/<class>/<class>.<j>.jpg` at the end; no later class overwrites it |
| `Datasets.MaterialiseTestPlaces` | create_datasets.py:132-134 | the same for the test images under `test/<class>` |
| `Datasets.MaterialiseDirs` | create_datasets.py:128-133 | every class's train and test directories exist; every new directory is above one of them |
| `Datasets.CreateDataset` | create_datasets.py:121-134 | the loop reaches the state `Materialise` describes; per-class stats are `train = floor(0.8 n)` and `train + test = n` |
| `Assembler.BalancedVariant` | create_datasets.py:110-118 | definition of writing the balanced variant (also :152-160): the balanced dict is materialised after the draws that balancing used |
| `Assembler.WithBalanced` | create_datasets.py:103-119 | definition of writing a dataset, balancing it with the cap from its smallest class, and writing the balanced variant with the draws that follow |
| `Assembler.BinaryOfVeggie` | create_datasets.py:94-119 | definition of one iteration of `create_binary_per_veggie` |
| `Assembler.BinaryPerVeggie` | create_datasets.py:90-119 | definition of `create_binary_per_veggie`: the iterations in catalog order |
| `Assembler.Renamed` | create_datasets.py:141-142 | definition of the class list with each name cleaned, in class order |
| `Assembler.CleanedClasses` | create_datasets.py:140-143 | definition of `cleaned_data`: the cleaned entries assigned in order to an empty dict; properties in `Assembler.CleanedClassesKeys`, `CleanedClassesLastWins` |
| `Assembler.MulticlassOfVeggie` | create_datasets.py:140-161 | definition of one iteration of `create_multiclass_per_veggie` |
| `Assembler.MulticlassPerVeggie` | create_datasets.py:136-161 | definition of `create_multiclass_per_veggie`: the iterations in catalog order |
| `Assembler.BinaryAllVeggies` | create_datasets.py:179-206 | definition of `create_binary_all_veggies` |
| `Assembler.BuildAll` | create_datasets.py:225-228 | definition of the dataset-writing part of `main`: create the output directory together with its ancestors, then the three families |
| `Assembler.BinaryClasses` | create_datasets.py:105 | the binary dict has keys "healthy" then "unhealthy" |
| `Assembler.CreateWithBalanced` | create_datasets.py:103-119 | writing a dataset, balancing it and writing the balanced variant ends in the state `WithBalanced` describes |
| `Assembler.WithBalancedOutside` | create_datasets.py:103-119 | the two variants write only below their own directories |
| `Assembler.CreateBinaryPerVeggie` | create_datasets.py:90-119 | per vegetable: bucket, write `<veggie>_binary`, balance with 0.4, write `<veggie>_binary_balanced` |
| `Assembler.CleanedClassesKeys` | create_datasets.py:140-143 | the keys of `cleaned_data` are distinct and are exactly the cleaned class names; with classes, the dict is non-empty |
| `Assembler.CleanedClassesLastWins` | create_datasets.py:141-143 | when class names clean to the same label, the later class's images are kept |
| `Assembler.CleanClasses` | create_datasets.py:140-143 | the loop builds that dict |
| `Assembler.CreateMulticlassPerVeggie` | create_datasets.py:136-161 | per vegetable: clean names, write `<veggie>_multiclass`, balance with 0.2, write `<veggie>_multiclass_balanced` |
| `Assembler.CreateBinaryAllVeggies` | create_datasets.py:179-206 | bucket all classes of all types, write `all_veggies_binary`, balance with 0.4, write `all_veggies_binary_balanced` |
| `Assembler.BuildDatasets` | create_datasets.py:225-228 | create the output directory together with its ancestors, then the three families in the order of `main` |
| `Assembler.BinaryOfVeggieOutside` | create_datasets.py:103-118 | one vegetable's binary datasets write only below the output directory |
| `Assembler.MulticlassOfVeggieOutside` | create_datasets.py:145-161 | one vegetable's multiclass datasets write only below the output directory |
| `Assembler.BinaryPerVeggieOutside` | create_datasets.py:90-119 | all per-vegetable binary datasets write only below the output directory |
| `Assembler.MulticlassPerVeggieOutside` | create_datasets.py:136-161 | all per-vegetable multiclass datasets write only below the output directory |
| `Assembler.BuildAllOutside` | create_datasets.py:219-228 | a whole run leaves every file outside the output directory as it was |
| `Assembler.BinaryBalancedBuckets` | create_datasets.py:110-114 | balanced binary buckets: the unbalanced ones add up to all images; neither balanced bucket exceeds 2.5 × the smaller; the smaller is kept whole |
| `Assembler.BinaryScenario` | create_datasets.py:59-74 | 20 healthy / 80 unhealthy split 16/4 and 64/16; balancing at 0.4 keeps the 20 and cuts the 80 to 50 |

## Left out

- `collect_images` (create_datasets.py:33-53): the directory walk, the `is_dir`/`is_file` tests, the extension filter and the sorting are filesystem I/O. The model starts from the catalog. Only the vegetable detection it applies to each directory name is modelled (`Labels.GetVeggieType`). A vegetable type appears in the catalog only with at least one class (`Assembler.WellFormed`).
- `print_summary`, every `print` call and the warning output are console output.
- `main`'s hard-coded paths become the `outputPath` parameter of `Assembler.BuildDatasets`.
- `random.seed(42)` and the generator are not modelled. Draws come from an arbitrary stream (`Random.Rng`), so reproducibility under a fixed seed is not a statement of the model.
- `Random.Rng.Below`: CPython's `_randbelow` uses rejection sampling on `getrandbits`. The model takes the next raw draw modulo `n`, which may differ in distribution but not in range.
- `Random.Sample`: only CPython's pool algorithm is modelled. For large populations CPython switches to a set-based selection; this also gives `k` distinct positions, but in a different order.
- Floating point: `int(len * 0.8)` and `int(min_count / ratio)` are computed on exact rationals. Float rounding (for instance 0.8 not being exactly representable) is not modelled.
- `Balancing.UndersampleBalance`: a ratio of zero, which raises `ZeroDivisionError` in the source, is excluded by its requires. Every call site passes 0.4 or 0.2.
- `Text.Lower`: only ASCII letters are lower-cased. Python's Unicode case mapping is not modelled; PlantVillage directory names are ASCII.
- Output.CopyStep: a failed copy attempt leaves the files as they were. Only failures before the destination is opened are modelled; see the next line. `Output.CopyAll` and `Output.OutputTree.CopyImages` are built on this step and inherit the restriction.
- Output.OutputTree.Copy: a failed copy leaves the destination as it was. This models only failures before the destination is opened, such as a missing or unreadable source image. `shutil.copy2` opens the destination for writing before it copies the data, which truncates it, and copies the metadata afterwards. A failure during or after that (a full disk, a `chmod` or `utime` error) leaves a truncated or rewritten destination, and the model does not capture that state.
- Output.CopyAllSkips: the same restriction; its "unchanged on failure" holds only for failures before the destination is opened.
- Path resolution: a directory is a sequence of opaque components. pathlib and the operating system resolve `.` and `..` and drop empty components; the model does not. A class whose cleaned name is `""`, `"."` or `".."` is outside the model. For instance, a directory `Tomato___..` is a Tomato class and cleans to `..`. In the source its `train/..` and `test/..` directories are then both the dataset root.
- Datasets.ClassDirsDistinct: holds for opaque components only. With a class cleaned to `..`, the train and test directories coincide in the source.
- Datasets.MaterialiseTrainPlaces: holds for opaque components only. With a class cleaned to `..`, test image j overwrites train image j in the source.
- Datasets.MaterialiseTestPlaces: holds for opaque components only. A later class cleaned to `..` can overwrite the test copies of another class's directory in the source.
- Datasets.MaterialiseFrame: holds for opaque components only. With a class cleaned to `..` or `.`, the source writes into a directory other than the one the model names.
- Datasets.MaterialiseDirs: holds for opaque components only. With a class cleaned to `""`, `.` or `..`, the source creates no separate class directory.
- Assembler.BuildAll: `output_dir.mkdir(exist_ok=True)` at create_datasets.py:225 has no `parents=True`, so the source raises when the parent directory is missing. The model creates the missing ancestors instead.
- `shutil.copy2`'s copying of file metadata, and the failure of `mkdir` itself, are not modelled. Whether a copy succeeds is decided by the environment (`copyOk`).
- The `stats` dicts of `create_*_dataset` are local to the source and are discarded. The model returns them from `Datasets.CreateDataset` so that their content can be stated.
- `plant_leaf_disease_classifier_code/test.py` is camera capture, serial I/O and display; it is not part of this model.
