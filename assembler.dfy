/**
  The top level of the dataset builder: the per-vegetable binary
  datasets, the per-vegetable multiclass datasets and the binary
  dataset over all vegetables, each written once as it is and once
  balanced.  The catalog is `{veggie_type: {class_name: images}}`; as
  `collect_images` builds it, a vegetable type is present only with at
  least one class.
*/
module Assembler {
  import opened Wrappers
  import opened Arith
  import opened Dicts
  import opened Random
  import opened Splitting
  import opened Balancing
  import opened Bucketing
  import opened Labels
  import opened Output
  import opened Datasets

  /** The catalog: vegetable type to class name to images. */
  type Catalog = Dict<Dict<seq<ImagePath>>>

  /** `target_ratio=0.4` of the binary datasets. */
  const BinaryBalanceRatio: Ratio := Fraction(2, 5)

  /** `target_ratio=0.2` of the multiclass datasets. */
  const MulticlassBalanceRatio: Ratio := Fraction(1, 5)

  /** Every vegetable type of the catalog has at least one class. */
  predicate WellFormed(data: Catalog) {
    forall v :: 0 <= v < |data| ==> |data[v].1| > 0
  }

  lemma WellFormedTail(data: Catalog)
    requires WellFormed(data) && data != []
    ensures WellFormed(data[1..])
  {
    forall v | 0 <= v < |data[1..]| ensures |data[1..][v].1| > 0 {
      assert data[1..][v] == data[v + 1];
    }
  }

  /** `{'healthy': healthy_images, 'unhealthy': unhealthy_images}`. */
  function BinaryClasses(healthy: seq<ImagePath>, unhealthy: seq<ImagePath>): (r: Dict<seq<ImagePath>>)
    ensures Keys(r) == ["healthy", "unhealthy"] && DistinctKeys(r)
  {
    [("healthy", healthy), ("unhealthy", unhealthy)]
  }

  /**
    The state after writing the `balanced` classes to `balancedDir`,
    starting from `s1` and after the `draws` that balancing used.
  */
  function BalancedVariant(s1: State, balanced: Dict<seq<ImagePath>>, draws: nat, balancedDir: Dir,
                           stream: nat -> nat, ok: (ImagePath, FilePath) -> bool): State
  {
    Materialise(State(s1.files, s1.dirs, s1.drawn + draws), balanced, balancedDir, stream, ok)
  }

  /**
    The state after writing `data` to `normalDir`, then balancing it with
    `ratio` and writing the balanced classes to `balancedDir`: the steps
    each `create_*` function repeats for its two variants.
  */
  function WithBalanced(s: State, data: Dict<seq<ImagePath>>, ratio: Ratio, normalDir: Dir, balancedDir: Dir,
                        stream: nat -> nat, ok: (ImagePath, FilePath) -> bool): State
    requires |data| > 0 && ratio.num > 0
  {
    var s1 := Materialise(s, data, normalDir, stream, ok);
    var cap := TargetMax(MinCount(data), ratio);
    BalancedVariant(s1, Balanced(data, cap, stream, s1.drawn), BalanceDraws(data, cap), balancedDir, stream, ok)
  }

  /** The balanced variant, from the state before writing it. */
  lemma BalancedVariantIs(s1: State, balanced: Dict<seq<ImagePath>>, draws: nat, balancedDir: Dir,
                          stream: nat -> nat, ok: (ImagePath, FilePath) -> bool, s2: State, r: State)
    requires s2 == State(s1.files, s1.dirs, s1.drawn + draws)
    requires r == Materialise(s2, balanced, balancedDir, stream, ok)
    ensures r == BalancedVariant(s1, balanced, draws, balancedDir, stream, ok)
  {}

  /**
    Write `data` as it is, then balanced: the three calls every `create_*`
    function makes for a dataset and its balanced variant.
  */
  method CreateWithBalanced(tree: OutputTree, data: Dict<seq<ImagePath>>, ratio: Ratio, normalDir: Dir, balancedDir: Dir, rng: Rng)
    requires |data| > 0 && ratio.num > 0 && DistinctKeys(data)
    modifies tree, rng
    ensures State(tree.files, tree.dirs, rng.drawn)
            == WithBalanced(State(old(tree.files), old(tree.dirs), old(rng.drawn)), data, ratio, normalDir, balancedDir,
                            rng.stream, tree.copyOk)
  {
    ghost var s0 := State(tree.files, tree.dirs, rng.drawn);
    var _, _ := CreateDataset(tree, data, normalDir, rng);
    ghost var s1 := State(tree.files, tree.dirs, rng.drawn);
    var balanced := UndersampleBalance(data, ratio, rng);
    BalancedShape(data, TargetMax(MinCount(data), ratio), rng.stream, s1.drawn);
    DistinctKeysOfKeys(balanced, data);
    ghost var s2 := State(tree.files, tree.dirs, rng.drawn);
    var _, _ := CreateDataset(tree, balanced, balancedDir, rng);
    BalancedVariantIs(s1, balanced, BalanceDraws(data, TargetMax(MinCount(data), ratio)), balancedDir, rng.stream, tree.copyOk,
                      s2, State(tree.files, tree.dirs, rng.drawn));
  }

  /** Both variants write only below their own directories. */
  lemma WithBalancedOutside(s: State, data: Dict<seq<ImagePath>>, ratio: Ratio, normalDir: Dir, balancedDir: Dir,
                            stream: nat -> nat, ok: (ImagePath, FilePath) -> bool, p: FilePath)
    requires |data| > 0 && ratio.num > 0
    requires !(normalDir <= p.dir) && !(balancedDir <= p.dir)
    ensures var r := WithBalanced(s, data, ratio, normalDir, balancedDir, stream, ok).files;
            && (p in r <==> p in s.files)
            && (p in s.files ==> r[p] == s.files[p])
  {
    var s1 := Materialise(s, data, normalDir, stream, ok);
    var cap := TargetMax(MinCount(data), ratio);
    MaterialiseOutside(s, data, normalDir, stream, ok, p);
    BalancedVariantOutside(s1, Balanced(data, cap, stream, s1.drawn), BalanceDraws(data, cap), balancedDir, stream, ok, p);
  }

  lemma BalancedVariantOutside(s1: State, balanced: Dict<seq<ImagePath>>, draws: nat, balancedDir: Dir,
                               stream: nat -> nat, ok: (ImagePath, FilePath) -> bool, p: FilePath)
    requires !(balancedDir <= p.dir)
    ensures var r := BalancedVariant(s1, balanced, draws, balancedDir, stream, ok).files;
            && (p in r <==> p in s1.files)
            && (p in s1.files ==> r[p] == s1.files[p])
  {
    MaterialiseOutside(State(s1.files, s1.dirs, s1.drawn + draws), balanced, balancedDir, stream, ok, p);
  }

  /** A directory directly below `root` lies below `root`. */
  lemma BelowRoot(root: Dir, name: string, d: Dir)
    requires root + [name] <= d
    ensures root <= d
  {
    assert d[..|root|] == (root + [name])[..|root|] == root;
  }

  // ---- create_binary_per_veggie

  /** The two binary datasets of one vegetable type. */
  function BinaryOfVeggie(s: State, veggie: string, classes: Dict<seq<ImagePath>>, outputPath: Dir,
                          stream: nat -> nat, ok: (ImagePath, FilePath) -> bool): State
  {
    WithBalanced(s, BinaryClasses(HealthyImages(classes), UnhealthyImages(classes)), BinaryBalanceRatio,
                 outputPath + [veggie + "_binary"], outputPath + [veggie + "_binary_balanced"], stream, ok)
  }

  /** The state after the binary datasets of every vegetable type, in catalog order. */
  function BinaryPerVeggie(s: State, data: Catalog, outputPath: Dir,
                           stream: nat -> nat, ok: (ImagePath, FilePath) -> bool): State
    decreases |data|
  {
    if data == [] then s
    else BinaryPerVeggie(BinaryOfVeggie(s, data[0].0, data[0].1, outputPath, stream, ok), data[1..], outputPath, stream, ok)
  }

  lemma BinaryPerVeggieStep(s: State, data: Catalog, v: nat, outputPath: Dir,
                            stream: nat -> nat, ok: (ImagePath, FilePath) -> bool)
    requires v < |data|
    ensures BinaryPerVeggie(s, data[v..], outputPath, stream, ok)
            == BinaryPerVeggie(BinaryOfVeggie(s, data[v].0, data[v].1, outputPath, stream, ok), data[v + 1..], outputPath, stream, ok)
  {
    assert data[v..][0] == data[v] && data[v..][1..] == data[v + 1..];
  }

  /**
    `create_binary_per_veggie(data, output_path)`: for each vegetable
    type, bucket its classes, write the binary dataset to
    `<veggie>_binary`, balance the buckets with ratio 0.4 and write them to
    `<veggie>_binary_balanced`.
  */
  method CreateBinaryPerVeggie(tree: OutputTree, data: Catalog, outputPath: Dir, rng: Rng)
    modifies tree, rng
    ensures State(tree.files, tree.dirs, rng.drawn)
            == BinaryPerVeggie(State(old(tree.files), old(tree.dirs), old(rng.drawn)), data, outputPath, rng.stream, tree.copyOk)
  {
    ghost var goal := BinaryPerVeggie(State(tree.files, tree.dirs, rng.drawn), data, outputPath, rng.stream, tree.copyOk);
    for v := 0 to |data|
      invariant BinaryPerVeggie(State(tree.files, tree.dirs, rng.drawn), data[v..], outputPath, rng.stream, tree.copyOk) == goal
    {
      ghost var before := State(tree.files, tree.dirs, rng.drawn);
      BinaryPerVeggieStep(before, data, v, outputPath, rng.stream, tree.copyOk);
      var veggieType, classes := data[v].0, data[v].1;
      var healthy, unhealthy := ExtendBuckets([], [], classes);
      assert healthy == HealthyImages(classes) && unhealthy == UnhealthyImages(classes);
      CreateWithBalanced(tree, BinaryClasses(healthy, unhealthy), BinaryBalanceRatio,
                         outputPath + [veggieType + "_binary"], outputPath + [veggieType + "_binary_balanced"], rng);
    }
    assert data[|data|..] == [];
  }

  // ---- create_multiclass_per_veggie

  /** Each class paired with its cleaned name, in class order. */
  function Renamed<T>(veggie: string, classes: Dict<seq<T>>): Dict<seq<T>> {
    seq(|classes|, i requires 0 <= i < |classes| => (CleanClassName(classes[i].0, veggie), classes[i].1))
  }

  /** The `cleaned_data` dict that `create_multiclass_per_veggie` builds for one vegetable type. */
  function CleanedClasses<T>(veggie: string, classes: Dict<seq<T>>): Dict<seq<T>> {
    AssignAll([], Renamed(veggie, classes))
  }

  /**
    The keys of `cleaned_data` are distinct and are exactly the cleaned
    names of the classes; a vegetable type with classes gives a
    non-empty dict, so balancing it is defined.
  */
  lemma CleanedClassesKeys<T>(veggie: string, classes: Dict<seq<T>>, k: string)
    ensures DistinctKeys(CleanedClasses(veggie, classes))
    ensures k in Keys(CleanedClasses(veggie, classes)) <==>
            exists j :: 0 <= j < |classes| && CleanClassName(classes[j].0, veggie) == k
    ensures |classes| > 0 ==> |CleanedClasses(veggie, classes)| > 0
  {
    var renamed := Renamed(veggie, classes);
    AssignAllKeys([], renamed, k);
    RenamedKeys(veggie, classes, k);
  }

  lemma RenamedKeys<T>(veggie: string, classes: Dict<seq<T>>, k: string)
    ensures k in Keys(Renamed(veggie, classes)) <==>
            exists j :: 0 <= j < |classes| && CleanClassName(classes[j].0, veggie) == k
  {
    var renamed := Renamed(veggie, classes);
    var names := Keys(renamed);
    if k in names {
      var j :| 0 <= j < |names| && names[j] == k;
      assert renamed[j].0 == CleanClassName(classes[j].0, veggie);
    }
    if exists j :: 0 <= j < |classes| && CleanClassName(classes[j].0, veggie) == k {
      var j :| 0 <= j < |classes| && CleanClassName(classes[j].0, veggie) == k;
      assert names[j] == renamed[j].0;
    }
  }

  /**
    When two classes clean to the same name the later one wins: a class
    whose cleaned name no later class shares is found under that name
    with its own images.
  */
  lemma CleanedClassesLastWins<T>(veggie: string, classes: Dict<seq<T>>, i: nat)
    requires i < |classes|
    requires forall j :: i < j < |classes| ==> CleanClassName(classes[j].0, veggie) != CleanClassName(classes[i].0, veggie)
    ensures Get(CleanedClasses(veggie, classes), CleanClassName(classes[i].0, veggie)) == Some(classes[i].1)
  {
    var renamed := Renamed(veggie, classes);
    forall j | i < j < |renamed| ensures renamed[j].0 != renamed[i].0 {
      assert renamed[j].0 == CleanClassName(classes[j].0, veggie);
    }
    AssignAllLastWins([], renamed, i);
  }

  /** The loop of `create_multiclass_per_veggie` that fills `cleaned_data`. */
  method CleanClasses<T>(veggie: string, classes: Dict<seq<T>>) returns (cleaned: Dict<seq<T>>)
    ensures cleaned == CleanedClasses(veggie, classes)
  {
    ghost var renamed := Renamed(veggie, classes);
    cleaned := [];
    assert renamed[0..] == renamed;
    for i := 0 to |classes|
      invariant AssignAll(cleaned, renamed[i..]) == CleanedClasses(veggie, classes)
    {
      AssignAllStep(cleaned, renamed, i);
      var cleanName := CleanClassName(classes[i].0, veggie);
      cleaned := Assign(cleaned, cleanName, classes[i].1);
    }
    assert renamed[|classes|..] == [];
  }

  /** The two multiclass datasets of one vegetable type. */
  function MulticlassOfVeggie(s: State, veggie: string, classes: Dict<seq<ImagePath>>, outputPath: Dir,
                              stream: nat -> nat, ok: (ImagePath, FilePath) -> bool): State
    requires |classes| > 0
  {
    CleanedClassesKeys(veggie, classes, "");
    WithBalanced(s, CleanedClasses(veggie, classes), MulticlassBalanceRatio,
                 outputPath + [veggie + "_multiclass"], outputPath + [veggie + "_multiclass_balanced"], stream, ok)
  }

  /** The state after the multiclass datasets of every vegetable type, in catalog order. */
  function MulticlassPerVeggie(s: State, data: Catalog, outputPath: Dir,
                               stream: nat -> nat, ok: (ImagePath, FilePath) -> bool): State
    requires WellFormed(data)
    decreases |data|
  {
    if data == [] then s
    else
      WellFormedTail(data);
      MulticlassPerVeggie(MulticlassOfVeggie(s, data[0].0, data[0].1, outputPath, stream, ok), data[1..], outputPath, stream, ok)
  }

  lemma MulticlassPerVeggieStep(s: State, data: Catalog, v: nat, outputPath: Dir,
                                stream: nat -> nat, ok: (ImagePath, FilePath) -> bool)
    requires v < |data| && WellFormed(data)
    ensures WellFormed(data[v..]) && WellFormed(data[v + 1..])
    ensures MulticlassPerVeggie(s, data[v..], outputPath, stream, ok)
            == MulticlassPerVeggie(MulticlassOfVeggie(s, data[v].0, data[v].1, outputPath, stream, ok), data[v + 1..], outputPath, stream, ok)
  {
    forall w | 0 <= w < |data[v..]| ensures |data[v..][w].1| > 0 {
      assert data[v..][w] == data[v + w];
    }
    assert data[v..][0] == data[v] && data[v..][1..] == data[v + 1..];
  }

  /**
    `create_multiclass_per_veggie(data, output_path)`: for each vegetable
    type, clean its class names, write the multiclass dataset to
    `<veggie>_multiclass`, balance it with ratio 0.2 and write it to
    `<veggie>_multiclass_balanced`.
  */
  method CreateMulticlassPerVeggie(tree: OutputTree, data: Catalog, outputPath: Dir, rng: Rng)
    requires WellFormed(data)
    modifies tree, rng
    ensures State(tree.files, tree.dirs, rng.drawn)
            == MulticlassPerVeggie(State(old(tree.files), old(tree.dirs), old(rng.drawn)), data, outputPath, rng.stream, tree.copyOk)
  {
    ghost var goal := MulticlassPerVeggie(State(tree.files, tree.dirs, rng.drawn), data, outputPath, rng.stream, tree.copyOk);
    assert data[0..] == data;
    for v := 0 to |data|
      invariant WellFormed(data[v..])
      invariant MulticlassPerVeggie(State(tree.files, tree.dirs, rng.drawn), data[v..], outputPath, rng.stream, tree.copyOk) == goal
    {
      ghost var before := State(tree.files, tree.dirs, rng.drawn);
      MulticlassPerVeggieStep(before, data, v, outputPath, rng.stream, tree.copyOk);
      var veggieType, classes := data[v].0, data[v].1;
      var cleaned := CleanClasses(veggieType, classes);
      CleanedClassesKeys(veggieType, classes, "");
      CreateWithBalanced(tree, cleaned, MulticlassBalanceRatio,
                         outputPath + [veggieType + "_multiclass"], outputPath + [veggieType + "_multiclass_balanced"], rng);
    }
    assert data[|data|..] == [];
  }

  // ---- create_binary_all_veggies

  /** The two binary datasets over all vegetable types together. */
  function BinaryAllVeggies(s: State, data: Catalog, outputPath: Dir,
                            stream: nat -> nat, ok: (ImagePath, FilePath) -> bool): State
  {
    var classes := AllClasses(data);
    WithBalanced(s, BinaryClasses(HealthyImages(classes), UnhealthyImages(classes)), BinaryBalanceRatio,
                 outputPath + ["all_veggies_binary"], outputPath + ["all_veggies_binary_balanced"], stream, ok)
  }

  /**
    `create_binary_all_veggies(data, output_path)`: bucket the classes of
    every vegetable type into one healthy and one unhealthy list, write
    them to `all_veggies_binary`, balance them with ratio 0.4 and write
    them to `all_veggies_binary_balanced`.
  */
  method CreateBinaryAllVeggies(tree: OutputTree, data: Catalog, outputPath: Dir, rng: Rng)
    modifies tree, rng
    ensures State(tree.files, tree.dirs, rng.drawn)
            == BinaryAllVeggies(State(old(tree.files), old(tree.dirs), old(rng.drawn)), data, outputPath, rng.stream, tree.copyOk)
  {
    var healthy, unhealthy := BucketAllVeggies(data);
    CreateWithBalanced(tree, BinaryClasses(healthy, unhealthy), BinaryBalanceRatio,
                       outputPath + ["all_veggies_binary"], outputPath + ["all_veggies_binary_balanced"], rng);
  }

  // ---- the run

  /** The state after all three families of datasets, in the order the builder writes them. */
  function BuildAll(s: State, data: Catalog, outputPath: Dir,
                    stream: nat -> nat, ok: (ImagePath, FilePath) -> bool): State
    requires WellFormed(data)
  {
    var s0 := s.(dirs := s.dirs + Ancestors(outputPath));
    var s1 := BinaryPerVeggie(s0, data, outputPath, stream, ok);
    var s2 := MulticlassPerVeggie(s1, data, outputPath, stream, ok);
    BinaryAllVeggies(s2, data, outputPath, stream, ok)
  }

  /**
    The dataset-writing part of `main`: create the output directory, then
    the per-vegetable binary, the per-vegetable multiclass and the
    all-vegetables binary datasets.
  */
  method BuildDatasets(tree: OutputTree, data: Catalog, outputPath: Dir, rng: Rng)
    requires WellFormed(data)
    modifies tree, rng
    ensures State(tree.files, tree.dirs, rng.drawn)
            == BuildAll(State(old(tree.files), old(tree.dirs), old(rng.drawn)), data, outputPath, rng.stream, tree.copyOk)
  {
    tree.MakeDirs(outputPath);
    CreateBinaryPerVeggie(tree, data, outputPath, rng);
    CreateMulticlassPerVeggie(tree, data, outputPath, rng);
    CreateBinaryAllVeggies(tree, data, outputPath, rng);
  }

  // ---- properties of the run

  /** The binary datasets of one vegetable type write nothing outside the output directory. */
  lemma BinaryOfVeggieOutside(s: State, veggie: string, classes: Dict<seq<ImagePath>>, outputPath: Dir,
                              stream: nat -> nat, ok: (ImagePath, FilePath) -> bool, p: FilePath)
    requires !(outputPath <= p.dir)
    ensures var r := BinaryOfVeggie(s, veggie, classes, outputPath, stream, ok).files;
            && (p in r <==> p in s.files)
            && (p in s.files ==> r[p] == s.files[p])
  {
    if outputPath + [veggie + "_binary"] <= p.dir {
      BelowRoot(outputPath, veggie + "_binary", p.dir);
    }
    if outputPath + [veggie + "_binary_balanced"] <= p.dir {
      BelowRoot(outputPath, veggie + "_binary_balanced", p.dir);
    }
    WithBalancedOutside(s, BinaryClasses(HealthyImages(classes), UnhealthyImages(classes)), BinaryBalanceRatio,
                        outputPath + [veggie + "_binary"], outputPath + [veggie + "_binary_balanced"], stream, ok, p);
  }

  /** The multiclass datasets of one vegetable type write nothing outside the output directory. */
  lemma MulticlassOfVeggieOutside(s: State, veggie: string, classes: Dict<seq<ImagePath>>, outputPath: Dir,
                                  stream: nat -> nat, ok: (ImagePath, FilePath) -> bool, p: FilePath)
    requires |classes| > 0 && !(outputPath <= p.dir)
    ensures var r := MulticlassOfVeggie(s, veggie, classes, outputPath, stream, ok).files;
            && (p in r <==> p in s.files)
            && (p in s.files ==> r[p] == s.files[p])
  {
    if outputPath + [veggie + "_multiclass"] <= p.dir {
      BelowRoot(outputPath, veggie + "_multiclass", p.dir);
    }
    if outputPath + [veggie + "_multiclass_balanced"] <= p.dir {
      BelowRoot(outputPath, veggie + "_multiclass_balanced", p.dir);
    }
    CleanedClassesKeys(veggie, classes, "");
    WithBalancedOutside(s, CleanedClasses(veggie, classes), MulticlassBalanceRatio,
                        outputPath + [veggie + "_multiclass"], outputPath + [veggie + "_multiclass_balanced"], stream, ok, p);
  }

  /** The per-vegetable binary datasets write nothing outside the output directory. */
  lemma {:induction false} BinaryPerVeggieOutside(s: State, data: Catalog, outputPath: Dir,
                                                  stream: nat -> nat, ok: (ImagePath, FilePath) -> bool, p: FilePath)
    requires !(outputPath <= p.dir)
    ensures var r := BinaryPerVeggie(s, data, outputPath, stream, ok).files;
            && (p in r <==> p in s.files)
            && (p in s.files ==> r[p] == s.files[p])
    decreases |data|
  {
    if data != [] {
      BinaryOfVeggieOutside(s, data[0].0, data[0].1, outputPath, stream, ok, p);
      BinaryPerVeggieOutside(BinaryOfVeggie(s, data[0].0, data[0].1, outputPath, stream, ok), data[1..], outputPath, stream, ok, p);
    }
  }

  /** The per-vegetable multiclass datasets write nothing outside the output directory. */
  lemma {:induction false} MulticlassPerVeggieOutside(s: State, data: Catalog, outputPath: Dir,
                                                      stream: nat -> nat, ok: (ImagePath, FilePath) -> bool, p: FilePath)
    requires WellFormed(data) && !(outputPath <= p.dir)
    ensures var r := MulticlassPerVeggie(s, data, outputPath, stream, ok).files;
            && (p in r <==> p in s.files)
            && (p in s.files ==> r[p] == s.files[p])
    decreases |data|
  {
    if data != [] {
      MulticlassOfVeggieOutside(s, data[0].0, data[0].1, outputPath, stream, ok, p);
      WellFormedTail(data);
      MulticlassPerVeggieOutside(MulticlassOfVeggie(s, data[0].0, data[0].1, outputPath, stream, ok), data[1..], outputPath, stream, ok, p);
    }
  }

  /**
    A whole run writes only below the output directory: every file
    elsewhere keeps its presence and its content.
  */
  lemma BuildAllOutside(s: State, data: Catalog, outputPath: Dir,
                        stream: nat -> nat, ok: (ImagePath, FilePath) -> bool, p: FilePath)
    requires WellFormed(data) && !(outputPath <= p.dir)
    ensures var r := BuildAll(s, data, outputPath, stream, ok).files;
            && (p in r <==> p in s.files)
            && (p in s.files ==> r[p] == s.files[p])
  {
    var s0 := s.(dirs := s.dirs + Ancestors(outputPath));
    var s1 := BinaryPerVeggie(s0, data, outputPath, stream, ok);
    var s2 := MulticlassPerVeggie(s1, data, outputPath, stream, ok);
    BinaryPerVeggieOutside(s0, data, outputPath, stream, ok, p);
    MulticlassPerVeggieOutside(s1, data, outputPath, stream, ok, p);
    var classes := AllClasses(data);
    if outputPath + ["all_veggies_binary"] <= p.dir {
      BelowRoot(outputPath, "all_veggies_binary", p.dir);
    }
    if outputPath + ["all_veggies_binary_balanced"] <= p.dir {
      BelowRoot(outputPath, "all_veggies_binary_balanced", p.dir);
    }
    WithBalancedOutside(s2, BinaryClasses(HealthyImages(classes), UnhealthyImages(classes)), BinaryBalanceRatio,
                        outputPath + ["all_veggies_binary"], outputPath + ["all_veggies_binary_balanced"], stream, ok, p);
  }

  /**
    The balanced binary buckets: neither bucket exceeds 2.5 times the
    smaller one, the smaller bucket is kept whole, and together the
    unbalanced buckets hold every image of every class.
  */
  lemma BinaryBalancedBuckets(classes: Dict<seq<ImagePath>>, stream: nat -> nat, d: nat)
    ensures var data := BinaryClasses(HealthyImages(classes), UnhealthyImages(classes));
            var b := Balanced(data, TargetMax(MinCount(data), BinaryBalanceRatio), stream, d);
            && |data[0].1| + |data[1].1| == |AllImages(classes)|
            && |b| == 2 && b[0].0 == "healthy" && b[1].0 == "unhealthy"
            && 2 * |b[0].1| <= 5 * MinCount(data) && 2 * |b[1].1| <= 5 * MinCount(data)
            && (|data[0].1| <= |data[1].1| ==> b[0] == data[0])
            && (|data[1].1| <= |data[0].1| ==> b[1] == data[1])
  {
    var data := BinaryClasses(HealthyImages(classes), UnhealthyImages(classes));
    BucketsPartition(classes);
    BalancedRatioBound(data, BinaryBalanceRatio, stream, d);
    BalancedShape(data, TargetMax(MinCount(data), BinaryBalanceRatio), stream, d);
    var b := Balanced(data, TargetMax(MinCount(data), BinaryBalanceRatio), stream, d);
    assert Keys(b)[0] == b[0].0 && Keys(b)[1] == b[1].0;
  }

  /**
    A binary dataset of 20 healthy and 80 unhealthy images: the splits
    are 16/4 and 64/16, and balancing with ratio 0.4 keeps the healthy
    class and cuts the unhealthy one to `int(20 / 0.4) = 50`.
  */
  lemma BinaryScenario(healthy: seq<ImagePath>, unhealthy: seq<ImagePath>, stream: nat -> nat, d: nat, d': nat)
    requires |healthy| == 20 && |unhealthy| == 80
    ensures |TrainHalf(healthy, TrainRatio, stream, d)| == 16 && |TestHalf(healthy, TrainRatio, stream, d)| == 4
    ensures |TrainHalf(unhealthy, TrainRatio, stream, d')| == 64 && |TestHalf(unhealthy, TrainRatio, stream, d')| == 16
    ensures var data := BinaryClasses(healthy, unhealthy);
            var b := Balanced(data, TargetMax(MinCount(data), BinaryBalanceRatio), stream, d);
            b[0] == data[0] && |b[1].1| == 50
  {
    QuotientIsDiv(20 * 4, 5);
    QuotientIsDiv(80 * 4, 5);
    SplitPartition(healthy, TrainRatio, stream, d);
    SplitPartition(unhealthy, TrainRatio, stream, d');
    var data := BinaryClasses(healthy, unhealthy);
    assert MinCount(data) == 20;
    QuotientIsDiv(20 * 5, 2);
    BalancedShape(data, 50, stream, d);
    assert BalancedEntry(data[0], Balanced(data, 50, stream, d)[0], 50);
    assert BalancedEntry(data[1], Balanced(data, 50, stream, d)[1], 50);
  }
}
