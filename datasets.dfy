/**
  `create_binary_dataset` and `create_multiclass_dataset`, whose bodies
  are the same: every class is split into a training and a test half,
  and the halves are copied to `output_dir/train/<class>` and
  `output_dir/test/<class>`; the copy counts are recorded per class.
*/
module Datasets {
  import opened Dicts
  import opened Random
  import opened Splitting
  import opened Output

  /** What a run of the builder has produced so far: the output tree and the number of draws used. */
  datatype State = State(files: map<FilePath, ImagePath>, dirs: set<Dir>, drawn: nat)

  /** `output_dir / 'train' / class_name`. */
  function TrainDir(outputDir: Dir, className: string): Dir {
    outputDir + ["train", className]
  }

  /** `output_dir / 'test' / class_name`. */
  function TestDir(outputDir: Dir, className: string): Dir {
    outputDir + ["test", className]
  }

  /** The class directories of different classes, and the two halves of one class, are different. */
  lemma ClassDirsDistinct(outputDir: Dir, a: string, b: string)
    ensures TrainDir(outputDir, a) != TestDir(outputDir, b)
    ensures TrainDir(outputDir, a) == TrainDir(outputDir, b) ==> a == b
    ensures TestDir(outputDir, a) == TestDir(outputDir, b) ==> a == b
  {
    var n := |outputDir|;
    assert TrainDir(outputDir, a)[n] == "train" && TestDir(outputDir, b)[n] == "test";
    assert TrainDir(outputDir, a)[n + 1] == a && TrainDir(outputDir, b)[n + 1] == b;
    assert TestDir(outputDir, a)[n + 1] == a && TestDir(outputDir, b)[n + 1] == b;
  }

  /** The draws the splits of all classes of `data` use. */
  function SplitDraws<T>(data: Dict<seq<T>>): nat
    decreases |data|
  {
    if data == [] then 0 else ShuffleDraws(|data[0].1|) + SplitDraws(data[1..])
  }

  /** The state after one class: split it, then copy the training half and the test half. */
  function MaterialiseClass(s: State, className: string, images: seq<ImagePath>, outputDir: Dir,
                            stream: nat -> nat, ok: (ImagePath, FilePath) -> bool): State
  {
    var train, test := TrainHalf(images, TrainRatio, stream, s.drawn), TestHalf(images, TrainRatio, stream, s.drawn);
    var trainDir, testDir := TrainDir(outputDir, className), TestDir(outputDir, className);
    State(CopyAll(CopyAll(s.files, train, trainDir, className, 0, ok), test, testDir, className, 0, ok),
          s.dirs + Ancestors(trainDir) + Ancestors(testDir),
          s.drawn + ShuffleDraws(|images|))
  }

  /** The state after one class, from the halves the split gave and the copies of them. */
  lemma MaterialiseClassIs(s: State, className: string, images: seq<ImagePath>, outputDir: Dir,
                           stream: nat -> nat, ok: (ImagePath, FilePath) -> bool,
                           train: seq<ImagePath>, test: seq<ImagePath>, r: State)
    requires train == TrainHalf(images, TrainRatio, stream, s.drawn) && test == TestHalf(images, TrainRatio, stream, s.drawn)
    requires r.files == CopyAll(CopyAll(s.files, train, TrainDir(outputDir, className), className, 0, ok),
                                test, TestDir(outputDir, className), className, 0, ok)
    requires r.dirs == s.dirs + Ancestors(TrainDir(outputDir, className)) + Ancestors(TestDir(outputDir, className))
    requires r.drawn == s.drawn + ShuffleDraws(|images|)
    ensures r == MaterialiseClass(s, className, images, outputDir, stream, ok)
  {}

  /** The state after materialising every class of `data`, in order. */
  function Materialise(s: State, data: Dict<seq<ImagePath>>, outputDir: Dir,
                       stream: nat -> nat, ok: (ImagePath, FilePath) -> bool): State
    decreases |data|
  {
    if data == [] then s
    else Materialise(MaterialiseClass(s, data[0].0, data[0].1, outputDir, stream, ok), data[1..], outputDir, stream, ok)
  }

  /** A dataset uses one shuffle per class and no other draws. */
  lemma {:induction false} MaterialiseDraws(s: State, data: Dict<seq<ImagePath>>, outputDir: Dir,
                                            stream: nat -> nat, ok: (ImagePath, FilePath) -> bool)
    ensures Materialise(s, data, outputDir, stream, ok).drawn == s.drawn + SplitDraws(data)
    decreases |data|
  {
    if data != [] {
      MaterialiseDraws(MaterialiseClass(s, data[0].0, data[0].1, outputDir, stream, ok), data[1..], outputDir, stream, ok);
    }
  }

  /** A file outside every class directory of `data` keeps its presence and its content. */
  lemma {:induction false} MaterialiseFrame(s: State, data: Dict<seq<ImagePath>>, outputDir: Dir,
                                            stream: nat -> nat, ok: (ImagePath, FilePath) -> bool, p: FilePath)
    requires forall k :: 0 <= k < |data| ==> p.dir != TrainDir(outputDir, data[k].0) && p.dir != TestDir(outputDir, data[k].0)
    ensures var r := Materialise(s, data, outputDir, stream, ok).files;
            && (p in r <==> p in s.files)
            && (p in s.files ==> r[p] == s.files[p])
    decreases |data|
  {
    if data != [] {
      var cls, images := data[0].0, data[0].1;
      var train, test := TrainHalf(images, TrainRatio, stream, s.drawn), TestHalf(images, TrainRatio, stream, s.drawn);
      var f1 := CopyAll(s.files, train, TrainDir(outputDir, cls), cls, 0, ok);
      CopyAllFrame(s.files, train, TrainDir(outputDir, cls), cls, 0, ok, p);
      CopyAllFrame(f1, test, TestDir(outputDir, cls), cls, 0, ok, p);
      var next := MaterialiseClass(s, cls, images, outputDir, stream, ok);
      forall k | 0 <= k < |data[1..]|
        ensures p.dir != TrainDir(outputDir, data[1..][k].0) && p.dir != TestDir(outputDir, data[1..][k].0)
      {
        assert data[1..][k] == data[k + 1];
      }
      MaterialiseFrame(next, data[1..], outputDir, stream, ok, p);
    }
  }

  /** Nothing outside `output_dir` is written. */
  lemma MaterialiseOutside(s: State, data: Dict<seq<ImagePath>>, outputDir: Dir,
                           stream: nat -> nat, ok: (ImagePath, FilePath) -> bool, p: FilePath)
    requires !(outputDir <= p.dir)
    ensures var r := Materialise(s, data, outputDir, stream, ok).files;
            && (p in r <==> p in s.files)
            && (p in s.files ==> r[p] == s.files[p])
  {
    forall k | 0 <= k < |data|
      ensures p.dir != TrainDir(outputDir, data[k].0) && p.dir != TestDir(outputDir, data[k].0)
    {
      assert outputDir <= TrainDir(outputDir, data[k].0) && outputDir <= TestDir(outputDir, data[k].0);
    }
    MaterialiseFrame(s, data, outputDir, stream, ok, p);
  }

  /** The number of the first draw of the shuffle of class `i`: it follows the shuffles of the classes before it. */
  function DrawOf(s: State, data: Dict<seq<ImagePath>>, i: nat): nat
    requires i <= |data|
  {
    s.drawn + SplitDraws(data[..i])
  }

  lemma DrawOfNext(s: State, data: Dict<seq<ImagePath>>, i: nat, next: State)
    requires 0 < i < |data| && next.drawn == s.drawn + ShuffleDraws(|data[0].1|)
    ensures DrawOf(s, data, i) == DrawOf(next, data[1..], i - 1)
  {
    assert data[..i][0] == data[0] && data[..i][1..] == data[1..][..i - 1];
    assert data[1..][i - 1] == data[i];
  }

  lemma DistinctTail<V>(d: Dict<V>)
    requires d != [] && DistinctKeys(d)
    ensures DistinctKeys(d[1..])
    ensures forall k :: 0 <= k < |d[1..]| ==> d[1..][k].0 != d[0].0
  {
    forall p, q | 0 <= p < q < |d[1..]| ensures d[1..][p].0 != d[1..][q].0 {
      assert d[1..][p] == d[p + 1] && d[1..][q] == d[q + 1];
    }
    forall k | 0 <= k < |d[1..]| ensures d[1..][k].0 != d[0].0 {
      assert d[1..][k] == d[k + 1];
    }
  }

  /** No later class writes into the directories of the first one. */
  lemma LaterClassesElsewhere(s: State, data: Dict<seq<ImagePath>>, outputDir: Dir,
                              stream: nat -> nat, ok: (ImagePath, FilePath) -> bool, p: FilePath)
    requires data != [] && DistinctKeys(data)
    requires p.dir == TrainDir(outputDir, data[0].0) || p.dir == TestDir(outputDir, data[0].0)
    ensures var r := Materialise(s, data[1..], outputDir, stream, ok).files;
            && (p in r <==> p in s.files)
            && (p in s.files ==> r[p] == s.files[p])
  {
    DistinctTail(data);
    forall k | 0 <= k < |data[1..]|
      ensures p.dir != TrainDir(outputDir, data[1..][k].0) && p.dir != TestDir(outputDir, data[1..][k].0)
    {
      ClassDirsDistinct(outputDir, data[0].0, data[1..][k].0);
      ClassDirsDistinct(outputDir, data[1..][k].0, data[0].0);
    }
    MaterialiseFrame(s, data[1..], outputDir, stream, ok, p);
  }

  /** No file of the test half lands in the training directory. */
  lemma OtherHalfElsewhere(files: map<FilePath, ImagePath>, images: seq<ImagePath>, outputDir: Dir,
                           className: string, ok: (ImagePath, FilePath) -> bool, p: FilePath, train: bool)
    requires p.dir == (if train then TrainDir(outputDir, className) else TestDir(outputDir, className))
    ensures var r := CopyAll(files, images, if train then TestDir(outputDir, className) else TrainDir(outputDir, className), className, 0, ok);
            && (p in r <==> p in files)
            && (p in files ==> r[p] == files[p])
  {
    ClassDirsDistinct(outputDir, className, className);
    var dir := if train then TestDir(outputDir, className) else TrainDir(outputDir, className);
    assert !IsDestOf(p, dir, className, 0, |images|);
    CopyAllFrame(files, images, dir, className, 0, ok, p);
  }

  /** Image `j` of `half`, if its copy succeeded, is the file `"<class>.<j>.jpg"` of `dir` in `files`. */
  ghost predicate CopiedTo(files: map<FilePath, ImagePath>, half: seq<ImagePath>, dir: Dir, className: string,
                           j: nat, ok: (ImagePath, FilePath) -> bool)
  {
    j < |half| && ok(half[j], Dest(dir, className, j)) ==>
      Dest(dir, className, j) in files && files[Dest(dir, className, j)] == half[j]
  }

  /**
    Where the training images of class `i` (named `className`, holding
    `images`, first draw `d`) end up: image `j` whose copy succeeds is
    `output_dir/train/<class>/<class>.<j>.jpg`, and no later class
    overwrites it.
  */
  lemma {:induction false} MaterialiseTrainPlaces(s: State, data: Dict<seq<ImagePath>>, outputDir: Dir,
                                                  stream: nat -> nat, ok: (ImagePath, FilePath) -> bool, i: nat,
                                                  className: string, images: seq<ImagePath>, d: nat, j: nat)
    requires DistinctKeys(data) && i < |data| && data[i] == (className, images) && d == DrawOf(s, data, i)
    ensures CopiedTo(Materialise(s, data, outputDir, stream, ok).files, TrainHalf(images, TrainRatio, stream, d),
                     TrainDir(outputDir, className), className, j, ok)
    decreases i
  {
    if i == 0 {
      assert data[..0] == [];
      FirstClassTrain(s, data, outputDir, stream, ok, j);
    } else {
      var next := MaterialiseClass(s, data[0].0, data[0].1, outputDir, stream, ok);
      DistinctTail(data);
      DrawOfNext(s, data, i, next);
      assert data[1..][i - 1] == data[i];
      assert Materialise(s, data, outputDir, stream, ok) == Materialise(next, data[1..], outputDir, stream, ok);
      MaterialiseTrainPlaces(next, data[1..], outputDir, stream, ok, i - 1, className, images, d, j);
    }
  }

  /** Where the test images of class `i` end up: in `output_dir/test/<class>`, under the same naming. */
  lemma {:induction false} MaterialiseTestPlaces(s: State, data: Dict<seq<ImagePath>>, outputDir: Dir,
                                                 stream: nat -> nat, ok: (ImagePath, FilePath) -> bool, i: nat,
                                                 className: string, images: seq<ImagePath>, d: nat, j: nat)
    requires DistinctKeys(data) && i < |data| && data[i] == (className, images) && d == DrawOf(s, data, i)
    ensures CopiedTo(Materialise(s, data, outputDir, stream, ok).files, TestHalf(images, TrainRatio, stream, d),
                     TestDir(outputDir, className), className, j, ok)
    decreases i
  {
    if i == 0 {
      assert data[..0] == [];
      FirstClassTest(s, data, outputDir, stream, ok, j);
    } else {
      var next := MaterialiseClass(s, data[0].0, data[0].1, outputDir, stream, ok);
      DistinctTail(data);
      DrawOfNext(s, data, i, next);
      assert data[1..][i - 1] == data[i];
      assert Materialise(s, data, outputDir, stream, ok) == Materialise(next, data[1..], outputDir, stream, ok);
      MaterialiseTestPlaces(next, data[1..], outputDir, stream, ok, i - 1, className, images, d, j);
    }
  }

  /** The training images of the first class. */
  lemma FirstClassTrain(s: State, data: Dict<seq<ImagePath>>, outputDir: Dir,
                        stream: nat -> nat, ok: (ImagePath, FilePath) -> bool, j: nat)
    requires DistinctKeys(data) && data != []
    ensures CopiedTo(Materialise(s, data, outputDir, stream, ok).files, TrainHalf(data[0].1, TrainRatio, stream, s.drawn),
                     TrainDir(outputDir, data[0].0), data[0].0, j, ok)
  {
    var cls, images := data[0].0, data[0].1;
    var train, test := TrainHalf(images, TrainRatio, stream, s.drawn), TestHalf(images, TrainRatio, stream, s.drawn);
    var trainDir := TrainDir(outputDir, cls);
    var next := MaterialiseClass(s, cls, images, outputDir, stream, ok);
    var f1 := CopyAll(s.files, train, trainDir, cls, 0, ok);
    assert next.files == CopyAll(f1, test, TestDir(outputDir, cls), cls, 0, ok);
    assert Materialise(s, data, outputDir, stream, ok) == Materialise(next, data[1..], outputDir, stream, ok);
    var p := Dest(trainDir, cls, j);
    if j < |train| && ok(train[j], p) {
      CopyAllWrites(s.files, train, trainDir, cls, 0, ok, j);
      OtherHalfElsewhere(f1, test, outputDir, cls, ok, p, true);
      LaterClassesElsewhere(next, data, outputDir, stream, ok, p);
    }
  }

  /** The test images of the first class. */
  lemma FirstClassTest(s: State, data: Dict<seq<ImagePath>>, outputDir: Dir,
                       stream: nat -> nat, ok: (ImagePath, FilePath) -> bool, j: nat)
    requires DistinctKeys(data) && data != []
    ensures CopiedTo(Materialise(s, data, outputDir, stream, ok).files, TestHalf(data[0].1, TrainRatio, stream, s.drawn),
                     TestDir(outputDir, data[0].0), data[0].0, j, ok)
  {
    var cls, images := data[0].0, data[0].1;
    var train, test := TrainHalf(images, TrainRatio, stream, s.drawn), TestHalf(images, TrainRatio, stream, s.drawn);
    var testDir := TestDir(outputDir, cls);
    var next := MaterialiseClass(s, cls, images, outputDir, stream, ok);
    var f1 := CopyAll(s.files, train, TrainDir(outputDir, cls), cls, 0, ok);
    assert next.files == CopyAll(f1, test, testDir, cls, 0, ok);
    assert Materialise(s, data, outputDir, stream, ok) == Materialise(next, data[1..], outputDir, stream, ok);
    var p := Dest(testDir, cls, j);
    if j < |test| && ok(test[j], p) {
      CopyAllWrites(f1, test, testDir, cls, 0, ok, j);
      LaterClassesElsewhere(next, data, outputDir, stream, ok, p);
    }
  }

  /**
    The directories afterwards: the training and test directory of every
    class exist, and every new directory lies above one of them.
  */
  lemma {:induction false} MaterialiseDirs(s: State, data: Dict<seq<ImagePath>>, outputDir: Dir,
                                           stream: nat -> nat, ok: (ImagePath, FilePath) -> bool)
    ensures var r := Materialise(s, data, outputDir, stream, ok).dirs;
            && s.dirs <= r
            && (forall k :: 0 <= k < |data| ==> TrainDir(outputDir, data[k].0) in r && TestDir(outputDir, data[k].0) in r)
            && (forall d :: d in r && d !in s.dirs ==>
                  exists k :: 0 <= k < |data| && (d <= TrainDir(outputDir, data[k].0) || d <= TestDir(outputDir, data[k].0)))
    decreases |data|
  {
    if data != [] {
      var next := MaterialiseClass(s, data[0].0, data[0].1, outputDir, stream, ok);
      MaterialiseDirs(next, data[1..], outputDir, stream, ok);
      var r := Materialise(s, data, outputDir, stream, ok).dirs;
      forall k | 0 <= k < |data| ensures TrainDir(outputDir, data[k].0) in r && TestDir(outputDir, data[k].0) in r {
        if k > 0 {
          assert data[1..][k - 1] == data[k];
        }
      }
      forall d | d in r && d !in s.dirs
        ensures exists k :: 0 <= k < |data| && (d <= TrainDir(outputDir, data[k].0) || d <= TestDir(outputDir, data[k].0))
      {
        if d !in next.dirs {
          var k :| 0 <= k < |data[1..]| && (d <= TrainDir(outputDir, data[1..][k].0) || d <= TestDir(outputDir, data[1..][k].0));
          assert data[1..][k] == data[k + 1];
        }
      }
    }
  }

  /** One class of the dataset loop. */
  lemma MaterialiseStep(s: State, data: Dict<seq<ImagePath>>, i: nat, outputDir: Dir,
                        stream: nat -> nat, ok: (ImagePath, FilePath) -> bool)
    requires i < |data|
    ensures Materialise(s, data[i..], outputDir, stream, ok)
            == Materialise(MaterialiseClass(s, data[i].0, data[i].1, outputDir, stream, ok), data[i + 1..], outputDir, stream, ok)
  {
    assert data[i..][0] == data[i] && data[i..][1..] == data[i + 1..];
  }

  /**
    The counts of the first `n` classes are recorded: the training count
    is the cut of the split, and the two counts add up to the class size.
  */
  ghost predicate CountsRecorded(data: Dict<seq<ImagePath>>, trainStats: Dict<nat>, testStats: Dict<nat>, n: nat) {
    && n <= |data| && |trainStats| == n && |testStats| == n
    && forall k :: 0 <= k < n ==>
         trainStats[k].1 == Cut(|data[k].1|, TrainRatio) && trainStats[k].1 + testStats[k].1 == |data[k].1|
  }

  lemma CountsStep(data: Dict<seq<ImagePath>>, trainStats: Dict<nat>, testStats: Dict<nat>, n: nat, a: nat, b: nat)
    requires CountsRecorded(data, trainStats, testStats, n) && n < |data|
    requires a == Cut(|data[n].1|, TrainRatio) && a + b == |data[n].1|
    ensures CountsRecorded(data, trainStats + [(data[n].0, a)], testStats + [(data[n].0, b)], n + 1)
  {}

  /**
    `create_binary_dataset(data, output_dir, name)`, and equally
    `create_multiclass_dataset`: the tree and the generator end in the
    state `Materialise` describes, and the per-class counts it records
    are the sizes of the two halves.
  */
  method CreateDataset(tree: OutputTree, data: Dict<seq<ImagePath>>, outputDir: Dir, rng: Rng)
    returns (trainStats: Dict<nat>, testStats: Dict<nat>)
    requires DistinctKeys(data)
    modifies tree, rng
    ensures State(tree.files, tree.dirs, rng.drawn)
            == Materialise(State(old(tree.files), old(tree.dirs), old(rng.drawn)), data, outputDir, rng.stream, tree.copyOk)
    ensures Keys(trainStats) == Keys(data) && Keys(testStats) == Keys(data)
    ensures forall i :: 0 <= i < |data| ==>
              trainStats[i].1 == Cut(|data[i].1|, TrainRatio) && trainStats[i].1 + testStats[i].1 == |data[i].1|
  {
    ghost var goal := Materialise(State(tree.files, tree.dirs, rng.drawn), data, outputDir, rng.stream, tree.copyOk);
    trainStats, testStats := [], [];
    for i := 0 to |data|
      invariant Materialise(State(tree.files, tree.dirs, rng.drawn), data[i..], outputDir, rng.stream, tree.copyOk) == goal
      invariant Keys(trainStats) == Keys(data[..i]) && Keys(testStats) == Keys(data[..i])
      invariant CountsRecorded(data, trainStats, testStats, i)
    {
      var className, images := data[i].0, data[i].1;
      ghost var before := State(tree.files, tree.dirs, rng.drawn);
      ghost var trainBefore, testBefore := trainStats, testStats;
      MaterialiseStep(before, data, i, outputDir, rng.stream, tree.copyOk);
      SplitPartition(images, TrainRatio, rng.stream, rng.drawn);
      var trainImgs, testImgs := TrainTestSplit(images, TrainRatio, rng);
      ghost var afterSplit := tree.files;
      var trainCount := tree.CopyImages(trainImgs, TrainDir(outputDir, className), className, 0);
      AssignNextKey(data, i, trainStats, trainCount);
      trainStats := Assign(trainStats, className, trainCount);
      var testCount := tree.CopyImages(testImgs, TestDir(outputDir, className), className, 0);
      AssignNextKey(data, i, testStats, testCount);
      testStats := Assign(testStats, className, testCount);
      CountsStep(data, trainBefore, testBefore, i, trainCount, testCount);
      MaterialiseClassIs(before, className, images, outputDir, rng.stream, tree.copyOk,
                         trainImgs, testImgs, State(tree.files, tree.dirs, rng.drawn));
    }
    assert data[|data|..] == [];
  }
}
