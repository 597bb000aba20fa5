/**
  The destination filesystem of the dataset builder and `copy_images`.

  A directory is its list of path components; a file is named by its
  directory and its file name, and holds the source image it was copied
  from.  Whether one `shutil.copy2` succeeds is decided by the
  environment (`copyOk`): a failed copy is reported and skipped, and
  leaves the tree as it was.
*/
module Output {
  import opened Text

  /** The path of a source image. */
  type ImagePath = string

  /** A directory, as its path components. */
  type Dir = seq<string>

  datatype FilePath = FilePath(dir: Dir, name: string)

  /** `f"{class_name}.{idx}.jpg"`. */
  function DestName(className: string, idx: nat): string {
    className + "." + NatToString(idx) + ".jpg"
  }

  /** The file `copy_images` writes for index `idx`. */
  function Dest(dir: Dir, className: string, idx: nat): FilePath {
    FilePath(dir, DestName(className, idx))
  }

  /** Different indexes give different file names, so one call never overwrites its own output. */
  lemma DestNameInjective(className: string, i: nat, j: nat)
    requires DestName(className, i) == DestName(className, j)
    ensures i == j
  {
    var a, b := NatToString(i), NatToString(j);
    var p := |className| + 1;
    var s := DestName(className, i);
    assert s == (className + ".") + a + ".jpg";
    assert s == (className + ".") + b + ".jpg";
    assert |a| == |b|;
    assert s[p..p + |a|] == a;
    assert s[p..p + |b|] == b;
    NatToStringInjective(i, j);
  }

  /** `mkdir(parents=True)`: the directory and every directory above it. */
  function Ancestors(dir: Dir): (r: set<Dir>)
    ensures dir in r
    ensures forall d :: d in r ==> d <= dir
  {
    assert dir[..|dir|] == dir;
    set k | 0 <= k <= |dir| :: dir[..k]
  }

  /** One `shutil.copy2(src, dest)`: a successful copy creates or overwrites `dest`. */
  function CopyStep(files: map<FilePath, ImagePath>, src: ImagePath, dest: FilePath,
                    ok: (ImagePath, FilePath) -> bool): map<FilePath, ImagePath>
  {
    if ok(src, dest) then files[dest := src] else files
  }

  /** The files after copying `images` into `dir` under the indexes from `idx` on. */
  function CopyAll(files: map<FilePath, ImagePath>, images: seq<ImagePath>, dir: Dir, className: string,
                   idx: nat, ok: (ImagePath, FilePath) -> bool): map<FilePath, ImagePath>
    decreases |images|
  {
    if images == [] then files
    else CopyAll(CopyStep(files, images[0], Dest(dir, className, idx), ok), images[1..], dir, className, idx + 1, ok)
  }

  /** `p` is one of the files a copy of `n` images from index `idx` on may write. */
  predicate IsDestOf(p: FilePath, dir: Dir, className: string, idx: nat, n: nat) {
    exists k :: idx <= k < idx + n && p == Dest(dir, className, k)
  }

  /** A file `copy_images` does not name keeps its presence and its content. */
  lemma {:induction false} CopyAllFrame(files: map<FilePath, ImagePath>, images: seq<ImagePath>, dir: Dir,
                                        className: string, idx: nat, ok: (ImagePath, FilePath) -> bool, p: FilePath)
    requires !IsDestOf(p, dir, className, idx, |images|)
    ensures var r := CopyAll(files, images, dir, className, idx, ok);
            && (p in r <==> p in files)
            && (p in files ==> r[p] == files[p])
    decreases |images|
  {
    if images != [] {
      assert p != Dest(dir, className, idx);
      assert !IsDestOf(p, dir, className, idx + 1, |images[1..]|);
      CopyAllFrame(CopyStep(files, images[0], Dest(dir, className, idx), ok), images[1..], dir, className, idx + 1, ok, p);
    }
  }

  /** Image `i` whose copy succeeds lands in `"{class_name}.{idx + i}.jpg"`. */
  lemma {:induction false} CopyAllWrites(files: map<FilePath, ImagePath>, images: seq<ImagePath>, dir: Dir,
                                         className: string, idx: nat, ok: (ImagePath, FilePath) -> bool, i: nat)
    requires i < |images| && ok(images[i], Dest(dir, className, idx + i))
    ensures var r := CopyAll(files, images, dir, className, idx, ok);
            Dest(dir, className, idx + i) in r && r[Dest(dir, className, idx + i)] == images[i]
    decreases |images|
  {
    var p := Dest(dir, className, idx + i);
    if i == 0 {
      NotLaterDest(dir, className, idx, |images[1..]|);
      CopyAllFrame(CopyStep(files, images[0], p, ok), images[1..], dir, className, idx + 1, ok, p);
    } else {
      assert images[1..][i - 1] == images[i];
      CopyAllWrites(CopyStep(files, images[0], Dest(dir, className, idx), ok), images[1..], dir, className, idx + 1, ok, i - 1);
    }
  }

  /** Image `i` whose copy fails leaves its destination as it was. */
  lemma {:induction false} CopyAllSkips(files: map<FilePath, ImagePath>, images: seq<ImagePath>, dir: Dir,
                                        className: string, idx: nat, ok: (ImagePath, FilePath) -> bool, i: nat)
    requires i < |images| && !ok(images[i], Dest(dir, className, idx + i))
    ensures var r := CopyAll(files, images, dir, className, idx, ok);
            var p := Dest(dir, className, idx + i);
            && (p in r <==> p in files)
            && (p in files ==> r[p] == files[p])
    decreases |images|
  {
    var p := Dest(dir, className, idx + i);
    if i == 0 {
      NotLaterDest(dir, className, idx, |images[1..]|);
      CopyAllFrame(files, images[1..], dir, className, idx + 1, ok, p);
    } else {
      assert images[1..][i - 1] == images[i];
      var first := Dest(dir, className, idx);
      assert first != p by {
        if first == p {
          DestNameInjective(className, idx, idx + i);
        }
      }
      CopyAllSkips(CopyStep(files, images[0], first, ok), images[1..], dir, className, idx + 1, ok, i - 1);
    }
  }

  /** A file name is not reused by the later indexes of the same call. */
  lemma NotLaterDest(dir: Dir, className: string, idx: nat, n: nat)
    ensures !IsDestOf(Dest(dir, className, idx), dir, className, idx + 1, n)
  {
    forall k | idx + 1 <= k < idx + 1 + n ensures Dest(dir, className, idx) != Dest(dir, className, k) {
      if DestName(className, idx) == DestName(className, k) {
        DestNameInjective(className, idx, k);
      }
    }
  }

  /** One image of the copying loop. */
  lemma CopyAllStep(files: map<FilePath, ImagePath>, images: seq<ImagePath>, dir: Dir, className: string,
                    idx: nat, ok: (ImagePath, FilePath) -> bool, i: nat, next: map<FilePath, ImagePath>)
    requires i < |images| && next == CopyStep(files, images[i], Dest(dir, className, idx + i), ok)
    ensures CopyAll(files, images[i..], dir, className, idx + i, ok)
            == CopyAll(next, images[i + 1..], dir, className, idx + i + 1, ok)
  {
    assert images[i..][0] == images[i] && images[i..][1..] == images[i + 1..];
  }

  /** The output tree: its directories and its files. */
  class OutputTree {
    var dirs: set<Dir>
    var files: map<FilePath, ImagePath>
    /** Whether the environment lets a given copy succeed. */
    const copyOk: (ImagePath, FilePath) -> bool

    constructor (dirs: set<Dir>, files: map<FilePath, ImagePath>, copyOk: (ImagePath, FilePath) -> bool)
      ensures this.dirs == dirs && this.files == files && this.copyOk == copyOk
    {
      this.dirs := dirs;
      this.files := files;
      this.copyOk := copyOk;
    }

    /** `dest_dir.mkdir(parents=True, exist_ok=True)`. */
    method MakeDirs(dir: Dir)
      modifies this
      ensures dirs == old(dirs) + Ancestors(dir)
      ensures files == old(files)
    {
      dirs := dirs + Ancestors(dir);
    }

    /** `shutil.copy2(src, dest)` inside the `try`; an error is caught and the caller goes on. */
    method Copy(src: ImagePath, dest: FilePath)
      modifies this
      ensures files == CopyStep(old(files), src, dest, copyOk)
      ensures dirs == old(dirs)
    {
      if copyOk(src, dest) {
        files := files[dest := src];
      }
    }

    /**
      `copy_images(images, dest_dir, class_name, start_idx)`: creates the
      directory, copies image `i` to `"{class_name}.{start_idx + i}.jpg"`
      in it, and returns the number of images whether or not every copy
      succeeded.
    */
    method CopyImages(images: seq<ImagePath>, destDir: Dir, className: string, startIdx: nat) returns (count: nat)
      modifies this
      ensures count == |images|
      ensures dirs == old(dirs) + Ancestors(destDir)
      ensures files == CopyAll(old(files), images, destDir, className, startIdx, copyOk)
    {
      MakeDirs(destDir);
      ghost var goal := CopyAll(files, images, destDir, className, startIdx, copyOk);
      assert images[0..] == images;
      for i := 0 to |images|
        invariant dirs == old(dirs) + Ancestors(destDir)
        invariant CopyAll(files, images[i..], destDir, className, startIdx + i, copyOk) == goal
      {
        ghost var before := files;
        Copy(images[i], Dest(destDir, className, startIdx + i));
        CopyAllStep(before, images, destDir, className, startIdx, copyOk, i, files);
      }
      assert images[|images|..] == [];
      count := |images|;
    }
  }
}
