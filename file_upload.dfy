/** The bounded file-selection list of the photo upload widget: each incoming file is
    either accepted (appended, at most `maxFiles` in all) or reported in the error list,
    and removal by index keeps the file list and the preview list in lock-step. */
module FileUpload {
  import opened Wrappers
  import opened Text
  import opened Lists

  datatype FileInfo = FileInfo(name: string, fileType: string, size: nat)

  /** The widget's properties: `maxFiles`, `maxSize` in megabytes and the accepted MIME types. */
  datatype UploadConfig = UploadConfig(maxFiles: int, maxSizeMb: nat, acceptedTypes: seq<string>)

  /** The defaults the widget uses when a property is not given (5 files, 5 MB, three image types). */
  const DefaultConfig := UploadConfig(5, 5, ["image/jpeg", "image/png", "image/webp"])

  const BytesPerMb := 1024 * 1024

  /** `validateFile`: the type is checked before the size; `None` means the file is acceptable. */
  function ValidateFile(cfg: UploadConfig, f: FileInfo): (r: Option<string>)
  {
    if f.fileType !in cfg.acceptedTypes then
      Some("File type " + f.fileType + " is not supported")
    else if f.size > cfg.maxSizeMb * BytesPerMb then
      Some("File size must be less than " + Decimal(cfg.maxSizeMb) + "MB")
    else
      None
  }

  /** A file is acceptable exactly when its type is listed and it is not larger than the
      limit; a file of exactly `maxSize` megabytes is acceptable, an unlisted type is reported
      as such whatever its size. */
  lemma ValidateFileIff(cfg: UploadConfig, f: FileInfo)
    ensures ValidateFile(cfg, f) == None <==>
      f.fileType in cfg.acceptedTypes && f.size <= cfg.maxSizeMb * BytesPerMb
    ensures f.fileType !in cfg.acceptedTypes ==>
      ValidateFile(cfg, f) == Some("File type " + f.fileType + " is not supported")
  {
  }

  /** The outcome of one `handleFiles` pass: the accepted files and the error lines. */
  datatype Batch = Batch(valid: seq<FileInfo>, errors: seq<string>)

  function CapMessage(cfg: UploadConfig): string {
    "Maximum " + IntToString(cfg.maxFiles) + " files allowed"
  }

  /** The batch after the files `fs` have been looked at in order, when `existing` files
      were already selected. */
  function Classify(cfg: UploadConfig, existing: nat, fs: seq<FileInfo>): (b: Batch)
    decreases |fs|
  {
    if fs == [] then Batch([], [])
    else
      var b := Classify(cfg, existing, fs[..|fs| - 1]);
      var f := fs[|fs| - 1];
      match ValidateFile(cfg, f)
      case Some(e) => b.(errors := b.errors + [f.name + ": " + e])
      case None =>
        if existing + |b.valid| < cfg.maxFiles then b.(valid := b.valid + [f])
        else b.(errors := b.errors + [f.name + ": " + CapMessage(cfg)])
  }

  /** Every incoming file lands in exactly one of the two lists. */
  lemma {:induction false} ClassifyCounts(cfg: UploadConfig, existing: nat, fs: seq<FileInfo>)
    ensures |Classify(cfg, existing, fs).valid| + |Classify(cfg, existing, fs).errors| == |fs|
    decreases |fs|
  {
    if fs != [] {
      ClassifyCounts(cfg, existing, fs[..|fs| - 1]);
    }
  }

  /** Only acceptable files are accepted, and in their input order. */
  lemma {:induction false} ClassifyValid(cfg: UploadConfig, existing: nat, fs: seq<FileInfo>)
    ensures forall f :: f in Classify(cfg, existing, fs).valid ==> f in fs && ValidateFile(cfg, f) == None
    ensures IsSubsequence(Classify(cfg, existing, fs).valid, fs)
    decreases |fs|
  {
    if fs != [] {
      var init := fs[..|fs| - 1];
      ClassifyValid(cfg, existing, init);
      var v := Classify(cfg, existing, init).valid;
      assert fs == init + [fs[|fs| - 1]];
      if Classify(cfg, existing, fs).valid == v {
        SubsequenceAppendRight(v, init, fs[|fs| - 1]);
      } else {
        SubsequenceAppendBoth(v, init, fs[|fs| - 1]);
      }
    }
  }

  lemma {:induction false} SubsequenceAppendRight<T>(a: seq<T>, b: seq<T>, x: T)
    requires IsSubsequence(a, b)
    ensures IsSubsequence(a, b + [x])
    decreases |b|
  {
    if a != [] && b != [] {
      assert (b + [x])[1..] == b[1..] + [x];
      if a[0] == b[0] && IsSubsequence(a[1..], b[1..]) {
        SubsequenceAppendRight(a[1..], b[1..], x);
      } else {
        SubsequenceAppendRight(a, b[1..], x);
      }
    }
  }

  lemma {:induction false} SubsequenceAppendBoth<T>(a: seq<T>, b: seq<T>, x: T)
    requires IsSubsequence(a, b)
    ensures IsSubsequence(a + [x], b + [x])
    decreases |b|
  {
    if a == [] {
      if b != [] {
        assert (b + [x])[1..] == b[1..] + [x];
        SubsequenceAppendBoth(a, b[1..], x);
      }
    } else {
      assert (a + [x])[1..] == a[1..] + [x];
      assert (b + [x])[1..] == b[1..] + [x];
      if a[0] == b[0] && IsSubsequence(a[1..], b[1..]) {
        SubsequenceAppendBoth(a[1..], b[1..], x);
      } else {
        SubsequenceAppendBoth(a, b[1..], x);
      }
    }
  }

  /** The cap: a list that was within `maxFiles` before the call is within it afterwards. */
  lemma {:induction false} ClassifyBound(cfg: UploadConfig, existing: nat, fs: seq<FileInfo>)
    ensures existing <= cfg.maxFiles ==> existing + |Classify(cfg, existing, fs).valid| <= cfg.maxFiles
    ensures existing >= cfg.maxFiles ==> Classify(cfg, existing, fs).valid == []
    decreases |fs|
  {
    if fs != [] {
      ClassifyBound(cfg, existing, fs[..|fs| - 1]);
    }
  }

  function Min(a: int, b: int): int { if a < b then a else b }
  function Max(a: int, b: int): int { if a < b then b else a }

  /** When every incoming file is acceptable, exactly as many are taken as there is room for. */
  lemma {:induction false} ClassifyAllAcceptable(cfg: UploadConfig, existing: nat, fs: seq<FileInfo>)
    requires forall f :: f in fs ==> ValidateFile(cfg, f) == None
    ensures |Classify(cfg, existing, fs).valid| == Min(|fs|, Max(0, cfg.maxFiles - existing))
    decreases |fs|
  {
    if fs != [] {
      ClassifyAllAcceptable(cfg, existing, fs[..|fs| - 1]);
      assert fs[|fs| - 1] in fs;
    }
  }

  /** The `forEach` loop of `handleFiles`, pushing onto `validFiles` and `newErrors`. */
  method Partition(cfg: UploadConfig, existing: nat, fs: seq<FileInfo>) returns (validFiles: seq<FileInfo>, newErrors: seq<string>)
    ensures Batch(validFiles, newErrors) == Classify(cfg, existing, fs)
  {
    validFiles, newErrors := [], [];
    var i := 0;
    while i < |fs|
      invariant 0 <= i <= |fs|
      invariant Batch(validFiles, newErrors) == Classify(cfg, existing, fs[..i])
    {
      var file := fs[i];
      assert fs[..i + 1][..i] == fs[..i];
      var error := ValidateFile(cfg, file);
      if error.Some? {
        newErrors := newErrors + [file.name + ": " + error.value];
      } else if existing + |validFiles| < cfg.maxFiles {
        validFiles := validFiles + [file];
      } else {
        newErrors := newErrors + [file.name + ": " + CapMessage(cfg)];
      }
      i := i + 1;
    }
    assert fs[..i] == fs;
  }

  /** The preview list for the accepted files, `validFiles.map(URL.createObjectURL)`. */
  function Previews(urlOf: FileInfo -> string, fs: seq<FileInfo>): (r: seq<string>)
    ensures |r| == |fs|
  {
    seq(|fs|, i requires 0 <= i < |fs| => urlOf(fs[i]))
  }

  /** The component's state: the selected files, their preview URLs and the last batch's errors. */
  class FileSelection {
    const cfg: UploadConfig
    var files: seq<FileInfo>
    var previews: seq<string>
    var errors: seq<string>

    /** Files and previews stay in lock-step. */
    ghost predicate Valid()
      reads this
    {
      |files| == |previews|
    }

    constructor (cfg: UploadConfig)
      ensures Valid() && this.cfg == cfg
      ensures files == [] && previews == [] && errors == []
    {
      this.cfg := cfg;
      files, previews, errors := [], [], [];
    }

    /** `handleFiles`: accepted files are appended after the existing ones, the error list is
        replaced by this batch's errors, and `onFilesChange` is called with the new list only
        when something was accepted (`changed` is that argument). `urlOf` stands for
        `URL.createObjectURL`. */
    method HandleFiles(newFiles: seq<FileInfo>, urlOf: FileInfo -> string) returns (changed: Option<seq<FileInfo>>)
      requires Valid()
      modifies this
      ensures Valid()
      ensures var b := Classify(cfg, |old(files)|, newFiles);
        && files == old(files) + b.valid
        && previews == old(previews) + Previews(urlOf, b.valid)
        && errors == b.errors
        && changed == (if b.valid == [] then None else Some(files))
    {
      var validFiles, newErrors := Partition(cfg, |files|, newFiles);
      changed := None;
      if |validFiles| > 0 {
        var updatedFiles := files + validFiles;
        files := updatedFiles;
        changed := Some(updatedFiles);
        previews := previews + Previews(urlOf, validFiles);
      }
      errors := newErrors;
    }

    /** `removeFile`: the entry at `index` leaves both lists; `changed` is the argument passed
        to `onFilesChange`. */
    method RemoveFile(index: int) returns (changed: seq<FileInfo>)
      requires Valid()
      modifies this`files, this`previews
      ensures Valid()
      ensures files == WithoutIndex(old(files), index)
      ensures previews == WithoutIndex(old(previews), index)
      ensures changed == files
    {
      WithoutIndexIs(files, index);
      WithoutIndexIs(previews, index);
      files := WithoutIndex(files, index);
      previews := WithoutIndex(previews, index);
      changed := files;
    }
  }

  /** Removing one index from two lists of equal length leaves them of equal length, and
      a valid index shortens both by one. */
  lemma RemoveKeepsLockStep<A, B>(xs: seq<A>, ys: seq<B>, index: int)
    requires |xs| == |ys|
    ensures |WithoutIndex(xs, index)| == |WithoutIndex(ys, index)|
    ensures 0 <= index < |xs| ==> |WithoutIndex(xs, index)| == |xs| - 1
  {
    WithoutIndexIs(xs, index);
    WithoutIndexIs(ys, index);
  }
}
