/**
  The dashboard's upload panel: each chosen file is prepended to the list of
  uploads as "uploading" at 0%, then a periodic tick adds a random
  increment below 30 to that upload's own running total, shows at most 95%
  while the total is below 100, and marks the entry successful at 100.
 */
module UploadProgress {
  import opened Wrappers
  import opened Ui

  datatype Status = Uploading | Success | Failed

  /** An entry of the list; `mimeType` is the browser's `file.type`. */
  datatype UploadedFile = UploadedFile(id: string, name: string, size: nat, mimeType: string, status: Status, progress: real)

  function Min(a: real, b: real): real
  {
    if a <= b then a else b
  }

  /** The in-progress update: every entry with `id` shows `progress`, nothing else changes. */
  function WithProgress(files: seq<UploadedFile>, id: string, progress: real): (r: seq<UploadedFile>)
    ensures |r| == |files|
    ensures forall i :: 0 <= i < |r| && files[i].id != id ==> r[i] == files[i]
    ensures forall i :: 0 <= i < |r| && files[i].id == id ==> r[i] == files[i].(progress := progress)
  {
    seq(|files|, i requires 0 <= i < |files| => if files[i].id == id then files[i].(progress := progress) else files[i])
  }

  /** The final update: every entry with `id` becomes successful at 100%, nothing else changes. */
  function Completed(files: seq<UploadedFile>, id: string): (r: seq<UploadedFile>)
    ensures |r| == |files|
    ensures forall i :: 0 <= i < |r| && files[i].id != id ==> r[i] == files[i]
    ensures forall i :: 0 <= i < |r| && files[i].id == id ==> r[i] == files[i].(progress := 100.0, status := Success)
  {
    seq(|files|, i requires 0 <= i < |files| => if files[i].id == id then files[i].(progress := 100.0, status := Success) else files[i])
  }

  /**
    What every entry of the list satisfies: it is never marked failed, its
    progress lies in [0, 100], and it shows at most 95% while uploading.
   */
  ghost predicate WellFormed(files: seq<UploadedFile>)
  {
    forall i :: 0 <= i < |files| ==>
      && files[i].status != Failed
      && 0.0 <= files[i].progress <= 100.0
      && (files[i].status == Uploading ==> files[i].progress <= 95.0)
  }

  /** The list shows its first five entries, newest first. */
  function Visible(files: seq<UploadedFile>): (r: seq<UploadedFile>)
    ensures |r| <= 5 && |r| <= |files|
    ensures |r| < |files| ==> |r| == 5
    ensures files[..|r|] == r
  {
    if |files| <= 5 then files else files[..5]
  }

  /** The panel's list of uploads. */
  class UploadList {
    var files: seq<UploadedFile>

    ghost predicate Valid()
      reads this
    {
      WellFormed(files)
    }

    constructor ()
      ensures files == []
      ensures Valid()
    {
      files := [];
    }

    /**
      Starts an upload: the new entry, uploading at 0%, goes in front of the
      existing ones, which follow unchanged and in order. The returned
      tracker holds the running total for the ticks. The random id is a
      parameter.
     */
    method SimulateUpload(id: string, name: string, size: nat, mimeType: string) returns (upload: Upload)
      requires Valid()
      modifies this
      ensures Valid()
      ensures files == [UploadedFile(id, name, size, mimeType, Uploading, 0.0)] + old(files)
      ensures fresh(upload) && upload.Valid()
      ensures upload.id == id && upload.name == name && upload.progress == 0.0 && upload.active
    {
      files := [UploadedFile(id, name, size, mimeType, Uploading, 0.0)] + files;
      upload := new Upload(id, name);
    }
  }

  /** The interval callback of one upload with its running total `progress`. */
  class Upload {
    const id: string
    const name: string
    var progress: real
    var active: bool

    /** The total stays in [0, 100] and reaches 100 exactly when ticking has stopped. */
    ghost predicate Valid()
      reads this
    {
      0.0 <= progress <= 100.0 && (active <==> progress < 100.0)
    }

    constructor (id: string, name: string)
      ensures this.id == id && this.name == name
      ensures progress == 0.0 && active
      ensures Valid()
    {
      this.id := id;
      this.name := name;
      progress := 0.0;
      active := true;
    }

    /**
      One tick, with the random increment `delta` in [0, 30). Below 100 the
      entry shows min(total, 95); at 100 or more the total is clamped to 100,
      the entry becomes successful at 100%, the interval is cleared and a
      toast is shown. Entries with other ids and the list's length never
      change, and the total never decreases.
     */
    method Tick(list: UploadList, delta: real) returns (toast: Option<Toast>)
      requires Valid() && list.Valid() && active
      requires 0.0 <= delta < 30.0
      modifies this, list
      ensures Valid() && list.Valid()
      ensures progress >= old(progress)
      ensures old(progress) + delta >= 100.0 ==>
        && progress == 100.0 && !active
        && list.files == Completed(old(list.files), id)
        && toast == Some(Toast("Upload complete", name + " uploaded successfully.", false))
      ensures old(progress) + delta < 100.0 ==>
        && progress == old(progress) + delta && active
        && list.files == WithProgress(old(list.files), id, Min(progress, 95.0))
        && toast == None
      ensures |list.files| == |old(list.files)|
    {
      progress := progress + delta;
      if progress >= 100.0 {
        progress := 100.0;
        active := false;
        list.files := Completed(list.files, id);
        toast := Some(Toast("Upload complete", name + " uploaded successfully.", false));
      } else {
        list.files := WithProgress(list.files, id, Min(progress, 95.0));
        toast := None;
      }
    }
  }

  /** `formatSize`'s unit choice; the one-decimal rendering of KB and MB is not modelled. */
  datatype SizeText = Bytes(count: nat) | Kilobytes(value: real) | Megabytes(value: real)

  function FormatSize(bytes: nat): (t: SizeText)
    ensures t.Bytes? <==> bytes < 1024
    ensures t.Kilobytes? <==> 1024 <= bytes < 1048576
    ensures t.Megabytes? <==> bytes >= 1048576
    ensures t.Bytes? ==> t.count == bytes
    ensures t.Kilobytes? ==> t.value * 1024.0 == bytes as real
    ensures t.Megabytes? ==> t.value * 1048576.0 == bytes as real
  {
    if bytes < 1024 then Bytes(bytes)
    else if bytes < 1024 * 1024 then Kilobytes(bytes as real / 1024.0)
    else Megabytes(bytes as real / (1024.0 * 1024.0))
  }
}
