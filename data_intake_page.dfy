/** app/admin/data-intake/page.tsx: CSV file acceptance, the simulated upload with its progress
    counter, and the upload log it prepends to. */
module DataIntakePage {
  import opened Wrappers
  import opened Strings

  /** The parts of a browser `File` the page reads. */
  datatype File = File(name: string, mimeType: string)

  datatype DataKind = Sensor | Lot | Quality
  datatype UploadStatus = Success | Partial | Failed

  datatype UploadLog = UploadLog(
    id: string,
    filename: string,
    kind: DataKind,
    status: UploadStatus,
    rowsProcessed: nat,
    rowsFailed: nat,
    timestamp: string,
    errors: Option<seq<string>>)

  /** The two logs the page starts with. */
  const InitialLogs: seq<UploadLog> := [
    UploadLog("log-001", "2025-07-31.csv", Sensor, Success, 1440, 0, "2025-08-01T09:00:00+09:00", None),
    UploadLog("log-002", "lots_202507.csv", Lot, Partial, 95, 5, "2025-08-01T08:30:00+09:00",
              Some(["行23: 必須フィールド不足", "行45: 日付形式エラー"]))
  ]

  /** `handleFileSelect`'s test: the MIME type is `text/csv`, or the name ends in `.csv`. */
  predicate IsCsvFile(f: File)
  {
    f.mimeType == "text/csv" || EndsWith(f.name, ".csv")
  }

  /** Either test alone admits a file: a `.csv` name whatever its type, the CSV type whatever its
      name; a file with neither is refused. */
  lemma CsvAcceptance(base: string, mimeType: string, name: string)
    ensures IsCsvFile(File(base + ".csv", mimeType))
    ensures IsCsvFile(File(name, "text/csv"))
    ensures !IsCsvFile(File("data.txt", "text/plain"))
  {
    assert (base + ".csv")[|base + ".csv"| - 4..] == ".csv";
  }

  /** The interval callback's step: `prev >= 100 ? 100 : prev + 10`. */
  function NextProgress(prev: int): (next: int)
    ensures prev >= 100 ==> next == 100
    ensures prev < 100 ==> next == prev + 10
  {
    if prev >= 100 then 100 else prev + 10
  }

  /** A progress value the bar can show: 0 to 100, in steps of 10. */
  predicate ProgressShape(p: int)
  {
    0 <= p <= 100 && p % 10 == 0
  }

  /** Stepping keeps a well-formed progress well-formed; not stepping past 100 needs the steps
      of 10 (from 95 a step would give 105). */
  lemma NextProgressKeepsShape(p: int)
    requires ProgressShape(p)
    ensures ProgressShape(NextProgress(p))
    ensures NextProgress(p) >= p
  {
  }

  /** The progress after `n` interval ticks from 0. */
  function Progress(n: nat): int
  {
    if n == 0 then 0 else NextProgress(Progress(n - 1))
  }

  /** After `n` ticks the bar shows min(10·n, 100): it never passes 100. */
  lemma {:induction false} ProgressIsCapped(n: nat)
    ensures Progress(n) == if 10 * n <= 100 then 10 * n else 100
  {
    if n > 0 {
      ProgressIsCapped(n - 1);
    }
  }

  /** What a handler announces in a toast. */
  datatype Notice = NoNotice | NotCsv | FileSelected(name: string) | UploadDone | UploadPartial(rowsFailed: nat)

  /** The `setTimeout` callback `handleUpload` schedules, with the file and the log list it saw
      when it was scheduled. */
  datatype PendingUpload = PendingUpload(file: File, logsAtStart: seq<UploadLog>)

  class DataIntakeState {
    var selectedFile: Option<File>
    var uploading: bool
    var uploadProgress: int
    var uploadLogs: seq<UploadLog>
    /** The pending completion timer, if an upload was started. */
    var pending: Option<PendingUpload>
    /** How many progress intervals are still running; none is ever cleared by the completion. */
    var runningIntervals: nat

    ghost predicate Valid()
      reads this
    {
      ProgressShape(uploadProgress) && (pending.Some? <==> uploading)
    }

    constructor()
      ensures Valid()
      ensures selectedFile == None && !uploading && uploadProgress == 0
      ensures uploadLogs == InitialLogs && pending == None && runningIntervals == 0
    {
      selectedFile := None;
      uploading := false;
      uploadProgress := 0;
      uploadLogs := InitialLogs;
      pending := None;
      runningIntervals := 0;
    }

    /** `handleFileSelect`: no file does nothing; a non-CSV file is refused and the selection
        stays; a CSV file becomes the selection. */
    method HandleFileSelect(file: Option<File>) returns (notice: Notice)
      requires Valid()
      modifies this
      ensures Valid()
      ensures file.None? ==> notice == NoNotice && selectedFile == old(selectedFile)
      ensures file.Some? && !IsCsvFile(file.value) ==> notice == NotCsv && selectedFile == old(selectedFile)
      ensures file.Some? && IsCsvFile(file.value) ==> notice == FileSelected(file.value.name) && selectedFile == file
      ensures uploading == old(uploading) && uploadProgress == old(uploadProgress)
      ensures uploadLogs == old(uploadLogs) && pending == old(pending) && runningIntervals == old(runningIntervals)
    {
      notice := NoNotice;
      if file.Some? {
        if !IsCsvFile(file.value) {
          notice := NotCsv;
          return;
        }
        selectedFile := file;
        notice := FileSelected(file.value.name);
      }
    }

    /** `handleUpload`, which the page offers only while no upload runs: without a selection it
        does nothing; otherwise it starts uploading at 0 %, starts one progress interval and
        schedules the completion with the current file and logs. */
    method HandleUpload()
      requires Valid() && !uploading
      modifies this
      ensures Valid()
      ensures old(selectedFile).None? ==> unchanged(this)
      ensures old(selectedFile).Some? ==>
        && uploading && uploadProgress == 0
        && pending == Some(PendingUpload(old(selectedFile).value, old(uploadLogs)))
        && runningIntervals == old(runningIntervals) + 1
        && selectedFile == old(selectedFile) && uploadLogs == old(uploadLogs)
    {
      if selectedFile.None? {
        return;
      }
      uploading := true;
      uploadProgress := 0;
      runningIntervals := runningIntervals + 1;
      pending := Some(PendingUpload(selectedFile.value, uploadLogs));
    }

    /** One firing of a running progress interval: at 100 it stops itself, else it adds 10. */
    method Tick()
      requires Valid() && runningIntervals > 0
      modifies this
      ensures Valid()
      ensures uploadProgress == NextProgress(old(uploadProgress))
      ensures runningIntervals == if old(uploadProgress) >= 100 then old(runningIntervals) - 1 else old(runningIntervals)
      ensures selectedFile == old(selectedFile) && uploading == old(uploading)
      ensures uploadLogs == old(uploadLogs) && pending == old(pending)
    {
      NextProgressKeepsShape(uploadProgress);
      if uploadProgress >= 100 {
        runningIntervals := runningIntervals - 1;
      }
      uploadProgress := NextProgress(uploadProgress);
    }

    /** The completion callback. The outcome (`Date.now()`, the ISO time and the random counts)
        comes in as parameters. The new log goes in front of the logs seen when the upload
        started, and the upload state is reset, clearing the selection. */
    method CompleteUpload(id: string, partial: bool, rowsProcessed: nat, rowsFailed: nat,
                          timestamp: string, errors: Option<seq<string>>)
      returns (log: UploadLog, notice: Notice)
      requires Valid() && pending.Some?
      modifies this
      ensures Valid()
      ensures log == UploadLog(id, old(pending).value.file.name, Sensor, if partial then Partial else Success,
                               rowsProcessed, rowsFailed, timestamp, errors)
      ensures uploadLogs == [log] + old(pending).value.logsAtStart
      ensures !uploading && uploadProgress == 0 && selectedFile.None? && pending.None?
      ensures runningIntervals == old(runningIntervals)
      ensures notice == if partial then UploadPartial(rowsFailed) else UploadDone
    {
      var p := pending.value;
      log := UploadLog(id, p.file.name, Sensor, if partial then Partial else Success,
                       rowsProcessed, rowsFailed, timestamp, errors);
      uploadLogs := [log] + p.logsAtStart;
      uploading := false;
      uploadProgress := 0;
      selectedFile := None;
      pending := None;
      notice := if log.status == Success then UploadDone else UploadPartial(log.rowsFailed);
    }
  }

  /** One upload from selection to completion: one more log, in front, the older logs after it
      in the same order, and the page idle again. */
  method UploadOnce(page: DataIntakeState, file: File, id: string, partial: bool, rowsProcessed: nat,
                    rowsFailed: nat, timestamp: string, errors: Option<seq<string>>)
    requires page.Valid() && !page.uploading && IsCsvFile(file)
    modifies page
    ensures page.Valid() && !page.uploading && page.selectedFile.None?
    ensures |page.uploadLogs| == |old(page.uploadLogs)| + 1
    ensures page.uploadLogs[0].filename == file.name
    ensures page.uploadLogs[1..] == old(page.uploadLogs)
  {
    var n := page.HandleFileSelect(Some(file));
    page.HandleUpload();
    var log, notice := page.CompleteUpload(id, partial, rowsProcessed, rowsFailed, timestamp, errors);
  }

  /** The icon `getStatusIcon` draws: its shape and colour. */
  datatype StatusIcon = CheckCircleGreen | AlertCircleYellow | XCircleRed

  function StatusIconOf(s: UploadStatus): StatusIcon
  {
    match s
    case Success => CheckCircleGreen
    case Partial => AlertCircleYellow
    case Failed => XCircleRed
  }

  /** The text of `getStatusBadge`. */
  function StatusBadgeLabel(s: UploadStatus): string
  {
    match s
    case Success => "成功"
    case Partial => "部分成功"
    case Failed => "失敗"
  }

  /** Both mappings cover all three statuses and tell them apart. */
  lemma StatusDisplayIsInjective(a: UploadStatus, b: UploadStatus)
    ensures StatusIconOf(a) == StatusIconOf(b) ==> a == b
    ensures StatusBadgeLabel(a) == StatusBadgeLabel(b) ==> a == b
  {
  }
}
