/**
 * The Excel import screen: choose a spreadsheet, list and pick one of its
 * sheets, preview it, import it into the product catalogue while two
 * progress counters move, and keep a most-recent-first history of import
 * attempts that gates re-imports of a (file, sheet) pair already imported
 * successfully.
 *
 * The component's fields live in `ExcelUploadComponent`; every operation is
 * a method whose contract gives the whole new state as an update of
 * `Snapshot()`. Browser dialogs become boolean parameters, the clock a
 * `now` parameter, and the HTTP and WebSocket callbacks explicit events.
 */
module ExcelUpload {
  import opened Wrappers
  import opened Text

  /** The `status` of a history entry: 'success' | 'error'. */
  datatype Status = Success | Error

  /** One import attempt; `date` is the clock reading taken when it ended. */
  datatype HistoryEntry = HistoryEntry(
    fileName: string,
    sheetName: string,
    date: int,
    recordsImported: int,
    status: Status)

  /** A chosen file; only its name matters here, the contents go to the server. */
  datatype File = File(name: string)

  /** A preview row: (column, value) pairs in the order the row object enumerates its keys. */
  datatype Row = Row(cells: seq<(string, string)>)

  /** The file and sheet names an upload's callbacks captured when it started. */
  datatype UploadRequest = UploadRequest(fileName: string, sheetName: string)

  /** What the upload request and the processing channel deliver to the component. */
  datatype UploadEvent =
      /** HttpEventType.UploadProgress; `total` is 0 when the browser does not know it. */
    | UploadProgress(loaded: nat, total: nat)
      /** HttpEventType.Response, with the `count` field of its body if any. */
    | Response(count: Option<int>)
      /** Any other HTTP event (Sent, ResponseHeader, DownloadProgress, User). */
    | OtherHttpEvent
      /** The request's error callback, with the `detail` field of the error body if any. */
    | Failure(detail: Option<string>)
      /** A decoded message of the processing channel. */
    | WsMessage(step: string, progress: int)

  const MsgNoFileChosen := "No seleccionaste ningún archivo."
  const MsgOnlyExcel := "Solo se permiten archivos Excel."
  const MsgSheetsFailed := "No se pudieron cargar las hojas."
  const MsgChooseSheet := "Debes seleccionar una hoja."
  const MsgPreviewFailed := "Error al previsualizar la hoja."
  const MsgNoFile := "No seleccionaste un archivo."
  const MsgDuplicateCancelled := "Importación cancelada: archivo duplicado."
  const MsgUploadFailed := "Error al subir el archivo."

  /** The warning shown when the chosen pair was already imported successfully. */
  function DuplicateWarningText(fileName: string, sheetName: string): string {
    "⚠️ Ya existe un registro exitoso de \"" + fileName + "\" - hoja \"" + sheetName + "\"."
  }

  /** The extension allow-list: names ending in `.xlsx` or `.xls`. */
  predicate IsExcelFileName(name: string) {
    EndsWith(name, ".xlsx") || EndsWith(name, ".xls")
  }

  /** Both allowed extensions are accepted whatever precedes them. */
  lemma ExcelExtensionsAccepted(base: string)
    ensures IsExcelFileName(base + ".xlsx") && IsExcelFileName(base + ".xls")
  {
    EndsWithAppend(base, ".xlsx", base);
    EndsWithAppend(base, ".xls", base);
  }

  /** A sheet is chosen when the selection is neither null nor the empty string. */
  predicate SheetChosen(sheet: Option<string>) {
    sheet.Some? && sheet.value != ""
  }

  /** `entry` records a successful import of this exact (file, sheet) pair. */
  predicate IsSuccessFor(entry: HistoryEntry, fileName: string, sheetName: string) {
    entry.fileName == fileName && entry.sheetName == sheetName && entry.status == Success
  }

  /**
   * The `uploadHistory.some(...)` scan: true exactly when some entry records a
   * successful import of (fileName, sheetName).
   */
  predicate HasSuccessfulImport(history: seq<HistoryEntry>, fileName: string, sheetName: string)
    ensures HasSuccessfulImport(history, fileName, sheetName) <==>
      exists i :: 0 <= i < |history| && IsSuccessFor(history[i], fileName, sheetName)
  {
    if history == [] then false
    else if IsSuccessFor(history[0], fileName, sheetName) then true
    else
      assert forall i :: 1 <= i < |history| ==> history[i] == history[1..][i - 1];
      HasSuccessfulImport(history[1..], fileName, sheetName)
  }

  /** An error entry in front of the history never changes the answer of the scan. */
  lemma ErrorEntryNeverDuplicates(e: HistoryEntry, history: seq<HistoryEntry>, fileName: string, sheetName: string)
    requires e.status == Error
    ensures HasSuccessfulImport([e] + history, fileName, sheetName) == HasSuccessfulImport(history, fileName, sheetName)
  {
    assert ([e] + history)[1..] == history;
  }

  /** A success entry in front of the history makes its own pair a duplicate, and no other pair. */
  lemma SuccessEntryDuplicates(e: HistoryEntry, history: seq<HistoryEntry>, fileName: string, sheetName: string)
    requires e.status == Success
    ensures HasSuccessfulImport([e] + history, fileName, sheetName) <==>
      (e.fileName == fileName && e.sheetName == sheetName) || HasSuccessfulImport(history, fileName, sheetName)
  {
    assert ([e] + history)[1..] == history;
  }

  /**
   * `Math.round(loaded * 100 / total)` for a known total: the whole
   * percentage nearest to loaded/total, halves rounded up.
   */
  function RoundedPercent(loaded: nat, total: nat): (r: int)
    requires total > 0
    ensures total * (2 * r - 1) <= 200 * loaded < total * (2 * r + 1)
    ensures loaded <= total ==> 0 <= r <= 100
  {
    var q := (200 * loaded + total) / (2 * total);
    RoundingBounds(loaded, total, q);
    q
  }

  /** The arithmetic behind `RoundedPercent`: the quotient lies within half a step of the ratio. */
  lemma RoundingBounds(loaded: nat, total: nat, q: int)
    requires total > 0 && q == (200 * loaded + total) / (2 * total)
    ensures total * (2 * q - 1) <= 200 * loaded < total * (2 * q + 1)
    ensures loaded <= total ==> 0 <= q <= 100
  {
    var n, d := 200 * loaded + total, 2 * total;
    QuotientBounds(n, d);
    assert total * (2 * q - 1) == d * q - total;
    assert total * (2 * q + 1) == d * q + total;
    if loaded <= total {
      QuotientBelow(n, d, 101);
    }
  }

  /** Euclidean division by a positive divisor. */
  lemma QuotientBounds(n: int, d: int)
    requires d > 0
    ensures d * (n / d) <= n < d * (n / d) + d
  {
  }

  /** A non-negative numerator below `d * k` has a quotient in `0 .. k - 1`. */
  lemma QuotientBelow(n: nat, d: int, k: int)
    requires d > 0 && n < d * k
    ensures 0 <= n / d < k
  {
    QuotientBounds(n, d);
    var q := n / d;
    assert d * (q + 1) > 0;
    assert d * q < d * k;
    assert d * (k - q) > 0;
  }

  /** No two cells of a row share a key, as in every JavaScript object. */
  predicate DistinctKeys(cells: seq<(string, string)>) {
    forall i, j :: 0 <= i < j < |cells| ==> cells[i].0 != cells[j].0
  }

  /** Some cell of the row has key `k`. */
  predicate HasKey(cells: seq<(string, string)>, k: string) {
    exists j :: 0 <= j < |cells| && cells[j].0 == k
  }

  /** No string occurs twice. */
  predicate Distinct(s: seq<string>) {
    forall i, j :: 0 <= i < j < |s| ==> s[i] != s[j]
  }

  /**
   * The preview headers: no header without rows; otherwise one header per
   * key of the first row, in its key order, each key exactly once when the
   * row's keys are distinct.
   */
  function ColumnsOf(rows: seq<Row>): (columns: seq<string>)
    ensures rows == [] ==> columns == []
    ensures rows != [] ==> forall k :: k in columns <==> HasKey(rows[0].cells, k)
    ensures rows != [] && DistinctKeys(rows[0].cells) ==> Distinct(columns)
    ensures rows != [] ==> |columns| == |rows[0].cells|
    ensures rows != [] ==> forall i :: 0 <= i < |columns| ==> columns[i] == rows[0].cells[i].0
  {
    if rows == [] then []
    else
      var cells := rows[0].cells;
      var keys := seq(|cells|, i requires 0 <= i < |cells| => cells[i].0);
      assert forall i :: 0 <= i < |keys| ==> keys[i] == cells[i].0;
      keys
  }

  /** `event.body?.count || 0`. */
  function ImportedCount(count: Option<int>): int {
    count.GetOr(0)
  }

  /** `err?.error?.detail || 'Error al subir el archivo.'`: an empty detail falls back too. */
  function FailureMessage(detail: Option<string>): (msg: string)
    ensures msg != ""
    ensures detail.Some? && detail.value != "" ==> msg == detail.value
    ensures detail.None? || detail.value == "" ==> msg == MsgUploadFailed
  {
    if detail.Some? && detail.value != "" then detail.value else MsgUploadFailed
  }

  /** The history a storage slot restores: its contents, or nothing when the slot is empty. */
  function Restored(slot: Option<seq<HistoryEntry>>): seq<HistoryEntry> {
    slot.GetOr([])
  }

  /** Every field of the component, as a value. */
  datatype UploadState = UploadState(
    uploadHistory: seq<HistoryEntry>,
    selectedFile: Option<File>,
    selectedSheet: Option<string>,
    sheets: seq<string>,
    previewData: seq<Row>,
    displayedColumns: seq<string>,
    uploadSuccess: bool,
    uploadError: Option<string>,
    duplicateWarning: Option<string>,
    uploadProgress: int,
    processingProgress: int,
    processingStep: string,
    storedHistory: Option<seq<HistoryEntry>>,
    openChannels: nat)

  class ExcelUploadComponent {
    var uploadHistory: seq<HistoryEntry>
    var selectedFile: Option<File>
    var selectedSheet: Option<string>
    var sheets: seq<string>
    var previewData: seq<Row>
    var displayedColumns: seq<string>
    var uploadSuccess: bool
    var uploadError: Option<string>
    var duplicateWarning: Option<string>
    var uploadProgress: int
    var processingProgress: int
    var processingStep: string
    /** The 'excel_upload_history' slot of local storage; serialisation is abstracted. */
    var storedHistory: Option<seq<HistoryEntry>>
    /** Processing channels opened so far; the component never closes one. */
    var openChannels: nat

    function Snapshot(): UploadState
      reads this
    {
      UploadState(uploadHistory, selectedFile, selectedSheet, sheets, previewData,
        displayedColumns, uploadSuccess, uploadError, duplicateWarning, uploadProgress,
        processingProgress, processingStep, storedHistory, openChannels)
    }

    /** The in-memory history is what a reload would restore from storage. */
    ghost predicate Valid()
      reads this
    {
      uploadHistory == Restored(storedHistory)
    }

    /** The selected (file, sheet) pair was already imported successfully. */
    predicate SelectionIsDuplicate()
      reads this
    {
      selectedFile.Some? && SheetChosen(selectedSheet)
      && HasSuccessfulImport(uploadHistory, selectedFile.value.name, selectedSheet.value)
    }

    /** Construction restores the history from the storage slot. */
    constructor (saved: Option<seq<HistoryEntry>>)
      ensures Valid()
      ensures Snapshot() == UploadState(Restored(saved), None, None, [], [], [], false,
        None, None, 0, 0, "", saved, 0)
    {
      uploadHistory := Restored(saved);
      selectedFile := None;
      selectedSheet := None;
      sheets := [];
      previewData := [];
      displayedColumns := [];
      uploadSuccess := false;
      uploadError := None;
      duplicateWarning := None;
      uploadProgress := 0;
      processingProgress := 0;
      processingStep := "";
      storedHistory := saved;
      openChannels := 0;
    }

    /**
     * `onFileSelected`: a missing file only reports it; a file outside the
     * allow-list is dropped; an accepted file resets the downstream display
     * state and asks for its sheet list (`requested`). The sheet list and the
     * chosen sheet are not reset, and the history is never touched.
     */
    method OnFileSelected(file: Option<File>) returns (requested: bool)
      requires Valid()
      modifies this
      ensures Valid()
      ensures requested <==> file.Some? && IsExcelFileName(file.value.name)
      ensures file.None? ==>
        Snapshot() == old(Snapshot()).(uploadError := Some(MsgNoFileChosen))
      ensures file.Some? && !IsExcelFileName(file.value.name) ==>
        Snapshot() == old(Snapshot()).(uploadError := Some(MsgOnlyExcel), selectedFile := None)
      ensures requested ==>
        Snapshot() == old(Snapshot()).(selectedFile := file, uploadError := None,
          uploadSuccess := false, duplicateWarning := None, previewData := [],
          displayedColumns := [], uploadProgress := 0, processingProgress := 0,
          processingStep := "")
    {
      if file.None? {
        uploadError := Some(MsgNoFileChosen);
        return false;
      }
      if !IsExcelFileName(file.value.name) {
        uploadError := Some(MsgOnlyExcel);
        selectedFile := None;
        return false;
      }
      selectedFile := file;
      uploadError := None;
      uploadSuccess := false;
      duplicateWarning := None;
      previewData := [];
      displayedColumns := [];
      uploadProgress := 0;
      processingProgress := 0;
      processingStep := "";
      requested := true;
    }

    /** The sheet list request of `loadSheets` answered: server order is kept. */
    method OnSheetsLoaded(names: seq<string>)
      requires Valid()
      modifies this
      ensures Valid()
      ensures Snapshot() == old(Snapshot()).(sheets := names)
    {
      sheets := names;
    }

    /** The sheet list request of `loadSheets` failed. */
    method OnSheetsFailed()
      requires Valid()
      modifies this
      ensures Valid()
      ensures Snapshot() == old(Snapshot()).(uploadError := Some(MsgSheetsFailed))
    {
      uploadError := Some(MsgSheetsFailed);
    }

    /** The sheet drop-down, bound to `selectedSheet`. */
    method SelectSheet(sheet: Option<string>)
      requires Valid()
      modifies this
      ensures Valid()
      ensures Snapshot() == old(Snapshot()).(selectedSheet := sheet)
    {
      selectedSheet := sheet;
    }

    /**
     * `isDuplicateUpload`: false without a file or a chosen sheet; otherwise
     * true exactly when some history entry records a successful import of the
     * selected file name and sheet. Error entries never count.
     */
    method IsDuplicateUpload() returns (duplicate: bool)
      ensures duplicate <==>
        selectedFile.Some? && SheetChosen(selectedSheet)
        && (exists i :: 0 <= i < |uploadHistory| &&
              uploadHistory[i].fileName == selectedFile.value.name &&
              uploadHistory[i].sheetName == selectedSheet.value &&
              uploadHistory[i].status == Success)
    {
      if selectedFile.None? || !SheetChosen(selectedSheet) {
        return false;
      }
      duplicate := HasSuccessfulImport(uploadHistory, selectedFile.value.name, selectedSheet.value);
    }

    /**
     * `checkForDuplicates`: without a file or a sheet nothing changes;
     * otherwise the warning is shown exactly when the selection is a
     * duplicate, and cleared when it is not.
     */
    method CheckForDuplicates()
      requires Valid()
      modifies this
      ensures Valid()
      ensures !(old(selectedFile).Some? && SheetChosen(old(selectedSheet))) ==>
        Snapshot() == old(Snapshot())
      ensures old(selectedFile).Some? && SheetChosen(old(selectedSheet)) ==>
        Snapshot() == old(Snapshot()).(duplicateWarning :=
          if old(SelectionIsDuplicate())
          then Some(DuplicateWarningText(old(selectedFile).value.name, old(selectedSheet).value))
          else None)
      ensures old(selectedFile).Some? && SheetChosen(old(selectedSheet)) ==>
        (duplicateWarning.Some? <==> SelectionIsDuplicate())
    {
      if selectedFile.None? || !SheetChosen(selectedSheet) {
        return;
      }
      var duplicate := IsDuplicateUpload();
      if duplicate {
        duplicateWarning := Some(DuplicateWarningText(selectedFile.value.name, selectedSheet.value));
      } else {
        duplicateWarning := None;
      }
    }

    /**
     * `previewSheet`: without a file or a sheet it only reports the missing
     * sheet; otherwise it refreshes the duplicate warning and requests the
     * preview (`requested`).
     */
    method PreviewSheet() returns (requested: bool)
      requires Valid()
      modifies this
      ensures Valid()
      ensures requested <==> old(selectedFile).Some? && SheetChosen(old(selectedSheet))
      ensures !requested ==>
        Snapshot() == old(Snapshot()).(uploadError := Some(MsgChooseSheet))
      ensures requested ==>
        Snapshot() == old(Snapshot()).(duplicateWarning :=
          if old(SelectionIsDuplicate())
          then Some(DuplicateWarningText(old(selectedFile).value.name, old(selectedSheet).value))
          else None)
    {
      if selectedFile.None? || !SheetChosen(selectedSheet) {
        uploadError := Some(MsgChooseSheet);
        return false;
      }
      CheckForDuplicates();
      requested := true;
    }

    /**
     * The preview request answered: rows kept as sent, headers from the first
     * row. The rows are decoded JSON objects, so none repeats a key.
     */
    method OnPreviewLoaded(rows: seq<Row>)
      requires Valid()
      requires forall r :: r in rows ==> DistinctKeys(r.cells)
      modifies this
      ensures Valid()
      ensures Snapshot() == old(Snapshot()).(previewData := rows, displayedColumns := ColumnsOf(rows))
      ensures rows == [] ==> displayedColumns == []
      ensures rows != [] ==> forall k :: k in displayedColumns <==> HasKey(rows[0].cells, k)
      ensures Distinct(displayedColumns)
    {
      previewData := rows;
      displayedColumns := ColumnsOf(rows);
    }

    /** The preview request failed; the previous preview stays. */
    method OnPreviewFailed()
      requires Valid()
      modifies this
      ensures Valid()
      ensures Snapshot() == old(Snapshot()).(uploadError := Some(MsgPreviewFailed))
    {
      uploadError := Some(MsgPreviewFailed);
    }

    /**
     * `uploadFile`. Without a file, or without a sheet, it only reports it. On
     * a duplicate the confirmation decides: declined, it only reports the
     * cancellation. Otherwise it clears the outcome and both progress
     * counters, opens a processing channel and starts the request, whose
     * callbacks capture the file and sheet names (`started`). Nothing stops a
     * second upload while one is in flight, and the history never changes here.
     */
    method UploadFile(confirmed: bool) returns (started: Option<UploadRequest>)
      requires Valid()
      modifies this
      ensures Valid()
      ensures uploadHistory == old(uploadHistory)
      ensures old(selectedFile).None? ==>
        started == None && Snapshot() == old(Snapshot()).(uploadError := Some(MsgNoFile))
      ensures old(selectedFile).Some? && !SheetChosen(old(selectedSheet)) ==>
        started == None && Snapshot() == old(Snapshot()).(uploadError := Some(MsgChooseSheet))
      ensures old(SelectionIsDuplicate()) && !confirmed ==>
        started == None && Snapshot() == old(Snapshot()).(uploadError := Some(MsgDuplicateCancelled))
      ensures started.Some? <==>
        old(selectedFile).Some? && SheetChosen(old(selectedSheet)) && (confirmed || !old(SelectionIsDuplicate()))
      ensures started.Some? ==>
        started.value == UploadRequest(old(selectedFile).value.name, old(selectedSheet).value)
        && Snapshot() == old(Snapshot()).(uploadError := None, uploadSuccess := false,
          duplicateWarning := None, uploadProgress := 0, processingProgress := 0,
          processingStep := "", openChannels := old(openChannels) + 1)
    {
      if selectedFile.None? {
        uploadError := Some(MsgNoFile);
        return None;
      }
      if !SheetChosen(selectedSheet) {
        uploadError := Some(MsgChooseSheet);
        return None;
      }
      var duplicate := IsDuplicateUpload();
      if duplicate && !confirmed {
        uploadError := Some(MsgDuplicateCancelled);
        return None;
      }
      uploadError := None;
      uploadSuccess := false;
      duplicateWarning := None;
      uploadProgress := 0;
      processingProgress := 0;
      processingStep := "";
      openChannels := openChannels + 1;
      started := Some(UploadRequest(selectedFile.value.name, selectedSheet.value));
    }

    /**
     * One event of an upload started as `request`, at clock reading `now`.
     * Progress with a known total sets the rounded percentage; the success
     * response and the error each put exactly one entry in front of the
     * history, for the captured names, and write the history to storage;
     * a processing message only sets the step and its percentage.
     */
    method OnUploadEvent(request: UploadRequest, event: UploadEvent, now: int)
      requires Valid()
      modifies this
      ensures Valid()
      ensures event.UploadProgress? && event.total > 0 ==>
        Snapshot() == old(Snapshot()).(uploadProgress := RoundedPercent(event.loaded, event.total))
      ensures event.UploadProgress? && event.total == 0 ==> Snapshot() == old(Snapshot())
      ensures event.OtherHttpEvent? ==> Snapshot() == old(Snapshot())
      ensures event.Response? ==>
        var history := [HistoryEntry(request.fileName, request.sheetName, now,
          ImportedCount(event.count), Success)] + old(uploadHistory);
        Snapshot() == old(Snapshot()).(uploadSuccess := true, uploadProgress := 100,
          uploadHistory := history, storedHistory := Some(history))
      ensures event.Failure? ==>
        var history := [HistoryEntry(request.fileName, request.sheetName, now, 0, Error)]
          + old(uploadHistory);
        Snapshot() == old(Snapshot()).(uploadError := Some(FailureMessage(event.detail)),
          uploadHistory := history, storedHistory := Some(history))
      ensures event.WsMessage? ==>
        Snapshot() == old(Snapshot()).(processingStep := event.step,
          processingProgress := event.progress)
    {
      match event
      case UploadProgress(loaded, total) =>
        if total > 0 {
          uploadProgress := RoundedPercent(loaded, total);
        }
      case Response(count) =>
        uploadSuccess := true;
        uploadProgress := 100;
        uploadHistory := [HistoryEntry(request.fileName, request.sheetName, now,
          ImportedCount(count), Success)] + uploadHistory;
        storedHistory := Some(uploadHistory);
      case OtherHttpEvent =>
      case Failure(detail) =>
        uploadError := Some(FailureMessage(detail));
        uploadHistory := [HistoryEntry(request.fileName, request.sheetName, now, 0, Error)]
          + uploadHistory;
        storedHistory := Some(uploadHistory);
      case WsMessage(step, progress) =>
        processingStep := step;
        processingProgress := progress;
    }

    /**
     * `clearHistory`: confirmed, it empties the history, removes the storage
     * slot and clears the warning; declined, it changes nothing.
     */
    method ClearHistory(confirmed: bool)
      requires Valid()
      modifies this
      ensures Valid()
      ensures confirmed ==>
        Snapshot() == old(Snapshot()).(uploadHistory := [], storedHistory := None,
          duplicateWarning := None)
      ensures !confirmed ==> Snapshot() == old(Snapshot())
    {
      if confirmed {
        uploadHistory := [];
        storedHistory := None;
        duplicateWarning := None;
      }
    }
  }

  /**
   * A client of the component: importing catalog.xlsx / Sheet1 with a
   * response count of 42 puts one success entry in front of the history and
   * ends the byte progress at 100; declining the re-import of the same pair
   * then only reports the cancellation.
   */
  method ImportThenDeclinedReimport(now: int)
  {
    var c := new ExcelUploadComponent(None);
    ExcelExtensionsAccepted("catalog");
    assert "catalog" + ".xlsx" == "catalog.xlsx";
    var requested := c.OnFileSelected(Some(File("catalog.xlsx")));
    assert requested;
    c.SelectSheet(Some("Sheet1"));
    var started := c.UploadFile(false);
    assert started == Some(UploadRequest("catalog.xlsx", "Sheet1"));
    c.OnUploadEvent(started.value, Response(Some(42)), now);
    assert c.uploadHistory == [HistoryEntry("catalog.xlsx", "Sheet1", now, 42, Success)];
    assert c.uploadProgress == 100 && c.uploadSuccess;
    assert IsSuccessFor(c.uploadHistory[0], "catalog.xlsx", "Sheet1");
    var again := c.UploadFile(false);
    assert again == None && c.uploadError == Some(MsgDuplicateCancelled);
    assert |c.uploadHistory| == 1;
  }

  /**
   * A client of the component: a failed import with detail "bad schema"
   * shows that detail and records an error entry with no records, which does
   * not make the pair a duplicate.
   */
  method FailedImport(now: int)
  {
    var c := new ExcelUploadComponent(None);
    ExcelExtensionsAccepted("catalog");
    assert "catalog" + ".xls" == "catalog.xls";
    var requested := c.OnFileSelected(Some(File("catalog.xls")));
    c.SelectSheet(Some("Sheet1"));
    var started := c.UploadFile(false);
    assert started.Some?;
    c.OnUploadEvent(started.value, Failure(Some("bad schema")), now);
    assert c.uploadError == Some("bad schema");
    assert c.uploadHistory == [HistoryEntry("catalog.xls", "Sheet1", now, 0, Error)];
    var duplicate := c.IsDuplicateUpload();
    assert !duplicate;
  }
}
