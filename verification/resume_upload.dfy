/** The résumé upload box: a drop zone (or hidden file input) that accepts one
    PDF, DOC or DOCX file of at most 5 MiB, and, once a file is held, its
    Parse and Delete buttons. Each handler's toast is returned as a notice. */
module ResumeUpload {
  import opened Seqs

  /** What the browser reports about a chosen file. */
  datatype File = File(name: string, mimeType: string, size: nat)

  /** The MIME types of PDF, DOC and DOCX. */
  const AllowedTypes: seq<string> :=
    ["application/pdf", "application/msword",
     "application/vnd.openxmlformats-officedocument.wordprocessingml.document"]

  /** 5 MiB in bytes. */
  const MaxSize: nat := 5 * 1024 * 1024

  /** The toasts the box shows, by title. */
  datatype Notice =
    | InvalidFileType
    | FileTooLarge
    | Uploaded(fileName: string)
    | FileDeleted
    | ParsingStarted
    | ParsedSuccessfully

  datatype UploadState = UploadState(isDragging: bool, uploadedFile: Option<File>)

  const Initial: UploadState := UploadState(false, None)

  /** The drop zone is rendered only while no file is held; otherwise the file
      card with its buttons is. */
  predicate DropZoneShown(s: UploadState) {
    s.uploadedFile.None?
  }

  /** A file the box keeps: an allowed type and at most `MaxSize` bytes. */
  predicate Acceptable(file: File) {
    file.mimeType in AllowedTypes && file.size <= MaxSize
  }

  /** `handleFile`: the type is checked first, then the size; only a file that
      passes both replaces the held file. */
  function HandleFile(s: UploadState, file: File): (r: (UploadState, Notice))
    ensures r.1 == InvalidFileType <==> file.mimeType !in AllowedTypes
    ensures r.1 == FileTooLarge <==> file.mimeType in AllowedTypes && file.size > MaxSize
    ensures r.1.Uploaded? <==> Acceptable(file)
    ensures r.1.Uploaded? ==> r.1.fileName == file.name && r.0 == s.(uploadedFile := Some(file))
    ensures !r.1.Uploaded? ==> r.0 == s
  {
    if file.mimeType !in AllowedTypes then (s, InvalidFileType)
    else if file.size > MaxSize then (s, FileTooLarge)
    else (s.(uploadedFile := Some(file)), Uploaded(file.name))
  }

  /** The box holds the file afterwards exactly when the file is acceptable or
      it already held that very file. */
  lemma HoldsFileIff(s: UploadState, file: File)
    ensures HandleFile(s, file).0.uploadedFile == Some(file) <==> Acceptable(file) || s.uploadedFile == Some(file)
  {
  }

  /** A file of exactly 5 MiB is kept; one byte more is refused. */
  lemma SizeBoundary(name: string)
    ensures HandleFile(Initial, File(name, "application/pdf", 5242880)).1 == Uploaded(name)
    ensures HandleFile(Initial, File(name, "application/pdf", 5242881)).1 == FileTooLarge
  {
  }

  /** A file of the wrong type is reported as such whatever its size. */
  lemma TypeCheckedFirst(s: UploadState, file: File)
    requires file.mimeType !in AllowedTypes && file.size > MaxSize
    ensures HandleFile(s, file).1 == InvalidFileType
  {
  }

  function DragOver(s: UploadState): (r: UploadState)
    ensures r.isDragging && r.uploadedFile == s.uploadedFile
  {
    s.(isDragging := true)
  }

  function DragLeave(s: UploadState): (r: UploadState)
    ensures !r.isDragging && r.uploadedFile == s.uploadedFile
  {
    s.(isDragging := false)
  }

  /** `handleDrop`: the highlight goes off, and only the first dropped file, if
      any, is handled. */
  function Drop(s: UploadState, files: seq<File>): (r: (UploadState, Option<Notice>))
    ensures !r.0.isDragging
    ensures files == [] ==> r == (s.(isDragging := false), None)
    ensures files != [] ==> r.1.Some? && (r.0, r.1.value) == HandleFile(DragLeave(s), files[0])
  {
    var leaving := s.(isDragging := false);
    if |files| > 0 then
      var (next, notice) := HandleFile(leaving, files[0]);
      (next, Some(notice))
    else
      (leaving, None)
  }

  /** `handleFileInput`: like a drop, but the highlight is not touched. */
  function FileInput(s: UploadState, files: seq<File>): (r: (UploadState, Option<Notice>))
    ensures files == [] ==> r == (s, None)
    ensures files != [] ==> r.1.Some? && (r.0, r.1.value) == HandleFile(s, files[0])
  {
    if |files| > 0 then
      var (next, notice) := HandleFile(s, files[0]);
      (next, Some(notice))
    else
      (s, None)
  }

  /** Files after the first play no part in a drop. */
  lemma DropIgnoresLaterFiles(s: UploadState, first: File, rest: seq<File>, others: seq<File>)
    ensures Drop(s, [first] + rest) == Drop(s, [first] + others)
  {
  }

  /** A drop and a file choice of the same files end in the same file state. */
  lemma DropAgreesWithFileInput(s: UploadState, files: seq<File>)
    ensures Drop(s, files).0.uploadedFile == FileInput(s, files).0.uploadedFile
    ensures Drop(s, files).1 == FileInput(s, files).1
  {
  }

  /** `handleDelete`: the held file is dropped and the drop zone comes back. */
  function HandleDelete(s: UploadState): (r: (UploadState, Notice))
    ensures DropZoneShown(r.0) && r.0.isDragging == s.isDragging
    ensures r.1 == FileDeleted
  {
    (s.(uploadedFile := None), FileDeleted)
  }

  /** `handleParseResume`: with no file nothing happens; with one, a "started"
      notice and, two seconds later, a "parsed" one. The state is not touched. */
  function HandleParse(s: UploadState): (r: seq<Notice>)
    ensures r == [] <==> s.uploadedFile.None?
    ensures r != [] ==> r[0] == ParsingStarted && r[|r| - 1] == ParsedSuccessfully
  {
    if s.uploadedFile.None? then [] else [ParsingStarted, ParsedSuccessfully]
  }

  /** Uploading an acceptable file from the drop zone shows the file card, Parse
      then reports, and Delete returns to the drop zone with nothing to parse. */
  lemma UploadParseDelete(s: UploadState, file: File)
    requires DropZoneShown(s) && Acceptable(file)
    ensures !DropZoneShown(HandleFile(s, file).0)
    ensures HandleParse(HandleFile(s, file).0) != []
    ensures DropZoneShown(HandleDelete(HandleFile(s, file).0).0)
    ensures HandleParse(HandleDelete(HandleFile(s, file).0).0) == []
  {
  }

  /** A refused file leaves the drop zone up. */
  lemma RefusedFileKeepsDropZone(s: UploadState, file: File)
    requires DropZoneShown(s) && !Acceptable(file)
    ensures DropZoneShown(HandleFile(s, file).0)
  {
  }
}
