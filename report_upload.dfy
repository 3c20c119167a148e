/**
 * The report upload form: a buffer of at most five picked files, filled by drag-and-drop
 * or the file picker and emptied one entry at a time, and the submit handler that stores
 * every file and then inserts one report row pointing at the first stored file.
 */
module ReportUpload {
  import opened Wrappers
  import opened Text
  import opened Seqs

  const MaxFiles := 5
  const UploadFailed := "An error occurred during upload. Please ensure you have configured Supabase Storage."
  const ProcessingSummary := "Processing report with AI..."
  const Pending := "pending"
  const ReportsPage := "/patient/reports"

  /** A picked file; only its name matters to the model. */
  datatype PickedFile = PickedFile(name: string)

  // ---------------------------------------------------------------------------
  // The file buffer
  // ---------------------------------------------------------------------------

  /** `[...prev, ...picked.slice(0, 5)].slice(0, 5)`. */
  function AddFiles(prev: seq<PickedFile>, picked: seq<PickedFile>): (r: seq<PickedFile>)
    ensures |r| <= MaxFiles
    ensures r == Take(prev + picked, MaxFiles)
    ensures |prev| <= MaxFiles ==> r[..|prev|] == prev
  {
    var r := Take(prev + Take(picked, MaxFiles), MaxFiles);
    assert r == Take(prev + picked, MaxFiles) by {
      if |prev| + |picked| > MaxFiles {
        assert (prev + Take(picked, MaxFiles))[..MaxFiles] == (prev + picked)[..MaxFiles];
      }
    }
    r
  }

  /** Picking files when the buffer is full changes nothing; otherwise the new files go
      after the old ones until the buffer holds five. */
  lemma AddFilesToFull(prev: seq<PickedFile>, picked: seq<PickedFile>)
    requires |prev| == MaxFiles
    ensures AddFiles(prev, picked) == prev
  {
    assert (prev + picked)[..MaxFiles] == prev;
  }

  /** `prev.filter((_, i) => i !== index)`. */
  function RemoveAt(s: seq<PickedFile>, index: int): (r: seq<PickedFile>)
    ensures |r| <= |s|
    decreases |s|
  {
    if s == [] then []
    else RemoveAt(s[..|s| - 1], index) + (if |s| - 1 != index then [s[|s| - 1]] else [])
  }

  /** Removing drops exactly the entry at `index` and keeps the others in order; an index
      outside the list removes nothing. */
  lemma {:induction false} RemoveAtIsSplice(s: seq<PickedFile>, index: int)
    ensures 0 <= index < |s| ==> RemoveAt(s, index) == s[..index] + s[index + 1..]
    ensures !(0 <= index < |s|) ==> RemoveAt(s, index) == s
    decreases |s|
  {
    if s != [] {
      var init := s[..|s| - 1];
      var last := s[|s| - 1];
      RemoveAtIsSplice(init, index);
      assert RemoveAt(s, index) == RemoveAt(init, index) + (if |s| - 1 != index then [last] else []);
      if index == |s| - 1 {
        assert s[..index] == init;
        assert s[index + 1..] == [];
      } else if 0 <= index < |s| - 1 {
        assert init[..index] == s[..index];
        assert init[index + 1..] + [last] == s[index + 1..];
        assert init[..index] + init[index + 1..] + [last] == s[..index] + (init[index + 1..] + [last]);
      } else {
        assert init + [last] == s;
      }
    }
  }

  // ---------------------------------------------------------------------------
  // Storage paths and the upload batch
  // ---------------------------------------------------------------------------

  /** `file.name.split('.').pop()`: the text after the last dot, or the whole name. */
  function Extension(name: string): (r: string)
    ensures '.' !in r
    ensures |r| <= |name| && r == name[|name| - |r|..]
    ensures '.' !in name ==> r == name
  {
    SplitShape(name, '.');
    LastPart(name, '.')
  }

  lemma ExtensionOfDotted(base: string, ext: string)
    requires '.' !in ext
    ensures Extension(base + "." + ext) == ext
  {
    assert base + "." + ext == base + ['.'] + ext;
    LastPartAfterSeparator(base, '.', ext);
  }

  /** The random part and the millisecond clock reading that name one stored file. */
  datatype Stamp = Stamp(random: string, millis: nat)

  /** `${user.id}/${random}-${Date.now()}.${ext}`. */
  function StoragePath(userId: string, stamp: Stamp, file: PickedFile): string {
    userId + "/" + stamp.random + "-" + NatToString(stamp.millis) + "." + Extension(file.name)
  }

  /** The stored object keeps the file's extension and lives in the user's folder. */
  lemma StoragePathShape(userId: string, stamp: Stamp, file: PickedFile)
    requires '/' !in userId
    ensures Extension(StoragePath(userId, stamp, file)) == Extension(file.name)
    ensures FirstPart(StoragePath(userId, stamp, file), '/') == userId
  {
    var path, ext := StoragePath(userId, stamp, file), Extension(file.name);
    var stem := stamp.random + "-" + NatToString(stamp.millis);
    assert Extension(path) == ext by {
      assert path == (userId + "/" + stem) + "." + ext;
      ExtensionOfDotted(userId + "/" + stem, ext);
    }
    assert FirstPart(path, '/') == userId by {
      assert path == userId + ['/'] + (stem + "." + ext);
      SplitAfterSeparator(userId, '/', stem + "." + ext);
    }
  }

  /** The outcome of one storage upload: the stored path, or the error's message. */
  datatype UploadOutcome = Stored(path: string) | UploadError(message: Option<string>)

  /** `Promise.all` over the uploads: every path when all succeed, otherwise the first
      failure in list order. */
  function UploadAll(outcomes: seq<UploadOutcome>): (r: Result<seq<string>, Option<string>>)
    ensures r.Ok? <==> forall i :: 0 <= i < |outcomes| ==> outcomes[i].Stored?
    ensures r.Ok? ==> |r.value| == |outcomes| && forall i :: 0 <= i < |outcomes| ==> r.value[i] == outcomes[i].path
    ensures r.Err? ==> exists i :: (0 <= i < |outcomes| && outcomes[i] == UploadError(r.error)
      && forall j :: 0 <= j < i ==> outcomes[j].Stored?)
    decreases |outcomes|
  {
    if outcomes == [] then Ok([])
    else
      match outcomes[0]
      case UploadError(message) => Err(message)
      case Stored(path) =>
        var rest := UploadAll(outcomes[1..]);
        if rest.Err? then
          var i :| 0 <= i < |outcomes[1..]| && outcomes[1..][i] == UploadError(rest.error)
            && forall j :: 0 <= j < i ==> outcomes[1..][j].Stored?;
          assert outcomes[i + 1] == UploadError(rest.error);
          Err(rest.error)
        else
          Ok([path] + rest.value)
  }

  /** The paths that end up in storage: every successful upload, whether or not
      another one failed. */
  function StoredPaths(outcomes: seq<UploadOutcome>): (r: seq<string>)
    ensures forall i :: 0 <= i < |outcomes| && outcomes[i].Stored? ==> outcomes[i].path in r
    ensures UploadAll(outcomes).Ok? ==> r == UploadAll(outcomes).value
    decreases |outcomes|
  {
    if outcomes == [] then []
    else (if outcomes[0].Stored? then [outcomes[0].path] else []) + StoredPaths(outcomes[1..])
  }

  /** The row inserted into `reports`; `notes` is collected by the form but never sent. */
  datatype ReportRecord = ReportRecord(
    patientId: string, title: string, category: string, reportDate: string,
    fileUrl: string, aiSummary: string, status: string)

  /** `${reportType} - ${hospitalName || 'Report'}`. */
  function ReportTitle(reportType: string, hospitalName: string): string {
    reportType + " - " + (if hospitalName == "" then "Report" else hospitalName)
  }

  // ---------------------------------------------------------------------------
  // The form
  // ---------------------------------------------------------------------------

  class UploadForm {
    const userId: Option<string>
    var files: seq<PickedFile>
    var reportType: string
    var reportDate: string
    var hospitalName: string
    var notes: string
    var isUploading: bool
    var error: Option<string>
    var uploadSuccess: bool
    /** The storage bucket's object paths written by this form. */
    var stored: seq<string>

    predicate Valid()
      reads this
    {
      |files| <= MaxFiles
    }

    /** `today` is the initial report date, the ISO date of the clock reading. */
    constructor(userId: Option<string>, today: string)
      ensures Valid()
      ensures this.userId == userId && files == [] && reportType == "" && reportDate == today
      ensures hospitalName == "" && notes == "" && !isUploading && error.None? && !uploadSuccess && stored == []
    {
      this.userId := userId;
      files := [];
      reportType := "";
      reportDate := today;
      hospitalName := "";
      notes := "";
      isUploading := false;
      error := None;
      uploadSuccess := false;
      stored := [];
    }

    /** `handleDrop`. */
    method Drop(dropped: seq<PickedFile>)
      requires Valid()
      modifies this
      ensures Valid()
      ensures files == AddFiles(old(files), dropped)
      ensures reportType == old(reportType) && hospitalName == old(hospitalName) && stored == old(stored)
      ensures reportDate == old(reportDate) && notes == old(notes) && isUploading == old(isUploading)
        && error == old(error) && uploadSuccess == old(uploadSuccess)
    {
      files := AddFiles(files, dropped);
    }

    /** `handleFileSelect`; `None` when the input reports no file list. */
    method Select(selected: Option<seq<PickedFile>>)
      requires Valid()
      modifies this
      ensures Valid()
      ensures selected.None? ==> files == old(files)
      ensures selected.Some? ==> files == AddFiles(old(files), selected.value)
      ensures reportType == old(reportType) && hospitalName == old(hospitalName) && stored == old(stored)
      ensures reportDate == old(reportDate) && notes == old(notes) && isUploading == old(isUploading)
        && error == old(error) && uploadSuccess == old(uploadSuccess)
    {
      if selected.Some? {
        files := AddFiles(files, selected.value);
      }
    }

    /** `removeFile`. */
    method Remove(index: int)
      requires Valid()
      modifies this
      ensures Valid()
      ensures files == RemoveAt(old(files), index)
      ensures reportType == old(reportType) && hospitalName == old(hospitalName) && stored == old(stored)
      ensures reportDate == old(reportDate) && notes == old(notes) && isUploading == old(isUploading)
        && error == old(error) && uploadSuccess == old(uploadSuccess)
    {
      files := RemoveAt(files, index);
    }

    method Describe(kind: string, date: string, hospital: string, note: string)
      requires Valid()
      modifies this
      ensures Valid()
      ensures reportType == kind && reportDate == date && hospitalName == hospital && notes == note
      ensures files == old(files) && stored == old(stored)
      ensures isUploading == old(isUploading) && error == old(error) && uploadSuccess == old(uploadSuccess)
    {
      reportType, reportDate, hospitalName, notes := kind, date, hospital, note;
    }

    /** `handleSubmit`, given a stamp and an upload outcome per file and the insert's
        outcome (`None` on success, else the error's message). Returns the paths asked of
        storage, the row offered for insertion and the page navigated to afterwards. */
    method Submit(stamps: seq<Stamp>, outcomes: seq<UploadOutcome>, insertError: Option<Option<string>>)
      returns (requested: seq<string>, record: Option<ReportRecord>, navigation: Option<string>)
      requires Valid()
      requires |stamps| == |files| && |outcomes| == |files|
      modifies this
      ensures Valid()
      ensures !Truthy(userId) || old(files) == [] ==>
        requested == [] && record.None? && navigation.None? && stored == old(stored)
        && isUploading == old(isUploading) && error == old(error) && uploadSuccess == old(uploadSuccess)
      ensures Truthy(userId) && old(files) != [] ==>
        |requested| == |old(files)|
        && (forall i :: 0 <= i < |old(files)| ==> requested[i] == StoragePath(userId.value, stamps[i], old(files)[i]))
        && stored == old(stored) + StoredPaths(outcomes) && !isUploading
      ensures record.Some? <==> Truthy(userId) && old(files) != [] && UploadAll(outcomes).Ok?
      ensures record.Some? ==> record.value == ReportRecord(userId.value, ReportTitle(reportType, hospitalName),
        reportType, reportDate, outcomes[0].path, ProcessingSummary, Pending)
      ensures navigation.Some? <==> record.Some? && insertError.None?
      ensures navigation.Some? ==> navigation.value == ReportsPage && uploadSuccess && error.None?
      ensures navigation.None? ==> uploadSuccess == old(uploadSuccess)
      ensures Truthy(userId) && old(files) != [] && UploadAll(outcomes).Err? ==>
        error == Some(OrElse(UploadAll(outcomes).error, UploadFailed))
      ensures record.Some? && insertError.Some? ==> error == Some(OrElse(insertError.value, UploadFailed))
      ensures files == old(files) && reportType == old(reportType) && reportDate == old(reportDate)
        && hospitalName == old(hospitalName) && notes == old(notes)
    {
      requested, record, navigation := [], None, None;
      if !Truthy(userId) || files == [] {
        return;
      }
      isUploading := true;
      error := None;
      var fs, user := files, userId.value;
      requested := seq(|fs|, i requires 0 <= i < |fs| => StoragePath(user, stamps[i], fs[i]));
      stored := stored + StoredPaths(outcomes);
      var uploaded := UploadAll(outcomes);
      if uploaded.Err? {
        error := Some(OrElse(uploaded.error, UploadFailed));
      } else {
        record := Some(ReportRecord(userId.value, ReportTitle(reportType, hospitalName),
          reportType, reportDate, uploaded.value[0], ProcessingSummary, Pending));
        if insertError.Some? {
          error := Some(OrElse(insertError.value, UploadFailed));
        } else {
          uploadSuccess := true;
          navigation := Some(ReportsPage);
        }
      }
      isUploading := false;
    }
  }
}
