/**
 * The deterministic checks of the audio utilities
 * (backend/utils/audio_processing.py): the supported formats, the file
 * validation rules, the temporary-file cleanup rule and the processing-time
 * estimate. Reading an audio file is not modelled: whether the path exists
 * and the record `get_audio_info` returns (or the message of the exception
 * it raises) are inputs, and the file system is a set of existing paths.
 */
module AudioProcessing {
  import opened Wrappers
  import opened Text

  // ---------------------------------------------------------------------
  // Paths

  /** `self.supported_formats` */
  function SupportedFormats(): seq<string> {
    [".wav", ".mp3", ".m4a", ".flac", ".ogg", ".wma"]
  }

  /** `s.rfind(c)`: the last position of `c`, or -1. */
  function LastIndexOf(s: string, c: char): (i: int)
    ensures -1 <= i < |s|
    ensures i >= 0 ==> s[i] == c
    ensures forall j | i < j < |s| :: s[j] != c
    decreases |s|
  {
    if s == [] then -1
    else if s[|s| - 1] == c then |s| - 1
    else LastIndexOf(s[..|s| - 1], c)
  }

  /** `os.path.basename` on a POSIX path: everything after the last '/'. */
  function Basename(path: string): (b: string)
    ensures |b| <= |path| && path[|path| - |b|..] == b
    ensures forall i | 0 <= i < |b| :: b[i] != '/'
  {
    path[LastIndexOf(path, '/') + 1..]
  }

  /**
   * `os.path.splitext(path)[1]` on a POSIX path: from the last '.' of the
   * last path component, unless that component is nothing but dots up to
   * there (a leading-dot name such as ".bashrc" has no extension).
   */
  function Extension(path: string): string {
    var sepIndex := LastIndexOf(path, '/');
    var dotIndex := LastIndexOf(path, '.');
    if dotIndex > sepIndex && exists j | sepIndex < j < dotIndex :: path[j] != '.' then path[dotIndex..] else ""
  }

  /**
   * The extension is empty or a '.' followed by characters that are neither
   * '.' nor '/', and it is a suffix of the path whose remaining name has a
   * character other than '.'.
   */
  lemma ExtensionSpec(path: string)
    ensures var ext := Extension(path);
      ext == [] ||
      (ext[0] == '.' && |ext| <= |path| && path[|path| - |ext|..] == ext &&
       (forall i | 1 <= i < |ext| :: ext[i] != '.' && ext[i] != '/') &&
       exists j | 0 <= j < |path| - |ext| :: path[j] != '.')
  {
    var sepIndex := LastIndexOf(path, '/');
    var dotIndex := LastIndexOf(path, '.');
    var ext := Extension(path);
    if ext != [] {
      assert ext == path[dotIndex..];
      forall i | 1 <= i < |ext| ensures ext[i] != '.' && ext[i] != '/' {
        assert ext[i] == path[dotIndex + i];
      }
    }
  }

  /** `rfind` is the one position of `c` with no `c` after it. */
  lemma LastIndexOfIs(s: string, c: char, i: int)
    requires -1 <= i < |s| && (i >= 0 ==> s[i] == c)
    requires forall j | i < j < |s| :: s[j] != c
    ensures LastIndexOf(s, c) == i
  {
  }

  /**
   * A name with a character other than '.' followed by '.' and a suffix
   * without '.' or '/' has that suffix, dot included, as its extension,
   * whatever directory it is in and whatever dots the name holds.
   */
  lemma ExtensionOfName(dir: string, name: string, suffix: string)
    requires forall i | 0 <= i < |name| :: name[i] != '/'
    requires exists i | 0 <= i < |name| :: name[i] != '.'
    requires forall i | 0 <= i < |suffix| :: suffix[i] != '.' && suffix[i] != '/'
    ensures Extension(dir + "/" + name + "." + suffix) == "." + suffix
  {
    var path := dir + "/" + name + "." + suffix;
    var dotIndex := |dir| + 1 + |name|;
    LastIndexOfIs(path, '/', |dir|);
    LastIndexOfIs(path, '.', dotIndex);
    var i :| 0 <= i < |name| && name[i] != '.';
    assert path[|dir| + 1 + i] == name[i];
    assert path[dotIndex..] == "." + suffix;
  }

  /** A name that starts with its only '.' has no extension. */
  lemma HiddenNameHasNoExtension(dir: string, suffix: string)
    requires forall i | 0 <= i < |suffix| :: suffix[i] != '.' && suffix[i] != '/'
    ensures Extension(dir + "/." + suffix) == ""
  {
    var path := dir + "/." + suffix;
    LastIndexOfIs(path, '/', |dir|);
    LastIndexOfIs(path, '.', |dir| + 1);
  }

  // ---------------------------------------------------------------------
  // `validate_audio_file`

  /** The record `get_audio_info` returns. */
  datatype AudioInfo = AudioInfo(duration: real, sampleRate: int, channels: int, samples: int, format: string, fileSize: int)

  /** The `results` dict; `info` is `None` while it is still `{}`. */
  datatype Validation = Validation(valid: bool, errors: seq<string>, warnings: seq<string>, info: Option<AudioInfo>)

  const MissingFile := "File does not exist"
  const TooShort := "Audio too short (< 0.1 seconds)"
  const TooLong := "Audio is very long (> 5 minutes)"
  const LowSampleRate := "Low sample rate may affect quality"
  const LargeFile := "Large file size (> 50MB)"
  /** `50 * 1024 * 1024` bytes */
  const MaxFileSize := 50 * 1024 * 1024

  /** The error for an extension outside the supported formats. */
  function UnsupportedFormat(ext: string): string {
    "Unsupported format: " + ext
  }

  /** The error for an exception raised by `get_audio_info`, whose own message wraps the library's. */
  function ValidationError(message: string): string {
    "Error validating file: " + "Error getting audio info: " + message
  }

  /** What `validate_audio_file` returns. */
  function Validate(filePath: string, fileExists: bool, audioInfo: Result<AudioInfo, string>): Validation {
    var ext := Lower(Extension(filePath));
    if !fileExists then Validation(false, [MissingFile], [], None)
    else if ext !in SupportedFormats() then Validation(false, [UnsupportedFormat(ext)], [], None)
    else if audioInfo.Err? then Validation(false, [ValidationError(audioInfo.error)], [], None)
    else InfoChecks(audioInfo.value)
  }

  /** The duration, sample-rate and file-size checks on the audio information that was read. */
  function InfoChecks(info: AudioInfo): Validation {
    var errors := if info.duration < 0.1 then [TooShort] else [];
    var warnings :=
      (if info.duration < 0.1 then [] else if info.duration > 300.0 then [TooLong] else []) +
      (if info.sampleRate < 8000 then [LowSampleRate] else []) +
      (if info.fileSize > MaxFileSize then [LargeFile] else []);
    Validation(errors == [], errors, warnings, Some(info))
  }

  /**
   * `validate_audio_file`, with the file's existence and the outcome of
   * `get_audio_info` as inputs: appends to the error and warning lists step
   * by step and returns early on a missing file, an unsupported format or
   * a failure to read the audio information.
   */
  method ValidateAudioFile(filePath: string, fileExists: bool, audioInfo: Result<AudioInfo, string>) returns (results: Validation)
    ensures results == Validate(filePath, fileExists, audioInfo)
  {
    results := Validation(false, [], [], None);
    if !fileExists {
      results := results.(errors := results.errors + [MissingFile]);
      return;
    }
    var ext := Lower(Extension(filePath));
    if ext !in SupportedFormats() {
      results := results.(errors := results.errors + [UnsupportedFormat(ext)]);
      return;
    }
    if audioInfo.Err? {
      results := results.(errors := results.errors + [ValidationError(audioInfo.error)]);
      return;
    }
    results := CheckInfo(audioInfo.value);
  }

  /** The checks of `validate_audio_file` once `results["info"]` is set. */
  method CheckInfo(info: AudioInfo) returns (results: Validation)
    ensures results == InfoChecks(info)
  {
    results := Validation(false, [], [], Some(info));
    if info.duration < 0.1 {
      results := results.(errors := results.errors + [TooShort]);
    } else if info.duration > 300.0 {
      results := results.(warnings := results.warnings + [TooLong]);
    }
    if info.sampleRate < 8000 {
      results := results.(warnings := results.warnings + [LowSampleRate]);
    }
    if info.fileSize > MaxFileSize {
      results := results.(warnings := results.warnings + [LargeFile]);
    }
    if results.errors == [] {
      results := results.(valid := true);
    }
  }

  /** A file that does not exist gets the one error and nothing else is checked. */
  lemma ValidateMissing(filePath: string, audioInfo: Result<AudioInfo, string>)
    ensures Validate(filePath, false, audioInfo) == Validation(false, [MissingFile], [], None)
  {
  }

  /** An unsupported extension, compared after lowercasing, gets the one error naming it. */
  lemma ValidateUnsupported(filePath: string, audioInfo: Result<AudioInfo, string>)
    requires Lower(Extension(filePath)) !in SupportedFormats()
    ensures var r := Validate(filePath, true, audioInfo);
      !r.valid && r.errors == [UnsupportedFormat(Lower(Extension(filePath)))] && r.warnings == [] && r.info.None?
  {
  }

  /** A failure to read the audio information is reported as the one error, and `info` stays `{}`. */
  lemma ValidateInfoError(filePath: string, message: string)
    requires Lower(Extension(filePath)) in SupportedFormats()
    ensures var r := Validate(filePath, true, Err(message));
      !r.valid && r.errors == [ValidationError(message)] && r.warnings == [] && r.info.None?
  {
  }

  /**
   * Once the information is read: it is kept; the only possible error is a
   * duration under 0.1 s, and the file is valid exactly without it; each
   * warning is present exactly when its condition holds, the long-audio
   * warning only for a duration that is not too short.
   */
  lemma ValidateChecks(filePath: string, info: AudioInfo)
    requires Lower(Extension(filePath)) in SupportedFormats()
    ensures var r := Validate(filePath, true, Ok(info));
      r.info == Some(info) &&
      (r.valid <==> info.duration >= 0.1) &&
      (TooShort in r.errors <==> info.duration < 0.1) && |r.errors| <= 1 &&
      (TooLong in r.warnings <==> info.duration > 300.0) &&
      (LowSampleRate in r.warnings <==> info.sampleRate < 8000) &&
      (LargeFile in r.warnings <==> info.fileSize > MaxFileSize) &&
      !(TooShort in r.errors && TooLong in r.warnings) &&
      |r.warnings| <= 3
  {
    var r := Validate(filePath, true, Ok(info));
    var a: seq<string> := if info.duration < 0.1 then [] else if info.duration > 300.0 then [TooLong] else [];
    var b: seq<string> := if info.sampleRate < 8000 then [LowSampleRate] else [];
    var c: seq<string> := if info.fileSize > MaxFileSize then [LargeFile] else [];
    assert r.warnings == a + b + c;
    assert TooLong in r.warnings <==> TooLong in a by {
      assert TooLong !in b && TooLong !in c;
    }
    assert LowSampleRate in r.warnings <==> LowSampleRate in b by {
      assert LowSampleRate !in a && LowSampleRate !in c;
    }
    assert LargeFile in r.warnings <==> LargeFile in c by {
      assert LargeFile !in a && LargeFile !in b;
    }
  }

  /** Validity never depends on the warnings: a result is valid exactly when it has no errors, and then the file exists and its information was read. */
  lemma ValidIffNoErrors(filePath: string, fileExists: bool, audioInfo: Result<AudioInfo, string>)
    ensures var r := Validate(filePath, fileExists, audioInfo);
      (r.valid <==> r.errors == []) &&
      (r.valid ==> fileExists && Lower(Extension(filePath)) in SupportedFormats() && audioInfo.Ok? && r.info == Some(audioInfo.value))
  {
  }

  // ---------------------------------------------------------------------
  // `cleanup_temp_files`

  /** The selection rule: the path exists and its base name contains "temp". */
  predicate IsTempFile(path: string) {
    Contains(Basename(path), "temp")
  }

  /** A path the cleanup removes: listed, existing, a temporary file, and one whose removal does not fail. */
  predicate Removable(path: string, files: set<string>, failing: set<string>) {
    path in files && IsTempFile(path) && path !in failing
  }

  /** The paths the cleanup removes, in list order: each removable path at its first occurrence. */
  function RemovalOrder(ps: seq<string>, files: set<string>, failing: set<string>): seq<string> {
    if ps == [] then []
    else
      var r := RemovalOrder(ps[..|ps| - 1], files, failing);
      var p := ps[|ps| - 1];
      if Removable(p, files, failing) && p !in r then r + [p] else r
  }

  /** The removal order lists exactly the removable listed paths, each once. */
  lemma {:induction false} RemovalOrderSpec(ps: seq<string>, files: set<string>, failing: set<string>)
    ensures var r := RemovalOrder(ps, files, failing);
      (forall p :: p in r <==> p in ps && Removable(p, files, failing)) &&
      (forall i, j | 0 <= i < j < |r| :: r[i] != r[j])
  {
    if ps != [] {
      var pre := ps[..|ps| - 1];
      RemovalOrderSpec(pre, files, failing);
      assert ps == pre + [ps[|ps| - 1]];
    }
  }

  /**
   * `cleanup_temp_files`, over a file system given as the set of existing
   * paths and the set of paths whose removal raises: removes every listed
   * temporary file that exists, once, in list order; a failed removal is
   * reported (in `warned`) and does not stop the loop.
   */
  method CleanupTempFiles(filePaths: seq<string>, files: set<string>, failing: set<string>)
    returns (remaining: set<string>, removed: seq<string>, warned: seq<string>)
    ensures remaining == files - set p | p in filePaths && IsTempFile(p) && p !in failing
    ensures removed == RemovalOrder(filePaths, files, failing)
    ensures forall p :: p in removed <==> p in filePaths && Removable(p, files, failing)
    ensures forall i, j | 0 <= i < j < |removed| :: removed[i] != removed[j]
    ensures forall p :: p in warned <==> p in filePaths && p in files && IsTempFile(p) && p in failing
  {
    remaining := files;
    removed := [];
    warned := [];
    for k := 0 to |filePaths|
      invariant remaining == files - set p | p in filePaths[..k] && IsTempFile(p) && p !in failing
      invariant removed == RemovalOrder(filePaths[..k], files, failing)
      invariant forall p :: p in removed <==> p in filePaths[..k] && Removable(p, files, failing)
      invariant forall i, j | 0 <= i < j < |removed| :: removed[i] != removed[j]
      invariant forall p :: p in warned <==> p in filePaths[..k] && p in files && IsTempFile(p) && p in failing
    {
      var filePath := filePaths[k];
      assert filePaths[..k + 1] == filePaths[..k] + [filePath];
      assert filePaths[..k + 1][..k] == filePaths[..k];
      if filePath in remaining && IsTempFile(filePath) {
        if filePath in failing {
          warned := warned + [filePath];
        } else {
          assert filePath !in removed;
          remaining := remaining - {filePath};
          removed := removed + [filePath];
        }
      }
    }
    assert filePaths[..|filePaths|] == filePaths;
  }

  // ---------------------------------------------------------------------
  // `estimate_processing_time`

  /** `estimate_processing_time`: a tenth of the duration plus 2 s of overhead, or 30 s when the information cannot be read. */
  function EstimateProcessingTime(audioInfo: Result<AudioInfo, string>): real {
    if audioInfo.Ok? then audioInfo.value.duration * 0.1 + 2.0 else 30.0
  }

  /**
   * The estimate determines the duration back (the inverse of the linear
   * rule), grows with the duration, and is at least the 2 s overhead for a
   * duration that is not negative.
   */
  lemma EstimateSpec(a: AudioInfo, b: AudioInfo)
    ensures (EstimateProcessingTime(Ok(a)) - 2.0) * 10.0 == a.duration
    ensures a.duration <= b.duration ==> EstimateProcessingTime(Ok(a)) <= EstimateProcessingTime(Ok(b))
    ensures a.duration >= 0.0 ==> EstimateProcessingTime(Ok(a)) >= 2.0
    ensures forall m: string :: EstimateProcessingTime(Err(m)) == 30.0
  {
  }
}
