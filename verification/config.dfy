/** The parsed `config.json` as both versions read it. Keys whose meaning
    depends on truthiness are kept as raw JSON (absent = None), so that
    Python's and JavaScript's readings of them can be told apart. */
module Config {
  import opened Wrappers
  import opened JsonValues

  datatype Templates = Templates(recordingStart: string, recordingEnd: string, shareLink: string)

  datatype Config = Config(
    recordingFormat: string,
    localStoragePath: string,
    recordingBitrate: Option<int>,
    autoDeleteLocalFiles: Option<Json>,
    googleDriveFolderId: Option<Json>,
    messageTemplates: Templates)

  /** recorder.py: `config.get('autoDeleteLocalFiles', True)` tested for truth. */
  predicate AutoDeletePy(c: Config) {
    c.autoDeleteLocalFiles.None? || TruthyPy(c.autoDeleteLocalFiles.value)
  }

  /** recorder.js: `config.autoDeleteLocalFiles` tested for truth; an absent
      key reads as `undefined`. */
  predicate AutoDeleteJs(c: Config) {
    TruthyJsOpt(c.autoDeleteLocalFiles)
  }

  /** The two versions disagree on auto-deletion exactly when the key is
      absent (Python deletes, JavaScript keeps) or holds an empty array or
      object (JavaScript deletes, Python keeps). */
  lemma AutoDeleteDiverges(c: Config)
    ensures AutoDeletePy(c) != AutoDeleteJs(c) <==>
              c.autoDeleteLocalFiles.None? ||
              c.autoDeleteLocalFiles == Some(JArr([])) ||
              c.autoDeleteLocalFiles == Some(JObj(map[]))
    ensures c.autoDeleteLocalFiles.None? ==> AutoDeletePy(c) && !AutoDeleteJs(c)
  {
    if c.autoDeleteLocalFiles.Some? {
      TruthinessDiffers(c.autoDeleteLocalFiles.value);
    }
  }

  /** The folder id that goes into `parents`, if the key is truthy in Python. */
  function FolderPy(c: Config): (r: Option<Json>)
    ensures r.Some? <==> c.googleDriveFolderId.Some? && TruthyPy(c.googleDriveFolderId.value)
    ensures r.Some? ==> r == c.googleDriveFolderId
  {
    match c.googleDriveFolderId
    case Some(v) => if TruthyPy(v) then Some(v) else None
    case None => None
  }

  /** The folder id that goes into `parents`, if the key is truthy in JavaScript. */
  function FolderJs(c: Config): (r: Option<Json>)
    ensures r.Some? <==> TruthyJsOpt(c.googleDriveFolderId)
    ensures r.Some? ==> r == c.googleDriveFolderId
  {
    if TruthyJsOpt(c.googleDriveFolderId) then c.googleDriveFolderId else None
  }

  /** A non-empty string folder id is used by both versions. */
  lemma StringFolderAgrees(c: Config, id: string)
    requires c.googleDriveFolderId == Some(JStr(id))
    ensures FolderPy(c) == FolderJs(c)
    ensures FolderPy(c).Some? <==> id != ""
  {
  }
}
