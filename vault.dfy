/**
 * The request handlers of the filesystem Vault API (app.py), each a
 * function from the store and the request to the response and the new
 * store. Every upload handler writes one file at
 * `BASE_DIR/user/date/<folder>/<name>`; every download handler rebuilds a
 * path and serves what is there.
 */
module Vault {
  import opened Wrappers
  import opened Strings
  import opened Paths
  import opened Clock
  import opened Store

  // ---------------------------------------------------------------
  // Configuration (app.py:52-57)
  // ---------------------------------------------------------------

  const ProductionBaseDir := "/home/ubuntu/data/data_accounts"

  /**
   * `BASE_DIR`: `<module dir>/data/data_accounts` when the variable
   * `WATCHME_LOCAL_DEV` is exactly "1", the production directory otherwise.
   */
  function BaseDir(localDev: Option<string>, moduleDir: string): string {
    if localDev == Some("1") then JoinAll(moduleDir, ["data", "data_accounts"]) else ProductionBaseDir
  }

  lemma BaseDirChoice(localDev: Option<string>, moduleDir: string)
    ensures localDev != Some("1") ==> BaseDir(localDev, moduleDir) == ProductionBaseDir
    ensures localDev == Some("1") ==> Resolve(BaseDir(localDev, moduleDir)) == Resolve(moduleDir) + ["data", "data_accounts"]
  {
    if localDev == Some("1") {
      ResolveChild(moduleDir, "data");
      ResolveChild(Join(moduleDir, "data"), "data_accounts");
    }
  }

  // ---------------------------------------------------------------
  // Requests and responses
  // ---------------------------------------------------------------

  /** A multipart file: the client's file name and the bytes sent. */
  datatype Upload = Upload(filename: string, content: Bytes)

  datatype MediaType = AudioWav | ApplicationJson | OctetStream

  datatype Response =
    /** `{"status": ..., "path": save_path}` */
    | Saved(status: string, path: string)
    /** A `FileResponse`. */
    | FileBody(mediaType: MediaType, filename: string, data: Bytes)
    /** `JSONResponse(content=json.load(f))`: the stored JSON document. */
    | JsonBody(data: Bytes)
    /** The `/view-file` page for the file `title`, showing the stored JSON document. */
    | JsonPage(title: string, data: Bytes)
    /** The body of the OpenSMILE slot listing; `directory` is absent when the folder is missing. */
    | SlotList(availableSlots: seq<string>, count: int, hasSummary: bool, directory: Option<string>)
    /** An `HTTPException`, or an unhandled exception (500). */
    | Error(code: int)

  /** The response, and the store after the request. */
  datatype Outcome = Outcome(response: Response, fs: Entry)

  // ---------------------------------------------------------------
  // Artifact categories and their storage paths
  // ---------------------------------------------------------------

  datatype Category = Raw | Transcriptions | Prompt | EmotionTimeline | Sed | SedSummary | Opensmile | OpensmileSummary

  /** The folder a category is stored in, below `user/date`. */
  function Folder(c: Category): string {
    match c
    case Raw => "raw"
    case Transcriptions => "transcriptions"
    case Prompt => "prompt"
    case EmotionTimeline => "emotion-timeline"
    case Sed => "sed"
    case SedSummary => "sed-summary"
    case Opensmile => "opensmile"
    case OpensmileSummary => "opensmile-summary"
  }

  /** A category keeps either one file per half-hour slot or a single file per day. */
  datatype Naming = BySlot(extension: string) | Fixed(fileName: string)

  function NamingOf(c: Category): Naming {
    match c
    case Raw => BySlot(".wav")
    case Transcriptions => BySlot(".json")
    case Sed => BySlot(".json")
    case Opensmile => BySlot(".json")
    case Prompt => Fixed("emotion-timeline_gpt_prompt.json")
    case EmotionTimeline => Fixed("emotion-timeline.json")
    case SedSummary => Fixed("result.json")
    case OpensmileSummary => Fixed("result.json")
  }

  /** The uploads that refuse a client file name not ending in ".json". */
  predicate JsonOnly(c: Category) {
    c != Raw && c != Transcriptions
  }

  function FileName(c: Category, slot: string): string {
    match NamingOf(c)
    case BySlot(ext) => slot + ext
    case Fixed(n) => n
  }

  /** `os.path.join(BASE_DIR, user_id, date, <folder>)` */
  function SaveDir(base: string, user: string, date: string, c: Category): string {
    JoinAll(base, [user, date, Folder(c)])
  }

  /** `os.path.join(save_dir, <file name>)` */
  function SavePath(base: string, user: string, date: string, c: Category, slot: string): string {
    Join(SaveDir(base, user, date, c), FileName(c, slot))
  }

  /**
   * The body shared by every upload handler: the ".json" check (for the
   * categories that have one) before anything else, then
   * `os.makedirs(save_dir, exist_ok=True)`, then the write. A failing
   * `makedirs` or `open` is an unhandled exception, answered with 500; the
   * directories `makedirs` made stay.
   */
  function SaveArtifact(fs: Entry, base: string, user: string, date: string, c: Category, slot: string,
                        upload: Upload, okStatus: string): (o: Outcome)
    ensures JsonOnly(c) && !EndsWith(upload.filename, ".json") ==> o == Outcome(Error(400), fs)
    ensures o.response.Saved? || o.response == Error(400) || o.response == Error(500)
    ensures o.response.Saved? ==> o.response == Saved(okStatus, SavePath(base, user, date, c, slot))
    ensures o.response == Error(400) ==> JsonOnly(c) && !EndsWith(upload.filename, ".json")
  {
    if JsonOnly(c) && !EndsWith(upload.filename, ".json") then Outcome(Error(400), fs)
    else
      var dir := SaveDir(base, user, date, c);
      var path := SavePath(base, user, date, c, slot);
      match MakeDirs(fs, Resolve(dir))
      case None => Outcome(Error(500), fs)
      case Some(fs1) =>
        match WriteFile(fs1, Resolve(path), upload.content)
        case None => Outcome(Error(500), fs1)
        case Some(fs2) => Outcome(Saved(okStatus, path), fs2)
  }

  // ---------------------------------------------------------------
  // Upload handlers
  // ---------------------------------------------------------------

  /** `/upload` (app.py:67-86): the day and the slot come from the clock reading; `user_id` defaults to "user123". */
  function UploadWav(fs: Entry, base: string, user: Option<string>, now: Date, hour: Hour, minute: Minute,
                     upload: Upload): Outcome
    requires ValidDate(now)
  {
    SaveArtifact(fs, base, user.GetOr("user123"), DateLabel(now), Raw, SlotLabel(hour, minute), upload, "ok")
  }

  /** `/upload-transcription` (app.py:91-105): no extension check. */
  function UploadTranscription(fs: Entry, base: string, user: string, date: string, timeBlock: string,
                               upload: Upload): Outcome
  {
    SaveArtifact(fs, base, user, date, Transcriptions, timeBlock, upload, "success")
  }

  /** `/upload-prompt` (app.py:151-167) */
  function UploadPrompt(fs: Entry, base: string, user: string, date: string, upload: Upload): Outcome {
    SaveArtifact(fs, base, user, date, Prompt, "", upload, "ok")
  }

  /** `/upload/analysis/emotion-timeline` (app.py:374-390) */
  function UploadEmotionTimeline(fs: Entry, base: string, user: string, date: string, upload: Upload): Outcome {
    SaveArtifact(fs, base, user, date, EmotionTimeline, "", upload, "ok")
  }

  /** `/upload/analysis/sed-timeline` (app.py:396-414) */
  function UploadSedTimeline(fs: Entry, base: string, user: string, date: string, timeBlock: string,
                             upload: Upload): Outcome
  {
    SaveArtifact(fs, base, user, date, Sed, timeBlock, upload, "ok")
  }

  /** `/upload/analysis/sed-summary` (app.py:420-437) */
  function UploadSedSummary(fs: Entry, base: string, user: string, date: string, upload: Upload): Outcome {
    SaveArtifact(fs, base, user, date, SedSummary, "", upload, "ok")
  }

  /** `/upload/analysis/opensmile-summary` (app.py:443-460) */
  function UploadOpensmileSummary(fs: Entry, base: string, user: string, date: string, upload: Upload): Outcome {
    SaveArtifact(fs, base, user, date, OpensmileSummary, "", upload, "ok")
  }

  /** `/upload/analysis/opensmile-features` (app.py:518-540) */
  function UploadOpensmileFeatures(fs: Entry, base: string, user: string, date: string, timeSlot: string,
                                   upload: Upload): Outcome
  {
    SaveArtifact(fs, base, user, date, Opensmile, timeSlot, upload, "ok")
  }

  // ---------------------------------------------------------------
  // Download handlers
  // ---------------------------------------------------------------

  /** A `FileResponse` for what the existence check found: 404 for nothing; a directory cannot be streamed (500). */
  function Serve(found: Option<Entry>, mediaType: MediaType, filename: string): Response {
    match found
    case None => Error(404)
    case Some(Dir(_, _)) => Error(500)
    case Some(File(_, data)) => FileBody(mediaType, filename, data)
  }

  /**
   * `os.path.exists` and then a `FileResponse`, for the paths the keyed
   * downloads build. These end in a file name, so, without a ".." piece,
   * looking up where the path resolves is the kernel's walk (`FindLexical`).
   */
  function ServeFile(fs: Entry, path: string, mediaType: MediaType, filename: string): Response {
    Serve(Lookup(fs, Resolve(path)), mediaType, filename)
  }

  /** `os.path.exists` and then `json.load`; opening a directory raises and is answered with 500. */
  function ReadJson(fs: Entry, path: string): Response {
    match Lookup(fs, Resolve(path))
    case None => Error(404)
    case Some(Dir(_, _)) => Error(500)
    case Some(File(_, data)) => JsonBody(data)
  }

  /** The f-string `f"{BASE_DIR}/{user_id}/{date}/<folder>/{slot}<ext>"` of the slot downloads. */
  function SlashedPath(base: string, user: string, date: string, folder: string, name: string): string {
    base + "/" + user + "/" + date + "/" + folder + "/" + name
  }

  /** The path `/download` builds (app.py:112). */
  function WavDownloadPath(base: string, user: string, date: string, slot: string): string {
    SlashedPath(base, user, date, "raw", slot + ".wav")
  }

  /** `/download` (app.py:110-116) */
  function DownloadWav(fs: Entry, base: string, user: string, date: string, slot: string): Response {
    ServeFile(fs, WavDownloadPath(base, user, date, slot), AudioWav, slot + ".wav")
  }

  /** The path `/download-sed` builds (app.py:127). */
  function SedDownloadPath(base: string, user: string, date: string, slot: string): string {
    SlashedPath(base, user, date, "sed", slot + ".json")
  }

  /** `/download-sed` (app.py:121-131) */
  function DownloadSed(fs: Entry, base: string, user: string, date: string, slot: string): Response {
    ServeFile(fs, SedDownloadPath(base, user, date, slot), ApplicationJson, slot + ".json")
  }

  /** The path `/download-opensmile` builds (app.py:142). */
  function OpensmileDownloadPath(base: string, user: string, date: string, slot: string): string {
    SlashedPath(base, user, date, "opensmile", slot + ".json")
  }

  /** `/download-opensmile` (app.py:136-146) */
  function DownloadOpensmile(fs: Entry, base: string, user: string, date: string, slot: string): Response {
    ServeFile(fs, OpensmileDownloadPath(base, user, date, slot), ApplicationJson, slot + ".json")
  }

  /** The media type `/download-file` picks from the file name (app.py:183-188). */
  function MediaTypeFor(filename: string): MediaType {
    if EndsWith(filename, ".wav") then AudioWav
    else if EndsWith(filename, ".json") then ApplicationJson
    else OctetStream
  }

  /** `/download-file` (app.py:173-190): any path below, or outside, `BASE_DIR`, checked by the kernel's walk. */
  function DownloadByPath(fs: Entry, base: string, filePath: string): Response {
    var full := Join(base, filePath);
    var name := Basename(full);
    Serve(Find(fs, full), MediaTypeFor(name), name)
  }

  /**
   * `/view-file` (app.py:192-238): 404 when the path does not exist, then
   * 400 when the requested path does not end in ".json", then the page.
   */
  function ViewFile(fs: Entry, base: string, filePath: string): Response {
    var full := Join(base, filePath);
    match Find(fs, full)
    case None => Error(404)
    case Some(found) =>
      if !EndsWith(filePath, ".json") then Error(400)
      else match found
        case Dir(_, _) => Error(500)
        case File(_, data) => JsonPage(Basename(filePath), data)
  }

  /** `/api/users/{user_id}/logs/{date}/emotion-timeline` (app.py:466-486) */
  function GetEmotionTimeline(fs: Entry, base: string, user: string, date: string): Response {
    ReadJson(fs, JoinAll(base, [user, date, "emotion-timeline", "emotion-timeline.json"]))
  }

  /** `/api/users/{user_id}/logs/{date}/sed-summary` (app.py:492-512) */
  function GetSedSummary(fs: Entry, base: string, user: string, date: string): Response {
    ReadJson(fs, JoinAll(base, [user, date, "sed-summary", "result.json"]))
  }

  /** `/api/users/{user_id}/logs/{date}/opensmile/{time_slot}` (app.py:547-567) */
  function GetOpensmileFeatures(fs: Entry, base: string, user: string, date: string, timeSlot: string): Response {
    ReadJson(fs, JoinAll(base, [user, date, "opensmile", timeSlot + ".json"]))
  }

  /** The merged OpenSMILE file the listing calls the summary. */
  const OpensmileSummaryFile := "vault_features_timeline.json"

  /** `/api/users/{user_id}/logs/{date}/opensmile-summary` (app.py:573-593) */
  function GetOpensmileSummary(fs: Entry, base: string, user: string, date: string): Response {
    ReadJson(fs, JoinAll(base, [user, date, "opensmile", OpensmileSummaryFile]))
  }

  // ---------------------------------------------------------------
  // Facts about paths
  // ---------------------------------------------------------------

  lemma FolderPlain(c: Category)
    ensures Plain(Folder(c)) && !StartsWith(Folder(c), "/")
  {
    assert Folder(c)[0] in Folder(c);
  }

  lemma FileNameRelative(c: Category, slot: string)
    requires !StartsWith(slot, "/")
    ensures !StartsWith(FileName(c, slot), "/")
  {
    match NamingOf(c)
    case BySlot(ext) =>
      assert ext[0] == '.';
      NotStartingWith(slot, ext, '/');
    case Fixed(n) =>
      assert n[0] != '/';
  }

  /**
   * A path written with explicit slashes and one built by `os.path.join`
   * from the same parts name the same location, provided no part after the
   * first starts with '/' (an absolute part would make `os.path.join` drop
   * everything before it).
   */
  lemma SlashedMatchesJoined(base: string, user: string, date: string, folder: string, name: string)
    requires !StartsWith(user, "/") && !StartsWith(date, "/") && !StartsWith(folder, "/") && !StartsWith(name, "/")
    ensures Resolve(SlashedPath(base, user, date, folder, name)) == Resolve(Join(JoinAll(base, [user, date, folder]), name))
  {
    PiecesOfSlashed(base, user, date, folder, name);
    PiecesOfFilePath(base, user, date, folder, name);
  }

  /** The f-string path of a slot-named category names the location its upload saves to. */
  lemma SlotPathMatchesSavePath(base: string, user: string, date: string, c: Category, slot: string)
    requires NamingOf(c).BySlot?
    requires !StartsWith(user, "/") && !StartsWith(date, "/") && !StartsWith(slot, "/")
    ensures Resolve(SlashedPath(base, user, date, Folder(c), FileName(c, slot)))
            == Resolve(SavePath(base, user, date, c, slot))
  {
    FileNameRelative(c, slot);
    FolderPlain(c);
    SlashedMatchesJoined(base, user, date, Folder(c), FileName(c, slot));
  }

  /** Where an upload lands: `BASE_DIR/user/date/<folder>/<file name>`, for single-piece user, date and file names. */
  lemma SaveLayout(base: string, user: string, date: string, c: Category, slot: string)
    requires Plain(user) && Plain(date) && Plain(FileName(c, slot))
    ensures Resolve(SavePath(base, user, date, c, slot)) == Resolve(base) + [user, date, Folder(c), FileName(c, slot)]
  {
    FolderPlain(c);
    ResolveFilePath(base, user, date, Folder(c), FileName(c, slot));
  }

  /** The fixed-name categories store the same file whatever slot is given; the slot-named ones name it after the slot. */
  lemma FileNamePolicy(base: string, user: string, date: string, c: Category, slot1: string, slot2: string)
    ensures NamingOf(c).Fixed? ==> SavePath(base, user, date, c, slot1) == SavePath(base, user, date, c, slot2)
    ensures NamingOf(c).BySlot? && '/' !in slot1 ==> Basename(SavePath(base, user, date, c, slot1)) == slot1 + NamingOf(c).extension
  {
    if NamingOf(c).BySlot? && '/' !in slot1 {
      var ext := NamingOf(c).extension;
      var name := FileName(c, slot1);
      assert name == slot1 + ext;
      assert '/' !in ext;
      assert name != "" by { assert |ext| > 0; }
      BasenameOfJoin(SaveDir(base, user, date, c), name);
    }
  }

  // ---------------------------------------------------------------
  // Facts about uploads
  // ---------------------------------------------------------------

  /** `os.makedirs` creates directories only along the path it was given. */
  lemma {:induction false} MakeDirsOnlyAlong(e: Entry, p: Path, q: Path)
    requires MakeDirs(e, p).Some? && IsDirAt(MakeDirs(e, p).value, q)
    ensures IsDirAt(e, q) || (|q| <= |p| && q == p[..|q|])
    decreases |p|
  {
    if p != [] && q != [] {
      var found := FindChild(e.children, p[0]);
      var sub := match found case Some(c) => c case None => Dir(p[0], []);
      var sub' := MakeDirs(sub, p[1..]).value;
      FindSetChild(e.children, sub', q[0]);
      if q[0] == p[0] {
        MakeDirsOnlyAlong(sub, p[1..], q[1..]);
        if found.None? && IsDirAt(sub, q[1..]) {
          if q[1..] != [] { LookupInEmpty(p[0], q[1..]); }
        }
        assert q == [q[0]] + q[1..];
      }
    }
  }

  /** A successful upload stores the uploaded bytes at the returned path and changes no other file. */
  lemma SaveArtifactStores(fs: Entry, base: string, user: string, date: string, c: Category, slot: string,
                           upload: Upload, okStatus: string, q: Path)
    requires SaveArtifact(fs, base, user, date, c, slot, upload, okStatus).response.Saved?
    ensures var o := SaveArtifact(fs, base, user, date, c, slot, upload, okStatus);
      && FileAt(o.fs, Resolve(o.response.path)) == Some(upload.content)
      && (q != Resolve(o.response.path) ==> FileAt(o.fs, q) == FileAt(fs, q))
  {
    var dir := SaveDir(base, user, date, c);
    var path := SavePath(base, user, date, c, slot);
    var fs1 := MakeDirs(fs, Resolve(dir)).value;
    WriteThenRead(fs1, Resolve(path), upload.content);
    MakeDirsKeepsFiles(fs, Resolve(dir), q);
    if q != Resolve(path) {
      WriteFileKeepsOthers(fs1, Resolve(path), upload.content, q);
    }
  }

  /** A failed upload changes no file (the directories `makedirs` made may stay). */
  lemma SaveArtifactFailureKeepsFiles(fs: Entry, base: string, user: string, date: string, c: Category,
                                      slot: string, upload: Upload, okStatus: string, q: Path)
    requires SaveArtifact(fs, base, user, date, c, slot, upload, okStatus).response.Error?
    ensures FileAt(SaveArtifact(fs, base, user, date, c, slot, upload, okStatus).fs, q) == FileAt(fs, q)
  {
    var dir := SaveDir(base, user, date, c);
    if !(JsonOnly(c) && !EndsWith(upload.filename, ".json")) && MakeDirs(fs, Resolve(dir)).Some? {
      MakeDirsKeepsFiles(fs, Resolve(dir), q);
    }
  }

  /**
   * When the upload lands directly in its folder, it succeeds exactly when
   * the extension check passes, no location along the folder is a file and
   * the target is not a directory.
   */
  lemma SaveArtifactSucceedsIff(fs: Entry, base: string, user: string, date: string, c: Category, slot: string,
                                upload: Upload, okStatus: string)
    requires Plain(FileName(c, slot))
    ensures var dir := Resolve(SaveDir(base, user, date, c));
      SaveArtifact(fs, base, user, date, c, slot, upload, okStatus).response.Saved?
      <==> && !(JsonOnly(c) && !EndsWith(upload.filename, ".json"))
           && (forall k :: 0 <= k <= |dir| ==> !IsFileAt(fs, dir[..k]))
           && !IsDirAt(fs, dir + [FileName(c, slot)])
  {
    var dir := Resolve(SaveDir(base, user, date, c));
    var target := dir + [FileName(c, slot)];
    ResolveChild(SaveDir(base, user, date, c), FileName(c, slot));
    assert Resolve(SavePath(base, user, date, c, slot)) == target;
    MakeDirsSucceedsIff(fs, dir);
    if !(JsonOnly(c) && !EndsWith(upload.filename, ".json")) && MakeDirs(fs, dir).Some? {
      var fs1 := MakeDirs(fs, dir).value;
      MakeDirsMakesDir(fs, dir);
      assert Parent(target) == dir;
      WriteFileSucceedsIff(fs1, target, upload.content);
      if IsDirAt(fs1, target) {
        MakeDirsOnlyAlong(fs, dir, target);
      }
      if IsDirAt(fs, target) {
        MakeDirsKeepsDirs(fs, dir, target);
      }
    }
  }

  /** `os.makedirs` removes no directory. */
  lemma {:induction false} MakeDirsKeepsDirs(e: Entry, p: Path, q: Path)
    requires MakeDirs(e, p).Some? && IsDirAt(e, q)
    ensures IsDirAt(MakeDirs(e, p).value, q)
    decreases |p|
  {
    if p != [] && q != [] {
      var found := FindChild(e.children, p[0]);
      var sub := match found case Some(c) => c case None => Dir(p[0], []);
      var sub' := MakeDirs(sub, p[1..]).value;
      FindSetChild(e.children, sub', q[0]);
      if q[0] == p[0] {
        MakeDirsKeepsDirs(sub, p[1..], q[1..]);
      }
    }
  }

  /** Uploads keep the store a well-formed tree. */
  lemma SaveArtifactWellFormed(fs: Entry, base: string, user: string, date: string, c: Category, slot: string,
                               upload: Upload, okStatus: string)
    requires WellFormed(fs)
    ensures WellFormed(SaveArtifact(fs, base, user, date, c, slot, upload, okStatus).fs)
  {
    var dir := Resolve(SaveDir(base, user, date, c));
    if !(JsonOnly(c) && !EndsWith(upload.filename, ".json")) && MakeDirs(fs, dir).Some? {
      MakeDirsWellFormed(fs, dir);
      var fs1 := MakeDirs(fs, dir).value;
      var path := Resolve(SavePath(base, user, date, c, slot));
      if WriteFile(fs1, path, upload.content).Some? {
        WriteFileWellFormed(fs1, path, upload.content);
      }
    }
  }

  /** `/upload` and `/upload-transcription` never answer 400: neither checks the file name. */
  lemma UncheckedUploads(fs: Entry, base: string, user: string, userField: Option<string>, date: string,
                         now: Date, hour: Hour, minute: Minute, timeBlock: string, upload: Upload)
    requires ValidDate(now)
    ensures UploadWav(fs, base, userField, now, hour, minute, upload).response != Error(400)
    ensures UploadTranscription(fs, base, user, date, timeBlock, upload).response != Error(400)
  {
  }

  /** Every other upload answers 400 and leaves the store as it was when the file name does not end in ".json". */
  lemma CheckedUploadsRejectNonJson(fs: Entry, base: string, user: string, date: string, slot: string, upload: Upload)
    requires !EndsWith(upload.filename, ".json")
    ensures UploadPrompt(fs, base, user, date, upload) == Outcome(Error(400), fs)
    ensures UploadEmotionTimeline(fs, base, user, date, upload) == Outcome(Error(400), fs)
    ensures UploadSedTimeline(fs, base, user, date, slot, upload) == Outcome(Error(400), fs)
    ensures UploadSedSummary(fs, base, user, date, upload) == Outcome(Error(400), fs)
    ensures UploadOpensmileSummary(fs, base, user, date, upload) == Outcome(Error(400), fs)
    ensures UploadOpensmileFeatures(fs, base, user, date, slot, upload) == Outcome(Error(400), fs)
  {
  }

  // ---------------------------------------------------------------
  // Round trips: upload, then download with the same identifiers
  // ---------------------------------------------------------------

  /** A successful upload is read back from the path it reports. */
  lemma SavedThenServed(fs: Entry, base: string, user: string, date: string, c: Category, slot: string,
                        upload: Upload, okStatus: string, path: string, mediaType: MediaType, filename: string)
    requires SaveArtifact(fs, base, user, date, c, slot, upload, okStatus).response.Saved?
    requires Resolve(path) == Resolve(SavePath(base, user, date, c, slot))
    ensures var o := SaveArtifact(fs, base, user, date, c, slot, upload, okStatus);
      && ServeFile(o.fs, path, mediaType, filename) == FileBody(mediaType, filename, upload.content)
      && ReadJson(o.fs, path) == JsonBody(upload.content)
  {
    SaveArtifactStores(fs, base, user, date, c, slot, upload, okStatus, []);
  }

  /** A slot-named upload is what the matching f-string download serves. */
  lemma SlotRoundTrip(fs: Entry, base: string, user: string, date: string, c: Category, slot: string,
                      upload: Upload, okStatus: string, mediaType: MediaType, folder: string, name: string)
    requires NamingOf(c).BySlot? && folder == Folder(c) && name == FileName(c, slot)
    requires !StartsWith(user, "/") && !StartsWith(date, "/") && !StartsWith(slot, "/")
    ensures var o := SaveArtifact(fs, base, user, date, c, slot, upload, okStatus);
      o.response.Saved? ==>
        ServeFile(o.fs, SlashedPath(base, user, date, folder, name), mediaType, name)
        == FileBody(mediaType, name, upload.content)
  {
    if SaveArtifact(fs, base, user, date, c, slot, upload, okStatus).response.Saved? {
      SlotPathMatchesSavePath(base, user, date, c, slot);
      SavedThenServed(fs, base, user, date, c, slot, upload, okStatus,
                      SlashedPath(base, user, date, folder, name), mediaType, name);
    }
  }

  /** A recording saved by `/upload` is what `/download` returns for the same user, day and slot. */
  lemma WavRoundTrip(fs: Entry, base: string, userField: Option<string>, now: Date, hour: Hour, minute: Minute,
                     upload: Upload)
    requires ValidDate(now)
    requires !StartsWith(userField.GetOr("user123"), "/")
    ensures var o := UploadWav(fs, base, userField, now, hour, minute, upload);
      o.response.Saved? ==>
        DownloadWav(o.fs, base, userField.GetOr("user123"), DateLabel(now), SlotLabel(hour, minute))
        == FileBody(AudioWav, SlotLabel(hour, minute) + ".wav", upload.content)
  {
    var date, slot := DateLabel(now), SlotLabel(hour, minute);
    assert !StartsWith(date, "/") by { assert date[0] == Pad4(now.year)[0]; }
    assert !StartsWith(slot, "/") by { assert slot[0] == Pad2(hour)[0]; }
    SlotRoundTrip(fs, base, userField.GetOr("user123"), date, Raw, slot, upload, "ok", AudioWav, "raw", slot + ".wav");
  }

  /** A SED timeline saved by `/upload/analysis/sed-timeline` is what `/download-sed` returns. */
  lemma SedRoundTrip(fs: Entry, base: string, user: string, date: string, timeBlock: string, upload: Upload)
    requires !StartsWith(user, "/") && !StartsWith(date, "/") && !StartsWith(timeBlock, "/")
    ensures var o := UploadSedTimeline(fs, base, user, date, timeBlock, upload);
      o.response.Saved? ==>
        DownloadSed(o.fs, base, user, date, timeBlock) == FileBody(ApplicationJson, timeBlock + ".json", upload.content)
  {
    SlotRoundTrip(fs, base, user, date, Sed, timeBlock, upload, "ok", ApplicationJson, "sed", timeBlock + ".json");
  }

  /** Features saved by `/upload/analysis/opensmile-features` are what `/download-opensmile` returns. */
  lemma OpensmileRoundTrip(fs: Entry, base: string, user: string, date: string, timeSlot: string, upload: Upload)
    requires !StartsWith(user, "/") && !StartsWith(date, "/") && !StartsWith(timeSlot, "/")
    ensures var o := UploadOpensmileFeatures(fs, base, user, date, timeSlot, upload);
      o.response.Saved? ==>
        DownloadOpensmile(o.fs, base, user, date, timeSlot) == FileBody(ApplicationJson, timeSlot + ".json", upload.content)
  {
    SlotRoundTrip(fs, base, user, date, Opensmile, timeSlot, upload, "ok", ApplicationJson, "opensmile", timeSlot + ".json");
  }

  /** A path joined with `os.path.join` from the same parts as an upload's is read back after it. */
  lemma JoinedRoundTrip(fs: Entry, base: string, user: string, date: string, c: Category, slot: string,
                        upload: Upload, path: string)
    requires path == JoinAll(base, [user, date, Folder(c), FileName(c, slot)])
    ensures var o := SaveArtifact(fs, base, user, date, c, slot, upload, "ok");
      o.response.Saved? ==> ReadJson(o.fs, path) == JsonBody(upload.content)
  {
    var parts := [user, date, Folder(c)];
    JoinAllSnoc(base, parts, FileName(c, slot));
    assert parts + [FileName(c, slot)] == [user, date, Folder(c), FileName(c, slot)];
    if SaveArtifact(fs, base, user, date, c, slot, upload, "ok").response.Saved? {
      SavedThenServed(fs, base, user, date, c, slot, upload, "ok", path, ApplicationJson, "");
    }
  }

  /** The dashboard reads join their paths exactly as the uploads do: for every user and day the saved timeline is returned. */
  lemma EmotionTimelineRoundTrip(fs: Entry, base: string, user: string, date: string, upload: Upload)
    ensures var o := UploadEmotionTimeline(fs, base, user, date, upload);
      o.response.Saved? ==> GetEmotionTimeline(o.fs, base, user, date) == JsonBody(upload.content)
  {
    assert Folder(EmotionTimeline) == "emotion-timeline" && FileName(EmotionTimeline, "") == "emotion-timeline.json";
    JoinedRoundTrip(fs, base, user, date, EmotionTimeline, "", upload,
                    JoinAll(base, [user, date, "emotion-timeline", "emotion-timeline.json"]));
  }

  /** For every user and day the saved SED summary is what the dashboard reads. */
  lemma SedSummaryRoundTrip(fs: Entry, base: string, user: string, date: string, upload: Upload)
    ensures var o := UploadSedSummary(fs, base, user, date, upload);
      o.response.Saved? ==> GetSedSummary(o.fs, base, user, date) == JsonBody(upload.content)
  {
    assert Folder(SedSummary) == "sed-summary" && FileName(SedSummary, "") == "result.json";
    JoinedRoundTrip(fs, base, user, date, SedSummary, "", upload, JoinAll(base, [user, date, "sed-summary", "result.json"]));
  }

  /** For every user, day and slot the saved OpenSMILE features are what the dashboard reads. */
  lemma OpensmileFeaturesRoundTrip(fs: Entry, base: string, user: string, date: string, timeSlot: string,
                                   upload: Upload)
    ensures var o := UploadOpensmileFeatures(fs, base, user, date, timeSlot, upload);
      o.response.Saved? ==> GetOpensmileFeatures(o.fs, base, user, date, timeSlot) == JsonBody(upload.content)
  {
    assert Folder(Opensmile) == "opensmile" && FileName(Opensmile, timeSlot) == timeSlot + ".json";
    JoinedRoundTrip(fs, base, user, date, Opensmile, timeSlot, upload,
                    JoinAll(base, [user, date, "opensmile", timeSlot + ".json"]));
  }

  /** The features uploaded under the slot "vault_features_timeline" are what the dashboard reads as the OpenSMILE summary. */
  lemma OpensmileSummaryRoundTrip(fs: Entry, base: string, user: string, date: string, timeSlot: string,
                                  upload: Upload)
    requires timeSlot == "vault_features_timeline"
    ensures var o := UploadOpensmileFeatures(fs, base, user, date, timeSlot, upload);
      o.response.Saved? ==> GetOpensmileSummary(o.fs, base, user, date) == JsonBody(upload.content)
  {
    assert Folder(Opensmile) == "opensmile" && FileName(Opensmile, timeSlot) == timeSlot + ".json";
    assert timeSlot + ".json" == OpensmileSummaryFile;
    JoinedRoundTrip(fs, base, user, date, Opensmile, timeSlot, upload,
                    JoinAll(base, [user, date, "opensmile", timeSlot + ".json"]));
  }

  /**
   * `/upload/analysis/opensmile-summary` writes `opensmile-summary/result.json`,
   * which is not the file `/opensmile-summary` reads
   * (`opensmile/vault_features_timeline.json`).
   */
  lemma OpensmileSummaryUploadNotRead(base: string, user: string, date: string)
    requires Plain(user) && Plain(date)
    ensures Resolve(SavePath(base, user, date, OpensmileSummary, ""))
            != Resolve(JoinAll(base, [user, date, "opensmile", OpensmileSummaryFile]))
  {
    assert Plain(OpensmileSummaryFile);
    SaveLayout(base, user, date, OpensmileSummary, "");
    JoinAllSnoc(base, [user, date, "opensmile"], OpensmileSummaryFile);
    assert [user, date, "opensmile"] + [OpensmileSummaryFile] == [user, date, "opensmile", OpensmileSummaryFile];
    ResolveFilePath(base, user, date, "opensmile", OpensmileSummaryFile);
    var a := Resolve(SavePath(base, user, date, OpensmileSummary, ""));
    var b := Resolve(JoinAll(base, [user, date, "opensmile", OpensmileSummaryFile]));
    assert a[|a| - 1] == "result.json";
    assert b[|b| - 1] == OpensmileSummaryFile;
  }

  /**
   * With an absolute `user_id`, `os.path.join` drops `BASE_DIR`: the upload is
   * saved at the same place whatever the data directory, while `/download`
   * still looks below `BASE_DIR`.
   */
  lemma AbsoluteUserLeavesBaseDir(base: string, user: string, date: string, slot: string)
    requires StartsWith(user, "/")
    ensures SavePath(base, user, date, Raw, slot) == SavePath("", user, date, Raw, slot)
    ensures StartsWith(WavDownloadPath(base, user, date, slot), base)
  {
    var parts := [user, date, Folder(Raw)];
    JoinAllAbsolute(base, parts, 0);
    JoinAllAbsolute("", parts, 0);
  }

  // ---------------------------------------------------------------
  // Media types and the generic file handlers
  // ---------------------------------------------------------------

  /** The media type is decided by the name's suffix alone; no name ends in both ".wav" and ".json". */
  lemma MediaTypeCases(filename: string)
    ensures MediaTypeFor(filename) == AudioWav <==> EndsWith(filename, ".wav")
    ensures MediaTypeFor(filename) == ApplicationJson <==> EndsWith(filename, ".json")
    ensures MediaTypeFor(filename) == OctetStream <==> !EndsWith(filename, ".wav") && !EndsWith(filename, ".json")
  {
    if EndsWith(filename, ".wav") {
      assert filename[|filename| - 1] == 'v';
    }
  }

  /**
   * `/download-file` answers 404 exactly when the kernel's walk does not get
   * through the joined path; otherwise it serves the file the path
   * resolves to, typed by the name's suffix, and cannot stream a directory.
   */
  lemma DownloadByPathServes(fs: Entry, base: string, filePath: string)
    ensures var full := Join(base, filePath);
      && (DownloadByPath(fs, base, filePath) == Error(404) <==> full == "" || !Reaches(fs, [], Split(full)))
      && (full != "" && Reaches(fs, [], Split(full)) && FileAt(fs, Resolve(full)).Some? ==>
            DownloadByPath(fs, base, filePath)
            == FileBody(MediaTypeFor(Basename(full)), Basename(full), FileAt(fs, Resolve(full)).value))
      && (full != "" && Reaches(fs, [], Split(full)) && FileAt(fs, Resolve(full)).None? ==>
            DownloadByPath(fs, base, filePath) == Error(500))
  {
    FindExists(fs, Join(base, filePath));
  }

  /**
   * A '/' or "/." after the path of a file is refused with 404 by both
   * handlers: the walk fails with ENOTDIR before any suffix is looked at.
   */
  lemma TrailingSlashAfterFile(fs: Entry, base: string, filePath: string)
    requires filePath != "" && Find(fs, Join(base, filePath)).Some? && Find(fs, Join(base, filePath)).value.File?
    ensures DownloadByPath(fs, base, filePath + "/") == Error(404)
    ensures ViewFile(fs, base, filePath + "/") == Error(404)
    ensures DownloadByPath(fs, base, filePath + "/.") == Error(404)
    ensures ViewFile(fs, base, filePath + "/.") == Error(404)
  {
    SlashAfterFile(fs, base, filePath);
    MissingPath(fs, base, filePath + "/");
    DotAfterFile(fs, base, filePath);
    MissingPath(fs, base, filePath + "/.");
  }

  /** A path the walk does not reach is 404 on both `/download-file` and `/view-file`. */
  lemma MissingPath(fs: Entry, base: string, filePath: string)
    requires Find(fs, Join(base, filePath)) == None
    ensures DownloadByPath(fs, base, filePath) == Error(404) && ViewFile(fs, base, filePath) == Error(404)
  {
  }

  /** Once a path names a file, the same path with a trailing slash is not reached. */
  lemma SlashAfterFile(fs: Entry, base: string, filePath: string)
    requires filePath != "" && Find(fs, Join(base, filePath)).Some? && Find(fs, Join(base, filePath)).value.File?
    ensures Find(fs, Join(base, filePath + "/")) == None
  {
    JoinTrailingSlash(base, filePath);
    FindTrailingSlash(fs, Join(base, filePath));
  }

  /** Nor is the same path followed by "/.". */
  lemma DotAfterFile(fs: Entry, base: string, filePath: string)
    requires filePath != "" && Find(fs, Join(base, filePath)).Some? && Find(fs, Join(base, filePath)).value.File?
    ensures Find(fs, Join(base, filePath + "/.")) == None
  {
    var full := Join(base, filePath);
    assert Join(base, filePath + "/.") == full + "/." by {
      assert (filePath + "/.")[..1] == filePath[..1];
    }
    FindTrailingDot(fs, full);
  }

  /** `/download-file` and `/view-file` do not confine the path to `BASE_DIR`: an absolute path ignores it. */
  lemma AbsolutePathIgnoresBaseDir(fs: Entry, base1: string, base2: string, filePath: string)
    requires StartsWith(filePath, "/")
    ensures DownloadByPath(fs, base1, filePath) == DownloadByPath(fs, base2, filePath)
    ensures ViewFile(fs, base1, filePath) == ViewFile(fs, base2, filePath)
  {
  }

  /** `../name` resolves to the sibling `name` of `BASE_DIR`. */
  lemma DotDotResolves(base: string, name: string)
    requires Plain(name) && Resolve(base) != []
    ensures Pieces("../" + name) == ["..", name]
    ensures Resolve(Join(base, "../" + name)) == Parent(Resolve(base)) + [name]
  {
    var rel := "../" + name;
    assert rel == ".." + "/" + name;
    assert rel[..1] == ".";
    PiecesOfJoin(base, rel);
    PiecesAtSlash("..", name);
    PiecesOfName("..");
    assert name[0] in name;
    PiecesOfName(name);
    assert Pieces(rel) == ["..", name];
    var r := Resolve(base);
    NormalizeConcat([], Pieces(base), ["..", name]);
    assert Resolve(Join(base, rel)) == Normalize(r, ["..", name]);
    assert Step(r, "..") == Parent(r);
    assert ["..", name][1..] == [name];
    assert Normalize(r, ["..", name]) == Normalize(Parent(r), [name]);
    assert AllPlain([name]);
    NormalizePlain(Parent(r), [name]);
  }

  /** From a directory, the walk gets through `..` and `name` exactly when the parent holds `name`. */
  lemma SiblingReached(fs: Entry, r: Path, name: string)
    requires Plain(name) && r != [] && IsDirAt(fs, r)
    ensures Reaches(fs, r, ["..", name]) <==> Lookup(fs, Parent(r) + [name]).Some?
  {
    var ps := ["..", name];
    assert !Plain(ps[0]) && Step(r, ps[0]) == Parent(r) && ps[1..] == [name];
    assert Reaches(fs, r, ps) <==> Reaches(fs, Parent(r), [name]);
    var qs := [name];
    assert qs[0] == name && Step(Parent(r), name) == Parent(r) + [name] && qs[1..] == [];
    assert Reaches(fs, Parent(r), qs) <==> Lookup(fs, Parent(r) + [name]).Some?;
  }

  /**
   * Neither do they refuse "..": `../name` names the sibling `name` of
   * `BASE_DIR`, and, once `BASE_DIR` exists, that is what the walk reaches.
   */
  lemma DotDotLeavesBaseDir(fs: Entry, base: string, name: string)
    requires Plain(name) && Resolve(base) != []
    ensures Resolve(Join(base, "../" + name)) == Parent(Resolve(base)) + [name]
    ensures Find(fs, base).Some? && Find(fs, base).value.Dir? ==>
      Find(fs, Join(base, "../" + name)) == Lookup(fs, Parent(Resolve(base)) + [name])
  {
    DotDotResolves(base, name);
    var rel := "../" + name;
    if Find(fs, base).Some? && Find(fs, base).value.Dir? {
      assert rel == ".." + "/" + name;
      assert rel[..1] == ".";
      FindJoin(fs, base, rel);
      FindExists(fs, base);
      SplitAtSlash("..", name);
      PiecesOfName("..");
      PiecesOfName(name);
      assert Split(rel) == ["..", name];
      SiblingReached(fs, Resolve(base), name);
      NormalizeConcat([], Pieces(base), ["..", name]);
      PiecesOfJoin(base, rel);
    }
  }

  /**
   * `/view-file` answers 404 exactly when the kernel's walk does not get
   * through the joined path, before looking at the suffix; then 400 for a
   * path not ending in ".json"; then it shows the file, and a directory
   * there is 500.
   */
  lemma ViewFileGuards(fs: Entry, base: string, filePath: string)
    ensures var full := Join(base, filePath);
      var at := Resolve(full);
      && (ViewFile(fs, base, filePath) == Error(404) <==> full == "" || !Reaches(fs, [], Split(full)))
      && (full != "" && Reaches(fs, [], Split(full)) && !EndsWith(filePath, ".json") ==>
            ViewFile(fs, base, filePath) == Error(400))
      && (full != "" && Reaches(fs, [], Split(full)) && FileAt(fs, at).Some? && EndsWith(filePath, ".json") ==>
            ViewFile(fs, base, filePath) == JsonPage(Basename(filePath), FileAt(fs, at).value))
      && (full != "" && Reaches(fs, [], Split(full)) && FileAt(fs, at).None? && EndsWith(filePath, ".json") ==>
            ViewFile(fs, base, filePath) == Error(500))
  {
    FindExists(fs, Join(base, filePath));
  }
}
