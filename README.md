# WatchMe Vault API (filesystem variant) in Dafny

This project models `app.py`, the FastAPI service that keeps the WatchMe
recordings and their analysis results. The results are files in a
directory tree `BASE_DIR/<user_id>/<date>/<folder>/<file>`.

The model covers:

- the upload handlers (`/upload`, `/upload-transcription`, `/upload-prompt`
  and the `/upload/analysis/*` family);
- the download handlers (`/download`, `/download-sed`, `/download-opensmile`,
  `/download-file`);
- `/view-file`;
- the dashboard reads (`/api/users/{user_id}/logs/{date}/...`);
- the OpenSMILE slot listing;
- the `/status` tree page.

It proves what those handlers promise about one another, such as round
trips, guards, ordering and link soundness.

Modules, one per file:

- **Wrappers** (`wrappers.dfy`): `Option`.
- **Strings** (`strings.dfy`):
  - `startswith`, `endswith` and `str.replace` of every occurrence;
  - Python's code-point string order;
  - zero-padded decimal digits.
- **Paths** (`paths.dfy`):
  - `os.path.join` exactly as written, including an absolute part that drops
    everything before it, and `os.path.basename`;
  - the `"/".join` of relative parts;
  - lexical resolution of a path string into the list of names it names
    (empty pieces and `.` are dropped, `..` goes up, and `..` at the root
    stays at the root).
- **Clock** (`clock.dfy`): the day and half-hour labels `/upload` derives from
  the clock reading.
- **Dates** (`dates.dfy`):
  - `datetime.strptime(s, "%Y-%m-%d")` as CPython's parser accepts it (ASCII
    digits, an unpadded month or day allowed, a real calendar date);
  - `_sort_dates`, a stable sort, newest first.
- **Store** (`store.dfy`): the directory tree.
  - The store is a value `Entry = File(name, data) | Dir(name, children)`.
  - It offers lookup, `os.makedirs(..., exist_ok=True)` and
    `open(path, "wb").write`, with the conditions under which each fails.
  - `Find` is the kernel's walk behind `os.path.exists`. The walk goes piece
    by piece, and each name must exist. An empty piece, `.` or `..` needs the
    location reached so far to be a directory. So `x.wav/`, `a.json/.` and
    `missing/../a` are not found, and `..` climbs only from a directory that
    exists.
  - A relative path is walked from the root of the store: the model has no
    working directory, so a relative `BASE_DIR` is read as if the process ran
    at the root.
- **Vault** (`vault.dfy`): every upload, download and dashboard handler.
  - Each is a function from the store and the request to the response and
    the new store.
  - An `HTTPException` becomes `Error(code)`. Any other exception (a
    directory in the way, a file where a directory is needed) becomes
    `Error(500)`.
- **Listing** (`listing.dfy`): `list_opensmile_features`.
  - It is a method that copies the slot names into an array.
  - It sorts the array in place with an insertion sort, `time_slots.sort()`.
- **Status** (`status.dfy`): `/status`.
  - `_walk_dir_with_links` is a recursive method appending to a `LineBuffer`
    object (the `lines` list).
  - `status_all` loops over users and days.
  - The page is given by the functions `WalkLines` and `StatusPage`. The
    methods are proved equal to them, and the lemmas state what the page
    shows.

The clock reading, the environment variable `WATCHME_LOCAL_DEV` and the
directory of the module are parameters. The clock reading is given in
Asia/Tokyo time.

## Model

| member | source | states |
|---|---|---|
| Clock.SlotLabelShape | app.py:76-77 | the slot label has five characters: the clock's hour as two decimal digits, a dash, then "00" before minute 30 and "30" from minute 30 on |
| Clock.SlotLabelInjective | app.py:76-77 | two clock readings get the same label if and only if they fall in the same half hour |
| Clock.SlotLabelOrder | app.py:76-77 | a reading in an earlier half hour gets a label that is smaller in Python string order |
| Clock.SlotLabelIsOneOf48 | app.py:76-77 | every label is one of the day's 48 labels, and those 48 are strictly increasing, hence distinct |
| Dates.ParseDate | app.py:246-249 | a name that `strptime("%Y-%m-%d")` accepts denotes a real calendar day in years 1 to 9999 |
| Dates.ParseDateLabel | app.py:75 | the day label `/upload` writes with `strftime("%Y-%m-%d")` parses back to the same day |
| Dates.DateKeyOrder | app.py:245-249 | the sort key of valid days orders them as the calendar does, and equal keys mean equal days |
| Dates.MinDateIsEarliest | app.py:248-249 | every name's key is at least that of `datetime.min`; it equals it exactly for unparsable names and for "0001-01-01" |
| Dates.SortDatesPermutation | app.py:250 | `_sort_dates` returns a permutation of its input |
| Dates.SortDatesNewestFirst | app.py:250 | the keys of `_sort_dates`' result never increase |
| Dates.SortDatesStable | app.py:250 | names with the same key keep their relative order (the sort is stable) |
| Dates.SortDatesKeepsUnparsableOrder | app.py:250 | the names that are not dates come out in their original order |
| Dates.SortDatesOrder | app.py:244-250 | of two dates in the result the earlier one never comes first; after an unparsable name only unparsable names or "0001-01-01" follow |
| Store.MakeDirsSucceedsIff | app.py:80 | `os.makedirs(exist_ok=True)` succeeds if and only if no location along the path is a file |
| Store.MakeDirsMakesDir | app.py:80 | after `os.makedirs` the path is a directory |
| Store.MakeDirsKeepsFiles | app.py:80 | `os.makedirs` changes no file anywhere in the store |
| Store.WriteFileSucceedsIff | app.py:83-84 | `open(path, "wb")` succeeds if and only if the parent is a directory and the path is not a directory |
| Store.WriteThenRead | app.py:83-84 | after the write the path holds exactly the bytes written |
| Store.WriteFileKeepsOthers | app.py:83-84 | the write changes no file at any other location |
| Store.MakeDirsWellFormed | app.py:80 | `os.makedirs` with plain names keeps every directory's entries distinct and plain |
| Store.WriteFileWellFormed | app.py:83-84 | the write with plain names keeps every directory's entries distinct and plain |
| Paths.PiecesOfJoin | app.py:79 | `os.path.join(a, b)` with a relative `b` names the pieces of `a` followed by those of `b` |
| Paths.JoinAllAbsolute | app.py:79 | `os.path.join(a, *parts)` restarts at the last absolute part: everything before it, `BASE_DIR` included, is dropped |
| Paths.JoinTrailingSlash | app.py:176 | joining `p + "/"` onto a directory string gives the join of `p` followed by "/" |
| Paths.ResolveChild | app.py:81 | joining a plain file name onto a directory path adds exactly that name |
| Paths.BasenameOfJoin | app.py:180 | the basename of a join onto a plain name is that name |
| Store.FindExists | app.py:177 | `os.path.exists` holds exactly when the path is non-empty and the walk gets through every piece; the entry found is the one the lexical resolution names |
| Store.FindLexical | app.py:111-112 | for a path without ".." that ends in a name, the walk finds exactly what lexical resolution names |
| Store.FindTrailingSlash | app.py:177 | a trailing "/" finds the same directory, and nothing after a file or a missing path |
| Store.FindTrailingDot | app.py:196 | a trailing "/." does the same |
| Store.FindJoin | app.py:176 | a relative path joined onto an existing directory is walked from that directory |
| Store.FindBelow | app.py:252-254 | a relative path of plain names below an existing directory finds the entry those names lead to from it |
| Paths.ResolveBelow | app.py:252-254 | the relative path of a file, joined back onto the data directory, leads to that file's location |
| Vault.BaseDirChoice | app.py:52-57 | `BASE_DIR` is the module-relative `data/data_accounts` when `WATCHME_LOCAL_DEV` is exactly "1", the production directory otherwise |
| Vault.SaveArtifact | app.py:151-167 | a checked upload whose file name does not end in ".json" gets 400 and changes nothing; 400 happens only then; otherwise the answer is the status and save path, or 500 |
| Vault.SaveLayout | app.py:79-81 | with single-name user and date, the upload lands at `BASE_DIR/user/date/<folder>/<file name>` |
| Vault.FileNamePolicy | app.py:160-162 | the fixed-name categories save the same file whatever slot is given; the slot categories name the file slot plus extension |
| Vault.SaveArtifactStores | app.py:79-86 | a successful upload stores the uploaded bytes at the reported path and changes no other file |
| Vault.SaveArtifactFailureKeepsFiles | app.py:79-84 | a rejected or failed upload changes no file |
| Vault.SaveArtifactSucceedsIff | app.py:79-86 | for a file name that is a plain name (not empty, ".", ".." and without "/"), an upload succeeds if and only if the extension check passes, nothing along its folder is a file and the target is not a directory |
| Vault.SaveArtifactWellFormed | app.py:79-84 | uploads keep the store's directory entries distinct and plain |
| Vault.UncheckedUploads | app.py:91-105 | `/upload` and `/upload-transcription` never answer 400 |
| Vault.CheckedUploadsRejectNonJson | app.py:157-158 | the six checked uploads answer 400 and leave the store as it was when the file name does not end in ".json" |
| Vault.SlotPathMatchesSavePath | app.py:112 | when user, date and slot do not start with "/", the f-string path a slot download builds names the location the matching upload saves to |
| Vault.WavRoundTrip | app.py:110-116 | when the user id does not start with "/", after `/upload` the `/download` with the same user, day label and slot label returns the uploaded bytes as `audio/wav` named `<slot>.wav` |
| Vault.SedRoundTrip | app.py:121-131 | when user, date and time block do not start with "/", after `/upload/analysis/sed-timeline` (app.py:406-409) the `/download-sed` with the same keys returns the uploaded bytes |
| Vault.OpensmileRoundTrip | app.py:136-146 | when user, date and slot do not start with "/", after `/upload/analysis/opensmile-features` (app.py:532-535) the `/download-opensmile` with the same keys returns the uploaded bytes |
| Vault.EmotionTimelineRoundTrip | app.py:466-480 | after the emotion-timeline upload (app.py:383-385) the dashboard read returns the uploaded document, for every user and day |
| Vault.SedSummaryRoundTrip | app.py:492-506 | after the sed-summary upload (app.py:429-432) the dashboard read returns the uploaded document |
| Vault.OpensmileFeaturesRoundTrip | app.py:547-561 | after the opensmile-features upload the per-slot dashboard read returns it |
| Vault.OpensmileSummaryRoundTrip | app.py:573-587 | the summary read returns the features uploaded under the slot "vault_features_timeline" |
| Vault.OpensmileSummaryUploadNotRead | app.py:452-455 | `/upload/analysis/opensmile-summary` writes a different location from the one the summary read looks at (app.py:579) |
| Vault.AbsoluteUserLeavesBaseDir | app.py:79-81 | with an absolute `user_id` the upload ignores `BASE_DIR`, while the download path (app.py:112) still starts with it |
| Vault.MediaTypeCases | app.py:183-188 | the media type is `audio/wav` exactly for a ".wav" suffix, `application/json` exactly for ".json", `application/octet-stream` exactly otherwise |
| Vault.DownloadByPathServes | app.py:176-190 | `/download-file` answers 404 exactly when the walk does not get through the joined path; otherwise it serves the file there with the basename and its media type, or 500 for a directory |
| Vault.TrailingSlashAfterFile | app.py:176-178 | a path naming a file, followed by "/" or "/.", is 404 on `/download-file` and on `/view-file` (app.py:195-197): ENOTDIR |
| Vault.AbsolutePathIgnoresBaseDir | app.py:176 | `/download-file` and `/view-file` (app.py:195) give an absolute `file_path` the same answer whatever `BASE_DIR` is: no confinement |
| Vault.DotDotResolves | app.py:195 | `../name` joined onto `BASE_DIR` names its sibling `name` |
| Vault.SiblingReached | app.py:196 | from an existing directory, the walk through `..` then `name` succeeds exactly when the parent holds `name` |
| Vault.DotDotLeavesBaseDir | app.py:195-196 | when `BASE_DIR` is an existing directory, `../name` finds the sibling `name` of `BASE_DIR`: there is no traversal check |
| Vault.ViewFileGuards | app.py:195-200 | `/view-file` answers 404 exactly when the walk does not get through the path, before any suffix check; then 400 for a non-".json" path; then it shows the file, or 500 for a directory |
| Listing.SortSlots | app.py:616 | `time_slots.sort()` leaves the array in ascending order and a permutation of what it held |
| Listing.InsertInto | app.py:616 | one insertion step extends the sorted prefix by one element and keeps the contents |
| Listing.AscendingUnique | app.py:616 | two ascending orderings of the same multiset are equal: the sorted list is determined by its contents |
| Listing.ListOpensmileFeatures | app.py:605-629 | missing folder: no slots, count 0, no summary; a file there: 500; otherwise ascending slots equal to the ".json" names minus the merged file with ".json" removed, count equals length, summary flag iff the merged file is present, and the folder's path |
| Listing.TimeSlotsPermutation | app.py:611-615 | the slots depend only on the multiset of directory entries, not on the order `os.listdir` returns |
| Listing.ListingIgnoresDirectoryOrder | app.py:611-616 | two listings of the same entries give the same slot list |
| Listing.TimeSlotsContains | app.py:614-615 | for a slot without '.', a slot file other than the merged file contributes its slot |
| Listing.FeaturesFileName | app.py:535 | a features upload is stored as the slot plus ".json", which is the merged file's name exactly for the slot "vault_features_timeline" |
| Listing.UploadThenListed | app.py:605-619 | for a slot without '/' or '.', after a successful features upload the folder exists and lists the slot, or reports the summary for the slot "vault_features_timeline" |
| Status.SortByName | app.py:260 | `sorted` on one directory's entries gives a permutation of them |
| Status.SortByNameAscending | app.py:260 | and puts them in ascending name order |
| Status.DirsOf | app.py:260 | the entries kept are exactly the sub-directories |
| Status.FilesOf | app.py:265 | the entries kept are exactly the files |
| Status.LineBuffer.Append | app.py:261 | `lines.append` adds one line at the end |
| Status.Walk | app.py:256-281 | the walk appends exactly the lines `WalkLines` defines for the directory |
| Status.WalkSubdirs | app.py:260-262 | the first loop appends each sub-directory's line followed by its own walk one level deeper |
| Status.WalkFiles | app.py:265-281 | the second loop appends one file line per file, with its relative path and link kind |
| Status.WalkDay | app.py:354-356 | the walk of one day directory starts at indentation level 2 |
| Status.WalkDates | app.py:353-357 | each day gets its line, its walk and an empty line |
| Status.StatusAll | app.py:283-368 | the page is "no data folder" when the walk does not find `BASE_DIR` (app.py:285), 500 when it is a file, otherwise exactly the lines `StatusPage` defines |
| Status.FileLinesAt | app.py:265-281 | the file loop gives one line per file, in order, at the walk's level, with parts `rel + [name]` |
| Status.WalkPlaced | app.py:257-262 | every walk line is indented at least the walk's level, and a file is one level deeper per directory between it and the walked one |
| Status.SubdirPlaced | app.py:260-262 | the sub-directory part has no file line at the walk's own level |
| Status.DirsBeforeFiles | app.py:259-266 | after a directory's first own file line only its own file lines follow, in ascending name order: folders come before files |
| Status.PageIndentation | app.py:349-356 | on the page, a file's indentation level is one less than the number of names in its relative path |
| Status.WalkLinksWork | app.py:265-279 | in a well-formed store, every file line of a walk leads to a file of that name, with the link kind its name calls for |
| Status.PageLinksWork | app.py:349-356 | every file line of the page does so from `BASE_DIR` |
| Status.StatusLinksWork | app.py:266-279 | each file line's download link serves that file with the media type matching the link kind, and a JSON line's view link shows the file's page |
| Status.UserListed | app.py:349-350 | every user directory in `BASE_DIR` gets its line on the page |
| Status.LinkTarget | app.py:252-254 | the relative path a file line carries, joined back onto `BASE_DIR`, is found by the walk at that file, and its basename is the file's name |
| Status.DownloadLinkServes | app.py:266-279 | a file line's download link serves that file with its name and media type |
| Status.ViewLinkShows | app.py:273-276 | a JSON file line's view link shows that file's page |
| Status.SubdirDirNames | app.py:260-262 | the folder lines at a walk's own level name its sub-directories in the order visited |
| Status.WalkFolders | app.py:260 | the folder lines at a walk's level are one per sub-directory, in ascending name order, naming exactly the sub-directories |
| Status.FileLineFound | app.py:265-281 | every file of the directory gets its file line at the walk's level |
| Status.SubdirFound | app.py:260-262 | every sub-directory gets its folder line, followed by all the lines of its own walk |
| Status.WalkHoldsChild | app.py:259-281 | each entry of the walked directory gets its folder or file line |
| Status.WalkComplete | app.py:256-262 | every entry below a walked directory gets its folder or file line, indented once more per directory between |
| Status.DayListed | app.py:353-356 | every day directory of a user gets its date line, followed by the lines of its walk |
| Status.UserOnPage | app.py:349-356 | every user directory gets its user line, followed by the lines of all its days |
| Status.DayWalkHolds | app.py:354-356 | the walk of a day holds the line of every entry below it, indented by its depth below `BASE_DIR` |
| Status.PageComplete | app.py:283-357 | every entry below `BASE_DIR` is on the page: a user directory by its user line, a day directory by its date line, and every deeper folder or file by its folder or file line |

## Left out

- File I/O is modelled on an immutable tree value; the handlers return the new tree. Left out:
  - reading the request body;
  - streaming a `FileResponse`;
  - the `StaticFiles` mount of `/status/**` (app.py:62).
- JSON parsing: a stored document is served as its bytes. `json.load`, `json.dumps` and the 400 answer for an invalid JSON document are not modelled (app.py:203-204, 235-236, 477-486 and the other dashboard reads).
- HTML markup is not modelled: the `/status` page is a list of typed lines, and `/view-file` returns only the title and the document. Left out:
  - the markup text;
  - the HTTP detail messages;
  - URL quoting of the links (`urllib.parse.quote`).
- The keyed downloads, the dashboard reads and the uploads resolve their paths lexically, not by the kernel's walk. The two agree for paths without ".." that end in a name (Store.FindLexical). A key holding ".." after a missing folder is therefore read differently from the kernel.
- A NUL character in a path: Python raises `ValueError` before any system call, which FastAPI answers with 500. The model treats NUL as an ordinary character.
- Symbolic links and special files are not modelled.
- Vault.SaveArtifactSucceedsIff: states success in terms of the tree only, and only for a file name that is a plain name; a `time_block` such as "a/b" (app.py:403-409) is outside it. The operating system can also refuse with 500 for reasons the tree does not hold: a NUL character (`ValueError`), a name or path too long (ENAMETOOLONG), missing permission (EACCES) or a full disk (ENOSPC).
- Store.MakeDirsSucceedsIff: states success in terms of the tree only; the same NUL, ENAMETOOLONG, EACCES and ENOSPC failures of `os.makedirs` are not modelled.
- Store.WriteFileSucceedsIff: states success in terms of the tree only; the same NUL, ENAMETOOLONG, EACCES and ENOSPC failures of `open` and `write` are not modelled.
- The clock (`datetime.now` with `pytz`) is an input. The unused `timestamp` form field of `/upload` plays no part in the path.
- Clock.DateLabel: pads the year to four digits. glibc's `strftime("%Y")` leaves years before 1000 unpadded.
- Dates.ParseDate: accepts ASCII digits only. Python's `strptime` also accepts other Unicode decimal digits.
- Store.Names: models `os.listdir` as the directory's entries in stored order. The platform's actual order is not modelled; Listing.TimeSlotsPermutation shows the listing does not depend on it.
- Status.DayLines: yields no lines when a sorted day name finds no directory. That cannot happen, since the names come from the same directory.
- Status: a Dafny `LineBuffer` object stands in for the Python `lines` list. It is fresh and private to `status_all`, so aliasing is not exercised.
- Status.StatusLinksWork and Status.PageLinksWork: proved for well-formed stores only. In those, names are distinct and contain no '/', and are not "." or "..", which real directories guarantee.
- Concurrency: the handlers are `async` only for I/O.
- `test_skip_function.py`: `determine_initial_status` is not part of this model; it is not in `app.py`.
- The tests and Supabase/S3 scripts (`test_api.py`, `test_api_new.py`, `verify_data.py`, `check_supabase.py`, `verify_upload.py`, `generate_presigned_url.py`) drive external systems and are not modelled.
