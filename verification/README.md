# A Dafny model of MuLi's playlist store and file nodes

MuLi (the `mulifs` repository) shows a music library as a FUSE filesystem.
This project models two pieces of its core and proves properties of them:

- **Playlist bookkeeping** (`store/playlistManager.go`). Playlists live in a
  BoltDB key-value store, under `Playlists/<playlist>/<song>`. The model covers
  four operations:
  - resolving a song of a playlist to its real path: a store record wins,
    otherwise the conventional path `<mount>/playlists/<playlist>/<song>` is
    used when something other than a directory is there;
  - listing the playlists;
  - listing the songs of a playlist: store records first, then the files
    dropped into the playlist's directory, with no de-duplication;
  - creating a playlist, which is idempotent.
- **File nodes and handles** (`file.go`). A node is a song, a `.description`
  file or a special sidecar file. The model covers:
  - how `Attr`, `Open`, `Read`, `Write`, `Flush` and `Setattr` dispatch on the
    node's name and on whether the handle holds a real descriptor;
  - what `Release` does. It counts down the writers of a sidecar file and drops
    the sidecar's buffer with the last writer. For a real descriptor it closes
    it first, then calls the drop handler or the tag rewriter.

Files:
- `common.dfy`: bytes, errors, Go's error-or-nil.
- `paths.dfy`: the trailing-slash rule for the mount point and Go's `filepath.Ext`.
- `bolt.dfy`: buckets as entry sequences in cursor (key) order, with `CreateBucketIfNotExists`. A well-formed bucket has its keys in strictly increasing order and no empty key, at every depth.
- `playlist_manager.dfy`: the playlist operations.
- `file.dfy`: the `File` and `FileHandle` classes.

Modelling choices:
- Read transactions see one snapshot of the store, so the read operations take
  the top-level bucket as a value. `CreatePlaylist` changes the store, so it is a
  method of the `Database` class and changes that object's `top` field.
- Whether the database file could be opened is a parameter, `open`. Whether a
  write transaction's commit succeeds is a parameter, `commit`.
- The on-disk tree is a `Disk` value. It maps each path to a file or directory
  kind, and each readable directory to its listing.
- Collaborators whose code is not part of this model are parameters:
  - in `file.go`, they are the fields of an `Env`, each given as the result it
    returns;
  - the JSON decoding of a record is a `decode` function that may fail;
  - the playlist-name normalisation `getCompatibleString` is a `compatible`
    function.
- `Release` returns the external calls it makes, in order. `CreatePlaylist`
  returns the call it makes to the playlist-file regenerator.

Behaviour of the code that is easy to miss:
- A record that does not decode is not reported as an error. The lookup falls
  back to the conventional path, like every other lookup failure
  (store/playlistManager.go:70-81).
- `Flush` on `.description` returns EIO. It is not a no-op (file.go:300-303).
- `Attr` uses the writer count and the buffer for every dotfile except
  `.description`. `Release` uses them only for sidecar names (`._*` and
  `.DS_Store`) (file.go:54-79, 159).
- The tag rewriter runs only for names ending in `.mp3`, and never for the
  `playlist` artist. A failed path lookup on release returns the lookup error
  (file.go:210-225).
- `ListPlaylistSongs` does not de-duplicate.

## Model

| member | source | states |
|---|---|---|
| Paths.WithTrailingSlash | store/playlistManager.go:81-83 | the result ends in '/'; it is the input unchanged exactly when the input already ended in '/', and the input plus "/" otherwise |
| Paths.Ext | file.go:211 | the extension is empty or starts with '.', is a suffix of the name, and holds no other '.' and no '/' |
| Paths.ExtOfDottedSuffix | file.go:211 | a final element "q.s", where s has no '.' or '/', has extension ".s" |
| Paths.ExtIsMp3 | file.go:211-221 | the extension test on release is ".mp3" exactly when the name ends in ".mp3" |
| Bolt.CreateBucketIfNotExists | store/playlistManager.go:199-209 | fails exactly for an empty name or a key that holds a record; otherwise the key holds a bucket afterwards, an existing bucket is returned unchanged with its parent, a new one is empty, every other key is untouched, and well-formedness is kept |
| Bolt.InsertPresent | store/playlistManager.go:198-212 | writing back the slot a key already holds leaves the bucket unchanged |
| Bolt.InsertSorted | store/playlistManager.go:199-205 | inserting a key keeps the keys in strictly increasing cursor order |
| PlaylistStore.LookupRecord | store/playlistManager.go:53-75 | succeeds exactly when the playlist bucket has a record for the song that decodes, and gives that record's path; each failure names its reason: no Playlists bucket, no playlist, no song, or an undecodable record |
| PlaylistStore.Fallback | store/playlistManager.go:87-92 | the path is returned exactly when something that is not a directory (a regular file, a device, or whatever a link there points to) is there, and otherwise "File not exists." |
| PlaylistStore.GetPlaylistFilePath | store/playlistManager.go:45-93 | a failed open is returned as is; any success is the recorded path or the fallback path holding a non-directory; every other failure is "File not exists." |
| PlaylistStore.RecordWins | store/playlistManager.go:53-79 | a decodable record gives its recorded path, whatever is on disk |
| PlaylistStore.UnrecordedFallsBack | store/playlistManager.go:77-92 | when the lookup fails for any reason, the fallback path is returned iff a non-directory is there, else "File not exists." |
| PlaylistStore.UndecodableRecordFallsBack | store/playlistManager.go:68-81 | a record that cannot be decoded is not reported; the fallback tier decides |
| PlaylistStore.CursorDirentsKinds | store/playlistManager.go:113-157 | every entry of a cursor listing is DT_Dir for sub-buckets and DT_File for records |
| PlaylistStore.DiskDirentsKinds | store/playlistManager.go:173-178 | every entry taken from a directory listing is DT_File |
| PlaylistStore.CursorScan | store/playlistManager.go:112-120 | the cursor loop yields exactly the directory entries of the selected keys, in cursor order |
| PlaylistStore.DirectoryScan | store/playlistManager.go:172-180 | the directory loop yields one file entry per non-directory entry, in listing order |
| PlaylistStore.CursorDirentsMembership | store/playlistManager.go:151-158 | over a well-formed bucket, a name is listed exactly when its key holds the selected kind of slot (sub-bucket for playlists, record for songs) |
| PlaylistStore.CursorDirentsInOrder | store/playlistManager.go:113-120 | over a well-formed bucket, listed names strictly increase (cursor order, no repeats) |
| PlaylistStore.DiskDirentsMembership | store/playlistManager.go:173-179 | a name is listed from disk exactly when the listing has a non-directory entry of that name |
| PlaylistStore.ListPlaylists | store/playlistManager.go:99-124 | a failed open gives no entries and its error; otherwise a nil error and one DT_Dir entry per sub-bucket key of Playlists in cursor order, none when the bucket is absent |
| PlaylistStore.ListedPlaylists | store/playlistManager.go:107-123 | over a well-formed store, a name is listed exactly when that playlist exists, and names come in strictly increasing key order |
| PlaylistStore.ListPlaylistSongs | store/playlistManager.go:131-184 | the record keys in key order followed by the directory's non-directory entries; the length is the sum of the two counts; an unreadable directory yields just the records with a nil error; every entry is DT_File |
| PlaylistStore.SongListedTwice | store/playlistManager.go:150-181 | a song that is both recorded and present in the playlist's directory is listed at least twice |
| PlaylistStore.CreatePlaylistTx | store/playlistManager.go:198-212 | on success both Playlists and the playlist's bucket exist and the store stays well-formed; it fails exactly for an empty name or a record in the way: IncompatibleValue when Playlists holds a record, otherwise BucketNameRequired for an empty name and IncompatibleValue for a record under the name |
| PlaylistStore.CreatePlaylistTxFrame | store/playlistManager.go:198-212 | no top-level key but Playlists changes; inside Playlists no key but the name changes; an existing playlist keeps its contents, a new one is empty, and a Playlists bucket created here holds only the new playlist |
| PlaylistStore.CreatePlaylistTxIdempotent | store/playlistManager.go:199-209 | creating a playlist that was just created succeeds and changes nothing |
| PlaylistStore.Database.CreatePlaylist | store/playlistManager.go:190-218 | a failed open, a store error or a failed commit returns "" with that error, before any regeneration and with the store unchanged; otherwise the transaction's result is the new store, regeneration is asked for with the normalised name and mount point, and the normalised name is returned |
| FuseFile.KindOf | file.go:108-114 | a node is a description exactly when named ".description", and a song exactly when its name does not start with '.' |
| FuseFile.IsSidecar | file.go:159 | every sidecar name is a dotfile other than ".description" |
| FuseFile.RouteOf | file.go:185-207 | a descriptor release goes to the drop handler exactly for artist "drop", and stops after closing exactly when artist or album is empty otherwise |
| FuseFile.ReleaseWriter | file.go:170-173 | the writer count goes down by one (from 0 it wraps to the largest uint); the buffer is emptied exactly when the new count is 0 and kept otherwise |
| FuseFile.ReleasingWriters | file.go:159-175 | with n writers, after k < n releases the count is n-k and the buffer is intact; after n it is 0 and the buffer empty |
| FuseFile.File.Attr | file.go:52-101 | the mode is 0444, 0666 or 0777 by node kind; a description's size is the description's length; a special file being written reports its buffer's length without asking the store; one not written reports the stored copy's size, or GetSpecialFile's error; a song succeeds exactly when the path lookup, the open and the stat succeed, with mode 0777 and the stat's size, and otherwise returns the error of the first of them that failed |
| FuseFile.File.OpenDescriptor | file.go:105-141 | no descriptor exactly for ".description"; EPERM for every other dotfile, before any lookup; a descriptor only for a song, opened at the path the store gives; a song whose path lookup fails returns that lookup's error, and one whose open fails returns the open's error |
| FuseFile.File.Open | file.go:105-141 | a fresh handle on this node holding the decided descriptor, or no handle and the error |
| FuseFile.File.Setattr | file.go:313-320 | always returns nil and changes nothing |
| FuseFile.FileHandle.DescriptionBytes | file.go:233-255 | ENOENT without artist; otherwise the artist lookup's error, then (for album names longer than one UTF-8 byte) the album lookup's error, and when those checks pass exactly what GetDescription gives |
| FuseFile.ShortAlbumNotChecked | file.go:243-248 | for an empty or one-byte album name the album lookup does not affect the description read |
| FuseFile.WideAlbumChecked | file.go:243-248 | a one-character album outside ASCII is longer than one byte, so it is looked up and its lookup error returned |
| Common.Utf8Len | file.go:243 | Go's byte length of a string: at least its character count and at most four times it, and equal to it exactly when every character is ASCII |
| FuseFile.FileHandle.Read | file.go:230-270 | EIO for a handle without descriptor except a description, which is served whole; with a descriptor, the read bytes unless the read failed, in which case its error (end of file is no error); never more than requested when the reader honours its buffer size (`ReaderBounded`) |
| FuseFile.FileHandle.Write | file.go:276-291 | without descriptor nothing is written and the error is EPERM exactly for a description, EIO otherwise; with one, the real write's size and error |
| FuseFile.FileHandle.Flush | file.go:295-309 | fails exactly for handles without a descriptor, with EIO, a description included |
| FuseFile.FileHandle.ReleaseDescriptor | file.go:183-226 | closes first and once; a drop-area file then goes to the drop handler at mount/drop/name and the handler's error wins over the close result; a node lacking artist or album just closes; a song's path is looked up (its error returned), and tags are rewritten only for ".mp3" names outside the playlist artist |
| FuseFile.FileHandle.Release | file.go:152-226 | without a descriptor nothing is called and nil returned; a sidecar released for writing loses one writer and its buffer goes with the last; read-only sidecars, descriptions and other descriptor-less handles change nothing; with a descriptor, as ReleaseDescriptor |
| FuseFile.TwoWritersRelease | file.go:159-175 | two writers on one sidecar: after the first release the count is 1 and the buffer intact; after the second, 0 and empty |

## Left out

- The file position of a real descriptor. Go's `Read` and `Write` ignore the request's offset and use the descriptor's current position, which each call moves forward (file.go:262-263, 288). `read` and `write` in the `Env` are given the descriptor and the size or data only, so the model says nothing about which bytes a read returns or where a write lands.
- BoltDB's transactions, file locking and the per-call open and close of the database file. An open failure and a commit failure are parameters. A write transaction either fails with the store unchanged or commits its result.
- JSON decoding of a playlist record: a `decode` parameter that may fail.
- `getCompatibleString`, `RegeneratePlaylistFile`, `GetFilePath`, `GetDescription`, `GetSpecialFile`, `GetArtistPath`, `GetAlbumPath`, `HandleDrop`, `SetMp3Tags`: their code is not part of this model. They appear as parameters or `Env` fields, or only as recorded calls. The results of `SetMp3Tags` and `RegeneratePlaylistFile` are ignored by the code and not modelled.
- Operating-system file calls (`os.Open`, `Stat`, `Read`, `Write`, `Close`, `ioutil.ReadDir`) are given as their results. `Sync` in `Flush` is not modelled, because the code ignores its result. The close of the file that `Attr` opens is not modelled either.
- The mutex that guards `writers` and `data`: operations are modelled one at a time.
- Logging, the darwin direct-I/O flag and the logging of the open flags.
- Incrementing `writers` and writing into `data` happen in directory code, which is not part of this model. A node is created with its count and buffer.
- The Go code indexes the first character of a node's name in `Attr` and `Open`, and the last character of the mount point in three places: the fallback tier of `GetPlaylistFilePath` (store/playlistManager.go:81), `ListPlaylistSongs` (store/playlistManager.go:166) and the drop branch of `Release` (file.go:191). Each of those places indexes out of range on an empty string. The model requires a non-empty value only where the code indexes it: a node always has a name (`File.Valid`), and the mount point must be non-empty only on those three paths. The program always passes its own non-empty mount point.
- Unreachable code: the second `fh.r == nil` test in `Release`, the `fh.f == nil` tests (a handle always has a node), the error test after the read transaction in `ListPlaylistSongs` (the transaction never fails), and the final `return nil, nil`.
- Key order compares characters. Go compares UTF-8 bytes, which gives the same order. The one length test whose answer depends on the encoding, the album test when a description is read (file.go:243), counts UTF-8 bytes (`Utf8Len`). The other tests (`name[0]`, `name[1]`, the last character of the mount point, an empty artist or album) give the same answer on characters.
- Directory listings are used in the order given. `ioutil.ReadDir` sorts them by name.
- Attribute sizes are unbounded naturals. Go uses `uint64`.
