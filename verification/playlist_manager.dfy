/** Playlist bookkeeping in the metadata store: where a playlist's song
    really lives, what a playlist directory and the playlists directory
    list, and playlist creation.

    Reads run inside a read transaction, which sees one immutable snapshot
    of the store; they are modelled over that snapshot, the top-level bucket
    `top`. Creation runs inside a read-write transaction and is modelled as
    a method on the `Database` object whose state it changes. Opening the
    database file can fail; its outcome is the parameter `open`. */
module PlaylistStore {
  import opened Common
  import opened Paths
  import opened Bolt

  /** Name of the top-level bucket that holds one sub-bucket per playlist. */
  const PlaylistsBucket := "Playlists"

  /** The record kept for a song of a playlist: where the song really is. */
  datatype PlaylistFile = PlaylistFile(path: string)

  datatype DirentType = DtDir | DtFile

  /** A directory entry handed to the filesystem layer. */
  datatype Dirent = Dirent(name: string, kind: DirentType)

  // ----- The on-disk tree -----

  /** What `stat` tells the fallback test apart: a directory, or anything
      else (a regular file, a device; `stat` follows links to their target). */
  datatype FileKind = NonDirectory | Directory

  datatype DiskEntry = DiskEntry(name: string, isDir: bool)

  /** The real file tree: what `stat` finds at a path, and what reading a
      directory yields, in the order the directory read returns it. */
  datatype Disk = Disk(kinds: map<string, FileKind>, listings: map<string, seq<DiskEntry>>)

  function Stat(disk: Disk, path: string): Option<FileKind>
  {
    if path in disk.kinds then Some(disk.kinds[path]) else None
  }

  function ReadDir(disk: Disk, path: string): Option<seq<DiskEntry>>
  {
    if path in disk.listings then Some(disk.listings[path]) else None
  }

  // ----- Paths -----

  /** The directory where songs dropped straight into a playlist are kept. */
  function PlaylistDir(mPoint: string, playlist: string): string
    requires |mPoint| > 0
  {
    WithTrailingSlash(mPoint) + "playlists/" + playlist + "/"
  }

  /** The conventional location of a song not recorded in the store. */
  function FallbackPath(mPoint: string, playlist: string, song: string): string
    requires |mPoint| > 0
  {
    PlaylistDir(mPoint, playlist) + song
  }

  /** The sub-bucket of playlist `playlist`, if the store has one. */
  function PlaylistBucket(top: Bucket, playlist: string): Option<Bucket>
  {
    match Child(top, PlaylistsBucket)
    case None => None
    case Some(root) => Child(root, playlist)
  }

  // ----- GetPlaylistFilePath -----

  /** The read transaction of `GetPlaylistFilePath`: the recorded path of
      `song`, or the reason there is none. `decode` is the JSON decoding of
      a record, which may fail. */
  function LookupRecord(top: Bucket, playlist: string, song: string,
                        decode: seq<byte> -> Option<PlaylistFile>): (r: Result<string>)
    ensures r.Ok? <==>
      PlaylistBucket(top, playlist).Some? &&
      Get(PlaylistBucket(top, playlist).value, song).Some? &&
      decode(Get(PlaylistBucket(top, playlist).value, song).value).Some?
    ensures r.Ok? ==>
      decode(Get(PlaylistBucket(top, playlist).value, song).value) == Some(PlaylistFile(r.value))
    ensures r == Err(NoPlaylists) <==> Child(top, PlaylistsBucket).None?
    ensures r == Err(PlaylistNotExists) <==>
      Child(top, PlaylistsBucket).Some? && PlaylistBucket(top, playlist).None?
    ensures r == Err(SongNotFound) <==>
      PlaylistBucket(top, playlist).Some? && Get(PlaylistBucket(top, playlist).value, song).None?
    ensures r.Err? ==> r.error in {NoPlaylists, PlaylistNotExists, SongNotFound, CannotOpenSong}
  {
    match Child(top, PlaylistsBucket)
    case None => Err(NoPlaylists)
    case Some(root) =>
      match Child(root, playlist)
      case None => Err(PlaylistNotExists)
      case Some(b) =>
        match Get(b, song)
        case None => Err(SongNotFound)
        case Some(json) =>
          match decode(json)
          case None => Err(CannotOpenSong)
          case Some(file) => Ok(file.path)
  }

  /** The fallback tier: the conventional path, if a regular file is there. */
  function Fallback(disk: Disk, path: string): (r: Result<string>)
    ensures r.Ok? <==> Stat(disk, path) == Some(NonDirectory)
    ensures r.Ok? ==> r.value == path
    ensures r.Err? ==> r.error == FileNotExists
  {
    if Stat(disk, path) == Some(NonDirectory) then Ok(path) else Err(FileNotExists)
  }

  /** `GetPlaylistFilePath`: a record in the store wins; otherwise, whatever
      went wrong in the lookup, the conventional path under the mount point. */
  function GetPlaylistFilePath(open: Status, top: Bucket, playlist: string, song: string,
                               mPoint: string, decode: seq<byte> -> Option<PlaylistFile>,
                               disk: Disk): (r: Result<string>)
    requires open.NoError? && LookupRecord(top, playlist, song, decode).Err? ==> |mPoint| > 0
    ensures open.Failed? ==> r == Err(open.error)
    ensures open.NoError? && r.Ok? ==>
      LookupRecord(top, playlist, song, decode) == r ||
      (|mPoint| > 0 && r.value == FallbackPath(mPoint, playlist, song) && Stat(disk, r.value) == Some(NonDirectory))
    ensures open.NoError? && r.Err? ==> r.error == FileNotExists
  {
    if open.Failed? then Err(open.error)
    else
      var recorded := LookupRecord(top, playlist, song, decode);
      if recorded.Ok? then recorded
      else Fallback(disk, FallbackPath(mPoint, playlist, song))
  }

  /** A decodable record gives its path, whatever is on disk. */
  lemma RecordWins(top: Bucket, playlist: string, song: string, mPoint: string,
                   decode: seq<byte> -> Option<PlaylistFile>, disk: Disk, json: seq<byte>, file: PlaylistFile)
    requires PlaylistBucket(top, playlist).Some?
    requires Get(PlaylistBucket(top, playlist).value, song) == Some(json)
    requires decode(json) == Some(file)
    ensures GetPlaylistFilePath(NoError, top, playlist, song, mPoint, decode, disk) == Ok(file.path)
  {
  }

  /** No usable record (no playlists bucket, no playlist, no song, or a
      record that does not decode): the fallback path if a regular file is
      there, and "File not exists." otherwise. */
  lemma UnrecordedFallsBack(top: Bucket, playlist: string, song: string, mPoint: string,
                            decode: seq<byte> -> Option<PlaylistFile>, disk: Disk)
    requires |mPoint| > 0
    requires LookupRecord(top, playlist, song, decode).Err?
    ensures var r := GetPlaylistFilePath(NoError, top, playlist, song, mPoint, decode, disk);
      && (r.Ok? <==> Stat(disk, FallbackPath(mPoint, playlist, song)) == Some(NonDirectory))
      && (r.Ok? ==> r.value == FallbackPath(mPoint, playlist, song))
      && (r.Err? ==> r == Err(FileNotExists))
  {
  }

  /** A record that cannot be decoded is not reported: the lookup falls back. */
  lemma UndecodableRecordFallsBack(top: Bucket, playlist: string, song: string, mPoint: string,
                                   decode: seq<byte> -> Option<PlaylistFile>, disk: Disk, json: seq<byte>)
    requires |mPoint| > 0
    requires PlaylistBucket(top, playlist).Some?
    requires Get(PlaylistBucket(top, playlist).value, song) == Some(json)
    requires decode(json).None?
    ensures GetPlaylistFilePath(NoError, top, playlist, song, mPoint, decode, disk)
         == Fallback(disk, FallbackPath(mPoint, playlist, song))
  {
  }

  // ----- Cursor listings -----

  /** The directory entries a cursor loop over `es` appends: the keys whose
      slot is a sub-bucket (`subBuckets`) or a record (`!subBuckets`), in
      cursor order, typed as directories or files respectively. */
  function CursorDirents(es: seq<(string, Slot)>, subBuckets: bool): (ds: seq<Dirent>)
    ensures |ds| <= |es|
  {
    if es == [] then []
    else
      (if es[0].1.Nested? == subBuckets
       then [Dirent(es[0].0, if subBuckets then DtDir else DtFile)] else [])
      + CursorDirents(es[1..], subBuckets)
  }

  /** Every entry of a cursor listing is a directory (sub-buckets) or a file (records). */
  lemma {:induction false} CursorDirentsKinds(es: seq<(string, Slot)>, subBuckets: bool)
    ensures forall d :: d in CursorDirents(es, subBuckets) ==> d.kind == (if subBuckets then DtDir else DtFile)
  {
    if es != [] {
      CursorDirentsKinds(es[1..], subBuckets);
    }
  }

  /** Every name listed is a key of the bucket. */
  lemma {:induction false} CursorDirentsAreKeys(es: seq<(string, Slot)>, subBuckets: bool, d: Dirent)
    requires d in CursorDirents(es, subBuckets)
    ensures exists i :: 0 <= i < |es| && es[i].0 == d.name && es[i].1.Nested? == subBuckets
  {
    if es[0].1.Nested? == subBuckets && d == Dirent(es[0].0, if subBuckets then DtDir else DtFile) {
      assert es[0].0 == d.name;
    } else {
      CursorDirentsAreKeys(es[1..], subBuckets, d);
      var i :| 0 <= i < |es[1..]| && es[1..][i].0 == d.name && es[1..][i].1.Nested? == subBuckets;
      assert es[i + 1] == es[1..][i];
    }
  }

  /** Over a well-formed bucket, a name is listed exactly when its key holds
      the selected kind of slot. */
  lemma {:induction false} CursorDirentsMembership(es: seq<(string, Slot)>, subBuckets: bool, n: string)
    requires Sorted(es)
    ensures Dirent(n, if subBuckets then DtDir else DtFile) in CursorDirents(es, subBuckets)
        <==> Find(es, n).Some? && Find(es, n).value.Nested? == subBuckets
  {
    var d := Dirent(n, if subBuckets then DtDir else DtFile);
    if es != [] {
      SortedTail(es);
      CursorDirentsMembership(es[1..], subBuckets, n);
      if es[0].0 == n && d in CursorDirents(es[1..], subBuckets) {
        CursorDirentsAreKeys(es[1..], subBuckets, d);
        var i :| 0 <= i < |es[1..]| && es[1..][i].0 == n && es[1..][i].1.Nested? == subBuckets;
        assert Less(es[0].0, es[i + 1].0);
        LessIrreflexive(n);
      }
    }
  }

  /** Names that strictly increase along a listing: cursor order, no repeats. */
  predicate NamesIncrease(ds: seq<Dirent>)
  {
    forall i, j :: 0 <= i < j < |ds| ==> Less(ds[i].name, ds[j].name)
  }

  /** Over a well-formed bucket, listed names strictly increase: cursor order. */
  lemma {:induction false} CursorDirentsInOrder(es: seq<(string, Slot)>, subBuckets: bool)
    requires Sorted(es)
    ensures NamesIncrease(CursorDirents(es, subBuckets))
  {
    if es != [] {
      SortedTail(es);
      CursorDirentsInOrder(es[1..], subBuckets);
      var t := CursorDirents(es[1..], subBuckets);
      var ds := CursorDirents(es, subBuckets);
      if es[0].1.Nested? == subBuckets {
        forall j | 1 <= j < |ds| ensures Less(ds[0].name, ds[j].name) {
          assert ds[j] == t[j - 1];
          CursorDirentsAreKeys(es[1..], subBuckets, t[j - 1]);
          var i :| 0 <= i < |es[1..]| && es[1..][i].0 == t[j - 1].name && es[1..][i].1.Nested? == subBuckets;
          assert es[1..][i] == es[i + 1];
        }
        forall i, j | 1 <= i < j < |ds| ensures Less(ds[i].name, ds[j].name) {
          assert ds[i] == t[i - 1] && ds[j] == t[j - 1];
        }
      } else {
        assert ds == t;
      }
    }
  }

  /** One step of the cursor loop: the listing from entry `i` on is that
      entry's contribution followed by the listing from `i + 1` on. */
  lemma CursorDirentsStep(es: seq<(string, Slot)>, subBuckets: bool, i: nat)
    requires i < |es|
    ensures es[i].1.Nested? == subBuckets ==>
      CursorDirents(es[i..], subBuckets)
        == [Dirent(es[i].0, if subBuckets then DtDir else DtFile)] + CursorDirents(es[i + 1..], subBuckets)
    ensures es[i].1.Nested? != subBuckets ==>
      CursorDirents(es[i..], subBuckets) == CursorDirents(es[i + 1..], subBuckets)
  {
    assert es[i..][1..] == es[i + 1..];
  }

  /** The cursor loop of both listings: walk a bucket's entries in cursor
      order, appending a directory entry for each sub-bucket (`subBuckets`,
      the `v == nil` test) or for each record (`!subBuckets`, `v != nil`). */
  method CursorScan(es: seq<(string, Slot)>, subBuckets: bool) returns (a: seq<Dirent>)
    ensures a == CursorDirents(es, subBuckets)
  {
    a := [];
    var i := 0;
    while i < |es|
      invariant 0 <= i <= |es|
      invariant a + CursorDirents(es[i..], subBuckets) == CursorDirents(es, subBuckets)
    {
      CursorDirentsStep(es, subBuckets, i);
      if es[i].1.Nested? == subBuckets {
        a := a + [Dirent(es[i].0, if subBuckets then DtDir else DtFile)];
      }
      i := i + 1;
    }
    assert es[i..] == [];
  }

  /** One step of the directory loop, as `CursorDirentsStep` is for the cursor loop. */
  lemma DiskDirentsStep(files: seq<DiskEntry>, j: nat)
    requires j < |files|
    ensures !files[j].isDir ==>
      DiskDirents(files[j..]) == [Dirent(files[j].name, DtFile)] + DiskDirents(files[j + 1..])
    ensures files[j].isDir ==> DiskDirents(files[j..]) == DiskDirents(files[j + 1..])
  {
    assert files[j..][1..] == files[j + 1..];
  }

  /** The loop over a directory listing: one file entry per entry that is
      not a directory, in listing order. */
  method DirectoryScan(files: seq<DiskEntry>) returns (a: seq<Dirent>)
    ensures a == DiskDirents(files)
  {
    a := [];
    var j := 0;
    while j < |files|
      invariant 0 <= j <= |files|
      invariant a + DiskDirents(files[j..]) == DiskDirents(files)
    {
      DiskDirentsStep(files, j);
      if !files[j].isDir {
        a := a + [Dirent(files[j].name, DtFile)];
      }
      j := j + 1;
    }
    assert files[j..] == [];
  }

  // ----- ListPlaylists -----

  /** The entries of the Playlists bucket, or none when it is absent. */
  function PlaylistsEntries(top: Bucket): seq<(string, Slot)>
  {
    match Child(top, PlaylistsBucket)
    case None => []
    case Some(root) => root.entries
  }

  /** `ListPlaylists`: one directory per sub-bucket of Playlists, in cursor order. */
  method ListPlaylists(open: Status, top: Bucket) returns (a: seq<Dirent>, err: Status)
    ensures open.Failed? ==> a == [] && err == open
    ensures open.NoError? ==> err == NoError && a == CursorDirents(PlaylistsEntries(top), true)
    ensures forall d :: d in a ==> d.kind == DtDir
  {
    if open.Failed? {
      return [], open;
    }
    a := CursorScan(PlaylistsEntries(top), true);
    CursorDirentsKinds(PlaylistsEntries(top), true);
    err := NoError;
  }

  /** What `ListPlaylists` promises over a well-formed store: exactly the
      playlists the store has, each once, in key order. */
  lemma ListedPlaylists(top: Bucket, n: string)
    requires WellFormed(top)
    ensures var ds := CursorDirents(PlaylistsEntries(top), true);
      && (Dirent(n, DtDir) in ds <==> PlaylistBucket(top, n).Some?)
      && NamesIncrease(ds)
  {
    var es := PlaylistsEntries(top);
    if Child(top, PlaylistsBucket).Some? {
      var i :| 0 <= i < |top.entries| && top.entries[i] == (PlaylistsBucket, Find(top.entries, PlaylistsBucket).value);
      assert top.entries[i] in top.entries;
    }
    CursorDirentsMembership(es, true, n);
    CursorDirentsInOrder(es, true);
  }

  // ----- ListPlaylistSongs -----

  /** The entries of a playlist's bucket, or none when it is absent. */
  function SongEntries(top: Bucket, playlist: string): seq<(string, Slot)>
  {
    match PlaylistBucket(top, playlist)
    case None => []
    case Some(b) => b.entries
  }

  /** The files of a directory listing, in listing order (sub-directories dropped). */
  function DiskDirents(l: seq<DiskEntry>): (ds: seq<Dirent>)
    ensures |ds| <= |l|
  {
    if l == [] then []
    else (if !l[0].isDir then [Dirent(l[0].name, DtFile)] else []) + DiskDirents(l[1..])
  }

  /** Every entry taken from a directory listing is a file. */
  lemma {:induction false} DiskDirentsKinds(l: seq<DiskEntry>)
    ensures forall d :: d in DiskDirents(l) ==> d.kind == DtFile
  {
    if l != [] {
      DiskDirentsKinds(l[1..]);
    }
  }

  /** A name is listed exactly when the listing has a regular file of that name. */
  lemma {:induction false} DiskDirentsMembership(l: seq<DiskEntry>, n: string)
    ensures Dirent(n, DtFile) in DiskDirents(l) <==> DiskEntry(n, false) in l
  {
    if l != [] {
      DiskDirentsMembership(l[1..], n);
      assert l == [l[0]] + l[1..];
    }
  }

  /** The directory listing, or nothing when the directory cannot be read. */
  function ListingOrEmpty(disk: Disk, path: string): seq<DiskEntry>
  {
    match ReadDir(disk, path)
    case None => []
    case Some(l) => l
  }

  /** `ListPlaylistSongs`: the playlist's records in key order, followed by
      the regular files of its drop directory, not de-duplicated. */
  method ListPlaylistSongs(open: Status, top: Bucket, playlist: string, mPoint: string, disk: Disk)
    returns (a: seq<Dirent>, err: Status)
    requires open.NoError? ==> |mPoint| > 0
    ensures open.Failed? ==> a == [] && err == open
    ensures open.NoError? ==> err == NoError
    ensures open.NoError? ==>
      a == CursorDirents(SongEntries(top, playlist), false)
         + DiskDirents(ListingOrEmpty(disk, PlaylistDir(mPoint, playlist)))
    ensures open.NoError? && ReadDir(disk, PlaylistDir(mPoint, playlist)).None? ==>
      a == CursorDirents(SongEntries(top, playlist), false)
    ensures open.NoError? ==>
      |a| == |CursorDirents(SongEntries(top, playlist), false)|
           + |DiskDirents(ListingOrEmpty(disk, PlaylistDir(mPoint, playlist)))|
    ensures forall d :: d in a ==> d.kind == DtFile
  {
    if open.Failed? {
      return [], open;
    }
    a := CursorScan(SongEntries(top, playlist), false);
    var files := ListingOrEmpty(disk, PlaylistDir(mPoint, playlist));
    var onDisk := DirectoryScan(files);
    CursorDirentsKinds(SongEntries(top, playlist), false);
    DiskDirentsKinds(files);
    a := a + onDisk;
    err := NoError;
  }

  /** A song both recorded in the store and present in the playlist's drop
      directory is listed twice: the listing does not de-duplicate. */
  lemma SongListedTwice(top: Bucket, playlist: string, l: seq<DiskEntry>, song: string)
    requires WellFormed(top)
    requires PlaylistBucket(top, playlist).Some?
    requires Get(PlaylistBucket(top, playlist).value, song).Some?
    requires DiskEntry(song, false) in l
    ensures multiset(CursorDirents(SongEntries(top, playlist), false) + DiskDirents(l))[Dirent(song, DtFile)] == 
            multiset(CursorDirents(SongEntries(top, playlist), false))[Dirent(song, DtFile)]
            + multiset(DiskDirents(l))[Dirent(song, DtFile)] >= 2
  {
    var root := Child(top, PlaylistsBucket).value;
    PlaylistBucketWellFormed(top, playlist);
    var es := SongEntries(top, playlist);
    CursorDirentsMembership(es, false, song);
    DiskDirentsMembership(l, song);
  }

  /** The buckets of a well-formed store are themselves well-formed. */
  lemma PlaylistBucketWellFormed(top: Bucket, playlist: string)
    requires WellFormed(top)
    ensures Child(top, PlaylistsBucket).Some? ==> WellFormed(Child(top, PlaylistsBucket).value)
    ensures PlaylistBucket(top, playlist).Some? ==> WellFormed(PlaylistBucket(top, playlist).value)
  {
    ChildWellFormed(top, PlaylistsBucket);
    if Child(top, PlaylistsBucket).Some? {
      ChildWellFormed(Child(top, PlaylistsBucket).value, playlist);
    }
  }

  lemma ChildWellFormed(b: Bucket, k: string)
    requires WellFormed(b)
    ensures Child(b, k).Some? ==> WellFormed(Child(b, k).value)
  {
    if Child(b, k).Some? {
      var i :| 0 <= i < |b.entries| && b.entries[i] == (k, Find(b.entries, k).value);
      assert b.entries[i] in b.entries;
    }
  }

  // ----- CreatePlaylist -----

  /** The read-write transaction of `CreatePlaylist`: make sure the
      Playlists bucket and the bucket of playlist `name` exist. The new
      top-level bucket, or the store error that aborts the transaction. */
  function CreatePlaylistTx(top: Bucket, name: string): (r: Result<Bucket>)
    requires WellFormed(top)
    ensures r.Ok? ==> WellFormed(r.value)
    ensures r.Ok? ==> PlaylistBucket(r.value, name).Some?
    ensures r.Err? <==>
      || name == ""
      || Get(top, PlaylistsBucket).Some?
      || (Child(top, PlaylistsBucket).Some? && Get(Child(top, PlaylistsBucket).value, name).Some?)
    ensures r.Err? ==>
      r.error == (if Get(top, PlaylistsBucket).Some? || name != "" then IncompatibleValue else BucketNameRequired)
  {
    match CreateBucketIfNotExists(top, PlaylistsBucket)
    case Err(e) => Err(e)
    case Ok((top1, root)) =>
      assert WellFormed(root) by { ChildWellFormed(top1, PlaylistsBucket); }
      match CreateBucketIfNotExists(root, name)
      case Err(e) => Err(e)
      case Ok((root1, _)) =>
        var top2 := Bucket(Insert(top1.entries, PlaylistsBucket, Nested(root1)));
        InsertWellFormed(top1, PlaylistsBucket, Nested(root1));
        InsertFind(top1.entries, PlaylistsBucket, Nested(root1), PlaylistsBucket);
        Ok(top2)
  }

  /** The transaction touches nothing but the Playlists bucket and, inside
      it, the bucket of `name`: a playlist that already existed keeps its
      songs, a new one is empty, every other key of Playlists keeps its
      slot, and a Playlists bucket made here holds the new playlist only. */
  lemma CreatePlaylistTxFrame(top: Bucket, name: string, k: string)
    requires WellFormed(top)
    requires CreatePlaylistTx(top, name).Ok?
    ensures var top' := CreatePlaylistTx(top, name).value;
      && (k != PlaylistsBucket ==> Find(top'.entries, k) == Find(top.entries, k))
      && (k != name ==> PlaylistBucket(top', k) == PlaylistBucket(top, k))
      && (PlaylistBucket(top, name).Some? ==> PlaylistBucket(top', name) == PlaylistBucket(top, name))
      && (PlaylistBucket(top, name).None? ==> PlaylistBucket(top', name) == Some(Bucket([])))
      && (Child(top, PlaylistsBucket).Some? && k != name ==>
            && Child(top', PlaylistsBucket).Some?
            && Find(Child(top', PlaylistsBucket).value.entries, k)
               == Find(Child(top, PlaylistsBucket).value.entries, k))
      && (Child(top, PlaylistsBucket).None? ==>
            Child(top', PlaylistsBucket) == Some(Bucket([(name, Nested(Bucket([])))])))
  {
    var s1 := CreateBucketIfNotExists(top, PlaylistsBucket);
    var (top1, root) := s1.value;
    assert WellFormed(root) by { ChildWellFormed(top1, PlaylistsBucket); }
    var (root1, _) := CreateBucketIfNotExists(root, name).value;
    var top' := CreatePlaylistTx(top, name).value;
    InsertFind(top1.entries, PlaylistsBucket, Nested(root1), k);
    InsertFind(top1.entries, PlaylistsBucket, Nested(root1), PlaylistsBucket);
    assert Child(top', PlaylistsBucket) == Some(root1);
  }

  /** Creating a playlist that was just created changes nothing and succeeds. */
  lemma CreatePlaylistTxIdempotent(top: Bucket, name: string)
    requires WellFormed(top)
    requires CreatePlaylistTx(top, name).Ok?
    ensures CreatePlaylistTx(CreatePlaylistTx(top, name).value, name) == CreatePlaylistTx(top, name)
  {
    var top' := CreatePlaylistTx(top, name).value;
    assert WellFormed(top');
    assert Child(top', PlaylistsBucket).Some?;
    var root' := Child(top', PlaylistsBucket).value;
    assert Find(top'.entries, PlaylistsBucket) == Some(Nested(root'));
    var s1 := CreateBucketIfNotExists(top', PlaylistsBucket);
    assert s1 == Ok((top', root'));
    assert WellFormed(root') by { ChildWellFormed(top', PlaylistsBucket); }
    var s2 := CreateBucketIfNotExists(root', name);
    assert Child(root', name).Some?;
    assert s2.Ok? && s2.value.0 == root';
    InsertPresent(top'.entries, PlaylistsBucket, Nested(root'));
    assert Bucket(Insert(top'.entries, PlaylistsBucket, Nested(root'))) == top';
  }

  /** The metadata store file, whose contents persist between calls. */
  class Database {
    var top: Bucket

    ghost predicate Valid()
      reads this
    {
      WellFormed(top)
    }

    constructor (top: Bucket)
      requires WellFormed(top)
      ensures Valid() && this.top == top
    {
      this.top := top;
    }

    /** `CreatePlaylist`: normalise the name, create its bucket if absent,
        and on success ask for the playlist file to be regenerated.
        `compatible` is the name normalisation; `commit` is the outcome of
        writing the transaction to the file; `regeneration` is the call
        made to the playlist-file regenerator (its arguments), if any. */
    method CreatePlaylist(name: string, mPoint: string, compatible: string -> string, open: Status, commit: Status)
      returns (r: string, err: Status, regeneration: Option<(string, string)>)
      requires Valid()
      modifies this
      ensures Valid()
      ensures open.Failed? ==> r == "" && err == open && regeneration.None? && top == old(top)
      ensures open.NoError? && CreatePlaylistTx(old(top), compatible(name)).Err? ==>
        && r == "" && err == Failed(CreatePlaylistTx(old(top), compatible(name)).error)
        && regeneration.None? && top == old(top)
      ensures open.NoError? && CreatePlaylistTx(old(top), compatible(name)).Ok? && commit.Failed? ==>
        r == "" && err == commit && regeneration.None? && top == old(top)
      ensures open.NoError? && CreatePlaylistTx(old(top), compatible(name)).Ok? && commit.NoError? ==>
        && r == compatible(name) && err == NoError
        && top == CreatePlaylistTx(old(top), compatible(name)).value
        && regeneration == Some((compatible(name), mPoint))
    {
      var n := compatible(name);
      if open.Failed? {
        return "", open, None;
      }
      var tx := CreatePlaylistTx(top, n);
      if tx.Err? {
        return "", Failed(tx.error), None;
      }
      if commit.Failed? {
        return "", commit, None;
      }
      top := tx.value;
      regeneration := Some((n, mPoint));
      r, err := n, NoError;
    }
  }
}
