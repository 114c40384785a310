/** The filesystem node of a file (a song, a directory's `.description`, or
    a special sidecar file) and the handle an open of it yields.

    A node's identity (artist, album, song, name, mount point) never changes;
    its writer count and in-memory buffer do, so the node is a class. Calls
    into code outside this model (the metadata store's lookups, the drop
    handler, the tag rewriter and the operating system's file calls) are the
    fields of an `Env`, each given as the result it produces; the calls that
    `Release` makes are reported, in order, as a list of `Call`s. */
module FuseFile {
  import opened Common
  import opened Paths

  /** The largest value of Go's `uint` on the 64-bit platforms the program targets. */
  const UintMax: nat := 0xFFFF_FFFF_FFFF_FFFF

  /** Mode bits `Attr` reports: octal 0444, 0666 and 0777. */
  const ModeDescription: nat := 292
  const ModeSpecial: nat := 438
  const ModeSong: nat := 511

  const DescriptionName := ".description"

  /** An open file of the real tree, known by its name. */
  datatype Descriptor = Descriptor(name: string)

  datatype Attributes = Attributes(size: nat, mode: nat)

  /** How a read of a real file ended: filled, at end of file, or failed. */
  datatype ReadEnd = Complete | EndOfFile | ReadFailed(error: Error)

  datatype ReadResult = ReadResult(data: seq<byte>, end: ReadEnd)

  /** Bytes written and the error, as `Write` returns them. */
  datatype WriteResult = WriteResult(size: nat, status: Status)

  /** The collaborators of the node layer. */
  datatype Env = Env(
    filePath: (string, string, string) -> Result<string>,       // store.GetFilePath(artist, album, name)
    description: (string, string, string) -> Result<seq<byte>>,  // store.GetDescription(artist, album, name)
    specialFile: (string, string, string) -> Result<seq<byte>>,  // store.GetSpecialFile(artist, album, name)
    artistPath: string -> Result<string>,                        // store.GetArtistPath(artist)
    albumPath: (string, string) -> Result<string>,               // store.GetAlbumPath(artist, album)
    open: string -> Result<Descriptor>,                          // os.Open(path)
    stat: Descriptor -> Result<nat>,                             // the size that Stat reports
    read: (Descriptor, nat) -> ReadResult,                       // Read into a buffer of the given size
    write: (Descriptor, seq<byte>) -> WriteResult,               // Write
    close: Descriptor -> Status,                                 // Close
    handleDrop: string -> Status                                 // store.HandleDrop(path)
  )

  /** A read honours the size of the buffer it is given, as Go's io.Reader promises. */
  ghost predicate ReaderBounded(env: Env)
  {
    forall d, n :: |env.read(d, n).data| <= n
  }

  /** An external call made while a handle is released. */
  datatype Call =
    | Close(d: Descriptor)
    | HandleDrop(path: string)
    | GetFilePath(artist: string, album: string, name: string)
    | SetMp3Tags(artist: string, album: string, song: string, path: string)

  /** What `Attr` and `Open` take a node for, from its name. */
  datatype NodeKind = Description | DotFile | Song

  function KindOf(name: string): (k: NodeKind)
    requires |name| > 0
    ensures k == Description <==> name == DescriptionName
    ensures k == Song <==> name[0] != '.'
  {
    if name == DescriptionName then Description
    else if name[0] == '.' then DotFile
    else Song
  }

  /** The mode `Attr` reports for each kind of node. */
  function ModeOf(k: NodeKind): nat
  {
    match k
    case Description => ModeDescription
    case DotFile => ModeSpecial
    case Song => ModeSong
  }

  /** A special file some operating systems create beside real ones: a
      name of two or more characters starting with "._", or ".DS_Store".
      `Release` keeps a writer count for these only; `Attr` treats every
      dotfile but `.description` alike, sidecars among them. */
  predicate IsSidecar(name: string): (b: bool)
    ensures b ==> |name| > 0 && KindOf(name) == DotFile
  {
    |name| > 1 && name[0] == '.' && (name[1] == '_' || name == ".DS_Store")
  }

  /** What `Release` does after closing a real descriptor, by the node's context. */
  datatype ReleaseRoute = DropArea | NoContext | Track

  function RouteOf(artist: string, album: string): (route: ReleaseRoute)
    ensures route == DropArea <==> artist == "drop"
    ensures route == NoContext <==> artist != "drop" && (artist == "" || album == "")
  {
    if artist == "drop" then DropArea
    else if |artist| < 1 || |album| < 1 then NoContext
    else Track
  }

  /** Where a file dropped into the drop area lives in the real tree. */
  function DropPath(mPoint: string, name: string): string
    requires |mPoint| > 0
  {
    WithTrailingSlash(mPoint) + "drop/" + name
  }

  /** One writer of a special file lets go: the count goes down by one
      (wrapping round like Go's `uint` if it was already 0), and the buffer
      is dropped when the count reaches 0. */
  function ReleaseWriter(writers: nat, data: seq<byte>): (s: (nat, seq<byte>))
    requires writers <= UintMax
    ensures s.0 <= UintMax
    ensures writers > 0 ==> s.0 == writers - 1
    ensures writers == 0 ==> s.0 == UintMax
    ensures s.1 == if s.0 == 0 then [] else data
  {
    var w := if writers == 0 then UintMax else writers - 1;
    (w, if w == 0 then [] else data)
  }

  /** The writer count and buffer after `k` writers let go, one by one. */
  function ReleaseWriters(writers: nat, data: seq<byte>, k: nat): (nat, seq<byte>)
    requires writers <= UintMax
    decreases k
  {
    if k == 0 then (writers, data)
    else
      var (w, d) := ReleaseWriter(writers, data);
      ReleaseWriters(w, d, k - 1)
  }

  /** With `n` writers, the buffer survives until the last one lets go, and
      is gone once all `n` have. */
  lemma {:induction false} ReleasingWriters(n: nat, data: seq<byte>, k: nat)
    requires 0 < n <= UintMax && k <= n
    ensures ReleaseWriters(n, data, k) == (n - k, if k == n then [] else data)
    decreases k
  {
    if k > 0 {
      var s := ReleaseWriter(n, data);
      assert s.0 == n - 1;
      assert ReleaseWriters(n, data, k) == ReleaseWriters(s.0, s.1, k - 1);
      if k == 1 {
        assert ReleaseWriters(s.0, s.1, 0) == s;
      } else {
        ReleasingWriters(s.0, s.1, k - 1);
      }
    }
  }

  class File {
    const artist: string
    const album: string
    const song: string
    const name: string
    const mPoint: string

    /** Writers of a special file, and the content they have buffered. */
    var writers: nat
    var data: seq<byte>

    /** A node always has a name; the count fits a `uint`. */
    ghost predicate Valid()
      reads this
    {
      |name| > 0 && writers <= UintMax
    }

    constructor (artist: string, album: string, song: string, name: string, mPoint: string,
                 writers: nat, data: seq<byte>)
      requires |name| > 0 && writers <= UintMax
      ensures Valid()
      ensures this.artist == artist && this.album == album && this.song == song
      ensures this.name == name && this.mPoint == mPoint
      ensures this.writers == writers && this.data == data
    {
      this.artist := artist;
      this.album := album;
      this.song := song;
      this.name := name;
      this.mPoint := mPoint;
      this.writers := writers;
      this.data := data;
    }

    /** `Attr`: a description is read-only and as long as the description;
        a special file being written is as long as its buffer; one nobody
        writes is as long as the copy in the store; a song is the real file. */
    function Attr(env: Env): (r: Result<Attributes>)
      reads this
      requires Valid()
      ensures r.Ok? ==> r.value.mode == ModeOf(KindOf(name))
      ensures KindOf(name) == Description ==>
        r == (match env.description(artist, album, name)
              case Ok(desc) => Ok(Attributes(|desc|, ModeDescription))
              case Err(e) => Err(e))
      ensures KindOf(name) == DotFile && writers > 0 ==> r == Ok(Attributes(|data|, ModeSpecial))
      ensures KindOf(name) == DotFile && writers == 0 ==>
        (r.Ok? <==> env.specialFile(artist, album, name).Ok?) &&
        (r.Ok? ==> r.value.size == |env.specialFile(artist, album, name).value|) &&
        (r.Err? ==> r.error == env.specialFile(artist, album, name).error)
      ensures KindOf(name) == Song && r.Ok? ==>
        && env.filePath(artist, album, name).Ok?
        && env.open(env.filePath(artist, album, name).value).Ok?
        && env.stat(env.open(env.filePath(artist, album, name).value).value) == Ok(r.value.size)
      ensures KindOf(name) == Song && env.filePath(artist, album, name).Err? ==>
        r == Err(env.filePath(artist, album, name).error)
      ensures KindOf(name) == Song && env.filePath(artist, album, name).Ok? ==>
        (var fd := env.open(env.filePath(artist, album, name).value);
         && (fd.Err? ==> r == Err(fd.error))
         && (fd.Ok? && env.stat(fd.value).Err? ==> r == Err(env.stat(fd.value).error))
         && (fd.Ok? && env.stat(fd.value).Ok? ==> r == Ok(Attributes(env.stat(fd.value).value, ModeSong))))
    {
      if name[0] == '.' then
        if name == DescriptionName then
          match env.description(artist, album, name)
          case Err(e) => Err(e)
          case Ok(desc) => Ok(Attributes(|desc|, ModeDescription))
        else if writers == 0 then
          match env.specialFile(artist, album, name)
          case Err(e) => Err(e)
          case Ok(b) => Ok(Attributes(|b|, ModeSpecial))
        else Ok(Attributes(|data|, ModeSpecial))
      else
        match env.filePath(artist, album, name)
        case Err(e) => Err(e)
        case Ok(songPath) =>
          match env.open(songPath)
          case Err(e) => Err(e)
          case Ok(d) =>
            match env.stat(d)
            case Err(e) => Err(e)
            case Ok(size) => Ok(Attributes(size, ModeSong))
    }

    /** What `Open` decides: no descriptor for `.description`, EPERM for any
        other dotfile (both before any lookup), otherwise the real file
        opened at the path the store gives. */
    function OpenDescriptor(env: Env): (r: Result<Option<Descriptor>>)
      requires |name| > 0
      ensures r == Ok(None) <==> name == DescriptionName
      ensures KindOf(name) == DotFile <==> r == Err(EPERM) && name[0] == '.'
      ensures r.Ok? && r.value.Some? ==>
        && KindOf(name) == Song
        && env.filePath(artist, album, name).Ok?
        && env.open(env.filePath(artist, album, name).value) == Ok(r.value.value)
      ensures KindOf(name) == Song && r.Err? ==>
        env.filePath(artist, album, name).Err? || env.open(env.filePath(artist, album, name).value).Err?
      ensures KindOf(name) == Song && env.filePath(artist, album, name).Err? ==>
        r == Err(env.filePath(artist, album, name).error)
      ensures KindOf(name) == Song && env.filePath(artist, album, name).Ok? &&
              env.open(env.filePath(artist, album, name).value).Err? ==>
        r == Err(env.open(env.filePath(artist, album, name).value).error)
    {
      if name == DescriptionName then Ok(None)
      else if name[0] == '.' then Err(EPERM)
      else
        match env.filePath(artist, album, name)
        case Err(e) => Err(e)
        case Ok(songPath) =>
          match env.open(songPath)
          case Err(e) => Err(e)
          case Ok(d) => Ok(Some(d))
    }

    /** `Open`: a fresh handle on this node, or the error. */
    method Open(env: Env) returns (h: FileHandle?, err: Status)
      requires Valid()
      ensures h == null <==> OpenDescriptor(env).Err?
      ensures h == null ==> err == Failed(OpenDescriptor(env).error)
      ensures h != null ==> fresh(h) && h.f == this && Ok(h.r) == OpenDescriptor(env) && err == NoError
    {
      if name == DescriptionName {
        h := new FileHandle(None, this);
        return h, NoError;
      }
      if name[0] == '.' {
        return null, Failed(EPERM);
      }
      var songPath := env.filePath(artist, album, name);
      if songPath.Err? {
        return null, Failed(songPath.error);
      }
      var d := env.open(songPath.value);
      if d.Err? {
        return null, Failed(d.error);
      }
      h := new FileHandle(Some(d.value), this);
      err := NoError;
    }

    /** `Setattr`: accepted, and nothing changes (no truncation is done). */
    method Setattr(size: Option<nat>) returns (err: Status)
      ensures err == NoError
    {
      err := NoError;
    }
  }

  class FileHandle {
    /** The open real file, or none for a description or special file. */
    const r: Option<Descriptor>
    const f: File

    constructor (r: Option<Descriptor>, f: File)
      ensures this.r == r && this.f == f
    {
      this.r := r;
      this.f := f;
    }

    /** The bytes of a description, after checking its artist and album exist. */
    function DescriptionBytes(env: Env): (res: Result<seq<byte>>)
      ensures f.artist == "" ==> res == Err(ENOENT)
      ensures res.Ok? ==>
        && env.artistPath(f.artist).Ok?
        && env.description(f.artist, f.album, f.name) == res
      ensures f.artist != "" && env.artistPath(f.artist).Err? ==> res == Err(env.artistPath(f.artist).error)
      ensures f.artist != "" && env.artistPath(f.artist).Ok? && Utf8Len(f.album) > 1 && env.albumPath(f.artist, f.album).Err? ==>
        res == Err(env.albumPath(f.artist, f.album).error)
      ensures f.artist != "" && env.artistPath(f.artist).Ok? &&
              (Utf8Len(f.album) <= 1 || env.albumPath(f.artist, f.album).Ok?) ==>
        res == env.description(f.artist, f.album, f.name)
    {
      if |f.artist| < 1 then Err(ENOENT)
      else
        match env.artistPath(f.artist)
        case Err(e) => Err(e)
        case Ok(_) =>
          if Utf8Len(f.album) > 1 && env.albumPath(f.artist, f.album).Err? then
            Err(env.albumPath(f.artist, f.album).error)
          else env.description(f.artist, f.album, f.name)
    }

    /** `Read`: the whole description in one go, EIO for any other handle
        without a descriptor, or at most `size` bytes of the real file, the
        end of the file being no error. */
    function Read(size: nat, env: Env): (res: Result<seq<byte>>)
      ensures r.None? && f.name != DescriptionName ==> res == Err(EIO)
      ensures r.None? && f.name == DescriptionName ==> res == DescriptionBytes(env)
      ensures r.Some? ==> (res.Err? <==> env.read(r.value, size).end.ReadFailed?)
      ensures r.Some? && res.Ok? ==> res.value == env.read(r.value, size).data
      ensures r.Some? && res.Err? ==> res.error == env.read(r.value, size).end.error
      ensures r.Some? && res.Ok? && ReaderBounded(env) ==> |res.value| <= size
    {
      match r
      case None =>
        if f.name == DescriptionName then DescriptionBytes(env) else Err(EIO)
      case Some(d) =>
        var got := env.read(d, size);
        if got.end.ReadFailed? then Err(got.end.error) else Ok(got.data)
    }

    /** `Write`: EPERM on a description, EIO on any other handle without a
        descriptor, otherwise what the real write reports. */
    function Write(data: seq<byte>, env: Env): (res: WriteResult)
      ensures r.None? ==> res.size == 0 && res.status.Failed?
      ensures r.None? ==> (res.status.error == EPERM <==> f.name == DescriptionName)
      ensures r.None? && f.name != DescriptionName ==> res.status == Failed(EIO)
      ensures r.Some? ==> res == env.write(r.value, data)
    {
      match r
      case None => WriteResult(0, Failed(if f.name == DescriptionName then EPERM else EIO))
      case Some(d) => env.write(d, data)
    }

    /** `Flush`: EIO without a descriptor, `.description` included; with one,
        the file is synced and success reported whatever the sync says. */
    function Flush(): (st: Status)
      ensures st.Failed? <==> r.None?
      ensures st.Failed? ==> st.error == EIO
    {
      if r.None? then Failed(EIO) else NoError
    }

    /** What releasing a handle with a real descriptor does: the descriptor
        is closed first and once; then a drop-area file is handed to the
        drop handler (whose error wins over the close result), a node
        without artist or album stops there, and a song has its path looked
        up and, unless it is a playlist entry, its tags rewritten when its
        name ends in ".mp3". */
    ghost predicate DescriptorReleased(env: Env, err: Status, calls: seq<Call>)
      requires r.Some? && (f.artist == "drop" ==> |f.mPoint| > 0)
    {
      var d := r.value;
      && |calls| >= 1 && calls[0] == Close(d)
      && (forall i :: 1 <= i < |calls| ==> !calls[i].Close?)
      && match RouteOf(f.artist, f.album)
         case DropArea =>
           var path := DropPath(f.mPoint, f.name);
           && calls == [Close(d), HandleDrop(path)]
           && err == (if env.handleDrop(path).Failed? then env.handleDrop(path) else env.close(d))
         case NoContext =>
           calls == [Close(d)] && err == env.close(d)
         case Track =>
           var lookup := env.filePath(f.artist, f.album, f.name);
           && (lookup.Err? ==>
                 err == Failed(lookup.error) && calls == [Close(d), GetFilePath(f.artist, f.album, f.name)])
           && (lookup.Ok? ==>
                 && err == env.close(d)
                 && calls == [Close(d), GetFilePath(f.artist, f.album, f.name)] +
                      (if f.artist != "playlist" && HasSuffix(f.name, ".mp3")
                       then [SetMp3Tags(f.artist, f.album, f.song, lookup.value)] else []))
    }

    /** The part of `Release` for a handle with a real descriptor. */
    method ReleaseDescriptor(env: Env) returns (err: Status, calls: seq<Call>)
      requires r.Some? && (f.artist == "drop" ==> |f.mPoint| > 0)
      ensures DescriptorReleased(env, err, calls)
    {
      var d := r.value;
      if f.artist == "drop" {
        var closed := env.close(d);
        calls := [Close(d)];
        var path := DropPath(f.mPoint, f.name);
        var dropped := env.handleDrop(path);
        calls := calls + [HandleDrop(path)];
        if dropped.Failed? {
          return dropped, calls;
        }
        return closed, calls;
      }
      if |f.artist| < 1 || |f.album| < 1 {
        err := env.close(d);
        return err, [Close(d)];
      }
      var closed := env.close(d);
      calls := [Close(d)];
      var extension := Ext(f.name);
      var songPath := env.filePath(f.artist, f.album, f.name);
      calls := calls + [GetFilePath(f.artist, f.album, f.name)];
      if songPath.Err? {
        return Failed(songPath.error), calls;
      }
      if f.artist == "playlist" {
        return closed, calls;
      }
      ExtIsMp3(f.name);
      if extension == ".mp3" {
        calls := calls + [SetMp3Tags(f.artist, f.album, f.song, songPath.value)];
      }
      return closed, calls;
    }

    /** `Release`. Without a descriptor nothing is called and nil is
        returned; a sidecar opened for writing loses one writer, and its
        buffer is dropped with the last one. Every other handle without a
        descriptor leaves the node as it was. */
    method Release(readOnly: bool, env: Env) returns (err: Status, calls: seq<Call>)
      requires f.Valid()
      requires r.Some? && f.artist == "drop" ==> |f.mPoint| > 0
      modifies f
      ensures f.Valid()
      ensures r.None? ==> err == NoError && calls == []
      ensures r.Some? ==> DescriptorReleased(env, err, calls)
      ensures r.None? && IsSidecar(f.name) && !readOnly ==>
        (f.writers, f.data) == ReleaseWriter(old(f.writers), old(f.data))
      ensures r.Some? || !IsSidecar(f.name) || readOnly ==>
        f.writers == old(f.writers) && f.data == old(f.data)
    {
      if r.None? {
        if f.name == DescriptionName {
          return NoError, [];
        }
        if |f.name| > 1 && f.name[0] == '.' && (f.name[1] == '_' || f.name == ".DS_Store") {
          if readOnly {
            return NoError, [];
          }
          f.writers := if f.writers == 0 then UintMax else f.writers - 1;
          if f.writers == 0 {
            f.data := [];
          }
          return NoError, [];
        }
        return NoError, [];
      }
      err, calls := ReleaseDescriptor(env);
    }
  }

  /** The album check before reading a description only runs for album
      names longer than one byte: for an empty album or a one-byte (ASCII)
      one, whether the album exists does not change the result. */
  lemma ShortAlbumNotChecked(h: FileHandle, env: Env, albumPath: (string, string) -> Result<string>)
    requires Utf8Len(h.f.album) <= 1
    ensures h.DescriptionBytes(env.(albumPath := albumPath)) == h.DescriptionBytes(env)
  {
  }

  /** The album test counts bytes, not characters: a one-character album
      outside ASCII is looked up, and its lookup error is returned. */
  lemma WideAlbumChecked(h: FileHandle, env: Env)
    requires h.f.artist != "" && env.artistPath(h.f.artist).Ok?
    requires |h.f.album| == 1 && (h.f.album[0] as int) >= 0x80
    requires env.albumPath(h.f.artist, h.f.album).Err?
    ensures h.DescriptionBytes(env) == Err(env.albumPath(h.f.artist, h.f.album).error)
  {
  }

  /** Two writers share a sidecar node: after the first lets go the count is
      one and the buffer intact; after the second, zero and no buffer. */
  method TwoWritersRelease(env: Env, buffered: seq<byte>)
    returns (afterFirst: nat, dataAfterFirst: seq<byte>, afterSecond: nat, dataAfterSecond: seq<byte>)
    ensures afterFirst == 1 && dataAfterFirst == buffered
    ensures afterSecond == 0 && dataAfterSecond == []
  {
    var node := new File("", "", "", ".DS_Store", "/", 2, buffered);
    var first := new FileHandle(None, node);
    var second := new FileHandle(None, node);
    var _, _ := first.Release(false, env);
    afterFirst, dataAfterFirst := node.writers, node.data;
    var _, _ := second.Release(false, env);
    afterSecond, dataAfterSecond := node.writers, node.data;
  }
}
