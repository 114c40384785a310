/** Shared vocabulary of the model: bytes, the errors the modelled code
    reports, and Go's "error or nil" convention. */
module Common {

  newtype byte = x: int | 0 <= x < 256

  /** Every error value the modelled code returns or passes through. */
  datatype Error =
    | NoPlaylists          // "No playlists."
    | PlaylistNotExists    // "Playlist not exists."
    | SongNotFound         // "Song not found."
    | CannotOpenSong       // "Cannot open song."
    | FileNotExists        // "File not exists."
    | BucketNameRequired   // the store refuses an empty bucket name
    | IncompatibleValue    // the store key holds a value, not a bucket
    | EPERM
    | EIO
    | ENOENT
    | External(code: nat)  // an error made by a collaborator outside the model

  /** A Go `error` result: nil, or an error value. */
  datatype Status = NoError | Failed(error: Error)

  datatype Result<T> = Ok(value: T) | Err(error: Error)

  datatype Option<T> = None | Some(value: T)

  /** The number of bytes of `c` in UTF-8, the encoding Go strings hold. */
  function Utf8Width(c: char): (w: nat)
    ensures 1 <= w <= 4
    ensures w == 1 <==> (c as int) < 0x80
  {
    if (c as int) < 0x80 then 1
    else if (c as int) < 0x800 then 2
    else if (c as int) < 0x1_0000 then 3
    else 4
  }

  /** Go's `len` of a string: its length in UTF-8 bytes. */
  function Utf8Len(s: string): (n: nat)
    ensures |s| <= n <= 4 * |s|
    ensures n == |s| <==> forall i :: 0 <= i < |s| ==> (s[i] as int) < 0x80
  {
    if s == [] then 0 else Utf8Width(s[0]) + Utf8Len(s[1..])
  }

  predicate HasSuffix(s: string, suffix: string)
  {
    |suffix| <= |s| && s[|s| - |suffix|..] == suffix
  }
}
