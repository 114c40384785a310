/** The embedded key-value store, as the core sees it: nested buckets whose
    keys a cursor visits in byte order. A bucket is kept as the sequence of
    its entries in cursor order; a key whose slot is `Nested` is a
    sub-bucket (the cursor reports a nil value for it), a `Leaf` holds a
    stored record. */
module Bolt {
  import opened Common

  datatype Slot = Leaf(bytes: seq<byte>) | Nested(bucket: Bucket)

  datatype Bucket = Bucket(entries: seq<(string, Slot)>)

  /** The order a cursor visits keys in: lexicographic, shorter prefix first. */
  predicate Less(a: string, b: string)
  {
    if |a| == 0 then |b| > 0
    else if |b| == 0 then false
    else if a[0] != b[0] then a[0] < b[0]
    else Less(a[1..], b[1..])
  }

  lemma {:induction false} LessIrreflexive(a: string)
    ensures !Less(a, a)
  {
    if |a| > 0 {
      LessIrreflexive(a[1..]);
    }
  }

  lemma {:induction false} LessAsymmetric(a: string, b: string)
    requires Less(a, b)
    ensures !Less(b, a)
  {
    if |a| > 0 && |b| > 0 && a[0] == b[0] {
      LessAsymmetric(a[1..], b[1..]);
    }
  }

  lemma {:induction false} LessTransitive(a: string, b: string, c: string)
    requires Less(a, b) && Less(b, c)
    ensures Less(a, c)
  {
    if |a| > 0 && |b| > 0 && |c| > 0 && a[0] == b[0] && b[0] == c[0] {
      LessTransitive(a[1..], b[1..], c[1..]);
    }
  }

  lemma {:induction false} LessTotal(a: string, b: string)
    ensures a == b || Less(a, b) || Less(b, a)
  {
    if |a| > 0 && |b| > 0 && a[0] == b[0] {
      LessTotal(a[1..], b[1..]);
      if a[1..] == b[1..] {
        assert a == [a[0]] + a[1..] && b == [b[0]] + b[1..];
      }
    }
  }

  /** Keys strictly increase along the entries: each key occurs once. */
  predicate Sorted(es: seq<(string, Slot)>)
  {
    forall i, j :: 0 <= i < j < |es| ==> Less(es[i].0, es[j].0)
  }

  /** Every bucket, at every depth, has its keys in cursor order and no empty key. */
  predicate WellFormed(b: Bucket)
    decreases b
  {
    && Sorted(b.entries)
    && (forall e :: e in b.entries ==> e.0 != "")
    && forall e :: e in b.entries && e.1.Nested? ==> WellFormed(e.1.bucket)
  }

  /** What the store holds under key `k`: the first entry with that key. */
  function Find(es: seq<(string, Slot)>, k: string): (r: Option<Slot>)
    ensures r.Some? ==> exists i :: 0 <= i < |es| && es[i] == (k, r.value)
    ensures r.None? ==> forall i :: 0 <= i < |es| ==> es[i].0 != k
  {
    if es == [] then None
    else if es[0].0 == k then Some(es[0].1)
    else Find(es[1..], k)
  }

  /** The sub-bucket under `k`, as `Bucket.Bucket(k)` gives it (absent for a leaf). */
  function Child(b: Bucket, k: string): Option<Bucket>
  {
    match Find(b.entries, k)
    case Some(Nested(c)) => Some(c)
    case _ => None
  }

  /** The record under `k`, as `Bucket.Get(k)` gives it (absent for a sub-bucket). */
  function Get(b: Bucket, k: string): Option<seq<byte>>
  {
    match Find(b.entries, k)
    case Some(Leaf(v)) => Some(v)
    case _ => None
  }

  /** Store `v` under `k` at its cursor position, replacing an existing entry. */
  function Insert(es: seq<(string, Slot)>, k: string, v: Slot): (r: seq<(string, Slot)>)
  {
    if es == [] then [(k, v)]
    else if es[0].0 == k then [(k, v)] + es[1..]
    else if Less(k, es[0].0) then [(k, v)] + es
    else [es[0]] + Insert(es[1..], k, v)
  }

  lemma {:induction false} InsertFind(es: seq<(string, Slot)>, k: string, v: Slot, k': string)
    requires Sorted(es)
    ensures Find(Insert(es, k, v), k') == if k' == k then Some(v) else Find(es, k')
  {
    if es == [] || es[0].0 == k {
    } else if Less(k, es[0].0) {
    } else {
      InsertFind(es[1..], k, v, k');
    }
  }

  lemma {:induction false} InsertSorted(es: seq<(string, Slot)>, k: string, v: Slot)
    requires Sorted(es)
    ensures Sorted(Insert(es, k, v))
  {
    var r := Insert(es, k, v);
    if es == [] {
    } else if es[0].0 == k {
    } else if Less(k, es[0].0) {
      forall i, j | 0 <= i < j < |r| ensures Less(r[i].0, r[j].0) {
        if i == 0 && j > 1 { LessTransitive(k, es[0].0, es[j - 1].0); }
      }
    } else {
      var h := es[0].0;
      LessTotal(k, h);
      InsertSorted(es[1..], k, v);
      InsertEntries(es[1..], k, v);
      var t := Insert(es[1..], k, v);
      assert r == [es[0]] + t;
      forall j | 0 <= j < |t| ensures Less(h, t[j].0) {
        assert t[j] in t;
        if t[j] != (k, v) {
          var i :| 0 <= i < |es[1..]| && es[1..][i] == t[j];
          assert es[i + 1] == t[j];
        }
      }
      forall i, j | 0 <= i < j < |r| ensures Less(r[i].0, r[j].0) {
        if i == 0 { assert r[j] == t[j - 1]; } else { assert r[i] == t[i - 1] && r[j] == t[j - 1]; }
      }
    }
  }

  /** Each entry after an insertion is either the new one or an old one. */
  lemma {:induction false} InsertEntries(es: seq<(string, Slot)>, k: string, v: Slot)
    ensures forall e :: e in Insert(es, k, v) ==> e in es || e == (k, v)
  {
    if es != [] && es[0].0 != k && !Less(k, es[0].0) {
      InsertEntries(es[1..], k, v);
    }
  }

  /** The entries after the first of a sorted sequence are sorted, and all
      come after the first. */
  lemma SortedTail(es: seq<(string, Slot)>)
    requires Sorted(es) && es != []
    ensures Sorted(es[1..])
    ensures forall i :: 1 <= i < |es| ==> Less(es[0].0, es[i].0)
  {
    forall i, j | 0 <= i < j < |es[1..]| ensures Less(es[1..][i].0, es[1..][j].0) {
      assert es[1..][i] == es[i + 1] && es[1..][j] == es[j + 1];
    }
  }

  /** Writing back the slot a key already holds changes nothing. */
  lemma {:induction false} InsertPresent(es: seq<(string, Slot)>, k: string, v: Slot)
    requires Sorted(es) && Find(es, k) == Some(v)
    ensures Insert(es, k, v) == es
  {
    if es[0].0 != k {
      SortedTail(es);
      assert Find(es[1..], k) == Some(v);
      var i :| 0 <= i < |es[1..]| && es[1..][i] == (k, v);
      assert es[i + 1].0 == k;
      LessAsymmetric(es[0].0, k);
      InsertPresent(es[1..], k, v);
    }
  }

  lemma InsertWellFormed(b: Bucket, k: string, v: Slot)
    requires WellFormed(b) && k != ""
    requires v.Nested? ==> WellFormed(v.bucket)
    ensures WellFormed(Bucket(Insert(b.entries, k, v)))
  {
    InsertSorted(b.entries, k, v);
    InsertEntries(b.entries, k, v);
  }

  /** `CreateBucketIfNotExists(k)`: the updated parent and the bucket now
      under `k`. An empty name, or a key that holds a record, is refused. */
  function CreateBucketIfNotExists(b: Bucket, k: string): (r: Result<(Bucket, Bucket)>)
    requires Sorted(b.entries)
    ensures r.Err? <==> k == "" || Get(b, k).Some?
    ensures r.Err? ==> r.error == (if k == "" then BucketNameRequired else IncompatibleValue)
    ensures r.Ok? ==> Child(r.value.0, k) == Some(r.value.1)
    ensures r.Ok? ==> forall k' :: k' != k ==> Find(r.value.0.entries, k') == Find(b.entries, k')
    ensures r.Ok? && Child(b, k).Some? ==> r.value == (b, Child(b, k).value)
    ensures r.Ok? && Child(b, k).None? ==> r.value.1 == Bucket([])
    ensures r.Ok? && WellFormed(b) ==> WellFormed(r.value.0)
  {
    if k == "" then Err(BucketNameRequired)
    else
      match Find(b.entries, k)
      case Some(Nested(c)) => Ok((b, c))
      case Some(Leaf(_)) => Err(IncompatibleValue)
      case None =>
        var empty := Bucket([]);
        var es := Insert(b.entries, k, Nested(empty));
        assert Find(es, k) == Some(Nested(empty)) by { InsertFind(b.entries, k, Nested(empty), k); }
        assert forall k' :: k' != k ==> Find(es, k') == Find(b.entries, k') by {
          forall k' | k' != k ensures Find(es, k') == Find(b.entries, k') {
            InsertFind(b.entries, k, Nested(empty), k');
          }
        }
        assert WellFormed(b) ==> WellFormed(Bucket(es)) by {
          if WellFormed(b) { InsertWellFormed(b, k, Nested(empty)); }
        }
        Ok((Bucket(es), empty))
  }
}
