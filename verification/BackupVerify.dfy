/**
 * Verifying a backup set against its manifest in both directions, and the restore that copies it
 * with a second, unverified read. A store is a map from keys to bytes; the hash is any function.
 */
module BackupVerify {
  import opened Basics
  import opened ManifestText
  import BodyReader

  type Byte = BodyReader.Byte
  type Bytes = seq<Byte>
  type Hash = Bytes -> string

  const MANIFEST_KEY := "manifest"

  datatype Failure = Missing(key: string) | Checksum(key: string) | Unlisted(key: string) | Unreadable | BadManifest(e: Error)

  datatype Report = Report(id: string, objects: nat, bytes: nat)

  datatype Verdict = Verified(report: Report) | Refused(failure: Failure)

  // ---- verify ---------------------------------------------------------------------

  /** The first listed object that is absent or does not hash as recorded. */
  function CheckObjects(store: map<string, Bytes>, hash: Hash, os: seq<ObjectRecord>): Option<Failure> {
    if os == [] then None
    else if os[0].key !in store then Some(Missing(os[0].key))
    else if hash(store[os[0].key]) != os[0].sha then Some(Checksum(os[0].key))
    else CheckObjects(store, hash, os[1..])
  }

  predicate Lists(os: seq<ObjectRecord>, key: string) { exists i :: 0 <= i < |os| && os[i].key == key }

  /** The first stored key that is neither listed nor the manifest's own. */
  function CheckKeys(keys: seq<string>, os: seq<ObjectRecord>): Option<Failure> {
    if keys == [] then None
    else if keys[0] != MANIFEST_KEY && !Lists(os, keys[0]) then Some(Unlisted(keys[0]))
    else CheckKeys(keys[1..], os)
  }

  function RecordedBytes(os: seq<ObjectRecord>): nat { if os == [] then 0 else os[0].bytes + RecordedBytes(os[1..]) }

  /** Verification of a store whose listing is `keys`. */
  function Verify(store: map<string, Bytes>, keys: seq<string>, hash: Hash, m: Manifest): Verdict {
    var o := CheckObjects(store, hash, m.objects);
    if o.Some? then Refused(o.value) else
    var k := CheckKeys(keys, m.objects);
    if k.Some? then Refused(k.value) else Verified(Report(m.id, |m.objects|, RecordedBytes(m.objects)))
  }

  method VerifySet(store: map<string, Bytes>, keys: seq<string>, hash: Hash, m: Manifest) returns (v: Verdict)
    ensures v == Verify(store, keys, hash, m)
  {
    var bytes := 0;
    for i := 0 to |m.objects|
      invariant CheckObjects(store, hash, m.objects[i..]) == CheckObjects(store, hash, m.objects)
      invariant bytes + RecordedBytes(m.objects[i..]) == RecordedBytes(m.objects)
    {
      var o := m.objects[i];
      if o.key !in store { return Refused(Missing(o.key)); }
      if hash(store[o.key]) != o.sha { return Refused(Checksum(o.key)); }
      bytes := bytes + o.bytes;
    }
    var listed := set i | 0 <= i < |m.objects| :: m.objects[i].key;
    for i := 0 to |keys|
      invariant CheckKeys(keys[i..], m.objects) == CheckKeys(keys, m.objects)
    {
      assert keys[i] in listed <==> Lists(m.objects, keys[i]);
      if keys[i] != MANIFEST_KEY && keys[i] !in listed { return Refused(Unlisted(keys[i])); }
    }
    v := Verified(Report(m.id, |m.objects|, bytes));
  }

  lemma {:induction false} CheckObjectsIff(store: map<string, Bytes>, hash: Hash, os: seq<ObjectRecord>)
    ensures CheckObjects(store, hash, os) == None <==>
            forall i :: 0 <= i < |os| ==> os[i].key in store && hash(store[os[i].key]) == os[i].sha
  {
    if os != [] {
      CheckObjectsIff(store, hash, os[1..]);
      assert forall i :: 0 <= i < |os| - 1 ==> os[1..][i] == os[i + 1];
    }
  }

  lemma {:induction false} CheckKeysIff(keys: seq<string>, os: seq<ObjectRecord>)
    ensures CheckKeys(keys, os) == None <==> forall k :: k in keys ==> k == MANIFEST_KEY || Lists(os, k)
  {
    if keys != [] {
      CheckKeysIff(keys[1..], os);
      assert keys == [keys[0]] + keys[1..];
    }
  }

  /** The set is exactly what the manifest says: nothing listed is missing or changed, nothing else is there. */
  ghost predicate Matches(store: map<string, Bytes>, hash: Hash, m: Manifest) {
    && (forall i :: 0 <= i < |m.objects| ==>
          m.objects[i].key in store && hash(store[m.objects[i].key]) == m.objects[i].sha)
    && (forall k :: k in store ==> k == MANIFEST_KEY || Lists(m.objects, k))
  }

  // ---- load_verified -------------------------------------------------------------------

  /** `text` is how the manifest's bytes read as text. */
  function LoadVerified(store: map<string, Bytes>, keys: seq<string>, hash: Hash, text: Bytes -> string): (Option<Manifest>, Verdict) {
    if MANIFEST_KEY !in store then (None, Refused(Unreadable))
    else
      match Parse(text(store[MANIFEST_KEY]))
      case Err(e) => (None, Refused(BadManifest(e)))
      case Ok(m) =>
        var v := Verify(store, keys, hash, m);
        (if v.Verified? then Some(m) else None, v)
  }

  /** Loading succeeds exactly when the manifest is there, parses, and the store matches it both ways. */
  lemma {:induction false} LoadVerifiedIff(store: map<string, Bytes>, keys: seq<string>, hash: Hash, text: Bytes -> string)
    requires forall k :: k in keys <==> k in store
    ensures var (m, v) := LoadVerified(store, keys, hash, text);
            && (v.Verified? <==> && MANIFEST_KEY in store && Parse(text(store[MANIFEST_KEY])).Ok?
                                 && Matches(store, hash, Parse(text(store[MANIFEST_KEY])).m))
            && (v.Verified? ==> m == Some(Parse(text(store[MANIFEST_KEY])).m))
  {
    if MANIFEST_KEY in store && Parse(text(store[MANIFEST_KEY])).Ok? {
      var m := Parse(text(store[MANIFEST_KEY])).m;
      CheckObjectsIff(store, hash, m.objects);
      CheckKeysIff(keys, m.objects);
    }
  }

  /** Every refusal names a real fault. */
  lemma {:induction false} RefusalsAreReal(store: map<string, Bytes>, keys: seq<string>, hash: Hash, m: Manifest)
    requires forall k :: k in keys ==> k in store
    ensures match Verify(store, keys, hash, m)
            case Verified(r) => r.bytes == RecordedBytes(m.objects)
            case Refused(Missing(k)) => Lists(m.objects, k) && k !in store
            case Refused(Checksum(k)) => k in store && exists i :: 0 <= i < |m.objects| && m.objects[i].key == k && hash(store[k]) != m.objects[i].sha
            case Refused(Unlisted(k)) => k in store && k != MANIFEST_KEY && !Lists(m.objects, k)
            case Refused(_) => false
  {
    ObjectFault(store, hash, m.objects);
    KeyFault(keys, m.objects);
  }

  lemma {:induction false} ObjectFault(store: map<string, Bytes>, hash: Hash, os: seq<ObjectRecord>)
    ensures match CheckObjects(store, hash, os)
            case None => true
            case Some(Missing(k)) => Lists(os, k) && k !in store
            case Some(Checksum(k)) => k in store && exists i :: 0 <= i < |os| && os[i].key == k && hash(store[k]) != os[i].sha
            case Some(_) => false
  {
    if os != [] {
      var rest := os[1..];
      ObjectFault(store, hash, rest);
      assert forall i :: 0 <= i < |rest| ==> rest[i] == os[i + 1];
      if os[0].key in store && hash(store[os[0].key]) == os[0].sha {
        match CheckObjects(store, hash, rest)
        case Some(Missing(k)) =>
          var i :| 0 <= i < |rest| && rest[i].key == k;
          assert os[i + 1].key == k;
        case Some(Checksum(k)) =>
          var i :| 0 <= i < |rest| && rest[i].key == k && hash(store[k]) != rest[i].sha;
          assert os[i + 1].key == k;
        case _ =>
      }
    }
  }

  lemma {:induction false} KeyFault(keys: seq<string>, os: seq<ObjectRecord>)
    ensures match CheckKeys(keys, os)
            case None => true
            case Some(Unlisted(k)) => k in keys && k != MANIFEST_KEY && !Lists(os, k)
            case Some(_) => false
  {
    if keys != [] {
      KeyFault(keys[1..], os);
      assert keys == [keys[0]] + keys[1..];
    }
  }

  // ---- the checked copy -----------------------------------------------------------------

  class File {
    var contents: Bytes

    constructor ()
      ensures contents == []
    {
      contents := [];
    }
  }

  /** Everything the source delivers is written, and accepted exactly when it has the recorded length and hash. */
  method CopyVerified(r: BodyReader.Transport, w: File, obj: ObjectRecord, hash: Hash) returns (ok: bool)
    modifies r, w
    ensures w.contents == old(w.contents) + old(r.data)
    ensures ok <==> |old(r.data)| == obj.bytes && hash(old(r.data)) == obj.sha
  {
    var hashed: Bytes := [];
    var wrote := 0;
    while true
      invariant hashed + r.data == old(r.data) && wrote == |hashed| && w.contents == old(w.contents) + hashed
      decreases |r.data|
    {
      var max :| 0 < max;
      var piece := r.Read(max);
      if piece == [] { break; }
      w.contents := w.contents + piece;
      wrote := wrote + |piece|;
      hashed := hashed + piece;
    }
    assert hashed == old(r.data);
    ok := wrote == obj.bytes && hash(hashed) == obj.sha;
  }

  // ---- the restore --------------------------------------------------------------------

  type Path = (nat, string)

  function Prefix(index: nat): string { "pairs/" + Decimal(index) + "/" }

  predicate Under(key: string, index: nat) { Prefix(index) <= key }

  function NameOf(key: string, index: nat): string
    requires Under(key, index)
  {
    key[|Prefix(index)|..]
  }

  predicate Copied(files: map<Path, Bytes>, path: Path, o: ObjectRecord, hash: Hash) {
    path in files && |files[path]| == o.bytes && hash(files[path]) == o.sha
  }

  /** No record from `j + 1` below `n` has the key of record `j`. */
  predicate LastBelow(os: seq<ObjectRecord>, j: nat, n: nat) {
    j < n <= |os| && forall k :: j < k < n ==> os[k].key != os[j].key
  }

  /** Of the first `n` objects, each pair object's file is as its last record says. */
  ghost predicate Holds(files: map<Path, Bytes>, os: seq<ObjectRecord>, hash: Hash, index: nat, n: nat) {
    forall j: nat {:trigger LastBelow(os, j, n)} :: LastBelow(os, j, n) && Under(os[j].key, index) ==>
      Copied(files, (index, NameOf(os[j].key, index)), os[j], hash)
  }

  /** Every file restored is one of the listed objects of one of the pairs. */
  ghost predicate OnlyListed(files: map<Path, Bytes>, os: seq<ObjectRecord>) {
    forall f :: f in files ==> exists j :: 0 <= j < |os| && Under(os[j].key, f.0) && NameOf(os[j].key, f.0) == f.1
  }

  lemma {:induction false} HoldsSkip(files: map<Path, Bytes>, os: seq<ObjectRecord>, hash: Hash, index: nat, n: nat)
    requires n < |os| && Holds(files, os, hash, index, n) && !Under(os[n].key, index)
    ensures Holds(files, os, hash, index, n + 1)
  {
    forall j: nat | LastBelow(os, j, n + 1) && Under(os[j].key, index)
      ensures Copied(files, (index, NameOf(os[j].key, index)), os[j], hash)
    {
      assert LastBelow(os, j, n);
    }
  }

  lemma {:induction false} HoldsCopy(files: map<Path, Bytes>, os: seq<ObjectRecord>, hash: Hash, index: nat, n: nat, data: Bytes)
    requires n < |os| && Holds(files, os, hash, index, n) && Under(os[n].key, index)
    requires |data| == os[n].bytes && hash(data) == os[n].sha
    ensures Holds(files[(index, NameOf(os[n].key, index)) := data], os, hash, index, n + 1)
  {
    var files' := files[(index, NameOf(os[n].key, index)) := data];
    forall j: nat | LastBelow(os, j, n + 1) && Under(os[j].key, index)
      ensures Copied(files', (index, NameOf(os[j].key, index)), os[j], hash)
    {
      if j < n {
        assert LastBelow(os, j, n);
        SameName(os[j].key, os[n].key, index);
      }
    }
  }

  lemma {:induction false} SameName(a: string, b: string, index: nat)
    requires Under(a, index) && Under(b, index)
    ensures NameOf(a, index) == NameOf(b, index) <==> a == b
  {
    var n := |Prefix(index)|;
    assert a == a[..n] + a[n..] && b == b[..n] + b[n..];
  }

  lemma {:induction false} HoldsElsewhere(files: map<Path, Bytes>, os: seq<ObjectRecord>, hash: Hash, index: nat, n: nat, path: Path, data: Bytes)
    requires Holds(files, os, hash, index, n) && path.0 != index
    ensures Holds(files[path := data], os, hash, index, n)
  {
    var files' := files[path := data];
    forall j: nat | LastBelow(os, j, n) && Under(os[j].key, index)
      ensures Copied(files', (index, NameOf(os[j].key, index)), os[j], hash)
    {
      assert Copied(files, (index, NameOf(os[j].key, index)), os[j], hash);
    }
  }

  /** What the second read of each object returns, by the place of the pair and of the object: anything, or nothing. */
  type Reads = (nat, nat) -> Option<Bytes>

  predicate GoodRead(data: Option<Bytes>, o: ObjectRecord, hash: Hash) {
    data.Some? && |data.value| == o.bytes && hash(data.value) == o.sha
  }

  /** Every read made for a pair's first `n` objects has the recorded length and hash. */
  predicate GoodReads(again: Reads, a: nat, os: seq<ObjectRecord>, hash: Hash, index: nat, n: nat)
    requires n <= |os|
  {
    forall k :: 0 <= k < n && Under(os[k].key, index) ==> GoodRead(again(a, k), os[k], hash)
  }

  /** The objects of one pair, each read again, checked and written over whatever its file held. */
  method RestorePair(again: Reads, a: nat, index: nat, os: seq<ObjectRecord>, hash: Hash, before: map<Path, Bytes>)
    returns (files: map<Path, Bytes>, ok: bool)
    requires OnlyListed(before, os)
    ensures ok <==> GoodReads(again, a, os, hash, index, |os|)
    ensures ok ==> Holds(files, os, hash, index, |os|) && OnlyListed(files, os)
    ensures ok ==> forall other: nat :: other != index && Holds(before, os, hash, other, |os|) ==> Holds(files, os, hash, other, |os|)
  {
    files, ok := before, true;
    for n := 0 to |os|
      invariant Holds(files, os, hash, index, n) && OnlyListed(files, os) && GoodReads(again, a, os, hash, index, n)
      invariant forall other: nat :: other != index && Holds(before, os, hash, other, |os|) ==> Holds(files, os, hash, other, |os|)
    {
      if Prefix(index) <= os[n].key {
        var data := again(a, n);
        if data.None? { return files, false; }
        var r := new BodyReader.Transport(data.value);
        var w := new File();
        var good := CopyVerified(r, w, os[n], hash);
        if !good { return files, false; }
        var path := (index, NameOf(os[n].key, index));
        HoldsCopy(files, os, hash, index, n, data.value);
        forall other: nat | other != index && Holds(files, os, hash, other, |os|)
          ensures Holds(files[path := data.value], os, hash, other, |os|)
        {
          HoldsElsewhere(files, os, hash, other, |os|, path, data.value);
        }
        assert w.contents == data.value;
        files := files[path := w.contents];
      } else {
        HoldsSkip(files, os, hash, index, n);
      }
    }
  }

  /**
   * A restore succeeds exactly when every second read has the recorded length and hash. It has then
   * written, for every listed object of every pair, bytes of the length and hash its last record
   * gives, and no other file.
   */
  method RestorePairs(again: Reads, m: Manifest, hash: Hash) returns (files: map<Path, Bytes>, ok: bool)
    ensures ok <==> forall a :: 0 <= a < |m.pairs| ==> GoodReads(again, a, m.objects, hash, m.pairs[a].index, |m.objects|)
    ensures ok ==> forall i :: 0 <= i < |m.pairs| ==> Holds(files, m.objects, hash, m.pairs[i].index, |m.objects|)
    ensures ok ==> OnlyListed(files, m.objects)
  {
    files, ok := map[], true;
    for a := 0 to |m.pairs|
      invariant OnlyListed(files, m.objects)
      invariant forall i :: 0 <= i < a ==> Holds(files, m.objects, hash, m.pairs[i].index, |m.objects|)
      invariant forall i :: 0 <= i < a ==> GoodReads(again, i, m.objects, hash, m.pairs[i].index, |m.objects|)
    {
      var next, good := RestorePair(again, a, m.pairs[a].index, m.objects, hash, files);
      if !good { return next, false; }
      files := next;
    }
  }

  /** With a manifest that verified, the hash holds for every record of the object, not only its last. */
  lemma {:induction false} EveryRecordHashes(store: map<string, Bytes>, m: Manifest, hash: Hash, files: map<Path, Bytes>, index: nat, j: nat)
    requires Matches(store, hash, m) && Holds(files, m.objects, hash, index, |m.objects|)
    requires j < |m.objects| && Under(m.objects[j].key, index)
    ensures var path := (index, NameOf(m.objects[j].key, index)); path in files && hash(files[path]) == m.objects[j].sha
  {
    var k := LastRecord(m.objects, j, |m.objects|);
    assert LastBelow(m.objects, k, |m.objects|);
  }

  lemma {:induction false} LastRecord(os: seq<ObjectRecord>, j: nat, n: nat) returns (k: nat)
    requires j < n <= |os|
    ensures LastBelow(os, k, n) && os[k].key == os[j].key
    decreases n
  {
    if os[n - 1].key == os[j].key {
      k := n - 1;
    } else {
      k := LastRecord(os, j, n - 1);
    }
  }
}
