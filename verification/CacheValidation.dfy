// Startup validation of object references: hashing every file, or trusting the identity a
// file had when it was last hashed.
module CacheValidation {
  import opened Base
  import opened Json
  import opened Domain
  import opened Tables

  const CHUNK := 2000

  // What `stat` says of an object file.
  datatype Identity = Identity(device: nat, inode: nat, byteLength: nat, modifiedAtNs: nat, changedAtNs: nat, mode: nat)

  // The bytes of a file: how many, and the JSON value they decode to, if they decode.
  datatype Bytes = Bytes(length: nat, decoded: Option<Value>)

  datatype File = File(identity: Identity, bytes: Bytes)

  // A row of object_refs.
  datatype Reference = Reference(digest: Digest, kind: string, byteLength: nat, timing: Timing)

  // inspect_with_identity: the content must hash to its own address and be an envelope.
  function Inspect(d: Digest, f: File): Result<StoredObject, HostError> {
    if f.bytes.length != f.identity.byteLength then Err(ObjectCorrupt)
    else
      match f.bytes.decoded
      case None => Err(ObjectCorrupt)
      case Some(v) =>
        if Digest(v) != d then Err(ObjectCorrupt)
        else
          match Open(d)
          case None => Err(ObjectCorrupt)
          case Some(o) => Ok(StoredObject(d, f.bytes.length, o.kind))
  }

  // Hashing the file finds exactly the metadata the journal keeps.
  predicate Hashes(files: map<Digest, File>, row: Reference) {
    row.digest in files && Inspect(row.digest, files[row.digest]) == Ok(StoredObject(row.digest, row.byteLength, row.kind))
  }

  predicate Selects(full: bool, row: Reference) {
    full || row.timing == Startup
  }

  datatype Counts = Counts(total: nat, cached: nat, hashed: nat)

  // A task's projection as the journal keeps it, and as its head event rebuilds it.
  datatype Head = Head(materialized: TaskProjection, rebuilt: Result<TaskProjection, HostError>)

  datatype Validation = Validation(references: Counts, taskHeads: nat)

  predicate AllRebuild(heads: seq<Head>) {
    forall i :: 0 <= i < |heads| ==> heads[i].rebuilt == Ok(heads[i].materialized)
  }

  // Verified identities laid over a cache, in order.
  function Recorded(cache: map<Digest, Identity>, values: seq<(Digest, Identity)>): map<Digest, Identity> {
    if |values| == 0 then cache
    else Recorded(cache, values[..|values| - 1])[values[|values| - 1].0 := values[|values| - 1].1]
  }

  lemma {:induction false} RecordedAppend(cache: map<Digest, Identity>, a: seq<(Digest, Identity)>, b: seq<(Digest, Identity)>)
    ensures Recorded(cache, a + b) == Recorded(Recorded(cache, a), b)
    decreases |b|
  {
    if |b| == 0 {
      assert a + b == a;
    } else {
      var init := b[..|b| - 1];
      RecordedAppend(cache, a, init);
      assert (a + b)[..|a + b| - 1] == a + init;
    }
  }

  // A recorded digest has one of the identities recorded for it; any other keeps its own.
  lemma {:induction false} RecordedLookup(cache: map<Digest, Identity>, values: seq<(Digest, Identity)>, d: Digest)
    ensures (exists p :: p in values && p.0 == d) ==>
              d in Recorded(cache, values) && (d, Recorded(cache, values)[d]) in values
    ensures (forall p :: p in values ==> p.0 != d) ==>
              (d in Recorded(cache, values) <==> d in cache) && (d in cache ==> Recorded(cache, values)[d] == cache[d])
  {
    if |values| > 0 {
      var init, last := values[..|values| - 1], values[|values| - 1];
      assert values == init + [last];
      RecordedLookup(cache, init, d);
      if last.0 == d {
        assert last == (d, last.1);
      }
    }
  }

  // A cached identity belonged to a file that was hashed, against a row that still stands.
  ghost predicate Vouched(past: set<(Digest, File)>, refs: seq<Reference>, d: Digest, id: Identity) {
    exists f, row ::
      && (d, f) in past && f.identity == id
      && row in refs && row.digest == d
      && Inspect(d, f) == Ok(StoredObject(d, row.byteLength, row.kind))
  }

  // The cache holds the file's present identity, and the length is the journal's.
  predicate Fresh(files: map<Digest, File>, cache: map<Digest, Identity>, row: Reference) {
    && row.digest in cache && row.digest in files
    && cache[row.digest] == files[row.digest].identity
    && files[row.digest].identity.byteLength == row.byteLength
  }

  ghost predicate IdentityFixesBytes(past: set<(Digest, File)>) {
    forall d, f, g :: (d, f) in past && (d, g) in past && f.identity == g.identity ==> f.bytes == g.bytes
  }

  ghost predicate UniqueRefs(refs: seq<Reference>) {
    forall i, j :: 0 <= i < j < |refs| ==> refs[i].digest != refs[j].digest
  }

  lemma SameRow(refs: seq<Reference>, row: Reference, other: Reference)
    requires UniqueRefs(refs) && row in refs && other in refs && row.digest == other.digest
    ensures row == other
  {
    var i, j :| 0 <= i < |refs| && refs[i] == row && 0 <= j < |refs| && refs[j] == other;
  }

  // A fresh cache entry is as good as hashing.
  lemma FreshHashes(past: set<(Digest, File)>, refs: seq<Reference>, files: map<Digest, File>, cache: map<Digest, Identity>, row: Reference)
    requires IdentityFixesBytes(past) && UniqueRefs(refs) && row in refs
    requires Fresh(files, cache, row) && (row.digest, files[row.digest]) in past
    requires Vouched(past, refs, row.digest, cache[row.digest])
    ensures Hashes(files, row)
  {
    var f, other :| (row.digest, f) in past && f.identity == cache[row.digest] && other in refs && other.digest == row.digest
                    && Inspect(row.digest, f) == Ok(StoredObject(row.digest, other.byteLength, other.kind));
    SameRow(refs, row, other);
  }

  // Rows verified so far: each pending identity is that of a file that hashed.
  ghost predicate Verified(files: map<Digest, File>, refs: seq<Reference>, pending: seq<(Digest, Identity)>) {
    forall p :: p in pending ==> exists row :: row in refs && row.digest == p.0 && Hashes(files, row) && files[p.0].identity == p.1
  }

  // What one row leaves for the cache: a pending identity, or an entry that was fresh.
  ghost predicate Settled(files: map<Digest, File>, cache: map<Digest, Identity>, pending: seq<(Digest, Identity)>, row: Reference) {
    || (row.digest in files && (row.digest, files[row.digest].identity) in pending && Hashes(files, row))
    || (Fresh(files, cache, row) && forall p :: p in pending ==> p.0 != row.digest)
  }

  lemma SettledIsFresh(
    files: map<Digest, File>, cache: map<Digest, Identity>, refs: seq<Reference>, pending: seq<(Digest, Identity)>, row: Reference)
    requires Settled(files, cache, pending, row) && Verified(files, refs, pending)
    ensures Fresh(files, Recorded(cache, pending), row)
  {
    hide Inspect;
    RecordedLookup(cache, pending, row.digest);
    if (row.digest in files && (row.digest, files[row.digest].identity) in pending && Hashes(files, row)) {
      assert (row.digest, Recorded(cache, pending)[row.digest]) in pending;
      HashedLength(files, row);
    }
  }

  lemma HashedLength(files: map<Digest, File>, row: Reference)
    requires Hashes(files, row)
    ensures files[row.digest].identity.byteLength == row.byteLength
  {
  }

  lemma SoundAfter(
    past: set<(Digest, File)>, refs: seq<Reference>, files: map<Digest, File>, cache: map<Digest, Identity>,
    pending: seq<(Digest, Identity)>)
    requires forall d :: d in files ==> (d, files[d]) in past
    requires forall d :: d in cache ==> Vouched(past, refs, d, cache[d])
    requires Verified(files, refs, pending)
    ensures forall d :: d in Recorded(cache, pending) ==> Vouched(past, refs, d, Recorded(cache, pending)[d])
  {
    hide Inspect;
    var after := Recorded(cache, pending);
    forall d | d in after
      ensures Vouched(past, refs, d, after[d])
    {
      RecordedLookup(cache, pending, d);
      if exists p :: p in pending && p.0 == d {
        assert (d, after[d]) in pending;
        var row :| row in refs && row.digest == d && Hashes(files, row) && files[d].identity == after[d];
        assert (d, files[d]) in past;
      } else {
        assert Vouched(past, refs, d, cache[d]);
      }
    }
  }

  // What hashing a reference establishes: the file has the row's length, and its bytes decode to
  // an envelope of the row's kind whose canonical digest is the row's address.
  lemma HashesExactly(files: map<Digest, File>, row: Reference)
    ensures Hashes(files, row) <==>
              && row.digest in files
              && var f := files[row.digest];
              && f.identity.byteLength == f.bytes.length == row.byteLength
              && f.bytes.decoded == Some(row.digest.preimage)
              && Open(row.digest).Some? && Open(row.digest).value.kind == row.kind
  {
    hide Open;
  }

  // The cache holds the identity of the file as it is, and the file has the row's length.
  predicate Unmoved(files: map<Digest, File>, cache: map<Digest, Identity>, row: Reference) {
    && row.digest in cache && row.digest in files
    && files[row.digest].identity == cache[row.digest]
    && row.byteLength == files[row.digest].identity.byteLength
  }

  // The references a pass looks at: all of them, or those validated at startup.
  ghost function LookedAt(full: bool, refs: seq<Reference>, n: nat): set<int>
    requires n <= |refs|
  {
    set k | 0 <= k < n && (full || refs[k].timing == Startup)
  }

  // Those of them whose bytes are hashed: all, or those the cache does not vouch for as they are.
  ghost function LookedInto(
    full: bool, files: map<Digest, File>, cache: map<Digest, Identity>, refs: seq<Reference>, n: nat): set<int>
    requires n <= |refs|
  {
    set k | 0 <= k < n && (full || (refs[k].timing == Startup && !Unmoved(files, cache, refs[k])))
  }

  lemma NextLookedAt(full: bool, files: map<Digest, File>, cache: map<Digest, Identity>, refs: seq<Reference>, n: nat)
    requires n < |refs|
    ensures |LookedAt(full, refs, n + 1)| == |LookedAt(full, refs, n)| + (if Selects(full, refs[n]) then 1 else 0)
    ensures |LookedInto(full, files, cache, refs, n + 1)| ==
            |LookedInto(full, files, cache, refs, n)|
            + (if Selects(full, refs[n]) && (full || !Fresh(files, cache, refs[n])) then 1 else 0)
  {
    hide Unmoved, Fresh, LookedAt, LookedInto;
    FreshIsUnmoved(files, cache, refs[n]);
    NextAt(full, refs, n);
    NextInto(full, files, cache, refs, n);
    OneMore(LookedAt(full, refs, n), n);
    OneMore(LookedInto(full, files, cache, refs, n), n);
  }

  lemma OneMore(s: set<int>, n: int)
    ensures n !in s ==> |s + {n}| == |s| + 1
  {
  }

  lemma NextAt(full: bool, refs: seq<Reference>, n: nat)
    requires n < |refs|
    ensures n !in LookedAt(full, refs, n)
    ensures LookedAt(full, refs, n + 1) == LookedAt(full, refs, n) + if Selects(full, refs[n]) then {n} else {}
  {
  }

  lemma NextInto(full: bool, files: map<Digest, File>, cache: map<Digest, Identity>, refs: seq<Reference>, n: nat)
    requires n < |refs|
    ensures n !in LookedInto(full, files, cache, refs, n)
    ensures LookedInto(full, files, cache, refs, n + 1) ==
            LookedInto(full, files, cache, refs, n)
            + if Selects(full, refs[n]) && (full || !Unmoved(files, cache, refs[n])) then {n} else {}
  {
    hide Unmoved;
  }

  lemma FreshIsUnmoved(files: map<Digest, File>, cache: map<Digest, Identity>, row: Reference)
    ensures Fresh(files, cache, row) <==> Unmoved(files, cache, row)
  {
  }

  lemma NothingYet(full: bool, files: map<Digest, File>, cache: map<Digest, Identity>, refs: seq<Reference>)
    ensures LookedAt(full, refs, 0) == {} && LookedInto(full, files, cache, refs, 0) == {}
  {
  }

  class Validator {
    var refs: seq<Reference>
    var files: map<Digest, File>
    var cache: map<Digest, Identity>
    // Every file that ever stood at an address.
    ghost var past: set<(Digest, File)>

    ghost predicate Valid()
      reads this
    {
      && (forall d :: d in files ==> (d, files[d]) in past)
      && UniqueRefs(refs)
      && (forall d :: d in cache ==> Vouched(past, refs, d, cache[d]))
    }

    // An empty store and an empty cache.
    constructor ()
      ensures Valid() && refs == [] && files == map[] && cache == map[] && past == {}
    {
      refs, files, cache, past := [], map[], map[], {};
    }

    // The environment replaces or removes a file.
    method ChangeFile(d: Digest, f: Option<File>)
      requires Valid()
      modifies this`files, this`past
      ensures Valid()
      ensures past == old(past) + (if f.Some? then {(d, f.value)} else {})
      ensures files == if f.Some? then old(files)[d := f.value] else old(files) - {d}
    {
      ghost var before := past;
      match f
      case None => files := files - {d};
      case Some(file) =>
        files := files[d := file];
        past := past + {(d, file)};
      PastGrows(before, past, refs, refs, cache);
    }

    // The journal admits a further reference.
    method AddReference(row: Reference)
      requires Valid() && forall i :: 0 <= i < |refs| ==> refs[i].digest != row.digest
      modifies this`refs
      ensures Valid() && refs == old(refs) + [row]
    {
      PastGrows(past, past, refs, refs + [row], cache);
      refs := refs + [row];
    }

    // One transaction of record_object_validations.
    method RecordChunk(values: seq<(Digest, Identity)>)
      modifies this`cache
      ensures cache == Recorded(old(cache), values)
    {
      var i := 0;
      while i < |values|
        invariant 0 <= i <= |values|
        invariant cache == Recorded(old(cache), values[..i])
      {
        assert values[..i + 1][..i] == values[..i];
        cache := cache[values[i].0 := values[i].1];
        i := i + 1;
      }
      assert values[..i] == values;
    }

    // The pending identities, written back in bounded transactions: nothing is lost at a
    // chunk's edge.
    method RecordPending(pending: seq<(Digest, Identity)>)
      modifies this`cache
      ensures cache == Recorded(old(cache), pending)
    {
      var offset := 0;
      while offset < |pending|
        invariant 0 <= offset <= |pending|
        invariant cache == Recorded(old(cache), pending[..offset])
      {
        var end := Min(offset + CHUNK, |pending|);
        RecordedAppend(old(cache), pending[..offset], pending[offset..end]);
        assert pending[..end] == pending[..offset] + pending[offset..end];
        RecordChunk(pending[offset..end]);
        offset := end;
      }
      assert pending[..offset] == pending;
    }

    // One reference: trusted by its cached identity, or hashed.
    method CheckReference(full: bool, row: Reference) returns (r: Result<Option<Identity>, HostError>)
      requires Valid() && IdentityFixesBytes(past) && row in refs
      ensures r.Ok? <==> Hashes(files, row)
      ensures !full && Fresh(files, cache, row) ==> r == Ok(None)
      ensures r == Ok(None) ==> !full && Fresh(files, cache, row)
      ensures r.Ok? && r.value.Some? ==> r.value.value == files[row.digest].identity
    {
      hide Inspect;
      if row.digest !in files {
        return Err(ObjectMissing);
      }
      var file := files[row.digest];
      if !full && row.digest in cache && cache[row.digest] == file.identity && file.identity.byteLength == row.byteLength {
        FreshHashes(past, refs, files, cache, row);
        return Ok(None);
      }
      var actual := Inspect(row.digest, file);
      if actual.Err? {
        return Err(actual.error);
      }
      if actual.value != StoredObject(row.digest, row.byteLength, row.kind) {
        return Err(JournalCorruption);
      }
      return Ok(Some(file.identity));
    }

    // The rows of one pass, and the identities to write back afterwards.
    method ScanReferences(full: bool) returns (r: Result<Counts, HostError>, pending: seq<(Digest, Identity)>)
      requires Valid() && IdentityFixesBytes(past)
      ensures r.Ok? <==> forall i :: 0 <= i < |refs| && Selects(full, refs[i]) ==> Hashes(files, refs[i])
      ensures r.Ok? ==> r.value.total == r.value.cached + r.value.hashed && (full ==> r.value.cached == 0)
      ensures r.Ok? ==>
                && r.value.total == |LookedAt(full, refs, |refs|)|
                && r.value.hashed == |LookedInto(full, files, cache, refs, |refs|)|
      ensures Verified(files, refs, pending)
      ensures r.Ok? ==> forall i :: 0 <= i < |refs| && Selects(full, refs[i]) ==> Settled(files, cache, pending, refs[i])
      ensures !full && (forall i :: 0 <= i < |refs| && Selects(full, refs[i]) ==> Fresh(files, cache, refs[i]))
              ==> r.Ok? && r.value.hashed == 0
    {
      hide Hashes, Fresh, IdentityFixesBytes, Vouched, LookedAt, LookedInto;
      var counts := Counts(0, 0, 0);
      NothingYet(full, files, cache, refs);
      pending := [];
      var i := 0;
      while i < |refs|
        invariant 0 <= i <= |refs|
        invariant forall k :: 0 <= k < i && Selects(full, refs[k]) ==> Hashes(files, refs[k])
        invariant counts.total == counts.cached + counts.hashed && (full ==> counts.cached == 0)
        invariant counts.total == |LookedAt(full, refs, i)| && counts.hashed == |LookedInto(full, files, cache, refs, i)|
        invariant Verified(files, refs, pending)
        invariant forall p :: p in pending ==> exists k :: 0 <= k < i && refs[k].digest == p.0
        invariant forall k :: 0 <= k < i && Selects(full, refs[k]) ==> Settled(files, cache, pending, refs[k])
        invariant !full && (forall k :: 0 <= k < |refs| && Selects(full, refs[k]) ==> Fresh(files, cache, refs[k]))
                  ==> counts.hashed == 0
      {
        var row := refs[i];
        assert forall p :: p in pending ==> p.0 != row.digest;
        NextLookedAt(full, files, cache, refs, i);
        if Selects(full, row) {
          var checked := CheckReference(full, row);
          if checked.Err? {
            return Err(checked.error), pending;
          }
          if checked.value.None? {
            counts := Counts(counts.total + 1, counts.cached + 1, counts.hashed);
          } else {
            HashedFile(files, row);
            SettledMore(files, cache, refs, i, full, pending, (row.digest, checked.value.value));
            pending := pending + [(row.digest, checked.value.value)];
            counts := Counts(counts.total + 1, counts.cached, counts.hashed + 1);
          }
        }
        i := i + 1;
      }
      return Ok(counts), pending;
    }

    // validate_references: the references, the write-back of what was verified, then the
    // task heads. The cached pass accepts exactly when hashing everything would.
    method ValidateReferences(full: bool, updateCache: bool, heads: seq<Head>) returns (r: Result<Validation, HostError>)
      requires Valid() && IdentityFixesBytes(past)
      modifies this`cache
      ensures Valid()
      ensures r.Ok? <==> (forall i :: 0 <= i < |refs| && Selects(full, refs[i]) ==> Hashes(files, refs[i])) && AllRebuild(heads)
      ensures r.Ok? ==>
                && r.value.references.total == r.value.references.cached + r.value.references.hashed
                && (full ==> r.value.references.cached == 0)
                && r.value.references.total == |LookedAt(full, refs, |refs|)|
                && r.value.references.hashed == |LookedInto(full, files, old(cache), refs, |refs|)|
                && r.value.taskHeads == |heads|
      // A full pass accepts only if every reference hashes, any other if the startup ones do.
      ensures r.Ok? ==> forall i :: 0 <= i < |refs| && (full || refs[i].timing == Startup) ==> Hashes(files, refs[i])
      // Every verified identity is in the cache afterwards, even if a head then differs.
      ensures (forall i :: 0 <= i < |refs| && Selects(full, refs[i]) ==> Hashes(files, refs[i])) && updateCache ==>
                forall i :: 0 <= i < |refs| && Selects(full, refs[i]) ==> Fresh(files, cache, refs[i])
      ensures !(forall i :: 0 <= i < |refs| && Selects(full, refs[i]) ==> Hashes(files, refs[i])) || !updateCache ==>
                cache == old(cache)
      // A pass over a cache that is up to date hashes nothing.
      ensures !full && (forall i :: 0 <= i < |refs| && Selects(full, refs[i]) ==> Fresh(files, old(cache), refs[i]))
              ==> (AllRebuild(heads) ==> r.Ok?) && (r.Ok? ==> r.value.references.hashed == 0)
    {
      hide Hashes, Fresh, IdentityFixesBytes, Vouched, Settled, Verified, LookedAt, LookedInto;
      var counts, pending := ScanReferences(full);
      if counts.Err? {
        return Err(counts.error);
      }
      if updateCache {
        SoundAfter(past, refs, files, cache, pending);
        forall k | 0 <= k < |refs| && Selects(full, refs[k])
          ensures Fresh(files, Recorded(cache, pending), refs[k])
        {
          SettledIsFresh(files, cache, refs, pending, refs[k]);
        }
        RecordPending(pending);
      }
      var i := 0;
      while i < |heads|
        invariant 0 <= i <= |heads| && AllRebuild(heads[..i])
      {
        if heads[i].rebuilt.Err? {
          return Err(heads[i].rebuilt.error);
        }
        if heads[i].rebuilt.value != heads[i].materialized {
          return Err(JournalCorruption);
        }
        i := i + 1;
      }
      return Ok(Validation(counts.value, |heads|));
    }
  }

  lemma HashedFile(files: map<Digest, File>, row: Reference)
    requires Hashes(files, row)
    ensures row.digest in files
  {
  }

  lemma PastGrows(
    past: set<(Digest, File)>, past': set<(Digest, File)>, refs: seq<Reference>, refs': seq<Reference>,
    cache: map<Digest, Identity>)
    requires past <= past' && refs <= refs' && forall d :: d in cache ==> Vouched(past, refs, d, cache[d])
    ensures forall d :: d in cache ==> Vouched(past', refs', d, cache[d])
  {
    hide Inspect;
    forall d | d in cache
      ensures Vouched(past', refs', d, cache[d])
    {
      assert Vouched(past, refs, d, cache[d]);
      var f, row :| (d, f) in past && f.identity == cache[d] && row in refs && row.digest == d
                    && Inspect(d, f) == Ok(StoredObject(d, row.byteLength, row.kind));
      assert row in refs';
    }
  }

  // Rows settled before stay settled when another digest becomes pending.
  lemma SettledMore(
    files: map<Digest, File>, cache: map<Digest, Identity>, refs: seq<Reference>, i: nat, full: bool,
    pending: seq<(Digest, Identity)>, p: (Digest, Identity))
    requires i < |refs| && UniqueRefs(refs) && p.0 == refs[i].digest
    requires forall k :: 0 <= k < i && Selects(full, refs[k]) ==> Settled(files, cache, pending, refs[k])
    ensures forall k :: 0 <= k < i && Selects(full, refs[k]) ==> Settled(files, cache, pending + [p], refs[k])
  {
    hide Inspect;
  }
}
