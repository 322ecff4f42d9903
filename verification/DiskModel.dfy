/**
 * What the persistent result cache keeps on disk: refs, immutable generation
 * objects, and the record that seals one to the other.  HMAC and SHA-256 are
 * taken to be injective, so a digest is represented by what was digested.
 */
module DiskModel {
  import opened Wrappers
  import opened Schemas
  import opened Sums
  import opened CacheKeys
  import opened CacheControls

  /**
   * An HMAC under the secret of one cache root, represented by what it is taken of: an identity
   * scope, or a key, which its stable bytes determine.
   */
  datatype Mac = OfScope(scope: seq<byte>) | OfKey(key: CacheKey)

  datatype Digest<T> = Sha256(content: T)

  /** `<identity>/refs/<key>.ref` */
  datatype RefPath = RefPath(identity: Mac, key: Mac)

  /** `<identity>/objects/<generation>`; a generation name is drawn once and never again. */
  datatype ObjPath = ObjPath(identity: Mac, generation: nat)

  function PathOf(k: CacheKey): RefPath {
    RefPath(OfScope(k.identityScope), OfKey(k))
  }

  /** Two keys name the same ref file exactly if the bytes that are digested are the same. */
  lemma PathOfInjective(j: Key, k: Key)
    ensures PathOf(j) == PathOf(k) <==> j.identityScope == k.identityScope && Encode(j) == Encode(k)
    ensures PathOf(j) == PathOf(k) ==> j == k
  {
    if Encode(j) == Encode(k) {
      EncodeInjective(j, k);
    }
  }

  // ----------------------------------------------------------------- payload

  datatype Batch = Batch(schema: Schema, rows: seq<seq<Option<int>>>)

  datatype Codec = Uncompressed | Zstd | Lz4

  /** What a complete capture holds, and what a hit must replay. */
  datatype Content = Content(schema: Schema, parts: seq<seq<Batch>>)

  function RowsIn(batches: seq<Batch>): nat {
    if batches == [] then 0 else RowsIn(batches[..|batches| - 1]) + |batches[|batches| - 1].rows|
  }

  // ------------------------------------------------------------------- files

  /** One Arrow IPC file of an object, or what is found in its place. */
  datatype PartFile =
    | Arrow(schema: Schema, batches: seq<Batch>, bytes: nat)
    | Garbled(bytes: nat, tag: nat)
    | Missing

  function FileBytes(f: PartFile): nat {
    if f.Missing? then 0 else f.bytes
  }

  datatype FileName = PartName(index: nat) | OtherName(name: string)

  datatype PartRecord = PartRecord(file: FileName, bytes: nat, rows: nat, batches: nat, sha: Digest<PartFile>)

  datatype Manifest = Manifest(
    version: nat,
    keyDigest: Mac,
    schemaSha: Digest<Schema>,
    codec: Codec,
    rows: nat,
    storedBytes: nat,
    parts: seq<PartRecord>)

  datatype ManifestFile = Json(manifest: Manifest) | NotJson(tag: nat) | NoManifest

  /** A generation directory; `parts[i]` is what lies under the i-th partition's file name. */
  datatype ObjectDir = ObjectDir(lease: bool, manifest: ManifestFile, parts: seq<PartFile>)

  datatype Record = Record(
    version: nat,
    keyDigest: Mac,
    identityDigest: Mac,
    generation: nat,
    manifestSha: Digest<ManifestFile>,
    createdMs: nat,
    expiresMs: nat,
    catalog: Utf8,
    functionName: Utf8,
    storedBytes: nat,
    rows: nat,
    batches: nat,
    partitions: nat,
    codec: Codec,
    at: Option<(Utf8, Utf8)>,
    etag: Option<string>,
    lastModified: Option<string>,
    revalidatable: bool,
    staleIfError: Option<nat>)

  /** The bytes of a ref file either parse to a record or do not. */
  datatype RefFile = Parsed(record: Record) | Unparsed(tag: nat)

  datatype Fs = Fs(refs: map<RefPath, RefFile>, objects: map<ObjPath, ObjectDir>)

  const FORMAT_VERSION: nat := 1

  function ObjOf(r: Record): ObjPath {
    ObjPath(r.identityDigest, r.generation)
  }

  // ------------------------------------------------------ what a commit seals

  function PartOf(content: Content, lens: seq<nat>, i: nat): PartFile
    requires i < |content.parts| == |lens|
  {
    Arrow(content.schema, content.parts[i], lens[i])
  }

  function PartRecordOf(content: Content, lens: seq<nat>, i: nat): PartRecord
    requires i < |content.parts| == |lens|
  {
    PartRecord(PartName(i), lens[i], RowsIn(content.parts[i]), |content.parts[i]|,
               Sha256(PartOf(content, lens, i)))
  }

  function RowCounts(parts: seq<seq<Batch>>): seq<nat> {
    seq(|parts|, i requires 0 <= i < |parts| => RowsIn(parts[i]))
  }

  function BatchCounts(parts: seq<seq<Batch>>): seq<nat> {
    seq(|parts|, i requires 0 <= i < |parts| => |parts[i]|)
  }

  function ManifestOf(key: CacheKey, content: Content, codec: Codec, lens: seq<nat>): Manifest
    requires |content.parts| == |lens|
  {
    Manifest(FORMAT_VERSION, OfKey(key), Sha256(content.schema), codec,
             SumSeq(RowCounts(content.parts)), SumSeq(lens),
             seq(|lens|, i requires 0 <= i < |lens| => PartRecordOf(content, lens, i)))
  }

  /** The finished capture directory; `lens` are the encoded file lengths. */
  function SealedDir(key: CacheKey, content: Content, codec: Codec, lens: seq<nat>): ObjectDir
    requires |content.parts| == |lens|
  {
    ObjectDir(true, Json(ManifestOf(key, content, codec, lens)),
              seq(|lens|, i requires 0 <= i < |lens| => PartOf(content, lens, i)))
  }

  function RecordOf(key: CacheKey, generation: nat, m: Manifest, batches: nat,
                    createdMs: nat, expiresMs: nat, control: CacheControl): Record
  {
    Record(FORMAT_VERSION, OfKey(key), OfScope(key.identityScope), generation, Sha256(Json(m)),
           createdMs, expiresMs, key.catalog, key.functionName, m.storedBytes, m.rows, batches,
           |m.parts|, m.codec, key.at, control.etag, control.lastModified,
           ValidRevalidation(control), PositiveSeconds(control.staleIfError))
  }

  /** The parts of a record that a revalidation never touches agree with the manifest. */
  predicate Describes(r: Record, m: Manifest) {
    && r.manifestSha == Sha256(Json(m))
    && r.keyDigest == m.keyDigest
    && r.rows == m.rows
    && r.storedBytes == m.storedBytes
    && r.partitions == |m.parts|
    && r.codec == m.codec
  }

  // ------------------------------------------------------ what a lookup checks

  function PartLengths(parts: seq<PartRecord>): seq<nat> {
    seq(|parts|, i requires 0 <= i < |parts| => parts[i].bytes)
  }

  function PartRows(parts: seq<PartRecord>): seq<nat> {
    seq(|parts|, i requires 0 <= i < |parts| => parts[i].rows)
  }

  predicate PartOk(m: Manifest, dir: ObjectDir, i: nat)
    requires i < |m.parts|
  {
    && m.parts[i].file == PartName(i)
    && i < |dir.parts|
    && dir.parts[i].Arrow?
    && dir.parts[i].bytes == m.parts[i].bytes
    && Sha256(dir.parts[i]) == m.parts[i].sha
    && Sha256(dir.parts[i].schema) == m.schemaSha
  }

  /** Exactly the objects that full validation lets through. */
  predicate ValidHit(r: Record, dir: ObjectDir, expected: Option<Schema>) {
    && dir.manifest.Json?
    && Sha256(dir.manifest) == r.manifestSha
    && var m := dir.manifest.manifest;
    && m.version == FORMAT_VERSION
    && m.keyDigest == r.keyDigest
    && m.rows == r.rows
    && m.storedBytes == r.storedBytes
    && |m.parts| == r.partitions
    && m.codec == r.codec
    && (forall i: nat | i < |m.parts| :: PartOk(m, dir, i))
    && SumSeq(PartLengths(m.parts)) == m.storedBytes
    && SumSeq(PartRows(m.parts)) == m.rows
    && |m.parts| > 0
    && (expected.Some? ==> expected.value == m.schemaSha.content)
  }

  /** What the partition readers of a hit hand out. */
  function Replay(dir: ObjectDir, n: nat): seq<seq<Batch>>
    requires n <= |dir.parts| && forall i | 0 <= i < n :: dir.parts[i].Arrow?
  {
    seq(n, i requires 0 <= i < n => dir.parts[i].batches)
  }

  predicate Replays(dir: ObjectDir, r: Record, content: Content) {
    && r.partitions <= |dir.parts|
    && r.partitions == |content.parts|
    && forall i | 0 <= i < r.partitions ::
         && dir.parts[i].Arrow?
         && dir.parts[i].schema == content.schema
         && dir.parts[i].batches == content.parts[i]
  }

  /** An untampered object of at least one partition passes, unless a different schema is expected. */
  lemma SealedPasses(key: CacheKey, content: Content, codec: Codec, lens: seq<nat>, r: Record,
                     expected: Option<Schema>)
    requires |content.parts| == |lens|
    requires Describes(r, ManifestOf(key, content, codec, lens))
    ensures ValidHit(r, SealedDir(key, content, codec, lens), expected)
       <==> |lens| > 0 && (expected.Some? ==> expected.value == content.schema)
  {
    var m := ManifestOf(key, content, codec, lens);
    var dir := SealedDir(key, content, codec, lens);
    assert PartLengths(m.parts) == lens;
    assert PartRows(m.parts) == RowCounts(content.parts);
    assert forall i: nat | i < |m.parts| :: PartOk(m, dir, i);
  }

  /**
   * Whatever was done to an object directory since, a hit on it replays exactly the
   * capture that its record was sealed over: same schema, same batches, partition by partition.
   */
  lemma HitReplaysSealedContent(key: CacheKey, content: Content, codec: Codec, lens: seq<nat>,
                                r: Record, found: ObjectDir, expected: Option<Schema>)
    requires |content.parts| == |lens|
    requires Describes(r, ManifestOf(key, content, codec, lens))
    requires ValidHit(r, found, expected)
    ensures Replays(found, r, content)
    ensures Replay(found, r.partitions) == content.parts
    ensures expected.Some? ==> expected.value == content.schema
  {
    var m := ManifestOf(key, content, codec, lens);
    assert found.manifest == Json(m);
    forall i: nat | i < r.partitions
      ensures i < |found.parts| && found.parts[i] == PartOf(content, lens, i)
    {
      assert PartOk(m, found, i);
    }
    assert PartOk(m, found, r.partitions - 1);
  }

  /**
   * Whatever wrote the object: what passes has this format's version, at least one partition, and the key,
   * codec, rows and bytes its record states, the bytes being those its files really have.
   */
  lemma PassedAddsUp(r: Record, dir: ObjectDir, expected: Option<Schema>)
    requires ValidHit(r, dir, expected)
    ensures dir.manifest.Json?
    ensures var m := dir.manifest.manifest;
            && m.version == 1 && m.keyDigest == r.keyDigest && m.codec == r.codec
            && 0 < r.partitions == |m.parts| <= |dir.parts|
            && r.rows == SumSeq(PartRows(m.parts))
            && r.storedBytes
               == SumSeq(seq(r.partitions, i requires 0 <= i < r.partitions => FileBytes(dir.parts[i])))
  {
    var m := dir.manifest.manifest;
    forall i: nat | i < |m.parts|
      ensures i < |dir.parts| && FileBytes(dir.parts[i]) == m.parts[i].bytes
    {
      assert PartOk(m, dir, i);
    }
    assert PartOk(m, dir, |m.parts| - 1);
    assert seq(r.partitions, i requires 0 <= i < r.partitions => FileBytes(dir.parts[i])) == PartLengths(m.parts);
  }

  // ---------------------------------------------------- the disk as a whole

  /** Bytes an object holds, as the orphan scan measures them. */
  function ObjectBytes(dir: ObjectDir): nat {
    SumSeq(seq(|dir.parts|, i requires 0 <= i < |dir.parts| => FileBytes(dir.parts[i])))
  }

  /** A directory tree of which some entries have been unlinked. */
  predicate Worn(dir: ObjectDir, left: ObjectDir) {
    && (left.lease ==> dir.lease)
    && (left.manifest == dir.manifest || left.manifest.NoManifest?)
    && |left.parts| == |dir.parts|
    && forall i | 0 <= i < |dir.parts| :: left.parts[i] == dir.parts[i] || left.parts[i].Missing?
  }

  predicate Complete(dir: ObjectDir, r: Record) {
    && dir.lease
    && ValidHit(r, dir, None)
    && |dir.parts| == r.partitions
  }

  /** A ref that names, under its own key, an object that exists and is complete. */
  predicate RefOk(p: RefPath, f: RefFile, objects: map<ObjPath, ObjectDir>) {
    && f.Parsed?
    && f.record.version == FORMAT_VERSION
    && f.record.keyDigest == p.key
    && f.record.identityDigest == p.identity
    && ObjOf(f.record) in objects
    && Complete(objects[ObjOf(f.record)], f.record)
  }

  ghost predicate Sound(fs: Fs, leased: set<ObjPath>) {
    && (forall p | p in fs.refs :: RefOk(p, fs.refs[p], fs.objects))
    && (forall o | o in leased :: o in fs.objects && fs.objects[o].lease)
  }

  predicate Refers(f: RefFile, o: ObjPath) {
    f.Parsed? && ObjOf(f.record) == o
  }

  ghost predicate Referenced(fs: Fs, o: ObjPath) {
    exists p :: p in fs.refs && Refers(fs.refs[p], o)
  }

  /** No two refs share an object. */
  lemma RefsNeverShare(fs: Fs, leased: set<ObjPath>, p: RefPath, q: RefPath)
    requires Sound(fs, leased) && p in fs.refs && q in fs.refs
    requires ObjOf(fs.refs[p].record) == ObjOf(fs.refs[q].record)
    ensures p == q
  {
  }

  /** A record's size is what its object really occupies. */
  lemma StoredBytesAreObjectBytes(dir: ObjectDir, r: Record)
    requires Complete(dir, r)
    ensures ObjectBytes(dir) == r.storedBytes
  {
    var m := dir.manifest.manifest;
    forall i: nat | i < |m.parts|
      ensures FileBytes(dir.parts[i]) == m.parts[i].bytes
    {
      assert PartOk(m, dir, i);
    }
    assert seq(|dir.parts|, i requires 0 <= i < |dir.parts| => FileBytes(dir.parts[i])) == PartLengths(m.parts);
  }

  /** The filesystem steps of the protocol, each atomic. */
  datatype Act =
    | Install(target: ObjPath, dir: ObjectDir)    // a capture directory renamed into place
    | Bind(path: RefPath, file: RefFile)          // a ref replaced by rename
    | Unbind(path: RefPath)                       // a ref unlinked
    | Erode(target: ObjPath, dir: ObjectDir)      // part of a directory tree unlinked
    | Delete(target: ObjPath)                     // the rest of it unlinked

  function Apply(act: Act, fs: Fs): Fs {
    match act
    case Install(o, dir) => fs.(objects := fs.objects[o := dir])
    case Bind(p, f) => fs.(refs := fs.refs[p := f])
    case Unbind(p) => fs.(refs := fs.refs - {p})
    case Erode(o, dir) => fs.(objects := fs.objects[o := dir])
    case Delete(o) => fs.(objects := fs.objects - {o})
  }

  /** When a step may be taken: no ref before its object, no deletion while leased or referenced. */
  ghost predicate Allowed(act: Act, fs: Fs, leased: set<ObjPath>) {
    match act
    case Install(o, _) => o !in fs.objects
    case Bind(p, f) => RefOk(p, f, fs.objects)
    case Unbind(_) => true
    case Erode(o, dir) => o in fs.objects && Worn(fs.objects[o], dir) && o !in leased && !Referenced(fs, o)
    case Delete(o) => o !in leased && !Referenced(fs, o)
  }

  /** An allowed step leaves every ref naming a complete object and every leased object in place. */
  lemma StepKeepsSound(act: Act, fs: Fs, leased: set<ObjPath>)
    requires Sound(fs, leased) && Allowed(act, fs, leased)
    ensures Sound(Apply(act, fs), leased)
    ensures forall o | o in leased :: Apply(act, fs).objects[o] == fs.objects[o]
  {
    var fs' := Apply(act, fs);
    forall p | p in fs'.refs
      ensures RefOk(p, fs'.refs[p], fs'.objects)
    {
      if act.Bind? && p == act.path {
      } else {
        assert RefOk(p, fs.refs[p], fs.objects);
        assert Refers(fs.refs[p], ObjOf(fs.refs[p].record));
      }
    }
  }
}
