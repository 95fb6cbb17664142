/**
 * Telemetry datapoints. The worker passes an object to `writeDataPoint`;
 * the analytics sink keeps its `blobs`, `doubles` and `indexes` fields and
 * ignores any other field.
 */
module Analytics {
  import opened Http

  /** The SHA-256 digest of a request path (the hash itself is not modelled). */
  type Digest = seq<byte>

  /** The fields of the object handed to `writeDataPoint`, `index` included. */
  datatype PointFields = PointFields(blobs: seq<string>, doubles: seq<real>, index: seq<Digest>, indexes: seq<Digest>)

  /** A datapoint as the sink stores it. */
  datatype DataPoint = DataPoint(blobs: seq<string>, doubles: seq<real>, indexes: seq<Digest>)

  /** The miss label is `cache-miss`, the hit label `cache_hit` (underscore), as src/index.js writes them. */
  const MissLabel := "cache-miss"
  const HitLabel := "cache_hit"

  /**
   * Which form of the worker the model follows where src/index.js has a
   * fault: as written, or with the fault corrected. The faults are the
   * miss datapoint's `index` field and the "null" validators of the HEAD.
   */
  datatype Revision = AsWritten | Corrected

  /** What the sink keeps of the object it is given: `index` is not one of its fields. */
  function Accepted(f: PointFields): (p: DataPoint)
    ensures p.blobs == f.blobs && p.doubles == f.doubles && p.indexes == f.indexes
  {
    DataPoint(f.blobs, f.doubles, f.indexes)
  }

  /** The object written on a cache hit. */
  function HitFields(hash: Digest): (f: PointFields)
    ensures f.blobs == [HitLabel] && f.doubles == [1.0]
    ensures f.indexes == [hash] && f.index == []
  {
    PointFields([HitLabel], [1.0], [], [hash])
  }

  /** The object written on a cache miss, as src/index.js writes it: the digest under `index`. */
  function MissFieldsAsWritten(hash: Digest): (f: PointFields)
    ensures f.blobs == [MissLabel] && f.doubles == [0.0]
    ensures f.index == [hash] && f.indexes == []
  {
    PointFields([MissLabel], [0.0], [hash], [])
  }

  /** The object written on a cache miss once the field is named `indexes`, as on a hit. */
  function MissFields(hash: Digest): (f: PointFields)
    ensures f.blobs == [MissLabel] && f.doubles == [0.0]
    ensures f.indexes == [hash] && f.index == []
  {
    PointFields([MissLabel], [0.0], [], [hash])
  }

  function HitPoint(hash: Digest): DataPoint {
    Accepted(HitFields(hash))
  }

  function MissPoint(hash: Digest): DataPoint {
    Accepted(MissFields(hash))
  }

  /** The miss datapoint the sink stores in each revision: only the corrected one keeps the digest. */
  function MissPointFor(rev: Revision, hash: Digest): (p: DataPoint)
    ensures p.blobs == [MissLabel] && p.doubles == [0.0]
    ensures p.indexes == if rev == AsWritten then [] else [hash]
  {
    if rev == AsWritten then Accepted(MissFieldsAsWritten(hash)) else MissPoint(hash)
  }

  /** As written, a miss datapoint reaches the sink without the path digest, while a hit datapoint keeps it. */
  lemma MissDigestDropped(hash: Digest)
    ensures Accepted(MissFieldsAsWritten(hash)).indexes == []
    ensures Accepted(HitFields(hash)).indexes == [hash]
  {
  }

  /**
   * With the field named `indexes`, both kinds of datapoint carry the path
   * digest; they differ in label and size marker.
   */
  lemma PointsCarryDigest(hash: Digest)
    ensures MissPoint(hash).indexes == [hash] && HitPoint(hash).indexes == [hash]
    ensures MissPoint(hash).blobs == ["cache-miss"] && MissPoint(hash).doubles == [0.0]
    ensures HitPoint(hash).blobs == ["cache_hit"] && HitPoint(hash).doubles == [1.0]
    ensures MissPoint(hash) != HitPoint(hash)
  {
  }
}
