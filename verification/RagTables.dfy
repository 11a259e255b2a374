/**
 The chunk table and the vector table, both keyed by a chunk id derived from
 (version, sequence). The source hashes the pair; the model assumes that hash injective.
 */
module RagTables {

  type Version = nat

  datatype ChunkId = ChunkId(version: Version, sequence: nat)

  type Vector = seq<real>

  /** The status of a document's version, and of the document. */
  datatype Indexing = Pending | Indexed(chunkCount: nat) | IndexingFailed | Superseded

  datatype DocumentStatus = DocumentPending | DocumentIndexed | DocumentFailed | DocumentDeleted

  /** The rows or points of a table that do not belong to `versions`. */
  function Without<V>(m: map<ChunkId, V>, versions: set<Version>): map<ChunkId, V> {
    map id | id in m && id.version !in versions :: m[id]
  }

  /** The rows or points of one version. */
  function Of<V>(m: map<ChunkId, V>, version: Version): map<ChunkId, V> {
    map id | id in m && id.version == version :: m[id]
  }

  /** Items `lo..hi` keyed by their position. */
  function Keyed<V>(version: Version, items: seq<V>, lo: nat, hi: nat): map<ChunkId, V>
    requires lo <= hi <= |items|
  {
    map i | lo <= i < hi :: ChunkId(version, i) := items[i]
  }

  lemma KeyedOf<V>(version: Version, items: seq<V>, lo: nat, hi: nat)
    requires lo <= hi <= |items|
    ensures forall id :: id in Keyed(version, items, lo, hi) <==> id.version == version && lo <= id.sequence < hi
    ensures forall i :: lo <= i < hi ==> Keyed(version, items, lo, hi)[ChunkId(version, i)] == items[i]
  {
  }

  /** Replacing a version's rows leaves exactly the new ones, and nothing else changes. */
  lemma ReplaceVersion<V>(m: map<ChunkId, V>, version: Version, items: seq<V>)
    ensures
      var m' := Without(m, {version}) + Keyed(version, items, 0, |items|);
      && Of(m', version) == Keyed(version, items, 0, |items|)
      && Without(m', {version}) == Without(m, {version})
  {
  }

  /** Upserting the next batch extends a version's prefix. */
  lemma PutBatch<V>(m: map<ChunkId, V>, version: Version, items: seq<V>, n: nat, k: nat)
    requires n <= k <= |items|
    requires Of(m, version) == Keyed(version, items, 0, n)
    ensures
      var m' := m + Keyed(version, items, n, k);
      && Of(m', version) == Keyed(version, items, 0, k)
      && Without(m', {version}) == Without(m, {version})
  {
    hide Keyed;
    KeyedOf(version, items, 0, n);
    KeyedOf(version, items, n, k);
    KeyedOf(version, items, 0, k);
    var m' := m + Keyed(version, items, n, k);
    forall id | id in Of(m', version)
      ensures id in Keyed(version, items, 0, k) && Of(m', version)[id] == Keyed(version, items, 0, k)[id]
    {
      if id in Keyed(version, items, n, k) {
        assert id == ChunkId(version, id.sequence);
      } else {
        assert id in Of(m, version) && Of(m, version)[id] == m[id];
        assert id == ChunkId(version, id.sequence);
      }
    }
    forall id | id in Keyed(version, items, 0, k)
      ensures id in Of(m', version)
    {
      if id.sequence < n { assert id in Of(m, version); }
    }
    assert Of(m', version).Keys == Keyed(version, items, 0, k).Keys;
  }

  lemma WithoutTwice<V>(m: map<ChunkId, V>, versions: set<Version>)
    ensures Without(Without(m, versions), versions) == Without(m, versions)
  {
  }

  lemma ClearVersion<V>(m: map<ChunkId, V>, version: Version)
    ensures
      var m' := Without(m, {version});
      && Of(m', version) == map[]
      && Without(m', {version}) == Without(m, {version})
  {
  }
}
