// Meshes stored as chunks of an archive: each chunk has a unique id, a
// format tag and a stream of its own. The archive is the ucm library's; its
// `openChunk` is modelled as finding the chunk with that id and tag, its
// `newChunk` as adding an empty chunk under the next unused id, and a chunk's
// stream as starting at position 0 over the chunk's data.
module MeshArchive {
  import opened MeshTypes
  import opened Meshes
  import opened MeshLoader
  import opened MeshRoundTrip

  datatype Chunk = Chunk(tag: nat, data: seq<Cell>)

  class Archive {
    var chunks: map<nat, Chunk>
    var nextUid: nat

    /** Id 0 never names a chunk (it asks `save` for a new one); every id in use is below the next one. */
    predicate Valid()
      reads this
    {
      0 < nextUid && forall u :: u in chunks ==> 0 < u < nextUid
    }

    constructor ()
      ensures Valid() && chunks == map[]
    {
      chunks := map[];
      nextUid := 1;
    }

    /** The chunk `openChunk(uid, tag)` finds. */
    predicate HasChunk(uid: nat, tag: nat)
      reads this
    {
      uid in chunks && chunks[uid].tag == tag
    }

    /** `newChunk`: an empty chunk with the tag, under a fresh id. */
    method NewChunk(tag: nat) returns (uid: nat)
      requires Valid()
      modifies this
      ensures Valid()
      ensures uid == old(nextUid) && uid != 0 && uid !in old(chunks)
      ensures chunks == old(chunks)[uid := Chunk(tag, [])]
    {
      uid := nextUid;
      chunks := chunks[uid := Chunk(tag, [])];
      nextUid := nextUid + 1;
    }

    /** `updateAndCloseChunk`: the chunk's data becomes what its stream holds. */
    method UpdateChunk(uid: nat, data: seq<Cell>)
      requires Valid() && uid in chunks
      modifies this
      ensures Valid() && nextUid == old(nextUid)
      ensures chunks == old(chunks)[uid := Chunk(old(chunks)[uid].tag, data)]
    {
      chunks := chunks[uid := Chunk(chunks[uid].tag, data)];
    }
  }

  /**
   * `load(Mesh&, Archive&, uid)`: the mesh is loaded from the start of the
   * mesh chunk `uid`; without such a chunk nothing happens.
   */
  method LoadFromArchive(mesh: Mesh, archive: Archive, uid: nat, meta: Meta)
    modifies mesh
    ensures archive.HasChunk(uid, MeshTag) ==>
      mesh.Valid() && mesh.Data() == Decode(archive.chunks[uid].data, 0, old(Prior(mesh)), meta, 0)
    ensures !archive.HasChunk(uid, MeshTag) ==> unchanged(mesh)
  {
    if uid in archive.chunks && archive.chunks[uid].tag == MeshTag {
      var stream := new CellStream(archive.chunks[uid].data);
      Load(mesh, stream, meta);
    }
  }

  /**
   * `save(const Mesh&, Archive&, uid)`: id 0 saves into a new mesh chunk and
   * returns its id; any other id saves over the start of that mesh chunk,
   * which must exist (the stream of a missing chunk is dereferenced).
   */
  method SaveToArchive(mesh: Mesh, archive: Archive, uid: nat, meta: Meta) returns (r: nat)
    requires mesh.Valid() && (mesh.edges != null ==> mesh.edges.Length >= mesh.edgeCount)
    requires archive.Valid()
    requires uid != 0 ==> archive.HasChunk(uid, MeshTag)
    modifies archive
    ensures archive.Valid()
    ensures uid == 0 ==> r == old(archive.nextUid) && r !in old(archive.chunks)
    ensures uid != 0 ==> r == uid
    ensures archive.chunks
         == old(archive.chunks)[r := Chunk(MeshTag, Overwrite(if uid == 0 then [] else old(archive.chunks)[uid].data, 0,
                                                               Encode(old(mesh.Data()), meta)))]
  {
    r := uid;
    if uid == 0 {
      r := archive.NewChunk(MeshTag);
    }
    SaveIntoChunk(mesh, archive, r, meta);
  }

  /** Saves the mesh over the start of chunk `uid`, then stores what the chunk's stream holds. */
  method SaveIntoChunk(mesh: Mesh, archive: Archive, uid: nat, meta: Meta)
    requires mesh.Valid() && (mesh.edges != null ==> mesh.edges.Length >= mesh.edgeCount)
    requires archive.Valid() && uid in archive.chunks
    modifies archive
    ensures archive.Valid() && archive.nextUid == old(archive.nextUid)
    ensures archive.chunks
         == old(archive.chunks)[uid := Chunk(old(archive.chunks)[uid].tag, Overwrite(old(archive.chunks)[uid].data, 0,
                                                                                    Encode(old(mesh.Data()), meta)))]
  {
    var stream := new CellStream(archive.chunks[uid].data);
    Save(mesh, stream, meta);
    archive.UpdateChunk(uid, stream.data);
  }

  /** Writing `w` over the start of `s` leaves `w` followed by what `s` had past it. */
  lemma OverwriteFromStart(s: seq<Cell>, w: seq<Cell>)
    ensures Overwrite(s, 0, w) == w + (if |w| <= |s| then s[|w|..] else [])
  {
  }

  /** What follows a mesh saved over the start of `s`: the part of `s` it did not overwrite. */
  function Leftover(s: seq<Cell>, n: nat): seq<Cell>
  {
    if n <= |s| then s[n..] else []
  }

  /**
   * A mesh saved to an archive chunk and loaded back from it comes back as
   * `Reloaded` says, the edges read past it being those of the chunk's
   * earlier contents.
   */
  lemma ArchiveRoundTrip(d: MeshData, g: Meta, prev: seq<Cell>, p: MeshData, g2: Meta)
    requires Sized(d)
    ensures var e := Encode(d, g);
      Decode(Overwrite(prev, 0, e), 0, p, g2, 0) == Reloaded(d, p, g, Leftover(prev, |e|))
  {
    var e := Encode(d, g);
    OverwriteFromStart(prev, e);
    SaveLoadFromStart(d, g, Leftover(prev, |e|), p, g2);
  }

  /** A mesh saved to a new chunk and loaded back reads no edges past it. */
  lemma NewChunkRoundTrip(d: MeshData, g: Meta, p: MeshData, g2: Meta)
    requires Sized(d)
    ensures Decode(Overwrite([], 0, Encode(d, g)), 0, p, g2, 0) == Reloaded(d, p, g, [])
  {
    ArchiveRoundTrip(d, g, [], p, g2);
  }
}
