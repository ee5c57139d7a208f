/** core::Model (src/core/io/model.cpp): vertex equality and the
    de-duplicating loop of load_from_obj_file. The OBJ loader's answer is an
    input: its success flag and, for each shape, the vertex assembled for
    each mesh index (attribute lookup and the texture-coordinate flip happen
    before the model sees it). */
module Models {

  /** glm::vec3 position and glm::vec2 tex_coord, as reals. */
  datatype Vertex = Vertex(position: (real, real, real), texCoord: (real, real))

  /** Vertex::operator==: both attributes compare equal. */
  function VertexEquals(a: Vertex, b: Vertex): (equal: bool)
    ensures equal <==> a == b
  {
    a.position == b.position && a.texCoord == b.texCoord
  }

  // ---------------------------------------------------------------------
  // Reference definitions

  /** The stream of assembled vertices, shape after shape. */
  function Flatten(shapes: seq<seq<Vertex>>): seq<Vertex>
    decreases |shapes|
  {
    if |shapes| == 0 then [] else Flatten(shapes[..|shapes| - 1]) + shapes[|shapes| - 1]
  }

  /** The distinct vertices of a stream in first-occurrence order. */
  function Unique(s: seq<Vertex>): (u: seq<Vertex>)
    decreases |s|
  {
    if |s| == 0 then []
    else
      var before := Unique(s[..|s| - 1]);
      if s[|s| - 1] in before then before else before + [s[|s| - 1]]
  }

  predicate Distinct(s: seq<Vertex>) {
    forall i, j :: 0 <= i < j < |s| ==> s[i] != s[j]
  }

  /** Where a vertex sits in the list, for one that is in it. */
  function IndexOf(s: seq<Vertex>, v: Vertex): (i: nat)
    requires v in s
    ensures i < |s| && s[i] == v
    ensures forall j :: 0 <= j < i ==> s[j] != v
  {
    if s[0] == v then 0 else 1 + IndexOf(s[1..], v)
  }

  // ---------------------------------------------------------------------
  // The de-duplicating fold

  /** unique_vertices, the vertices appended and the indices appended so far. */
  datatype Dedup = Dedup(seen: map<Vertex, nat>, added: seq<Vertex>, indices: seq<nat>)

  /** One mesh index: a vertex not seen before gets the next index, which is
      vertices.size() at that moment, base + |added|; its index is appended
      in either case. */
  function DedupStep(base: nat, d: Dedup, v: Vertex): Dedup {
    if v in d.seen then Dedup(d.seen, d.added, d.indices + [d.seen[v]])
    else Dedup(d.seen[v := base + |d.added|], d.added + [v], d.indices + [base + |d.added|])
  }

  /** The whole loop over a stream, for a model that already held `base`
      vertices (unique_vertices starts empty on every call). */
  function DedupAll(base: nat, s: seq<Vertex>): Dedup
    decreases |s|
  {
    if |s| == 0 then Dedup(map[], [], [])
    else DedupStep(base, DedupAll(base, s[..|s| - 1]), s[|s| - 1])
  }

  /** The map knows exactly the added vertices, each with its own index. */
  ghost predicate SeenMatchesAdded(base: nat, d: Dedup) {
    (forall v :: v in d.seen ==> v in d.added) &&
    (forall j :: 0 <= j < |d.added| ==> d.added[j] in d.seen && d.seen[d.added[j]] == base + j)
  }

  /** Every index names, among the added vertices, the vertex it was
      appended for. */
  ghost predicate IndicesName(base: nat, d: Dedup, s: seq<Vertex>) {
    |d.indices| == |s| &&
    forall k :: 0 <= k < |s| ==> base <= d.indices[k] < base + |d.added| && d.added[d.indices[k] - base] == s[k]
  }

  lemma UniqueSnoc(s: seq<Vertex>, v: Vertex)
    ensures Unique(s + [v]) == if v in Unique(s) then Unique(s) else Unique(s) + [v]
  {
    assert (s + [v])[..|s|] == s;
  }

  lemma DedupAllSnoc(base: nat, s: seq<Vertex>, v: Vertex)
    ensures DedupAll(base, s + [v]) == DedupStep(base, DedupAll(base, s), v)
  {
    assert (s + [v])[..|s|] == s;
  }

  /** Unique keeps one copy of every vertex of the stream and no other. */
  lemma {:induction false} UniqueProperties(s: seq<Vertex>)
    ensures Distinct(Unique(s))
    ensures forall v :: v in Unique(s) <==> v in s
    decreases |s|
  {
    if |s| > 0 {
      var prefix := s[..|s| - 1];
      UniqueProperties(prefix);
      UniqueSnoc(prefix, s[|s| - 1]);
      assert prefix + [s[|s| - 1]] == s;
    }
  }

  /** The vertices the fold appends are Unique of the stream, and the map
      records each at its position. */
  lemma {:induction false} DedupAddsUnique(base: nat, s: seq<Vertex>)
    ensures DedupAll(base, s).added == Unique(s)
    ensures SeenMatchesAdded(base, DedupAll(base, s))
    decreases |s|
  {
    if |s| > 0 {
      var prefix := s[..|s| - 1];
      var v := s[|s| - 1];
      assert prefix + [v] == s;
      DedupAddsUnique(base, prefix);
      DedupAllSnoc(base, prefix, v);
      UniqueSnoc(prefix, v);
      UniqueProperties(prefix);
      var d0 := DedupAll(base, prefix);
      if v !in d0.seen {
        var d := DedupAll(base, s);
        forall j | 0 <= j < |d.added|
          ensures d.added[j] in d.seen && d.seen[d.added[j]] == base + j
        {
          if j < |d0.added| {
            assert d.added[j] == d0.added[j];
          }
        }
      }
    }
  }

  /** One step keeps every index naming its vertex, given a map that
      records each added vertex at its position. */
  lemma DedupStepIndicesName(base: nat, d: Dedup, s: seq<Vertex>, v: Vertex)
    requires IndicesName(base, d, s) && SeenMatchesAdded(base, d)
    ensures IndicesName(base, DedupStep(base, d, v), s + [v])
  {
    var d' := DedupStep(base, d, v);
    if v in d.seen {
      var j := IndexOf(d.added, v);
      assert d.seen[d.added[j]] == base + j;
    }
    forall k | 0 <= k < |s + [v]|
      ensures base <= d'.indices[k] < base + |d'.added| && d'.added[d'.indices[k] - base] == (s + [v])[k]
    {
      if k < |s| {
        assert d'.indices[k] == d.indices[k];
        assert d'.added[d.indices[k] - base] == d.added[d.indices[k] - base];
      }
    }
  }

  /** One index per consumed vertex, naming that vertex. */
  lemma {:induction false} DedupIndicesName(base: nat, s: seq<Vertex>)
    ensures IndicesName(base, DedupAll(base, s), s)
    decreases |s|
  {
    if |s| > 0 {
      var prefix := s[..|s| - 1];
      var v := s[|s| - 1];
      assert prefix + [v] == s;
      DedupIndicesName(base, prefix);
      DedupAllSnoc(base, prefix, v);
      DedupAddsUnique(base, prefix);
      DedupStepIndicesName(base, DedupAll(base, prefix), prefix, v);
    }
  }

  /** What the fold promises of the stream it consumed: one index per
      vertex, each naming the vertex it was appended for; the appended
      vertices are pairwise distinct, in first-occurrence order, the i-th of
      them at index base + i. */
  lemma DedupAllProperties(base: nat, s: seq<Vertex>)
    ensures var d := DedupAll(base, s);
      IndicesName(base, d, s) && d.added == Unique(s) && Distinct(d.added) && SeenMatchesAdded(base, d)
  {
    DedupIndicesName(base, s);
    DedupAddsUnique(base, s);
    UniqueProperties(s);
  }

  /** The index list reconstructs the stream: with the vertices the model
      held before, vertices[indices[k]] is the k-th assembled vertex. */
  lemma IndicesReconstructStream(old_vertices: seq<Vertex>, s: seq<Vertex>)
    ensures var d := DedupAll(|old_vertices|, s);
      |d.indices| == |s| &&
      forall k :: 0 <= k < |s| ==>
        d.indices[k] < |old_vertices + d.added| && (old_vertices + d.added)[d.indices[k]] == s[k]
  {
    DedupAllProperties(|old_vertices|, s);
  }

  /** The flattened stream of one more shape is the old stream followed by
      that shape's vertices. */
  lemma FlattenSnoc(shapes: seq<seq<Vertex>>, i: nat)
    requires i < |shapes|
    ensures Flatten(shapes[..i + 1]) == Flatten(shapes[..i]) + shapes[i]
  {
    assert shapes[..i + 1][..i] == shapes[..i];
  }

  class Model {
    var vertices: seq<Vertex>
    var indices: seq<nat>

    constructor()
      ensures vertices == [] && indices == []
    {
      vertices := [];
      indices := [];
    }

    /** The body of the inner loop, for one mesh index: the vertex is
        appended when unique_vertices does not know it yet, and its index is
        appended always. */
    method AddVertex(uniqueVertices: map<Vertex, nat>, vertex: Vertex,
                     ghost before: seq<Vertex>, ghost beforeIndices: seq<nat>, ghost base: nat, ghost d: Dedup)
      returns (unique: map<Vertex, nat>)
      requires base == |before| && uniqueVertices == d.seen
      requires vertices == before + d.added && indices == beforeIndices + d.indices
      modifies this
      ensures unique == DedupStep(base, d, vertex).seen
      ensures vertices == before + DedupStep(base, d, vertex).added
      ensures indices == beforeIndices + DedupStep(base, d, vertex).indices
    {
      unique := uniqueVertices;
      if vertex !in unique {
        unique := unique[vertex := |vertices|];
        vertices := vertices + [vertex];
      }
      indices := indices + [unique[vertex]];
    }

    /** load_from_obj_file: the loader's flag is passed through, the loop
        runs whatever the flag says, and vertices and indices are appended
        to, never cleared. */
    method LoadFromObjFile(loaded: bool, shapes: seq<seq<Vertex>>) returns (res: bool)
      modifies this
      ensures res == loaded
      ensures var d := DedupAll(|old(vertices)|, Flatten(shapes));
        vertices == old(vertices) + d.added && indices == old(indices) + d.indices
    {
      var base := |vertices|;
      var uniqueVertices: map<Vertex, nat> := map[];
      ghost var done: seq<Vertex> := [];
      for si := 0 to |shapes|
        invariant done == Flatten(shapes[..si])
        invariant uniqueVertices == DedupAll(base, done).seen
        invariant vertices == old(vertices) + DedupAll(base, done).added
        invariant indices == old(indices) + DedupAll(base, done).indices
      {
        var shape := shapes[si];
        for ii := 0 to |shape|
          invariant done == Flatten(shapes[..si]) + shape[..ii]
          invariant uniqueVertices == DedupAll(base, done).seen
          invariant vertices == old(vertices) + DedupAll(base, done).added
          invariant indices == old(indices) + DedupAll(base, done).indices
        {
          var vertex := shape[ii];
          DedupAllSnoc(base, done, vertex);
          uniqueVertices := AddVertex(uniqueVertices, vertex, old(vertices), old(indices), base, DedupAll(base, done));
          done := done + [vertex];
          assert shape[..ii + 1] == shape[..ii] + [vertex];
        }
        assert shape[..|shape|] == shape;
        FlattenSnoc(shapes, si);
      }
      assert shapes[..|shapes|] == shapes;
      return loaded;
    }
  }
}
