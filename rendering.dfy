/** The renderer's bookkeeping: the vertex-array object that collects one
    vertex-buffer name per attribute, and the renderer that keeps the list of
    drawable objects and culls them per frame. The OpenGL calls themselves
    are not modelled; a buffer's contents are recorded as what `glBufferData`
    was given. */
module Rendering {

  /** Element type announced to `glVertexAttribPointer`. */
  datatype ElemType = Float | Int

  /** The layout `glVertexAttribPointer` gives an attribute slot. */
  datatype Layout = Layout(size: nat, elemType: ElemType, normalize: bool)

  /** A number above every buffer name in `names`: a name `glGenBuffers`
      can hand out that none of them already has. */
  ghost function AboveAll(names: seq<nat>): (b: nat)
    ensures b > 0 && forall i :: 0 <= i < |names| ==> names[i] < b
    decreases |names|
  {
    if names == [] then 1
    else
      var rest := AboveAll(names[1..]);
      assert forall i :: 1 <= i < |names| ==> names[i] == names[1..][i - 1];
      if names[0] < rest then rest else names[0] + 1
  }

  class MultipleBufferVAO {
    var vao: nat
    /** Names of the buffers created by `addVertexAttribute`, in call order. */
    var vbos: seq<nat>
    /** What each buffer of `vbos` was filled with, at the same index. */
    var contents: seq<seq<int>>
    /** Layout of every attribute slot enabled so far. */
    var layouts: map<nat, Layout>
    var verticesN: int
    var vboDataOffset: int
    var firstWrite: bool

    ghost predicate Valid()
      reads this
    {
      |vbos| == |contents|
    }

    /** The vertex-array name comes from `glGenVertexArrays`, which the model
        does not see: any positive name is possible. */
    constructor ()
      ensures Valid()
      ensures vbos == [] && contents == [] && layouts == map[]
      ensures verticesN == 0 && vboDataOffset == 0 && firstWrite
      ensures vao > 0
    {
      var name: nat :| name > 0;
      vao := name;
      vbos := [];
      contents := [];
      layouts := map[];
      verticesN := 0;
      vboDataOffset := 0;
      firstWrite := true;
    }

    /** `use()` only binds the vertex array and returns the same object. */
    method Use() returns (self: MultipleBufferVAO)
      ensures self == this
    {
      self := this;
    }

    /** Appends one buffer, named by a positive name none of the earlier
        buffers has, holding `attribData` and enables attribute slot
        `attribId` with the given layout. The `std::vector<float>` and
        `std::vector<int>` overloads differ only in `elemType`. */
    method AddVertexAttribute(attribData: seq<int>, attribSize: nat, attribId: nat,
                              normalize: bool, elemType: ElemType)
      returns (self: MultipleBufferVAO)
      requires Valid()
      modifies this
      ensures Valid() && self == this
      ensures |vbos| == |old(vbos)| + 1 && vbos[..|old(vbos)|] == old(vbos) && vbos[|old(vbos)|] > 0
      ensures vbos[|old(vbos)|] !in old(vbos)
      ensures contents == old(contents) + [attribData]
      ensures layouts == old(layouts)[attribId := Layout(attribSize, elemType, normalize)]
      ensures vao == old(vao) && verticesN == old(verticesN)
      ensures vboDataOffset == old(vboDataOffset) && firstWrite == old(firstWrite)
    {
      assert AboveAll(vbos) !in vbos;
      var vbo: nat :| vbo > 0 && vbo !in vbos;
      vbos := vbos + [vbo];
      contents := contents + [attribData];
      layouts := layouts[attribId := Layout(attribSize, elemType, normalize)];
      self := this;
    }

    /** The overload taking a raw pointer and an element count: the first
        `attribDataCount` elements are copied into the new buffer. */
    method AddVertexAttributeFrom(attribData: array<int>, attribDataCount: nat,
                                  attribSize: nat, attribId: nat, normalize: bool)
      returns (self: MultipleBufferVAO)
      requires Valid()
      requires attribDataCount <= attribData.Length
      modifies this
      ensures Valid() && self == this
      ensures |vbos| == |old(vbos)| + 1 && vbos[..|old(vbos)|] == old(vbos) && vbos[|old(vbos)|] > 0
      ensures vbos[|old(vbos)|] !in old(vbos)
      ensures contents == old(contents) + [attribData[..attribDataCount]]
      ensures layouts == old(layouts)[attribId := Layout(attribSize, Float, normalize)]
      ensures vao == old(vao) && verticesN == old(verticesN)
      ensures vboDataOffset == old(vboDataOffset) && firstWrite == old(firstWrite)
    {
      assert AboveAll(vbos) !in vbos;
      var vbo: nat :| vbo > 0 && vbo !in vbos;
      vbos := vbos + [vbo];
      contents := contents + [attribData[..attribDataCount]];
      layouts := layouts[attribId := Layout(attribSize, Float, normalize)];
      self := this;
    }
  }

  /** The objects of `s` that pass `keep`, in their order in `s`. */
  function Filter(s: seq<object>, keep: object -> bool): (r: seq<object>)
    ensures |r| <= |s|
    ensures forall o :: o in r ==> o in s && keep(o)
  {
    if s == [] then [] else
      var rest := Filter(s[..|s| - 1], keep);
      if keep(s[|s| - 1]) then rest + [s[|s| - 1]] else rest
  }

  /** Every object of `s` that passes `keep` is kept. */
  lemma {:induction false} FilterKeepsPassing(s: seq<object>, keep: object -> bool, o: object)
    requires o in s && keep(o)
    ensures o in Filter(s, keep)
  {
    if o != s[|s| - 1] {
      assert o in s[..|s| - 1];
      FilterKeepsPassing(s[..|s| - 1], keep, o);
    }
  }

  /** Filtering a concatenation filters each part. */
  lemma {:induction false} FilterAppend(s: seq<object>, t: seq<object>, keep: object -> bool)
    ensures Filter(s + t, keep) == Filter(s, keep) + Filter(t, keep)
    decreases |t|
  {
    if t == [] {
      assert s + t == s;
    } else {
      assert (s + t)[..|s + t| - 1] == s + t[..|t| - 1];
      FilterAppend(s, t[..|t| - 1], keep);
    }
  }

  /** Every object passes exactly when nothing is filtered out. */
  lemma {:induction false} FilterAllPass(s: seq<object>, keep: object -> bool)
    ensures (forall i :: 0 <= i < |s| ==> keep(s[i])) <==> Filter(s, keep) == s
  {
    if s != [] && forall i :: 0 <= i < |s| ==> keep(s[i]) {
      var init := s[..|s| - 1];
      assert forall i :: 0 <= i < |init| ==> keep(init[i]) by {
        forall i | 0 <= i < |init| ensures keep(init[i]) { assert init[i] == s[i]; }
      }
      FilterAllPass(init, keep);
      assert init + [s[|s| - 1]] == s;
    }
    if Filter(s, keep) == s {
      forall i | 0 <= i < |s| ensures keep(s[i]) { assert s[i] in Filter(s, keep); }
    }
  }

  class Renderer {
    /** The attached objects, in attachment order. */
    var objects: seq<object>

    constructor ()
      ensures objects == []
    {
      objects := [];
    }

    /** Appends `obj` after the objects already attached; returns the renderer. */
    method AttatchObject(obj: object) returns (self: Renderer)
      modifies this
      ensures self == this
      ensures objects == old(objects) + [obj]
    {
      objects := objects + [obj];
      self := this;
    }

    /** One frame: every attached object is asked `inFrustum`, in order, and
        those that answer true are rendered. `queried` and `drawn` are the
        sequences of objects passed to `inFrustum` and to `render`; the two
        counters are what the source prints. */
    method Render(inFrustum: object -> bool)
      returns (queried: seq<object>, drawn: seq<object>, totalObjects: int, renderedObjects: int)
      ensures queried == objects
      ensures drawn == Filter(objects, inFrustum)
      ensures totalObjects == |objects| && renderedObjects == |drawn|
      ensures 0 <= renderedObjects <= totalObjects
    {
      totalObjects := |objects|;
      renderedObjects := 0;
      queried, drawn := [], [];
      var i := 0;
      while i < |objects|
        invariant 0 <= i <= |objects|
        invariant queried == objects[..i]
        invariant drawn == Filter(objects[..i], inFrustum)
        invariant renderedObjects == |drawn|
      {
        var obj := objects[i];
        queried := queried + [obj];
        assert objects[..i + 1][..i] == objects[..i];
        if inFrustum(obj) {
          renderedObjects := renderedObjects + 1;
          drawn := drawn + [obj];
        }
        i := i + 1;
      }
      assert objects[..i] == objects;
    }
  }
}
