/** The bookkeeping of `dlb::TextureLoader`: the list of texture names it
    owns, the cap of 16, the format chosen from the file name, and which
    texture each texture unit ends up bound to. Image decoding is a
    parameter (`decoded`); the OpenGL texture state the calls act on is the
    `GlTextures` object every method is handed. */
module TextureLoader {

  /** `loadTexture` stops adding textures once it holds this many. */
  const MaxTextures: nat := 16

  /** OpenGL enumerants the loader passes. */
  const GL_TEXTURE0: int := 0x84C0
  const GL_TEXTURE_MAG_FILTER: int := 0x2800
  const GL_TEXTURE_MIN_FILTER: int := 0x2801
  const GL_TEXTURE_WRAP_S: int := 0x2802
  const GL_TEXTURE_WRAP_T: int := 0x2803
  const GL_LINEAR: int := 0x2601
  const GL_REPEAT: int := 0x2901

  /** The pixel format handed to `glTexImage2D`. */
  datatype Format = RGB | RGBA

  /** `endsWith`: false when `str` is shorter than `suffix`, otherwise
      whether the last |suffix| characters of `str` are `suffix`. */
  function EndsWith(str: string, suffix: string): (r: bool)
    ensures r <==> exists p :: p + suffix == str
  {
    if |str| < |suffix| then false
    else
      var p := str[..|str| - |suffix|];
      assert str[|str| - |suffix|..] == suffix ==> p + suffix == str;
      assert forall q :: q + suffix == str ==> str[|str| - |suffix|..] == suffix by {
        forall q | q + suffix == str ensures str[|str| - |suffix|..] == suffix {
          assert |q| == |str| - |suffix|;
        }
      }
      str[|str| - |suffix|..] == suffix
  }

  /** A string shorter than the suffix never ends with it, and every string
      ends with the empty suffix. */
  lemma EndsWithLength(str: string, suffix: string)
    ensures |str| < |suffix| ==> !EndsWith(str, suffix)
    ensures EndsWith(str, "")
  {
    assert str + "" == str;
  }

  /** Appending a suffix makes a string end with it. */
  lemma EndsWithAppended(p: string, suffix: string)
    ensures EndsWith(p + suffix, suffix)
  {
  }

  /** The format `loadTexture` chooses: RGBA exactly for names ending in
      ".png" (case-sensitively), RGB otherwise. */
  function ChooseFormat(filePath: string): (f: Format)
    ensures f == RGBA <==> EndsWith(filePath, ".png")
  {
    if EndsWith(filePath, ".png") then RGBA else RGB
  }

  /** ".PNG" is not ".png": an upper-case extension is loaded as RGB. */
  lemma UpperCasePngIsRgb()
    ensures ChooseFormat("IMAGE.PNG") == RGB
  {
    assert "IMAGE.PNG"[5..] != ".png" by {
      assert "IMAGE.PNG"[5..][1] == 'P';
    }
    assert !EndsWith("IMAGE.PNG", ".png");
  }

  /** The part of the OpenGL state the loader's calls touch. */
  class GlTextures {
    /** Texture names handed out by `glGenTextures` so far. */
    var names: set<nat>
    /** The texture unit `glActiveTexture` last selected. */
    var active: int
    /** The texture bound to `GL_TEXTURE_2D` on each texture unit. */
    var bound: map<int, nat>
    /** The textures given image data by `glTexImage2D`, with its format. */
    var images: map<nat, Format>
    /** Parameters set by `glTexParameteri`, per (texture, parameter). */
    var parameters: map<(nat, int), int>

    constructor ()
      ensures names == {} && active == GL_TEXTURE0 && bound == map[] && images == map[] && parameters == map[]
    {
      names, active, bound, images, parameters := {}, GL_TEXTURE0, map[], map[], map[];
    }

    /** `glGenTextures(1, &tex)`: a non-zero name not handed out before. */
    method GenTexture() returns (tex: nat)
      modifies this
      ensures tex > 0 && tex !in old(names) && names == old(names) + {tex}
      ensures active == old(active) && bound == old(bound)
      ensures images == old(images) && parameters == old(parameters)
    {
      ghost var b := UpperBound(names) + 1;
      assert Unused(names, b);
      tex :| Unused(names, tex);
      assert Unused(names, tex);
      names := names + {tex};
    }

    /** `glBindTexture(GL_TEXTURE_2D, tex)` on the active unit. */
    method BindTexture(tex: nat)
      modifies this
      ensures bound == old(bound)[active := tex]
      ensures names == old(names) && active == old(active)
      ensures images == old(images) && parameters == old(parameters)
    {
      bound := bound[active := tex];
    }
  }

  predicate Unused(names: set<nat>, n: nat) {
    n > 0 && n !in names
  }

  /** A number above every element of a finite set. */
  ghost function UpperBound(s: set<nat>): (b: nat)
    ensures forall x :: x in s ==> x < b
    decreases |s|
  {
    if s == {} then 0
    else
      var x :| x in s;
      var rest := UpperBound(s - {x});
      assert forall y :: y in s ==> y == x || y in s - {x};
      if x < rest then rest else x + 1
  }

  class TextureLoader {
    /** The names of the textures loaded, in load order. */
    var textures: seq<nat>

    /** At most 16 textures, all distinct names handed out by `gl`. */
    ghost predicate Valid(gl: GlTextures)
      reads this, gl
    {
      |textures| <= MaxTextures &&
      (forall i, j :: 0 <= i < j < |textures| ==> textures[i] != textures[j]) &&
      (forall i :: 0 <= i < |textures| ==> textures[i] in gl.names)
    }

    constructor ()
      ensures textures == []
    {
      textures := [];
    }

    /** `loadTexture`: with 16 textures nothing happens. Otherwise a fresh
        name is bound, given the image in the format the file name selects
        and the default wrap and filter parameters when decoding succeeded,
        and appended to the list whether or not decoding succeeded. */
    method LoadTexture(filePath: string, decoded: bool, gl: GlTextures) returns (self: TextureLoader)
      requires Valid(gl)
      modifies this, gl
      ensures self == this && Valid(gl)
      ensures old(|textures|) == MaxTextures ==>
        textures == old(textures) && gl.names == old(gl.names) && gl.bound == old(gl.bound) &&
        gl.images == old(gl.images) && gl.parameters == old(gl.parameters)
      ensures old(|textures|) < MaxTextures ==>
        |textures| == old(|textures|) + 1 && textures[..old(|textures|)] == old(textures) &&
        var tex := textures[old(|textures|)];
        tex > 0 && tex !in old(gl.names) && gl.names == old(gl.names) + {tex} &&
        gl.bound == old(gl.bound)[gl.active := tex] &&
        gl.images == (if decoded then old(gl.images)[tex := ChooseFormat(filePath)] else old(gl.images)) &&
        gl.parameters == (if decoded then DefaultParameters(old(gl.parameters), tex) else old(gl.parameters))
      ensures gl.active == old(gl.active)
    {
      self := this;
      if |textures| == MaxTextures {
        return;
      }
      var tex := gl.GenTexture();
      gl.BindTexture(tex);
      var format := RGB;
      if EndsWith(filePath, ".png") {
        format := RGBA;
      }
      if decoded {
        gl.images := gl.images[tex := format];
        gl.parameters := DefaultParameters(gl.parameters, tex);
      }
      textures := textures + [tex];
    }

    /** `setTexParameterI`: binds the last texture loaded and sets one of
        its parameters. `textures.back()` needs a non-empty list. */
    method SetTexParameterI(parameter: int, val: int, gl: GlTextures) returns (self: TextureLoader)
      requires |textures| > 0
      modifies gl
      ensures self == this
      ensures gl.bound == old(gl.bound)[gl.active := textures[|textures| - 1]]
      ensures gl.parameters == old(gl.parameters)[(textures[|textures| - 1], parameter) := val]
      ensures gl.names == old(gl.names) && gl.active == old(gl.active) && gl.images == old(gl.images)
    {
      gl.BindTexture(textures[|textures| - 1]);
      gl.parameters := gl.parameters[(textures[|textures| - 1], parameter) := val];
      self := this;
    }

    /** `enableTextures`: texture i is bound to unit GL_TEXTURE0 + i, in list
        order; other units keep their textures and the last unit selected
        stays active. */
    method EnableTextures(gl: GlTextures)
      modifies gl
      ensures forall i :: 0 <= i < |textures| ==> Unit(i) in gl.bound && gl.bound[Unit(i)] == textures[i]
      ensures forall u :: u in old(gl.bound) && !(GL_TEXTURE0 <= u < GL_TEXTURE0 + |textures|) ==>
        u in gl.bound && gl.bound[u] == old(gl.bound)[u]
      ensures forall u :: u in gl.bound ==> u in old(gl.bound) || GL_TEXTURE0 <= u < GL_TEXTURE0 + |textures|
      ensures gl.active == if textures == [] then old(gl.active) else GL_TEXTURE0 + |textures| - 1
      ensures gl.names == old(gl.names) && gl.images == old(gl.images) && gl.parameters == old(gl.parameters)
    {
      var texNo := GL_TEXTURE0;
      for i := 0 to |textures|
        invariant texNo == GL_TEXTURE0 + i
        invariant forall l :: 0 <= l < i ==> Unit(l) in gl.bound && gl.bound[Unit(l)] == textures[l]
        invariant forall u :: u in old(gl.bound) && !(GL_TEXTURE0 <= u < GL_TEXTURE0 + i) ==>
          u in gl.bound && gl.bound[u] == old(gl.bound)[u]
        invariant forall u :: u in gl.bound ==> u in old(gl.bound) || GL_TEXTURE0 <= u < GL_TEXTURE0 + i
        invariant gl.active == if i == 0 then old(gl.active) else GL_TEXTURE0 + i - 1
        invariant gl.names == old(gl.names) && gl.images == old(gl.images) && gl.parameters == old(gl.parameters)
      {
        gl.active := texNo;
        texNo := texNo + 1;
        gl.BindTexture(textures[i]);
      }
    }

    /** `bindLast`: binds the last texture loaded; needs a non-empty list. */
    method BindLast(gl: GlTextures)
      requires |textures| > 0
      modifies gl
      ensures gl.bound == old(gl.bound)[gl.active := textures[|textures| - 1]]
      ensures gl.names == old(gl.names) && gl.active == old(gl.active)
      ensures gl.images == old(gl.images) && gl.parameters == old(gl.parameters)
    {
      gl.BindTexture(textures[|textures| - 1]);
    }
  }

  /** The texture unit enumerant GL_TEXTURE0 + i. */
  function Unit(i: nat): int {
    GL_TEXTURE0 + i
  }

  /** The four parameters `loadTexture` sets on a decoded texture: repeat
      wrapping in s and t, linear minifying and magnifying filters. */
  function DefaultParameters(parameters: map<(nat, int), int>, tex: nat): (r: map<(nat, int), int>)
    ensures forall t, p :: (t, p) in r && t != tex ==> (t, p) in parameters && r[(t, p)] == parameters[(t, p)]
  {
    parameters[(tex, GL_TEXTURE_WRAP_S) := GL_REPEAT][(tex, GL_TEXTURE_WRAP_T) := GL_REPEAT]
      [(tex, GL_TEXTURE_MIN_FILTER) := GL_LINEAR][(tex, GL_TEXTURE_MAG_FILTER) := GL_LINEAR]
  }
}
