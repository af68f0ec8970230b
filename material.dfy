/**
 * Material: the shader pair, colour tint, roughness, UV scale and offset,
 * and the named texture views and samplers bound to the pixel shader before
 * a draw.
 */
module Materials {
  import opened Wrappers
  import opened Maths
  import opened Gpu

  /** The fields of a Material. */
  datatype MaterialState = MaterialState(
    vertexShader: Option<VertexShader>,
    pixelShader: Option<PixelShader>,
    tint: Vec4,
    roughness: real,
    uvScale: Vec2,
    uvOffset: Vec2,
    textures: map<string, Srv>,
    samplers: map<string, Sampler>)

  /**
   * unordered_map::insert: a name already present keeps its first value;
   * a new name is added.
   */
  function Inserted<V>(m: map<string, V>, name: string, value: V): (r: map<string, V>)
    ensures r.Keys == m.Keys + {name}
    ensures name in m ==> r[name] == m[name]
    ensures name !in m ==> r[name] == value
    ensures forall k :: k in m && k != name ==> r[k] == m[k]
  {
    if name in m then m else m[name := value]
  }

  /** The first registration under a name wins: registering it again changes nothing. */
  lemma FirstRegistrationWins<V>(m: map<string, V>, name: string, first: V, second: V)
    ensures Inserted(Inserted(m, name, first), name, second) == Inserted(m, name, first)
    ensures Inserted(Inserted(m, name, first), name, second)[name] == (if name in m then m[name] else first)
  {
  }

  /** Registrations under different names commute. */
  lemma DistinctRegistrationsCommute<V>(m: map<string, V>, a: string, x: V, b: string, y: V)
    requires a != b
    ensures Inserted(Inserted(m, a, x), b, y) == Inserted(Inserted(m, b, y), a, x)
  {
  }

  /**
   * operator= as written: both shaders are reset first, then every field
   * except roughness is read from `source`; when `source` is the target
   * itself (`same`), the shaders it reads are the ones just reset.
   */
  function AssignedAsWritten(target: MaterialState, source: MaterialState, same: bool): MaterialState {
    var reset := target.(vertexShader := None, pixelShader := None);
    var from := if same then reset else source;
    reset.(vertexShader := from.vertexShader, pixelShader := from.pixelShader, tint := from.tint,
           textures := from.textures, samplers := from.samplers,
           uvScale := from.uvScale, uvOffset := from.uvOffset)
  }

  /** Assigning a material to itself as written loses both shaders. */
  lemma SelfAssignmentAsWrittenDropsShaders(m: MaterialState)
    ensures AssignedAsWritten(m, m, true) == m.(vertexShader := None, pixelShader := None)
    ensures m.pixelShader.Some? ==> AssignedAsWritten(m, m, true) != m
  {
  }

  /** Between two different materials, operator= as written copies everything but roughness. */
  lemma AssignmentAsWrittenKeepsRoughness(target: MaterialState, source: MaterialState)
    ensures AssignedAsWritten(target, source, false) == source.(roughness := target.roughness)
    ensures target.roughness != source.roughness ==> AssignedAsWritten(target, source, false) != source
  {
  }

  /** No name occurs twice. */
  predicate Distinct(names: seq<string>) {
    forall i, j :: 0 <= i < j < |names| ==> names[i] != names[j]
  }

  /**
   * `cs` binds every texture of `textures` to `ps`, each exactly once, in
   * some order (an unordered_map's iteration order is unspecified).
   */
  ghost predicate BindsTexturesOnce(cs: seq<Cmd>, ps: PixelShader, textures: map<string, Srv>) {
    (forall i :: 0 <= i < |cs| ==>
       cs[i].SetShaderResourceView? && cs[i].srvShader == ps
       && cs[i].srvName in textures && cs[i].view == textures[cs[i].srvName])
    && (forall i, j :: 0 <= i < j < |cs| ==> cs[i].srvName != cs[j].srvName)
    && (forall k :: k in textures ==> exists i :: 0 <= i < |cs| && cs[i].srvName == k)
  }

  /** The same for samplers. */
  ghost predicate BindsSamplersOnce(cs: seq<Cmd>, ps: PixelShader, samplers: map<string, Sampler>) {
    (forall i :: 0 <= i < |cs| ==>
       cs[i].SetSamplerState? && cs[i].samplerShader == ps
       && cs[i].samplerName in samplers && cs[i].state == samplers[cs[i].samplerName])
    && (forall i, j :: 0 <= i < j < |cs| ==> cs[i].samplerName != cs[j].samplerName)
    && (forall k :: k in samplers ==> exists i :: 0 <= i < |cs| && cs[i].samplerName == k)
  }

  /** A sequence listing each key of a set exactly once is as long as the set is large. */
  lemma {:induction false} ListingCount(names: seq<string>, keys: set<string>)
    requires Distinct(names)
    requires forall i :: 0 <= i < |names| ==> names[i] in keys
    requires forall k :: k in keys ==> exists i :: 0 <= i < |names| && names[i] == k
    ensures |names| == |keys|
    decreases |names|
  {
    if names == [] {
      assert keys == {};
    } else {
      var last := names[|names| - 1];
      var rest := names[..|names| - 1];
      forall k | k in keys - {last}
        ensures exists i :: 0 <= i < |rest| && rest[i] == k
      {
        var i :| 0 <= i < |names| && names[i] == k;
        assert rest[i] == k;
      }
      ListingCount(rest, keys - {last});
    }
  }

  /** Binding each texture once issues exactly as many calls as there are textures. */
  lemma TextureBindingCount(cs: seq<Cmd>, ps: PixelShader, textures: map<string, Srv>)
    requires BindsTexturesOnce(cs, ps, textures)
    ensures |cs| == |textures|
  {
    var names := seq(|cs|, i requires 0 <= i < |cs| => cs[i].srvName);
    forall k | k in textures.Keys
      ensures exists i :: 0 <= i < |names| && names[i] == k
    {
      var i :| 0 <= i < |cs| && cs[i].srvName == k;
      assert names[i] == k;
    }
    ListingCount(names, textures.Keys);
  }

  /** Binding each sampler once issues exactly as many calls as there are samplers. */
  lemma SamplerBindingCount(cs: seq<Cmd>, ps: PixelShader, samplers: map<string, Sampler>)
    requires BindsSamplersOnce(cs, ps, samplers)
    ensures |cs| == |samplers|
  {
    var names := seq(|cs|, i requires 0 <= i < |cs| => cs[i].samplerName);
    forall k | k in samplers.Keys
      ensures exists i :: 0 <= i < |names| && names[i] == k
    {
      var i :| 0 <= i < |cs| && cs[i].samplerName == k;
      assert names[i] == k;
    }
    ListingCount(names, samplers.Keys);
  }

  /** `cs` binds to `ps`, once each, exactly the textures whose names are not in `remaining`. */
  ghost predicate TexturesBoundExcept(cs: seq<Cmd>, ps: PixelShader, textures: map<string, Srv>, remaining: set<string>) {
    remaining <= textures.Keys
    && (forall i :: 0 <= i < |cs| ==>
          cs[i].SetShaderResourceView? && cs[i].srvShader == ps && cs[i].srvName in textures
          && cs[i].srvName !in remaining && cs[i].view == textures[cs[i].srvName])
    && (forall i, j :: 0 <= i < j < |cs| ==> cs[i].srvName != cs[j].srvName)
    && (forall k :: k in textures && k !in remaining ==> exists i :: 0 <= i < |cs| && cs[i].srvName == k)
  }

  /** Binding one more of the remaining names keeps the loop's account. */
  lemma BindNextTexture(cs: seq<Cmd>, ps: PixelShader, textures: map<string, Srv>, remaining: set<string>, name: string)
    requires TexturesBoundExcept(cs, ps, textures, remaining) && name in remaining
    ensures TexturesBoundExcept(cs + [SetShaderResourceView(ps, name, textures[name])], ps, textures, remaining - {name})
  {
    var next := cs + [SetShaderResourceView(ps, name, textures[name])];
    forall k | k in textures && k !in remaining - {name}
      ensures exists i :: 0 <= i < |next| && next[i].srvName == k
    {
      if k == name {
        assert next[|cs|].srvName == k;
      } else {
        var i :| 0 <= i < |cs| && cs[i].srvName == k;
        assert next[i] == cs[i];
      }
    }
  }

  /** `cs` binds to `ps`, once each, exactly the samplers whose names are not in `remaining`. */
  ghost predicate SamplersBoundExcept(cs: seq<Cmd>, ps: PixelShader, samplers: map<string, Sampler>, remaining: set<string>) {
    remaining <= samplers.Keys
    && (forall i :: 0 <= i < |cs| ==>
          cs[i].SetSamplerState? && cs[i].samplerShader == ps && cs[i].samplerName in samplers
          && cs[i].samplerName !in remaining && cs[i].state == samplers[cs[i].samplerName])
    && (forall i, j :: 0 <= i < j < |cs| ==> cs[i].samplerName != cs[j].samplerName)
    && (forall k :: k in samplers && k !in remaining ==> exists i :: 0 <= i < |cs| && cs[i].samplerName == k)
  }

  /** Binding one more of the remaining names keeps the loop's account. */
  lemma BindNextSampler(cs: seq<Cmd>, ps: PixelShader, samplers: map<string, Sampler>, remaining: set<string>, name: string)
    requires SamplersBoundExcept(cs, ps, samplers, remaining) && name in remaining
    ensures SamplersBoundExcept(cs + [SetSamplerState(ps, name, samplers[name])], ps, samplers, remaining - {name})
  {
    var next := cs + [SetSamplerState(ps, name, samplers[name])];
    forall k | k in samplers && k !in remaining - {name}
      ensures exists i :: 0 <= i < |next| && next[i].samplerName == k
    {
      if k == name {
        assert next[|cs|].samplerName == k;
      } else {
        var i :| 0 <= i < |cs| && cs[i].samplerName == k;
        assert next[i] == cs[i];
      }
    }
  }

  class Material {
    var vertexShader: Option<VertexShader>
    var pixelShader: Option<PixelShader>
    var tint: Vec4
    var roughness: real
    var uvScale: Vec2
    var uvOffset: Vec2
    var textures: map<string, Srv>
    var samplers: map<string, Sampler>

    function State(): MaterialState
      reads this
    {
      MaterialState(vertexShader, pixelShader, tint, roughness, uvScale, uvOffset, textures, samplers)
    }

    /** Both maps start empty; the UV scale and offset are left uninitialised. */
    constructor (vs: Option<VertexShader>, ps: Option<PixelShader>, colorTint: Vec4, roughness: real)
      ensures GetVertexShader() == vs && GetPixelShader() == ps && GetColor() == colorTint
      ensures GetRoughness() == roughness
      ensures GetTextures() == map[] && samplers == map[]
    {
      vertexShader := vs;
      pixelShader := ps;
      tint := colorTint;
      textures := map[];
      samplers := map[];
      this.roughness := roughness;
    }

    /** The copy constructor copies every field, roughness included. */
    constructor Copy(other: Material)
      ensures State() == other.State()
    {
      vertexShader := other.vertexShader;
      pixelShader := other.pixelShader;
      tint := other.tint;
      textures := other.textures;
      samplers := other.samplers;
      roughness := other.roughness;
      uvScale := other.uvScale;
      uvOffset := other.uvOffset;
    }

    /** operator= as written: reset the shaders, then copy all but roughness from `other`, which may be this. */
    method AssignAsWritten(other: Material)
      modifies this
      ensures State() == AssignedAsWritten(old(State()), old(other.State()), other == this)
    {
      if vertexShader != None { vertexShader := None; }
      if pixelShader != None { pixelShader := None; }
      vertexShader := other.vertexShader;
      pixelShader := other.pixelShader;
      tint := other.tint;
      textures := other.textures;
      samplers := other.samplers;
      uvScale := other.uvScale;
      uvOffset := other.uvOffset;
    }

    /**
     * operator= with a self-assignment guard, copying roughness as the copy
     * constructor does: the target becomes the source, self-assignment included.
     */
    method Assign(other: Material)
      modifies this
      ensures State() == old(other.State())
    {
      if other != this {
        vertexShader := other.vertexShader;
        pixelShader := other.pixelShader;
        tint := other.tint;
        textures := other.textures;
        samplers := other.samplers;
        roughness := other.roughness;
        uvScale := other.uvScale;
        uvOffset := other.uvOffset;
      }
    }

    // The getters return the fields by value; each setter below and the
    // constructor state their effect through them.

    function GetVertexShader(): (vs: Option<VertexShader>) reads this ensures vs == State().vertexShader { vertexShader }
    function GetPixelShader(): (ps: Option<PixelShader>) reads this ensures ps == State().pixelShader { pixelShader }
    function GetColor(): (c: Vec4) reads this ensures c == State().tint { tint }
    function GetRoughness(): (r: real) reads this ensures r == State().roughness { roughness }
    function GetScale(): (s: Vec2) reads this ensures s == State().uvScale { uvScale }
    function GetOffset(): (o: Vec2) reads this ensures o == State().uvOffset { uvOffset }
    /** A copy of the texture map: its keys are exactly the registered names. */
    function GetTextures(): (m: map<string, Srv>) reads this
      ensures m.Keys == State().textures.Keys
      ensures forall name :: name in m ==> m[name] == textures[name]
    { textures }

    method SetScale(scale: Vec2)
      modifies this`uvScale
      ensures GetScale() == scale
    {
      uvScale := scale;
    }

    method SetOffset(offset: Vec2)
      modifies this`uvOffset
      ensures GetOffset() == offset
    {
      uvOffset := offset;
    }

    method SetVertexShader(vs: Option<VertexShader>)
      modifies this`vertexShader
      ensures GetVertexShader() == vs
    {
      vertexShader := vs;
    }

    method SetPixelShader(ps: Option<PixelShader>)
      modifies this`pixelShader
      ensures GetPixelShader() == ps
    {
      pixelShader := ps;
    }

    method SetColor(colorTint: Vec4)
      modifies this`tint
      ensures GetColor() == colorTint
    {
      tint := colorTint;
    }

    method AddTexturesSRV(name: string, srv: Srv)
      modifies this`textures
      ensures textures == Inserted(old(textures), name, srv)
    {
      if name !in textures {
        textures := textures[name := srv];
      }
    }

    method AddSampler(name: string, sampler: Sampler)
      modifies this`samplers
      ensures samplers == Inserted(old(samplers), name, sampler)
    {
      if name !in samplers {
        samplers := samplers[name := sampler];
      }
    }

    /**
     * Binds every texture view, then every sampler, to the pixel shader, each
     * once, in an unspecified order. The shader is dereferenced once per
     * entry, so an empty pixel shader with any entry in either map is a null
     * dereference (`crashed`) before anything is issued; with both maps empty
     * the loops never touch it.
     */
    method PrepMaterialForDraw(g: Graphics)
      returns (crashed: bool, ghost textureCalls: seq<Cmd>, ghost samplerCalls: seq<Cmd>)
      requires g.Valid()
      modifies g`bound, g`trace
      ensures g.Valid() && g.bound == old(g.bound)
      ensures crashed <==> pixelShader.None? && (textures != map[] || samplers != map[])
      ensures g.trace == old(g.trace) + textureCalls + samplerCalls
      ensures pixelShader.Some? ==> BindsTexturesOnce(textureCalls, pixelShader.value, textures)
      ensures pixelShader.Some? ==> BindsSamplersOnce(samplerCalls, pixelShader.value, samplers)
      ensures pixelShader.None? ==> textureCalls == [] && samplerCalls == []
    {
      textureCalls, samplerCalls := [], [];
      if pixelShader.Some? {
        crashed := false;
        textureCalls := BindTextures(pixelShader.value, g);
        samplerCalls := BindSamplers(pixelShader.value, g);
      } else if textures != map[] {
        // the first texture entry dereferences the empty shader
        crashed := true;
      } else {
        // no texture entry; the first sampler entry, if any, dereferences it
        crashed := samplers != map[];
      }
    }

    /** The texture loop of PrepMaterialForDraw. */
    method BindTextures(ps: PixelShader, g: Graphics) returns (ghost textureCalls: seq<Cmd>)
      requires g.Valid()
      modifies g`bound, g`trace
      ensures g.Valid() && g.bound == old(g.bound)
      ensures g.trace == old(g.trace) + textureCalls
      ensures BindsTexturesOnce(textureCalls, ps, textures)
    {
      textureCalls := [];
      var remaining := textures.Keys;
      while remaining != {}
        invariant g.Valid() && g.bound == old(g.bound)
        invariant g.trace == old(g.trace) + textureCalls
        invariant TexturesBoundExcept(textureCalls, ps, textures, remaining)
        decreases remaining
      {
        var name :| name in remaining;
        var c := SetShaderResourceView(ps, name, textures[name]);
        g.Issue(c);
        BindNextTexture(textureCalls, ps, textures, remaining, name);
        textureCalls := textureCalls + [c];
        remaining := remaining - {name};
      }
    }

    /** The sampler loop of PrepMaterialForDraw. */
    method BindSamplers(ps: PixelShader, g: Graphics) returns (ghost samplerCalls: seq<Cmd>)
      requires g.Valid()
      modifies g`bound, g`trace
      ensures g.Valid() && g.bound == old(g.bound)
      ensures g.trace == old(g.trace) + samplerCalls
      ensures BindsSamplersOnce(samplerCalls, ps, samplers)
    {
      samplerCalls := [];
      var remaining := samplers.Keys;
      while remaining != {}
        invariant g.Valid() && g.bound == old(g.bound)
        invariant g.trace == old(g.trace) + samplerCalls
        invariant SamplersBoundExcept(samplerCalls, ps, samplers, remaining)
        decreases remaining
      {
        var name :| name in remaining;
        var c := SetSamplerState(ps, name, samplers[name]);
        g.Issue(c);
        BindNextSampler(samplerCalls, ps, samplers, remaining, name);
        samplerCalls := samplerCalls + [c];
        remaining := remaining - {name};
      }
    }
  }
}
