/** The textures a scene node carries, each tagged with the role it plays
    in shading (diffuse map, normal map, ...). */
module Components {
  import opened GL
  import opened Wrappers
  import Sequences

  /** ETextureSemantics; its enumerators are not part of this model, so a
      semantic is known only by its code. */
  datatype TextureSemantics = TextureSemantics(code: nat)

  /** A texture object as the component refers to it. */
  datatype Texture = Texture(id: nat, semantic: TextureSemantics)

  function HasSemantic(sem: TextureSemantics): (p: Texture -> bool)
    ensures forall t :: p(t) <==> t.semantic == sem
  {
    (t: Texture) => t.semantic == sem
  }

  datatype TexturesComponent = TexturesComponent(textures: seq<Texture>)
  {
    /** getNumTextures: the size of the list, returned as a 32-bit uint. */
    function GetNumTextures(): (n: uint32)
      ensures n as int == |textures| % UINT32_MODULUS
      ensures |textures| < UINT32_MODULUS ==> n as int == |textures|
    {
      (|textures| % UINT32_MODULUS) as uint32
    }

    /** getTexture: NULL past the end, otherwise the texture at idx. */
    function GetTexture(idx: uint32): (r: Option<Texture>)
      ensures r.Some? <==> idx as int < |textures|
      ensures r.Some? ==> r.value == textures[idx]
    {
      if idx as int >= |textures| then None else Some(textures[idx])
    }

    /** getTextures: the textures with the given semantic, in list order;
        empty when there is none. */
    function GetTextures(sem: TextureSemantics): (r: seq<Texture>)
      ensures forall t :: t in r <==> t in textures && t.semantic == sem
      ensures |r| <= |textures|
    {
      Sequences.Filter(textures, HasSemantic(sem))
    }
  }

  /** Below the 32-bit bound the count and the lookup agree: every index
      under getNumTextures() finds a texture and the first index at it finds
      none. */
  lemma CountMatchesLookup(c: TexturesComponent, idx: uint32)
    requires |c.textures| < UINT32_MODULUS
    ensures c.GetTexture(idx).Some? <==> idx < c.GetNumTextures()
  {
  }

  /** Looking up a texture by index and asking for its semantic meet: the
      texture at every index appears among the textures of its semantic. */
  lemma LookupInSemanticList(c: TexturesComponent, idx: uint32)
    requires c.GetTexture(idx).Some?
    ensures c.GetTexture(idx).value in c.GetTextures(c.GetTexture(idx).value.semantic)
  {
  }

  /** The textures of two distinct semantics never overlap, and together the
      lists of all semantics cover the component. */
  lemma SemanticListsPartition(c: TexturesComponent, s1: TextureSemantics, s2: TextureSemantics)
    ensures s1 != s2 ==> forall t :: t in c.GetTextures(s1) ==> t !in c.GetTextures(s2)
    ensures forall t :: t in c.textures ==> t in c.GetTextures(t.semantic)
  {
  }
}
