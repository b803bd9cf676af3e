/**
 * `ComputeShaderDescriptorGenerator.TryGetIsPixelShaderLike`: whether a shader
 * type is a compute shader at all, and whether it is "pixel-shader-like", decided
 * by the first of its interfaces that is `IComputeShader` or is constructed from
 * `IComputeShader<T>`.
 */
module ShaderClassification {

  /** A Roslyn symbol, compared by identity as `SymbolEqualityComparer.Default` does. */
  type SymbolId = nat

  /** An interface in `AllInterfaces`, with the generic definition it is constructed from (itself when not generic). */
  datatype InterfaceSymbol = InterfaceSymbol(id: SymbolId, constructedFrom: SymbolId)

  /** The returned flag and the `out bool result`. */
  datatype Classification = Classification(isComputeShader: bool, isPixelShaderLike: bool)

  /** Whether an interface is one of the two the search looks for. */
  predicate Matches(i: InterfaceSymbol, computeShaderSymbol: SymbolId, pixelShaderSymbol: SymbolId) {
    i.id == computeShaderSymbol || i.constructedFrom == pixelShaderSymbol
  }

  /** `k` is the position of the first interface that matches. */
  predicate IsFirstMatch(allInterfaces: seq<InterfaceSymbol>, k: int, cs: SymbolId, ps: SymbolId) {
    0 <= k < |allInterfaces| && Matches(allInterfaces[k], cs, ps) &&
    forall j :: 0 <= j < k ==> !Matches(allInterfaces[j], cs, ps)
  }

  /**
   * The search over `allInterfaces`: `IComputeShader` gives (true, false), an
   * instance of `IComputeShader<T>` gives (true, true), and running out of
   * interfaces gives (false, false). A pixel-shader-like type is always a
   * compute shader type.
   */
  function TryGetIsPixelShaderLike(allInterfaces: seq<InterfaceSymbol>, computeShaderSymbol: SymbolId, pixelShaderSymbol: SymbolId)
    : (r: Classification)
    ensures r.isPixelShaderLike ==> r.isComputeShader
  {
    if allInterfaces == [] then Classification(false, false)
    else if allInterfaces[0].id == computeShaderSymbol then Classification(true, false)
    else if allInterfaces[0].constructedFrom == pixelShaderSymbol then Classification(true, true)
    else TryGetIsPixelShaderLike(allInterfaces[1..], computeShaderSymbol, pixelShaderSymbol)
  }

  /**
   * The result is decided by the first matching interface: the type is a compute
   * shader exactly when some interface matches, and it is pixel-shader-like exactly
   * when the first match is not `IComputeShader` itself.
   */
  lemma {:induction false} FirstMatchDecides(allInterfaces: seq<InterfaceSymbol>, cs: SymbolId, ps: SymbolId)
    ensures TryGetIsPixelShaderLike(allInterfaces, cs, ps).isComputeShader <==>
      exists k :: 0 <= k < |allInterfaces| && Matches(allInterfaces[k], cs, ps)
    ensures forall k :: IsFirstMatch(allInterfaces, k, cs, ps) ==>
      TryGetIsPixelShaderLike(allInterfaces, cs, ps).isPixelShaderLike == (allInterfaces[k].id != cs)
    decreases |allInterfaces|
  {
    if allInterfaces != [] && !Matches(allInterfaces[0], cs, ps) {
      var rest := allInterfaces[1..];
      FirstMatchDecides(rest, cs, ps);
      forall k | IsFirstMatch(allInterfaces, k, cs, ps)
        ensures TryGetIsPixelShaderLike(allInterfaces, cs, ps).isPixelShaderLike == (allInterfaces[k].id != cs)
      {
        assert rest[k - 1] == allInterfaces[k];
        assert IsFirstMatch(rest, k - 1, cs, ps) by {
          assert forall j :: 0 <= j < k - 1 ==> rest[j] == allInterfaces[j + 1];
        }
      }
      if exists k :: 0 <= k < |allInterfaces| && Matches(allInterfaces[k], cs, ps) {
        var k :| 0 <= k < |allInterfaces| && Matches(allInterfaces[k], cs, ps);
        assert rest[k - 1] == allInterfaces[k];
      }
    }
  }

  /** Interfaces after the first match are never looked at. */
  lemma {:induction false} LaterInterfacesIgnored(prefix: seq<InterfaceSymbol>, rest: seq<InterfaceSymbol>, cs: SymbolId, ps: SymbolId)
    requires exists k :: 0 <= k < |prefix| && Matches(prefix[k], cs, ps)
    ensures TryGetIsPixelShaderLike(prefix + rest, cs, ps) == TryGetIsPixelShaderLike(prefix, cs, ps)
    decreases |prefix|
  {
    if !Matches(prefix[0], cs, ps) {
      var k :| 0 <= k < |prefix| && Matches(prefix[k], cs, ps);
      assert prefix[1..][k - 1] == prefix[k];
      assert (prefix + rest)[1..] == prefix[1..] + rest;
      LaterInterfacesIgnored(prefix[1..], rest, cs, ps);
    }
  }
}
