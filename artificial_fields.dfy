/**
 * `ConstantBufferSyntaxProcessor.AppendArtificialFields`: the `int` fields that
 * back `DispatchSize` in a compute shader's constant buffer. `__x` and `__y`
 * are always there; `__z` only when the shader is not pixel-shader-like; a blank
 * line follows when the shader captures any fields of its own.
 */
module ArtificialFields {
  import opened Outcomes
  import opened IndentedText
  import ShaderResources
  import ShaderClassification

  /** A field of the generated constant buffer: its name, the `DispatchSize` axis it backs, its `[FieldOffset]`. */
  datatype ArtificialField = ArtificialField(name: string, axis: string, offset: nat)

  const FieldX := ArtificialField("__x", "X", 0)
  const FieldY := ArtificialField("__y", "Y", 4)
  const FieldZ := ArtificialField("__z", "Z", 8)

  /** The size in bytes of an `int` field. */
  const IntSize: nat := 4

  /** The fields emitted for a shader: `__x` and `__y`, then `__z` unless the shader is pixel-shader-like. */
  function ArtificialFieldsOf(isPixelShaderLike: bool): seq<ArtificialField> {
    [FieldX, FieldY] + (if isPixelShaderLike then [] else [FieldZ])
  }

  /**
   * `__x` and `__y` come first; there are 2 fields for a pixel-shader-like shader and
   * 3 otherwise; they pack `int`s back to back from offset 0 under distinct names;
   * and `__z` is among them exactly when the shader is not pixel-shader-like.
   */
  lemma ArtificialFieldsLayout(isPixelShaderLike: bool)
    ensures var fields := ArtificialFieldsOf(isPixelShaderLike);
      |fields| == (if isPixelShaderLike then 2 else 3) &&
      fields[0] == FieldX && fields[1] == FieldY &&
      (forall k :: 0 <= k < |fields| ==> fields[k].offset == IntSize * k) &&
      (forall j, k :: 0 <= j < k < |fields| ==> fields[j].offset < fields[k].offset && fields[j].name != fields[k].name) &&
      ((exists k :: 0 <= k < |fields| && fields[k].name == "__z") <==> !isPixelShaderLike)
  {
    var fields := ArtificialFieldsOf(isPixelShaderLike);
    if !isPixelShaderLike {
      assert fields[2].name == "__z";
    }
  }

  // ---------------------------------------------------------------------------
  // The emitted text

  const FieldOffsetPrefix: string := "[FieldOffset("
  const FieldDeclPrefix: string := "public int "

  const DocCommentStart: string := "///"
  const SummaryStart: string := " <summary>The artificial field backing <see cref=\"DispatchSize."
  const SummaryEnd: string := "\"/>.</summary>"

  /** The XML doc comment above a field. */
  function SummaryLine(axis: string): string {
    DocCommentStart + SummaryStart + axis + SummaryEnd
  }

  function FieldOffsetLine(offset: nat): string {
    FieldOffsetPrefix + NatToString(offset) + ")]"
  }

  function FieldDeclLine(name: string): string {
    FieldDeclPrefix + name + ";"
  }

  /** The three lines declaring one field: its doc comment, its offset attribute, its declaration. */
  function FieldLines(f: ArtificialField): seq<string> {
    [SummaryLine(f.axis), FieldOffsetLine(f.offset), FieldDeclLine(f.name)]
  }

  /** The first multi-line literal: `__x`, a blank line, `__y`. */
  function XyLines(): seq<string> {
    FieldLines(FieldX) + [""] + FieldLines(FieldY)
  }

  /** The second multi-line literal: `__z`. */
  function ZLines(): seq<string> {
    FieldLines(FieldZ)
  }

  /** Every line `AppendArtificialFields` writes. */
  function ArtificialFieldLines(isPixelShaderLike: bool, hasFields: bool): seq<string> {
    XyLines() + (if !isPixelShaderLike then ZLines() else []) + (if hasFields then [""] else [])
  }

  /**
   * `AppendArtificialFields`: the `__x`/`__y` literal, the `__z` literal when the
   * shader is not pixel-shader-like, and a blank line when it has fields.
   */
  method AppendArtificialFields(info: ShaderResources.ShaderInfo, writer: IndentedTextWriter)
    modifies writer
    ensures writer.indentLevel == old(writer.indentLevel)
    ensures writer.lines == old(writer.lines) +
      Indented(writer.indentLevel, ArtificialFieldLines(info.isPixelShaderLike, |info.fields| > 0))
  {
    ghost var start, indent := writer.lines, writer.indentLevel;
    ghost var z, blank := if !info.isPixelShaderLike then ZLines() else [], if |info.fields| > 0 then [""] else [];
    var xy := XyLines();
    writer.WriteLines(xy);
    writer.WriteLinesIf(!info.isPixelShaderLike, ZLines());
    writer.WriteBlankLineIf(|info.fields| > 0);
    assert writer.lines == start + Indented(indent, xy) + Indented(indent, z) + Indented(indent, blank);
    IndentedThree(start, indent, xy, z, blank);
  }

  /** Writing three runs of lines at one indentation is writing their concatenation. */
  lemma IndentedThree(start: seq<WrittenLine>, indent: nat, a: seq<string>, b: seq<string>, c: seq<string>)
    ensures start + Indented(indent, a) + Indented(indent, b) + Indented(indent, c) == start + Indented(indent, a + b + c)
  {
    IndentedConcat(indent, a, b);
    IndentedConcat(indent, a + b, c);
    calc {
      start + Indented(indent, a) + Indented(indent, b) + Indented(indent, c);
      start + (Indented(indent, a) + Indented(indent, b)) + Indented(indent, c);
      start + Indented(indent, a + b) + Indented(indent, c);
      start + (Indented(indent, a + b) + Indented(indent, c));
    }
  }

  lemma IndentedConcat(indent: nat, a: seq<string>, b: seq<string>)
    ensures Indented(indent, a + b) == Indented(indent, a) + Indented(indent, b)
  {
    assert forall i :: 0 <= i < |a| + |b| ==> (a + b)[i] == if i < |a| then a[i] else b[i - |a|];
  }

  // ---------------------------------------------------------------------------
  // Reading the declarations back

  /** The offset in a `[FieldOffset(<n>)]` line. */
  function ParseFieldOffset(line: string): Option<nat> {
    var p := |FieldOffsetPrefix|;
    if |line| < p + 2 || line[..p] != FieldOffsetPrefix || line[|line| - 2..] != ")]" then None
    else
      var digits := line[p..|line| - 2];
      if |digits| >= 1 && IsDigits(digits) then Some(ParseNat(digits)) else None
  }

  /** The name in a `public int <name>;` line. */
  function ParseFieldDecl(line: string): Option<string> {
    var p := |FieldDeclPrefix|;
    if |line| < p + 1 || line[..p] != FieldDeclPrefix || line[|line| - 1] != ';' then None
    else Some(line[p..|line| - 1])
  }

  /** The (name, offset) of every declaration that directly follows an offset attribute, in order. */
  function DeclaredFields(lines: seq<string>): seq<(string, nat)>
    decreases |lines|
  {
    if |lines| < 2 then []
    else match (ParseFieldOffset(lines[0]), ParseFieldDecl(lines[1]))
      case (Some(offset), Some(name)) => [(name, offset)] + DeclaredFields(lines[2..])
      case _ => DeclaredFields(lines[1..])
  }

  /** The (name, offset) pairs of a list of fields. */
  function Layout(fields: seq<ArtificialField>): (r: seq<(string, nat)>)
    ensures |r| == |fields|
    ensures forall k :: 0 <= k < |fields| ==> r[k] == (fields[k].name, fields[k].offset)
  {
    seq(|fields|, k requires 0 <= k < |fields| => (fields[k].name, fields[k].offset))
  }

  lemma FieldOffsetRoundTrip(offset: nat)
    ensures ParseFieldOffset(FieldOffsetLine(offset)) == Some(offset)
  {
    var digits := NatToString(offset);
    var line := FieldOffsetLine(offset);
    var p := |FieldOffsetPrefix|;
    assert line[..p] == FieldOffsetPrefix;
    assert line[|line| - 2..] == ")]";
    assert line[p..|line| - 2] == digits;
    ParseNatToString(offset);
  }

  lemma FieldDeclRoundTrip(name: string)
    ensures ParseFieldDecl(FieldDeclLine(name)) == Some(name)
  {
    var line := FieldDeclLine(name);
    var p := |FieldDeclPrefix|;
    assert line[..p] == FieldDeclPrefix;
    assert line[p..|line| - 1] == name;
  }

  /** A field's three lines contribute that field and nothing else. */
  lemma {:induction false} DeclaredFieldsOfField(f: ArtificialField, rest: seq<string>)
    ensures DeclaredFields(FieldLines(f) + rest) == [(f.name, f.offset)] + DeclaredFields(rest)
  {
    var lines := FieldLines(f) + rest;
    assert SummaryLine(f.axis)[0] == '/';
    assert ParseFieldOffset(lines[0]) == None by {
      assert lines[0][..|FieldOffsetPrefix|][0] == '/';
    }
    FieldOffsetRoundTrip(f.offset);
    FieldDeclRoundTrip(f.name);
    var tail := lines[1..];
    assert tail == [FieldOffsetLine(f.offset), FieldDeclLine(f.name)] + rest;
    assert tail[2..] == rest;
  }

  /** A blank line declares nothing. */
  lemma BlankDeclaresNothing(rest: seq<string>)
    ensures DeclaredFields([""] + rest) == DeclaredFields(rest)
  {
    if |rest| >= 1 {
      assert ([""] + rest)[1..] == rest;
    }
  }

  /**
   * Read back, the emitted text declares exactly the artificial fields, in order
   * and at their offsets: `__x` at 0, `__y` at 4, and `__z` at 8 unless the shader
   * is pixel-shader-like.
   */
  lemma {:induction false} EmittedLayout(isPixelShaderLike: bool, hasFields: bool)
    ensures DeclaredFields(ArtificialFieldLines(isPixelShaderLike, hasFields)) == Layout(ArtificialFieldsOf(isPixelShaderLike))
  {
    var tail := (if !isPixelShaderLike then ZLines() else []) + (if hasFields then [""] else []);
    assert ArtificialFieldLines(isPixelShaderLike, hasFields) ==
      FieldLines(FieldX) + ([""] + (FieldLines(FieldY) + tail));
    DeclaredTail(isPixelShaderLike, hasFields);
    DeclaredFieldsOfField(FieldY, tail);
    BlankDeclaresNothing(FieldLines(FieldY) + tail);
    DeclaredFieldsOfField(FieldX, [""] + (FieldLines(FieldY) + tail));
    LayoutOfArtificialFields(isPixelShaderLike);
  }

  /** The (name, offset) pairs of the artificial fields, written out. */
  lemma LayoutOfArtificialFields(isPixelShaderLike: bool)
    ensures Layout(ArtificialFieldsOf(isPixelShaderLike)) ==
      [(FieldX.name, FieldX.offset)] + ([(FieldY.name, FieldY.offset)] +
      (if isPixelShaderLike then [] else [(FieldZ.name, FieldZ.offset)]))
  {
  }

  /** After `__y`, the text declares `__z` when it is emitted and nothing else. */
  lemma DeclaredTail(isPixelShaderLike: bool, hasFields: bool)
    ensures DeclaredFields((if !isPixelShaderLike then ZLines() else []) + (if hasFields then [""] else [])) ==
      if isPixelShaderLike then [] else [(FieldZ.name, FieldZ.offset)]
  {
    var blank := if hasFields then [""] else [];
    assert DeclaredFields(blank) == [];
    if !isPixelShaderLike {
      DeclaredFieldsOfField(FieldZ, blank);
    } else {
      assert [] + blank == blank;
    }
  }

  /** The text ends with a blank line exactly when the shader has fields of its own. */
  lemma TrailingBlankLine(isPixelShaderLike: bool, hasFields: bool)
    ensures var lines := ArtificialFieldLines(isPixelShaderLike, hasFields);
      |lines| == (if isPixelShaderLike then 7 else 10) + (if hasFields then 1 else 0) &&
      (lines[|lines| - 1] == "" <==> hasFields)
  {
    var lines := ArtificialFieldLines(isPixelShaderLike, hasFields);
    if !hasFields {
      var last := if isPixelShaderLike then FieldY else FieldZ;
      assert lines[|lines| - 1] == FieldDeclLine(last.name);
      assert |FieldDeclLine(last.name)| > 0;
    }
  }

  /**
   * Together with the classification: a shader whose first matching interface is
   * `IComputeShader` gets `__z`, one whose first match is an `IComputeShader<T>`
   * instance does not.
   */
  lemma ZFieldFollowsClassification(
    allInterfaces: seq<ShaderClassification.InterfaceSymbol>, computeShaderSymbol: ShaderClassification.SymbolId,
    pixelShaderSymbol: ShaderClassification.SymbolId, k: int)
    requires ShaderClassification.IsFirstMatch(allInterfaces, k, computeShaderSymbol, pixelShaderSymbol)
    ensures var c := ShaderClassification.TryGetIsPixelShaderLike(allInterfaces, computeShaderSymbol, pixelShaderSymbol);
      var fields := ArtificialFieldsOf(c.isPixelShaderLike);
      c.isComputeShader &&
      ((exists j :: 0 <= j < |fields| && fields[j].name == "__z") <==> allInterfaces[k].id == computeShaderSymbol)
  {
    ShaderClassification.FirstMatchDecides(allInterfaces, computeShaderSymbol, pixelShaderSymbol);
    ArtificialFieldsLayout(ShaderClassification.TryGetIsPixelShaderLike(allInterfaces, computeShaderSymbol, pixelShaderSymbol).isPixelShaderLike);
  }
}
