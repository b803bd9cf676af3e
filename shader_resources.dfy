/**
 * `ComputeShaderDescriptorGenerator.Resources`: numbering the resource fields of
 * a compute shader, checking the root-signature budget, and writing the
 * `LoadGraphicsResources` method that binds each resource at its offset.
 */
module ShaderResources {
  import opened Outcomes
  import opened CSharpInt
  import opened IndentedText

  /** The type of a field, reduced to the facts the generator asks about it. */
  datatype TypeSymbol = TypeSymbol(
    isNamedType: bool,         // an `INamedTypeSymbol`
    isStatic: bool,
    isAccessible: bool,        // `IsAccessibleFromCompilationAssembly(compilation)`
    metadataName: string)      // `GetFullyQualifiedMetadataName()`

  /** A member of the shader struct, as `GetMembers()` lists it. */
  datatype MemberSymbol =
    | FieldSymbol(name: string, fieldType: TypeSymbol,
                  isConst: bool, isStatic: bool, isFixedSizeBuffer: bool, isImplicitlyDeclared: bool)
    | OtherMemberSymbol(name: string)

  /** The shader struct being described. */
  datatype ShaderTypeSymbol = ShaderTypeSymbol(name: string, members: seq<MemberSymbol>)

  /** A captured resource: its field, its type and its binding offset. */
  datatype ResourceInfo = ResourceInfo(fieldName: string, typeName: string, offset: nat)

  /** `ShaderDispatchDataSizeExceeded`, reported at the shader type and naming it. */
  datatype DiagnosticInfo = ShaderDispatchDataSizeExceeded(location: string, typeName: string)

  /** The gathered description of a shader that the writers read. */
  datatype ShaderInfo = ShaderInfo(
    hierarchy: seq<string>,      // qualified names, the shader type first
    resources: seq<ResourceInfo>,
    fields: seq<string>,         // the captured (non-resource) fields
    isPixelShaderLike: bool)

  /** The `ImmutableArrayBuilder<DiagnosticInfo>` diagnostics are added to. */
  class DiagnosticsBuilder {
    var items: seq<DiagnosticInfo>

    constructor ()
      ensures items == []
    {
      items := [];
    }

    method Add(d: DiagnosticInfo)
      modifies this
      ensures items == old(items) + [d]
    {
      items := items + [d];
    }
  }

  /** The fields the loop looks at: instance fields, not const, not fixed-size buffers, not implicit, of an accessible non-static named type. */
  predicate IsCandidateField(m: MemberSymbol) {
    m.FieldSymbol? && m.fieldType.isNamedType && !m.fieldType.isStatic &&
    !m.isConst && !m.isStatic && !m.isFixedSizeBuffer && !m.isImplicitlyDeclared &&
    m.fieldType.isAccessible
  }

  /** A candidate field whose type is a typed resource (`HlslKnownTypes.IsTypedResourceType`). */
  predicate IsResourceField(m: MemberSymbol, resourceTypeNames: set<string>) {
    IsCandidateField(m) && m.fieldType.metadataName in resourceTypeNames
  }

  /** The resource fields, in declaration order. */
  function ResourceFields(members: seq<MemberSymbol>, resourceTypeNames: set<string>): seq<MemberSymbol> {
    if members == [] then []
    else (if IsResourceField(members[0], resourceTypeNames) then [members[0]] else [])
         + ResourceFields(members[1..], resourceTypeNames)
  }

  /** The resources of `fields`, numbered 0, 1, 2, … in order. */
  function Numbered(fields: seq<MemberSymbol>): (rs: seq<ResourceInfo>)
    requires forall i :: 0 <= i < |fields| ==> fields[i].FieldSymbol?
    ensures |rs| == |fields|
    ensures forall i :: 0 <= i < |fields| ==>
      rs[i] == ResourceInfo(fields[i].name, fields[i].fieldType.metadataName, i)
  {
    seq(|fields|, i requires 0 <= i < |fields| => ResourceInfo(fields[i].name, fields[i].fieldType.metadataName, i))
  }

  /** Keeping the resource fields commutes with concatenation: the order of declaration is kept. */
  lemma {:induction false} ResourceFieldsAppend(a: seq<MemberSymbol>, b: seq<MemberSymbol>, rt: set<string>)
    ensures ResourceFields(a + b, rt) == ResourceFields(a, rt) + ResourceFields(b, rt)
    decreases |a|
  {
    if a == [] {
      assert a + b == b;
    } else {
      var head := if IsResourceField(a[0], rt) then [a[0]] else [];
      assert (a + b)[0] == a[0];
      assert (a + b)[1..] == a[1..] + b;
      assert ResourceFields(a + b, rt) == head + ResourceFields(a[1..] + b, rt);
      ResourceFieldsAppend(a[1..], b, rt);
      assert ResourceFields(a, rt) == head + ResourceFields(a[1..], rt);
    }
  }

  /** One more member: its resource, if it is one, is numbered after the earlier ones. */
  lemma ResourceStep(seen: seq<MemberSymbol>, m: MemberSymbol, rt: set<string>)
    requires ResourceFieldsAreFields(seen, rt)
    ensures ResourceFieldsAreFields(seen + [m], rt)
    ensures Numbered(ResourceFields(seen + [m], rt)) == Numbered(ResourceFields(seen, rt)) +
      (if IsResourceField(m, rt) then [ResourceInfo(m.name, m.fieldType.metadataName, |ResourceFields(seen, rt)|)] else [])
  {
    var before := ResourceFields(seen, rt);
    var added: seq<MemberSymbol> := if IsResourceField(m, rt) then [m] else [];
    ResourceFieldsAppend(seen, [m], rt);
    assert ResourceFields([m], rt) == added by {
      assert [m][1..] == [];
    }
    assert ResourceFields(seen + [m], rt) == before + added;
    assert forall i :: 0 <= i < |before + added| ==> (before + added)[i].FieldSymbol? by {
      assert forall i :: 0 <= i < |before| ==> before[i].FieldSymbol?;
    }
    NumberedAppend(before, added);
  }

  /** Numbering more fields leaves the earlier numbers alone. */
  lemma NumberedAppend(fields: seq<MemberSymbol>, more: seq<MemberSymbol>)
    requires forall i :: 0 <= i < |fields + more| ==> (fields + more)[i].FieldSymbol?
    ensures forall i :: 0 <= i < |fields| ==> fields[i].FieldSymbol?
    ensures forall i :: 0 <= i < |more| ==> more[i].FieldSymbol?
    ensures |more| == 1 ==>
      Numbered(fields + more) == Numbered(fields) + [ResourceInfo(more[0].name, more[0].fieldType.metadataName, |fields|)]
    ensures more == [] ==> Numbered(fields + more) == Numbered(fields)
  {
    assert forall i :: 0 <= i < |fields| ==> (fields + more)[i] == fields[i];
    assert forall i :: 0 <= i < |more| ==> (fields + more)[|fields| + i] == more[i];
    if more == [] {
      assert fields + more == fields;
    }
  }

  /** Exactly the resource fields of the struct are kept, and only fields. */
  lemma {:induction false} ResourceFieldsMembers(members: seq<MemberSymbol>, rt: set<string>)
    ensures forall m :: m in ResourceFields(members, rt) <==> m in members && IsResourceField(m, rt)
    ensures forall i :: 0 <= i < |ResourceFields(members, rt)| ==> ResourceFields(members, rt)[i].FieldSymbol?
    ensures |ResourceFields(members, rt)| <= |members|
    decreases |members|
  {
    if members != [] {
      ResourceFieldsMembers(members[1..], rt);
      assert members == [members[0]] + members[1..];
    }
  }

  /** A member that is not a resource field takes no offset: removing it changes no resource's offset. */
  lemma NonResourceMemberTakesNoOffset(members: seq<MemberSymbol>, i: nat, rt: set<string>)
    requires i < |members| && !IsResourceField(members[i], rt)
    ensures ResourceFields(members[..i] + members[i + 1..], rt) == ResourceFields(members, rt)
  {
    assert members == members[..i] + ([members[i]] + members[i + 1..]);
    ResourceFieldsAppend(members[..i], [members[i]] + members[i + 1..], rt);
    ResourceFieldsAppend([members[i]], members[i + 1..], rt);
    ResourceFieldsAppend(members[..i], members[i + 1..], rt);
    assert ResourceFields([members[i]], rt) == [] by {
      assert [members[i]][1..] == [];
    }
  }

  /** The root signature holds 64 DWORDs. */
  const RootSignatureDwords: int := 64

  /** Whether the constant buffer (in DWORDs, truncated) plus one descriptor table per resource exceed the root signature. */
  predicate ExceedsRootSignature(constantBufferSizeInBytes: int32, resourceCount: int) {
    Div(constantBufferSizeInBytes as int, 4) + resourceCount > RootSignatureDwords
  }

  /**
   * For a non-negative constant buffer size the budget is a bound on bytes: it is
   * exceeded exactly when the bytes plus four per resource reach 260, so a total
   * of exactly 64 DWORDs, and up to three stray bytes beyond them, still pass.
   */
  lemma RootSignatureBudgetInBytes(constantBufferSizeInBytes: int32, resourceCount: int)
    requires constantBufferSizeInBytes >= 0
    ensures ExceedsRootSignature(constantBufferSizeInBytes, resourceCount) <==>
      constantBufferSizeInBytes as int + 4 * resourceCount >= 4 * (RootSignatureDwords + 1)
    ensures Div(constantBufferSizeInBytes as int, 4) + resourceCount == RootSignatureDwords ==>
      !ExceedsRootSignature(constantBufferSizeInBytes, resourceCount)
  {
    var b := constantBufferSizeInBytes as int;
    assert Div(b, 4) == b / 4;
    assert b == 4 * (b / 4) + b % 4;
  }

  /**
   * `GetInfo`: numbers the resource fields 0, 1, 2, … in declaration order, and
   * adds one diagnostic if the constant buffer and the resources overflow the
   * root signature.
   */
  method GetInfo(diagnostics: DiagnosticsBuilder, shader: ShaderTypeSymbol,
                 resourceTypeNames: set<string>, constantBufferSizeInBytes: int32)
    returns (resources: seq<ResourceInfo>)
    modifies diagnostics
    ensures ResourceFieldsAreFields(shader.members, resourceTypeNames)
    ensures resources == Numbered(ResourceFields(shader.members, resourceTypeNames))
    ensures diagnostics.items == old(diagnostics.items) +
      (if ExceedsRootSignature(constantBufferSizeInBytes, |resources|)
       then [ShaderDispatchDataSizeExceeded(shader.name, shader.name)] else [])
  {
    var resourceOffset := 0;
    var resourceBuilder: seq<ResourceInfo> := [];
    ResourceFieldsMembers(shader.members, resourceTypeNames);
    for i := 0 to |shader.members|
      invariant resourceOffset == |resourceBuilder|
      invariant diagnostics.items == old(diagnostics.items)
      invariant ResourceFieldsAreFields(shader.members[..i], resourceTypeNames)
      invariant resourceBuilder == Numbered(ResourceFields(shader.members[..i], resourceTypeNames))
    {
      var memberSymbol := shader.members[i];
      assert shader.members[..i + 1] == shader.members[..i] + [memberSymbol];
      ResourceStep(shader.members[..i], memberSymbol, resourceTypeNames);
      if !(memberSymbol.FieldSymbol? && memberSymbol.fieldType.isNamedType && !memberSymbol.fieldType.isStatic &&
           !memberSymbol.isConst && !memberSymbol.isStatic && !memberSymbol.isFixedSizeBuffer &&
           !memberSymbol.isImplicitlyDeclared) {
        continue;
      }
      if !memberSymbol.fieldType.isAccessible {
        continue;
      }
      var fieldName := memberSymbol.name;
      var typeName := memberSymbol.fieldType.metadataName;
      if typeName in resourceTypeNames {
        resourceBuilder := resourceBuilder + [ResourceInfo(fieldName, typeName, resourceOffset)];
        resourceOffset := resourceOffset + 1;
      }
    }
    assert shader.members[..|shader.members|] == shader.members;
    resources := resourceBuilder;
    if Div(constantBufferSizeInBytes as int, 4) + resourceOffset > RootSignatureDwords {
      diagnostics.Add(ShaderDispatchDataSizeExceeded(shader.name, shader.name));
    }
  }

  /** Every kept member is a field (so it has a name and a type). */
  predicate ResourceFieldsAreFields(members: seq<MemberSymbol>, rt: set<string>) {
    forall i :: 0 <= i < |ResourceFields(members, rt)| ==> ResourceFields(members, rt)[i].FieldSymbol?
  }

  // ---------------------------------------------------------------------------
  // The generated `LoadGraphicsResources` method

  const LoaderCallPrefix: string := "loader.LoadGraphicsResource(shader."

  /** The statement that binds one resource: `loader.LoadGraphicsResource(shader.<field>, <offset>);`. */
  function LoaderLine(resource: ResourceInfo): string {
    LoaderCallPrefix + resource.fieldName + ", " + NatToString(resource.offset) + ");"
  }

  /** One loading statement per resource, in the resources' order. */
  function LoaderLines(resources: seq<ResourceInfo>): (lines: seq<string>)
    ensures |lines| == |resources|
    ensures forall k :: 0 <= k < |resources| ==> lines[k] == LoaderLine(resources[k])
  {
    seq(|resources|, k requires 0 <= k < |resources| => LoaderLine(resources[k]))
  }

  /** Reads a loading statement back as the field it loads and the offset it loads it at. */
  function ParseLoaderLine(line: string): Option<(string, nat)> {
    var p := |LoaderCallPrefix|;
    if |line| < p + 2 || line[..p] != LoaderCallPrefix || line[|line| - 2..] != ");" then None
    else ParseLoaderArguments(line[p..|line| - 2])
  }

  /** The two call arguments `<field>, <offset>`. */
  function ParseLoaderArguments(arguments: string): Option<(string, nat)> {
    match IndexOf(arguments, ',')
    case None => None
    case Some(k) =>
      var rest := arguments[k + 1..];
      if |rest| >= 2 && rest[0] == ' ' && IsDigits(rest[1..]) then Some((arguments[..k], ParseNat(rest[1..])))
      else None
  }

  /** A field name as C# allows it: it holds no comma. */
  predicate IsFieldName(name: string) {
    ',' !in name
  }

  /** Each loading statement names its resource's field and offset, and nothing else. */
  lemma ParseLoaderLineRoundTrip(resource: ResourceInfo)
    requires IsFieldName(resource.fieldName)
    ensures ParseLoaderLine(LoaderLine(resource)) == Some((resource.fieldName, resource.offset))
  {
    var arguments := resource.fieldName + ", " + NatToString(resource.offset);
    assert LoaderLine(resource) == LoaderCallPrefix + arguments + ");";
    Enclosed(LoaderCallPrefix, arguments, ");");
    ParseLoaderArgumentsOf(resource.fieldName, NatToString(resource.offset));
    ParseNatToString(resource.offset);
  }

  lemma ParseLoaderArgumentsOf(name: string, digits: string)
    requires IsFieldName(name) && |digits| >= 1 && IsDigits(digits)
    ensures ParseLoaderArguments(name + ", " + digits) == Some((name, ParseNat(digits)))
  {
    var rest := " " + digits;
    assert name + ", " + digits == name + [','] + rest;
    assert rest[1..] == digits;
    ParseArgumentsAfterComma(name, rest);
  }

  /** The arguments split at their first comma. */
  lemma ParseArgumentsAfterComma(a: string, b: string)
    requires ',' !in a && |b| >= 2 && b[0] == ' ' && IsDigits(b[1..])
    ensures ParseLoaderArguments(a + [','] + b) == Some((a, ParseNat(b[1..])))
  {
    var arguments := a + [','] + b;
    IndexOfAfter(a, ',', b);
    assert arguments[|a| + 1..] == b;
    assert arguments[..|a|] == a;
  }

  /** The parts of a string made of a prefix, a middle and a suffix. */
  lemma Enclosed(prefix: string, middle: string, suffix: string)
    ensures var line := prefix + middle + suffix;
      line[..|prefix|] == prefix && line[|line| - |suffix|..] == suffix &&
      line[|prefix|..|line| - |suffix|] == middle
  {
  }

  /**
   * `WriteSyntax`: the doc comment, the generated attributes, the signature,
   * then a block with one loading statement per resource, in order.
   */
  method WriteSyntax(info: ShaderInfo, writer: IndentedTextWriter, generatorName: string)
    requires |info.hierarchy| >= 1
    modifies writer
    ensures writer.indentLevel == old(writer.indentLevel)
    ensures writer.lines == old(writer.lines) + LoadGraphicsResourcesLines(info, generatorName, old(writer.indentLevel))
  {
    var typeName := info.hierarchy[0];
    ghost var indent, start := writer.indentLevel, writer.lines;
    ghost var header := LoadGraphicsResourcesHeader(info, generatorName, indent);
    writer.WriteLine("/// <inheritdoc/>");
    writer.WriteGeneratedAttributes(generatorName);
    writer.WriteLine(LoadGraphicsResourcesSignature(typeName));
    writer.OpenBlock();
    assert writer.lines == start + header;
    ghost var afterHeader := writer.lines;
    WriteLoaderLines(info.resources, writer);
    ghost var body := Indented(indent + 1, LoaderLines(info.resources));
    assert writer.lines == afterHeader + body;
    ghost var afterBody := writer.lines;
    writer.CloseBlock();
    assert writer.lines == afterBody + [TextLine(indent, "}")];
    AppendThree(start, header, body, [TextLine(indent, "}")]);
  }

  /** The body of the `using (writer.WriteBlock())` block: one loading statement per resource. */
  method WriteLoaderLines(resources: seq<ResourceInfo>, writer: IndentedTextWriter)
    modifies writer
    ensures writer.indentLevel == old(writer.indentLevel)
    ensures writer.lines == old(writer.lines) + Indented(writer.indentLevel, LoaderLines(resources))
  {
    for i := 0 to |resources|
      invariant writer.indentLevel == old(writer.indentLevel)
      invariant writer.lines == old(writer.lines) + Indented(writer.indentLevel, LoaderLines(resources[..i]))
    {
      var resource := resources[i];
      assert LoaderLines(resources[..i + 1]) == LoaderLines(resources[..i]) + [LoaderLine(resource)];
      IndentedAppend(writer.indentLevel, LoaderLines(resources[..i]), LoaderLine(resource));
      writer.WriteLine(LoaderLine(resource));
    }
    assert resources[..|resources|] == resources;
  }

  const SignatureStart: string := "static void global::ComputeSharp.Descriptors.IComputeShaderDescriptor<"
  const SignatureMiddle: string := ">.LoadGraphicsResources<TLoader>(in "
  const SignatureEnd: string := " shader, ref TLoader loader)"

  /** The explicit interface implementation of `LoadGraphicsResources` for the shader type. */
  function LoadGraphicsResourcesSignature(typeName: string): string {
    SignatureStart + typeName + SignatureMiddle + typeName + SignatureEnd
  }

  /** Everything `WriteSyntax` writes, starting at indentation level `indent`. */
  function LoadGraphicsResourcesLines(info: ShaderInfo, generatorName: string, indent: nat): (lines: seq<WrittenLine>)
    requires |info.hierarchy| >= 1
    ensures |lines| == |info.resources| + 5
  {
    LoadGraphicsResourcesHeader(info, generatorName, indent) +
    Indented(indent + 1, LoaderLines(info.resources)) +
    [TextLine(indent, "}")]
  }

  /** Regrouping a concatenation of four sequences. */
  lemma AppendThree<T>(a: seq<T>, b: seq<T>, c: seq<T>, d: seq<T>)
    ensures a + b + c + d == a + (b + c + d)
  {
  }

  /** The doc comment, the attributes, the signature and the opening brace. */
  function LoadGraphicsResourcesHeader(info: ShaderInfo, generatorName: string, indent: nat): seq<WrittenLine>
    requires |info.hierarchy| >= 1
  {
    [TextLine(indent, "/// <inheritdoc/>"),
     GeneratedAttributes(indent, generatorName),
     TextLine(indent, LoadGraphicsResourcesSignature(info.hierarchy[0])),
     TextLine(indent, "{")]
  }

  /**
   * The body of the generated method holds exactly one statement per resource,
   * and the k-th statement loads the k-th resource at that resource's offset.
   */
  lemma LoadGraphicsResourcesBody(info: ShaderInfo, generatorName: string, indent: nat)
    requires |info.hierarchy| >= 1
    requires forall r :: r in info.resources ==> IsFieldName(r.fieldName)
    ensures var lines := LoadGraphicsResourcesLines(info, generatorName, indent);
      lines[4..|lines| - 1] == Indented(indent + 1, LoaderLines(info.resources)) &&
      forall k :: 0 <= k < |info.resources| ==>
        lines[4 + k].TextLine? &&
        ParseLoaderLine(lines[4 + k].text) == Some((info.resources[k].fieldName, info.resources[k].offset))
  {
    var lines := LoadGraphicsResourcesLines(info, generatorName, indent);
    assert lines[4..|lines| - 1] == Indented(indent + 1, LoaderLines(info.resources));
    forall k | 0 <= k < |info.resources|
      ensures lines[4 + k].TextLine? &&
        ParseLoaderLine(lines[4 + k].text) == Some((info.resources[k].fieldName, info.resources[k].offset))
    {
      assert lines[4 + k] == Indented(indent + 1, LoaderLines(info.resources))[k];
      assert info.resources[k] in info.resources;
      ParseLoaderLineRoundTrip(info.resources[k]);
    }
  }

  /**
   * From fields to generated code: when the resources are the ones `GetInfo`
   * numbered, the k-th loading statement loads the k-th resource field in
   * declaration order, at offset k.
   */
  lemma GeneratedLoadsFollowDeclarationOrder(members: seq<MemberSymbol>, rt: set<string>, k: nat)
    requires forall m :: m in members && m.FieldSymbol? ==> IsFieldName(m.name)
    requires k < |ResourceFields(members, rt)|
    ensures ResourceFieldsAreFields(members, rt)
    ensures ParseLoaderLine(LoaderLines(Numbered(ResourceFields(members, rt)))[k]) ==
      Some((ResourceFields(members, rt)[k].name, k))
  {
    ResourceFieldsMembers(members, rt);
    var fields := ResourceFields(members, rt);
    assert fields[k] in fields;
    ParseLoaderLineRoundTrip(Numbered(fields)[k]);
  }
}
