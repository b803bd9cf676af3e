/**
 * Generated C# source as the source generators write it: decimal rendering
 * of offsets (what C# string interpolation produces for a non-negative `int`)
 * and a line recorder standing in for `IndentedTextWriter`.
 */
module IndentedText {
  import opened Outcomes

  predicate IsDigit(c: char) {
    '0' <= c <= '9'
  }

  predicate IsDigits(s: string) {
    forall i :: 0 <= i < |s| ==> IsDigit(s[i])
  }

  function DigitChar(d: nat): (c: char)
    requires d < 10
    ensures IsDigit(c)
  {
    ('0' as int + d) as char
  }

  function DigitValue(c: char): nat
    requires IsDigit(c)
  {
    c as int - '0' as int
  }

  /** The decimal text of `n`, most significant digit first, with no leading zeros. */
  function NatToString(n: nat): (s: string)
    ensures |s| >= 1 && IsDigits(s)
  {
    if n < 10 then [DigitChar(n)] else NatToString(n / 10) + [DigitChar(n % 10)]
  }

  /** Reads a string of decimal digits back as a number. */
  function ParseNat(s: string): nat
    requires IsDigits(s)
  {
    if |s| == 0 then 0 else 10 * ParseNat(s[..|s| - 1]) + DigitValue(s[|s| - 1])
  }

  /** Rendering a number and reading it back gives the number. */
  lemma {:induction false} ParseNatToString(n: nat)
    ensures ParseNat(NatToString(n)) == n
  {
    var s := NatToString(n);
    if n < 10 {
      assert s[..|s| - 1] == [];
    } else {
      var p := NatToString(n / 10);
      assert s[..|s| - 1] == p;
      ParseNatToString(n / 10);
    }
  }

  /** The position of the first `c` in `s`, if any. */
  function IndexOf(s: string, c: char): (r: Option<nat>)
    ensures r.Some? ==> r.value < |s| && s[r.value] == c && c !in s[..r.value]
    ensures r.None? ==> c !in s
  {
    if s == [] then None
    else if s[0] == c then Some(0)
    else
      var rest := IndexOf(s[1..], c);
      if rest.None? then None
      else
        assert s[..rest.value + 1] == [s[0]] + s[1..][..rest.value];
        Some(rest.value + 1)
  }

  /** The first `c` of `a + [c] + b` is the one after `a` when `a` has none. */
  lemma {:induction false} IndexOfAfter(a: string, c: char, b: string)
    requires c !in a
    ensures IndexOf(a + [c] + b, c) == Some(|a|)
    decreases |a|
  {
    if a == [] {
      assert (a + [c] + b)[0] == c;
    } else {
      assert (a + [c] + b)[1..] == a[1..] + [c] + b;
      IndexOfAfter(a[1..], c, b);
    }
  }

  /** One recorded line of generated text. */
  datatype WrittenLine =
    | TextLine(indent: nat, text: string)
      /** The generator's `[GeneratedCode]`-style attribute lines, whose text is not part of this model. */
    | GeneratedAttributes(indent: nat, generatorName: string)

  /** A writer of generated source: each written line is recorded with its indentation level. */
  class IndentedTextWriter {
    var lines: seq<WrittenLine>
    var indentLevel: nat

    constructor ()
      ensures lines == [] && indentLevel == 0
    {
      lines := [];
      indentLevel := 0;
    }

    method WriteLine(text: string)
      modifies this
      ensures lines == old(lines) + [TextLine(indentLevel, text)]
      ensures indentLevel == old(indentLevel)
    {
      lines := lines + [TextLine(indentLevel, text)];
    }

    /** Writes a multi-line literal, one recorded line per line of the literal. */
    method WriteLines(texts: seq<string>)
      modifies this
      ensures lines == old(lines) + Indented(indentLevel, texts)
      ensures indentLevel == old(indentLevel)
    {
      var i := 0;
      while i < |texts|
        invariant 0 <= i <= |texts|
        invariant indentLevel == old(indentLevel)
        invariant lines == old(lines) + Indented(indentLevel, texts[..i])
      {
        assert texts[..i + 1] == texts[..i] + [texts[i]];
        IndentedAppend(indentLevel, texts[..i], texts[i]);
        lines := lines + [TextLine(indentLevel, texts[i])];
        i := i + 1;
      }
      assert texts[..i] == texts;
    }

    /** Writes the multi-line literal only when `condition` holds. */
    method WriteLinesIf(condition: bool, texts: seq<string>)
      modifies this
      ensures lines == old(lines) + (if condition then Indented(indentLevel, texts) else [])
      ensures indentLevel == old(indentLevel)
    {
      if condition {
        WriteLines(texts);
      }
    }

    /** Writes an empty line only when `condition` holds. */
    method WriteBlankLineIf(condition: bool)
      modifies this
      ensures lines == old(lines) + (if condition then [TextLine(indentLevel, "")] else [])
      ensures indentLevel == old(indentLevel)
    {
      if condition {
        WriteLine("");
      }
    }

    method WriteGeneratedAttributes(generatorName: string)
      modifies this
      ensures lines == old(lines) + [GeneratedAttributes(indentLevel, generatorName)]
      ensures indentLevel == old(indentLevel)
    {
      lines := lines + [GeneratedAttributes(indentLevel, generatorName)];
    }

    /** Opens a `{ … }` block: the brace, then one more level of indentation. */
    method OpenBlock()
      modifies this
      ensures lines == old(lines) + [TextLine(old(indentLevel), "{")]
      ensures indentLevel == old(indentLevel) + 1
    {
      lines := lines + [TextLine(indentLevel, "{")];
      indentLevel := indentLevel + 1;
    }

    /** Closes the block that `OpenBlock` opened. */
    method CloseBlock()
      requires indentLevel > 0
      modifies this
      ensures indentLevel == old(indentLevel) - 1
      ensures lines == old(lines) + [TextLine(indentLevel, "}")]
    {
      indentLevel := indentLevel - 1;
      lines := lines + [TextLine(indentLevel, "}")];
    }
  }

  /** The lines `texts`, each recorded at indentation level `indent`. */
  function Indented(indent: nat, texts: seq<string>): (r: seq<WrittenLine>)
    ensures |r| == |texts|
    ensures forall i :: 0 <= i < |texts| ==> r[i] == TextLine(indent, texts[i])
  {
    seq(|texts|, i requires 0 <= i < |texts| => TextLine(indent, texts[i]))
  }

  lemma IndentedAppend(indent: nat, texts: seq<string>, t: string)
    ensures Indented(indent, texts + [t]) == Indented(indent, texts) + [TextLine(indent, t)]
  {
  }
}
