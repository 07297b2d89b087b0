/**
 * The two printers of a Swift function as a C (Objective-C mode) or a C++
 * forward declaration: the return type, a space, the function name, and
 * the parameters in parentheses. `CFunctionDecl` and `CxxFunctionDecl` say
 * what the declarations are; the class `DeclAndTypeClangFunctionPrinter`
 * writes them out piece by piece.
 */
module ClangFunctionPrinter {
  import opened ClangTypes
  import opened SignatureTypePrinter
  import Decimal

  /** A type after its optional wrapper has been taken off, and the optional kind it had. */
  datatype ObjectType = ObjectType(ty: Ty, kind: OptionalTypeKind)

  /** A parameter: its name ("" when it has none) and its resolved type. */
  datatype ParamDecl = ParamDecl(name: string, objectType: ObjectType)

  /** What the printers read of a function declaration: its parameters, in order. */
  datatype FuncDecl = FuncDecl(parameters: seq<ParamDecl>)

  /** The return type and every parameter type meet the type visitor's demands. */
  predicate SignaturePrintable(fd: FuncDecl, result: ObjectType, mode: OutputLanguageMode, mapping: PrimitiveTypeMapping)
  {
    && Printable(result.ty, mode, mapping)
    && forall i :: 0 <= i < |fd.parameters| ==> Printable(fd.parameters[i].objectType.ty, mode, mapping)
  }

  /** A space and the spelled identifier, or nothing for an empty name. */
  function NameSuffix(name: string, syntax: ClangSyntax): string
  {
    if name == "" then "" else " " + syntax.identifier(name)
  }

  /** What one call of the printers' local `print` helper writes: a type, then its name if any. */
  function TypeAndName(objectType: ObjectType, name: string, mode: OutputLanguageMode,
                       mapping: PrimitiveTypeMapping, syntax: ClangSyntax): string
    requires Printable(objectType.ty, mode, mapping)
  {
    TypeText(objectType.ty, objectType.kind, mode, mapping, syntax) + NameSuffix(name, syntax)
  }

  /** The summed length of the items. */
  function TotalLength(items: seq<string>): nat
  {
    if |items| == 0 then 0 else TotalLength(items[..|items| - 1]) + |items[|items| - 1]|
  }

  /** The items in order with ", " between neighbours, as `interleaveComma` writes them. */
  function CommaSeparated(items: seq<string>): string
  {
    if |items| == 0 then ""
    else if |items| == 1 then items[0]
    else CommaSeparated(items[..|items| - 1]) + ", " + items[|items| - 1]
  }

  /**
   * The joined text opens with the first item, closes with the last, and
   * adds exactly one two-character separator per pair of neighbours.
   */
  lemma {:induction false} CommaSeparatedFrame(items: seq<string>)
    requires |items| > 0
    ensures |CommaSeparated(items)| == TotalLength(items) + 2 * (|items| - 1)
    ensures items[0] <= CommaSeparated(items)
    ensures var r := CommaSeparated(items); var last := items[|items| - 1];
            r[|r| - |last|..] == last
    decreases |items|
  {
    if |items| > 1 {
      var init := items[..|items| - 1];
      CommaSeparatedFrame(init);
      assert init[0] == items[0];
    }
  }

  lemma AppendAssoc(a: string, b: string, c: string)
    ensures (a + b) + c == a + (b + c)
  {
  }

  /** The text written by six successive writes is the old text and their concatenation. */
  lemma AppendSix(t: string, a: string, b: string, c: string, d: string, e: string, f: string)
    ensures t + a + b + c + d + e + f == t + (a + b + c + d + e + f)
  {
    AppendAssoc(t, a, b);
    AppendAssoc(t, a + b, c);
    AppendAssoc(t, a + b + c, d);
    AppendAssoc(t, a + b + c + d, e);
    AppendAssoc(t, a + b + c + d + e, f);
  }

  /** One more item extends the text by a separator and that item (no separator before the first). */
  lemma CommaSeparatedPrefix(items: seq<string>, i: nat)
    requires i < |items|
    ensures CommaSeparated(items[..i + 1]) == if i == 0 then items[0] else CommaSeparated(items[..i]) + ", " + items[i]
  {
    assert items[..i + 1][..i] == items[..i];
  }

  /** Two non-empty runs of items joined are the two texts with one separator between them. */
  lemma {:induction false} CommaSeparatedAppend(a: seq<string>, b: seq<string>)
    requires |a| > 0 && |b| > 0
    ensures CommaSeparated(a + b) == CommaSeparated(a) + ", " + CommaSeparated(b)
    decreases |b|
  {
    var ab := a + b;
    assert ab[..|ab| - 1] == a + b[..|b| - 1];
    if |b| > 1 {
      CommaSeparatedAppend(a, b[..|b| - 1]);
    } else {
      assert ab[..|ab| - 1] == a;
    }
  }

  /** Read front to back: the first item, a separator, then the rest. */
  lemma CommaSeparatedCons(first: string, rest: seq<string>)
    requires |rest| > 0
    ensures CommaSeparated([first] + rest) == first + ", " + CommaSeparated(rest)
  {
    CommaSeparatedAppend([first], rest);
  }

  /** The C parameter texts: each type, and its name only when it has one. */
  function CParameterTexts(params: seq<ParamDecl>, mapping: PrimitiveTypeMapping, syntax: ClangSyntax): seq<string>
    requires forall i :: 0 <= i < |params| ==> Printable(params[i].objectType.ty, ObjC, mapping)
  {
    seq(|params|, i requires 0 <= i < |params| => TypeAndName(params[i].objectType, params[i].name, ObjC, mapping, syntax))
  }

  /** The name C++ gives a parameter without one, from its 1-based position. */
  function SynthesizedName(index: nat): string
  {
    "_" + Decimal.ToDecimal(index)
  }

  /** The name a C++ parameter is printed with, at 1-based position `index`. */
  function CxxParamName(param: ParamDecl, index: nat): string
  {
    if param.name == "" then SynthesizedName(index) else param.name
  }

  /** The C++ parameter texts: each type and its given or synthesised name. */
  function CxxParameterTexts(params: seq<ParamDecl>, mapping: PrimitiveTypeMapping, syntax: ClangSyntax): seq<string>
    requires forall i :: 0 <= i < |params| ==> Printable(params[i].objectType.ty, Cxx, mapping)
  {
    seq(|params|, i requires 0 <= i < |params| => TypeAndName(params[i].objectType, CxxParamName(params[i], i + 1), Cxx, mapping, syntax))
  }

  /** What goes between the parentheses in C: `void` for no parameters. */
  function CParameterList(params: seq<ParamDecl>, mapping: PrimitiveTypeMapping, syntax: ClangSyntax): string
    requires forall i :: 0 <= i < |params| ==> Printable(params[i].objectType.ty, ObjC, mapping)
  {
    if |params| == 0 then "void" else CommaSeparated(CParameterTexts(params, mapping, syntax))
  }

  /** What goes between the parentheses in C++: nothing for no parameters. */
  function CxxParameterList(params: seq<ParamDecl>, mapping: PrimitiveTypeMapping, syntax: ClangSyntax): string
    requires forall i :: 0 <= i < |params| ==> Printable(params[i].objectType.ty, Cxx, mapping)
  {
    if |params| == 0 then "" else CommaSeparated(CxxParameterTexts(params, mapping, syntax))
  }

  /** The C declaration. */
  function CFunctionDecl(fd: FuncDecl, name: string, result: ObjectType,
                         mapping: PrimitiveTypeMapping, syntax: ClangSyntax): string
    requires SignaturePrintable(fd, result, ObjC, mapping)
  {
    TypeText(result.ty, result.kind, ObjC, mapping, syntax) + " " + name + "("
      + CParameterList(fd.parameters, mapping, syntax) + ")"
  }

  /** The C++ declaration. */
  function CxxFunctionDecl(fd: FuncDecl, name: string, result: ObjectType,
                           mapping: PrimitiveTypeMapping, syntax: ClangSyntax): string
    requires SignaturePrintable(fd, result, Cxx, mapping)
  {
    TypeText(result.ty, result.kind, Cxx, mapping, syntax) + " " + name + "("
      + CxxParameterList(fd.parameters, mapping, syntax) + ")"
  }

  /**
   * Both declarations open with the return type, one space, the function
   * name exactly as given (it does not go through the identifier printer)
   * and "(", and close with ")".
   */
  lemma DeclarationShape(fd: FuncDecl, name: string, result: ObjectType, mode: OutputLanguageMode,
                         mapping: PrimitiveTypeMapping, syntax: ClangSyntax)
    requires SignaturePrintable(fd, result, mode, mapping)
    ensures var decl := if mode == Cxx then CxxFunctionDecl(fd, name, result, mapping, syntax)
                        else CFunctionDecl(fd, name, result, mapping, syntax);
            var head := TypeText(result.ty, result.kind, mode, mapping, syntax) + " " + name + "(";
            |decl| > |head| && decl[..|head|] == head && decl[|decl| - 1] == ')'
  {
  }

  /** A C declaration without parameters ends in `(void)`. */
  lemma CDeclWithoutParameters(fd: FuncDecl, name: string, result: ObjectType,
                               mapping: PrimitiveTypeMapping, syntax: ClangSyntax)
    requires SignaturePrintable(fd, result, ObjC, mapping)
    requires |fd.parameters| == 0
    ensures CFunctionDecl(fd, name, result, mapping, syntax)
         == TypeText(result.ty, result.kind, ObjC, mapping, syntax) + " " + name + "(void)"
  {
  }

  /** A C++ declaration without parameters ends in `()`. */
  lemma CxxDeclWithoutParameters(fd: FuncDecl, name: string, result: ObjectType,
                                 mapping: PrimitiveTypeMapping, syntax: ClangSyntax)
    requires SignaturePrintable(fd, result, Cxx, mapping)
    requires |fd.parameters| == 0
    ensures CxxFunctionDecl(fd, name, result, mapping, syntax)
         == TypeText(result.ty, result.kind, Cxx, mapping, syntax) + " " + name + "()"
  {
  }

  /** In C a parameter without a name is its type alone: no trailing space, no name. */
  lemma CParameterText(params: seq<ParamDecl>, i: nat, mapping: PrimitiveTypeMapping, syntax: ClangSyntax)
    requires forall j :: 0 <= j < |params| ==> Printable(params[j].objectType.ty, ObjC, mapping)
    requires i < |params|
    ensures var typeText := TypeText(params[i].objectType.ty, params[i].objectType.kind, ObjC, mapping, syntax);
            CParameterTexts(params, mapping, syntax)[i]
              == if params[i].name == "" then typeText else typeText + " " + syntax.identifier(params[i].name)
  {
  }

  /**
   * In C++ every parameter is printed with a name: its own, or, when it has
   * none, `_` and its 1-based position among all the parameters.
   */
  lemma CxxParameterText(params: seq<ParamDecl>, i: nat, mapping: PrimitiveTypeMapping, syntax: ClangSyntax)
    requires forall j :: 0 <= j < |params| ==> Printable(params[j].objectType.ty, Cxx, mapping)
    requires i < |params|
    ensures var typeText := TypeText(params[i].objectType.ty, params[i].objectType.kind, Cxx, mapping, syntax);
            CxxParameterTexts(params, mapping, syntax)[i]
              == typeText + " " + syntax.identifier(if params[i].name == "" then "_" + Decimal.ToDecimal(i + 1) else params[i].name)
  {
  }

  /** A synthesised name is `_` followed by one or more decimal digits. */
  lemma SynthesizedNameShape(i: nat)
    ensures |SynthesizedName(i)| >= 2 && SynthesizedName(i)[0] == '_'
    ensures forall k :: 1 <= k < |SynthesizedName(i)| ==> Decimal.IsDigit(SynthesizedName(i)[k])
  {
    var si := SynthesizedName(i);
    forall k | 1 <= k < |si| ensures Decimal.IsDigit(si[k]) {
      assert si[k] == Decimal.ToDecimal(i)[k - 1];
    }
  }

  /** Two positions never share a synthesised name. */
  lemma SynthesizedNamesDistinct(i: nat, j: nat)
    requires i != j
    ensures SynthesizedName(i) != SynthesizedName(j)
  {
    Decimal.ToDecimalInjective(i, j);
    assert SynthesizedName(i)[1..] == Decimal.ToDecimal(i);
    assert SynthesizedName(j)[1..] == Decimal.ToDecimal(j);
  }

  /**
   * The two dialects differ only in the empty list and in anonymous
   * parameters: when both partitions of the table agree and every parameter
   * has a name, a function with parameters prints the same in C and in C++.
   */
  lemma DialectsAgreeOnNamedParameters(fd: FuncDecl, name: string, result: ObjectType,
                                       mapping: PrimitiveTypeMapping, syntax: ClangSyntax)
    requires mapping.cTypes == mapping.cxxTypes
    requires SignaturePrintable(fd, result, ObjC, mapping)
    requires |fd.parameters| > 0
    requires forall i :: 0 <= i < |fd.parameters| ==> fd.parameters[i].name != ""
    ensures SignaturePrintable(fd, result, Cxx, mapping)
    ensures CFunctionDecl(fd, name, result, mapping, syntax) == CxxFunctionDecl(fd, name, result, mapping, syntax)
  {
    var params := fd.parameters;
    SameTablesSameText(result.ty, result.kind, mapping, syntax);
    forall i | 0 <= i < |params|
      ensures Printable(params[i].objectType.ty, Cxx, mapping)
      ensures TypeAndName(params[i].objectType, params[i].name, ObjC, mapping, syntax)
           == TypeAndName(params[i].objectType, params[i].name, Cxx, mapping, syntax)
    {
      SameTablesSameText(params[i].objectType.ty, params[i].objectType.kind, mapping, syntax);
    }
    assert CParameterTexts(params, mapping, syntax) == CxxParameterTexts(params, mapping, syntax);
  }

  /** The printer of C and C++ function declarations; it appends to `os`. */
  class DeclAndTypeClangFunctionPrinter {
    const os: RawOStream
    const typeMapping: PrimitiveTypeMapping
    const syntax: ClangSyntax

    constructor (os: RawOStream, typeMapping: PrimitiveTypeMapping, syntax: ClangSyntax)
      ensures this.os == os && this.typeMapping == typeMapping && this.syntax == syntax
    {
      this.os := os;
      this.typeMapping := typeMapping;
      this.syntax := syntax;
    }

    /** The local `print` helper of both printers, in the language `mode`. */
    method PrintTypeAndName(objectType: ObjectType, name: string, mode: OutputLanguageMode)
      requires Printable(objectType.ty, mode, typeMapping)
      modifies os
      ensures os.text == old(os.text) + TypeAndName(objectType, name, mode, typeMapping, syntax)
    {
      ghost var typeText := TypeText(objectType.ty, objectType.kind, mode, typeMapping, syntax);
      var typePrinter := new CFunctionSignatureTypePrinter(os, typeMapping, mode, syntax);
      typePrinter.Visit(objectType.ty, objectType.kind);
      if name != "" {
        os.Write(" ");
        os.Write(syntax.identifier(name));
        AppendAssoc(old(os.text) + typeText, " ", syntax.identifier(name));
        AppendAssoc(old(os.text), typeText, " " + syntax.identifier(name));
      }
    }

    /** The callback `interleaveComma` runs for each C parameter. */
    method PrintCParameter(param: ParamDecl)
      requires Printable(param.objectType.ty, ObjC, typeMapping)
      modifies os
      ensures os.text == old(os.text) + TypeAndName(param.objectType, param.name, ObjC, typeMapping, syntax)
    {
      PrintTypeAndName(param.objectType, param.name, ObjC);
    }

    /** The callback `interleaveComma` runs for the C++ parameter at 1-based position `paramIndex`. */
    method PrintCxxParameter(param: ParamDecl, paramIndex: nat)
      requires Printable(param.objectType.ty, Cxx, typeMapping)
      modifies os
      ensures os.text == old(os.text) + TypeAndName(param.objectType, CxxParamName(param, paramIndex), Cxx, typeMapping, syntax)
    {
      var paramName := param.name;
      if paramName == "" {
        paramName := "_" + Decimal.ToDecimal(paramIndex);
      }
      PrintTypeAndName(param.objectType, paramName, Cxx);
    }

    /** The C parameter list: `void` when there are none, else the parameters with ", " between. */
    method PrintCParameterList(params: seq<ParamDecl>)
      requires forall i :: 0 <= i < |params| ==> Printable(params[i].objectType.ty, ObjC, typeMapping)
      modifies os
      ensures os.text == old(os.text) + CParameterList(params, typeMapping, syntax)
    {
      if |params| > 0 {
        ghost var texts := CParameterTexts(params, typeMapping, syntax);
        var i := 0;
        while i < |params|
          invariant 0 <= i <= |params|
          invariant os.text == old(os.text) + CommaSeparated(texts[..i])
        {
          if i > 0 {
            os.Write(", ");
          }
          ghost var separated := os.text;
          PrintCParameter(params[i]);
          assert os.text == separated + texts[i];
          CommaSeparatedPrefix(texts, i);
          if i > 0 {
            AppendAssoc(old(os.text), CommaSeparated(texts[..i]), ", ");
            AppendAssoc(old(os.text), CommaSeparated(texts[..i]) + ", ", texts[i]);
          }
          i := i + 1;
        }
        assert texts[..|params|] == texts;
      } else {
        os.Write("void");
      }
    }

    /** The C++ parameter list: nothing when there are none, else the named parameters with ", " between. */
    method PrintCxxParameterList(params: seq<ParamDecl>)
      requires forall i :: 0 <= i < |params| ==> Printable(params[i].objectType.ty, Cxx, typeMapping)
      modifies os
      ensures os.text == old(os.text) + CxxParameterList(params, typeMapping, syntax)
    {
      if |params| > 0 {
        ghost var texts := CxxParameterTexts(params, typeMapping, syntax);
        var paramIndex: nat := 1;
        var i := 0;
        while i < |params|
          invariant 0 <= i <= |params|
          invariant paramIndex == i + 1
          invariant os.text == old(os.text) + CommaSeparated(texts[..i])
        {
          if i > 0 {
            os.Write(", ");
          }
          ghost var separated := os.text;
          PrintCxxParameter(params[i], paramIndex);
          assert os.text == separated + texts[i];
          CommaSeparatedPrefix(texts, i);
          if i > 0 {
            AppendAssoc(old(os.text), CommaSeparated(texts[..i]), ", ");
            AppendAssoc(old(os.text), CommaSeparated(texts[..i]) + ", ", texts[i]);
          }
          paramIndex := paramIndex + 1;
          i := i + 1;
        }
        assert texts[..|params|] == texts;
      }
    }

    method PrintFunctionDeclAsCFunctionDecl(fd: FuncDecl, name: string, result: ObjectType)
      requires SignaturePrintable(fd, result, ObjC, typeMapping)
      modifies os
      ensures os.text == old(os.text) + CFunctionDecl(fd, name, result, typeMapping, syntax)
    {
      var typePrinter := new CFunctionSignatureTypePrinter(os, typeMapping, ObjC, syntax);
      typePrinter.Visit(result.ty, result.kind);
      os.Write(" ");
      os.Write(name);
      os.Write("(");
      PrintCParameterList(fd.parameters);
      os.Write(")");
      AppendSix(old(os.text), TypeText(result.ty, result.kind, ObjC, typeMapping, syntax), " ", name, "(",
                CParameterList(fd.parameters, typeMapping, syntax), ")");
    }

    method PrintFunctionDeclAsCxxFunctionDecl(fd: FuncDecl, name: string, result: ObjectType)
      requires SignaturePrintable(fd, result, Cxx, typeMapping)
      modifies os
      ensures os.text == old(os.text) + CxxFunctionDecl(fd, name, result, typeMapping, syntax)
    {
      var typePrinter := new CFunctionSignatureTypePrinter(os, typeMapping, Cxx, syntax);
      typePrinter.Visit(result.ty, result.kind);
      os.Write(" ");
      os.Write(name);
      os.Write("(");
      PrintCxxParameterList(fd.parameters);
      os.Write(")");
      AppendSix(old(os.text), TypeText(result.ty, result.kind, Cxx, typeMapping, syntax), " ", name, "(",
                CxxParameterList(fd.parameters, typeMapping, syntax), ")");
    }
  }
}
