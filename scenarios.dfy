/**
 * Concrete declarations printed in both languages, with a small table in
 * which `Int32` and `Bool` are known and cannot be null, and a sample
 * syntax printer that spells identifiers as they are and writes
 * ` _Nullable` for an optional kind and ` _Nonnull` otherwise. Since every
 * nullability token is non-empty, a text without one shows that the
 * printer was not asked for it.
 */
module Scenarios {
  import opened ClangTypes
  import opened SignatureTypePrinter
  import opened ClangFunctionPrinter

  const Int32Decl := TypeDecl("Int32")
  const BoolDecl := TypeDecl("Bool")
  const CountDecl := TypeDecl("Count")

  const Int32 := StructType(Int32Decl)
  const Bool := StructType(BoolDecl)
  const Void := TupleType([])

  function SampleMapping(): PrimitiveTypeMapping
  {
    var entries := map[Int32Decl := ClangTypeInfo("int32_t", false), BoolDecl := ClangTypeInfo("bool", false)];
    PrimitiveTypeMapping(entries, entries)
  }

  function SampleSyntax(): ClangSyntax
  {
    ClangSyntax(kind => if kind == NonOptional then " _Nonnull" else " _Nullable", name => name)
  }

  function Plain(ty: Ty): ObjectType
  {
    ObjectType(ty, NonOptional)
  }

  /** The sample types' texts, in either language. */
  lemma SampleTypeTexts(mode: OutputLanguageMode, kind: OptionalTypeKind)
    ensures TypeText(Int32, kind, mode, SampleMapping(), SampleSyntax()) == "int32_t"
    ensures TypeText(Bool, kind, mode, SampleMapping(), SampleSyntax()) == "bool"
    ensures TypeText(Void, kind, mode, SampleMapping(), SampleSyntax()) == "void"
  {
    assert SampleMapping().KnownTypeInfo(mode, Int32Decl) == Some(ClangTypeInfo("int32_t", false));
    assert SampleMapping().KnownTypeInfo(mode, BoolDecl) == Some(ClangTypeInfo("bool", false));
  }

  /** `func foo(x: Int32) -> Bool` */
  lemma NamedParameter()
    ensures var fd := FuncDecl([ParamDecl("x", Plain(Int32))]);
            && CFunctionDecl(fd, "foo", Plain(Bool), SampleMapping(), SampleSyntax()) == "bool foo(int32_t x)"
            && CxxFunctionDecl(fd, "foo", Plain(Bool), SampleMapping(), SampleSyntax()) == "bool foo(int32_t x)"
  {
    var fd := FuncDecl([ParamDecl("x", Plain(Int32))]);
    SampleTypeTexts(ObjC, NonOptional);
    assert CParameterList(fd.parameters, SampleMapping(), SampleSyntax()) == "int32_t x" by {
      assert CParameterTexts(fd.parameters, SampleMapping(), SampleSyntax())[0] == "int32_t x";
    }
    DialectsAgreeOnNamedParameters(fd, "foo", Plain(Bool), SampleMapping(), SampleSyntax());
  }

  /** `func bar()` */
  lemma NoParameters()
    ensures var fd := FuncDecl([]);
            && CFunctionDecl(fd, "bar", Plain(Void), SampleMapping(), SampleSyntax()) == "void bar(void)"
            && CxxFunctionDecl(fd, "bar", Plain(Void), SampleMapping(), SampleSyntax()) == "void bar()"
  {
  }

  function BazParameters(): seq<ParamDecl>
  {
    [ParamDecl("x", Plain(Int32)), ParamDecl("", Plain(Int32))]
  }

  /** `func baz(x: Int32, _: Int32)` in C: an anonymous parameter is its type alone. */
  lemma AnonymousParameterInC()
    ensures CFunctionDecl(FuncDecl(BazParameters()), "baz", Plain(Void), SampleMapping(), SampleSyntax())
         == "void baz(" + "int32_t x, int32_t" + ")"
  {
    SampleTypeTexts(ObjC, NonOptional);
    assert CParameterList(BazParameters(), SampleMapping(), SampleSyntax()) == "int32_t x, int32_t" by {
      var texts := CParameterTexts(BazParameters(), SampleMapping(), SampleSyntax());
      assert texts[0] == "int32_t x";
      assert texts[1] == "int32_t";
      assert texts[..1] == [texts[0]];
    }
    assert "void" + " " + "baz" + "(" == "void baz(";
  }

  /** The same function in C++: the anonymous parameter is named after its place among all parameters. */
  lemma AnonymousParameterInCxx()
    ensures CxxFunctionDecl(FuncDecl(BazParameters()), "baz", Plain(Void), SampleMapping(), SampleSyntax())
         == "void baz(" + "int32_t x, int32_t _2" + ")"
  {
    SampleTypeTexts(Cxx, NonOptional);
    assert CxxParameterList(BazParameters(), SampleMapping(), SampleSyntax()) == "int32_t x, int32_t _2" by {
      var texts := CxxParameterTexts(BazParameters(), SampleMapping(), SampleSyntax());
      assert texts[0] == "int32_t x";
      assert texts[1] == "int32_t _2" by {
        assert Decimal.ToDecimal(2) == "2";
        assert CxxParamName(BazParameters()[1], 2) == "_2";
      }
      assert texts[..1] == [texts[0]];
    }
    assert "void" + " " + "baz" + "(" == "void baz(";
  }

  /** `func qux(x: Int32?)`: `int32_t` cannot be null, so the optional kind is dropped and no qualifier is written. */
  lemma OptionalDropped()
    ensures var fd := FuncDecl([ParamDecl("x", ObjectType(Int32, Optional))]);
            && CFunctionDecl(fd, "qux", Plain(Void), SampleMapping(), SampleSyntax()) == "void qux(int32_t x)"
            && CxxFunctionDecl(fd, "qux", Plain(Void), SampleMapping(), SampleSyntax()) == "void qux(int32_t x)"
  {
    var fd := FuncDecl([ParamDecl("x", ObjectType(Int32, Optional))]);
    SampleTypeTexts(ObjC, Optional);
    SampleTypeTexts(ObjC, NonOptional);
    assert CParameterList(fd.parameters, SampleMapping(), SampleSyntax()) == "int32_t x" by {
      assert CParameterTexts(fd.parameters, SampleMapping(), SampleSyntax())[0] == "int32_t x";
    }
    DialectsAgreeOnNamedParameters(fd, "qux", Plain(Void), SampleMapping(), SampleSyntax());
  }

  /** `func quux(x: Unmapped)`: an unknown struct leaves its type position empty. */
  lemma UnknownStructParameter()
    ensures var fd := FuncDecl([ParamDecl("x", Plain(StructType(TypeDecl("Unmapped"))))]);
            && CFunctionDecl(fd, "quux", Plain(Void), SampleMapping(), SampleSyntax()) == "void quux( x)"
            && CxxFunctionDecl(fd, "quux", Plain(Void), SampleMapping(), SampleSyntax()) == "void quux( x)"
  {
    var fd := FuncDecl([ParamDecl("x", Plain(StructType(TypeDecl("Unmapped"))))]);
    assert CParameterList(fd.parameters, SampleMapping(), SampleSyntax()) == " x" by {
      assert CParameterTexts(fd.parameters, SampleMapping(), SampleSyntax())[0] == " x";
    }
    DialectsAgreeOnNamedParameters(fd, "quux", Plain(Void), SampleMapping(), SampleSyntax());
  }

  /**
   * `func f(x: Count) -> Array<Int>` with the user alias `typealias Count = Int32`:
   * the alias is looked through, and the bound generic struct, which the
   * visitor has no case for, falls through to a comment holding its printed
   * form. No table lookup happens for it.
   */
  lemma AliasAndOtherType()
    ensures var fd := FuncDecl([ParamDecl("x", Plain(TypeAliasType(CountDecl, Int32)))]);
            var result := Plain(OtherType("Array<Int>", false));
            && CFunctionDecl(fd, "f", result, SampleMapping(), SampleSyntax()) == "/* Array<Int> */ f(int32_t x)"
            && CxxFunctionDecl(fd, "f", result, SampleMapping(), SampleSyntax()) == "/* Array<Int> */ f(int32_t x)"
  {
    var fd := FuncDecl([ParamDecl("x", Plain(TypeAliasType(CountDecl, Int32)))]);
    var result := Plain(OtherType("Array<Int>", false));
    SampleTypeTexts(ObjC, NonOptional);
    assert CParameterList(fd.parameters, SampleMapping(), SampleSyntax()) == "int32_t x" by {
      assert SampleMapping().KnownTypeInfo(ObjC, CountDecl) == None;
      assert CParameterTexts(fd.parameters, SampleMapping(), SampleSyntax())[0] == "int32_t x";
    }
    assert TypeText(result.ty, NonOptional, ObjC, SampleMapping(), SampleSyntax()) == "/* Array<Int> */";
    assert "/* Array<Int> */" + " " + "f" + "(" + "int32_t x" + ")" == "/* Array<Int> */ f(int32_t x)";
    DialectsAgreeOnNamedParameters(fd, "f", result, SampleMapping(), SampleSyntax());
  }
}
