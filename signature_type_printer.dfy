/**
 * The type projection of the function printer: the C/C++ text of one
 * parameter or return type, given its optional kind and the output
 * language. `TypeText` says what the text is; the class
 * `CFunctionSignatureTypePrinter` is the visitor that appends it to a
 * stream, one dispatch at a time.
 */
module SignatureTypePrinter {
  import opened ClangTypes

  predicate IsKnown(mapping: PrimitiveTypeMapping, mode: OutputLanguageMode, decl: TypeDecl)
  {
    mapping.KnownTypeInfo(mode, decl).Some?
  }

  /** A known type: its table name, then its nullability only if the table says it can be null. */
  function KnownSimpleTypeText(info: ClangTypeInfo, kind: OptionalTypeKind, syntax: ClangSyntax): string
  {
    info.name + (if info.canBeNullable then syntax.nullability(kind) else "")
  }

  /**
   * The visitor's two assertions: a tuple that reaches it is empty, and a
   * type that falls through to the generic case is no longer sugar. The
   * type under a known alias is never visited, so it is not constrained.
   */
  predicate Printable(t: Ty, mode: OutputLanguageMode, mapping: PrimitiveTypeMapping)
  {
    match t
    case StructType(_) => true
    case TypeAliasType(decl, underlying) => IsKnown(mapping, mode, decl) || Printable(underlying, mode, mapping)
    case TupleType(elements) => |elements| == 0
    case OtherType(_, sugared) => !sugared
  }

  /**
   * The text the visitor writes for `t` with optional kind `kind`. A struct
   * or alias the table knows opens with its table name whatever the kind;
   * only a struct or an alias can print as nothing.
   */
  function TypeText(t: Ty, kind: OptionalTypeKind, mode: OutputLanguageMode,
                    mapping: PrimitiveTypeMapping, syntax: ClangSyntax): (r: string)
    requires Printable(t, mode, mapping)
    ensures (t.StructType? || t.TypeAliasType?) && IsKnown(mapping, mode, t.decl)
            ==> mapping.KnownTypeInfo(mode, t.decl).value.name <= r
    ensures r == "" ==> t.StructType? || t.TypeAliasType?
  {
    match t
    case StructType(decl) =>
      if IsKnown(mapping, mode, decl) then KnownSimpleTypeText(mapping.KnownTypeInfo(mode, decl).value, kind, syntax)
      else ""
    case TypeAliasType(decl, underlying) =>
      if IsKnown(mapping, mode, decl) then KnownSimpleTypeText(mapping.KnownTypeInfo(mode, decl).value, kind, syntax)
      else TypeText(underlying, kind, mode, mapping, syntax)
    case TupleType(_) => "void"
    case OtherType(description, _) => "/* " + description + " */"
  }

  /**
   * The type the visitor ends up printing: `t` with every alias layer the
   * table does not know peeled off. The result is never an unknown alias,
   * and it prints exactly as `t` does, whatever the optional kind.
   */
  function StripUnknownAliases(t: Ty, mode: OutputLanguageMode, mapping: PrimitiveTypeMapping): (r: Ty)
    requires Printable(t, mode, mapping)
    ensures Printable(r, mode, mapping)
    ensures r.TypeAliasType? ==> IsKnown(mapping, mode, r.decl)
    ensures forall kind, syntax :: TypeText(r, kind, mode, mapping, syntax) == TypeText(t, kind, mode, mapping, syntax)
  {
    match t
    case TypeAliasType(decl, underlying) =>
      if IsKnown(mapping, mode, decl) then t else StripUnknownAliases(underlying, mode, mapping)
    case _ => t
  }

  /** `decls[0]` aliasing `decls[1]` aliasing ... aliasing `inner`. */
  function AliasChain(decls: seq<TypeDecl>, inner: Ty): Ty
  {
    if decls == [] then inner else TypeAliasType(decls[0], AliasChain(decls[1..], inner))
  }

  /**
   * A chain of aliases none of which the table knows prints as its
   * innermost type, however long the chain and whatever the optional kind.
   */
  lemma {:induction false} UnknownAliasChainPrintsInner(decls: seq<TypeDecl>, inner: Ty, kind: OptionalTypeKind,
                                                        mode: OutputLanguageMode, mapping: PrimitiveTypeMapping, syntax: ClangSyntax)
    requires forall i :: 0 <= i < |decls| ==> !IsKnown(mapping, mode, decls[i])
    requires Printable(inner, mode, mapping)
    ensures Printable(AliasChain(decls, inner), mode, mapping)
    ensures TypeText(AliasChain(decls, inner), kind, mode, mapping, syntax) == TypeText(inner, kind, mode, mapping, syntax)
    decreases |decls|
  {
    if decls != [] {
      assert !IsKnown(mapping, mode, decls[0]);
      forall i | 0 <= i < |decls[1..]| ensures !IsKnown(mapping, mode, decls[1..][i]) {
        assert decls[1..][i] == decls[i + 1];
      }
      UnknownAliasChainPrintsInner(decls[1..], inner, kind, mode, mapping, syntax);
    }
  }

  /** A known alias prints its own table entry; the type it stands for is not looked at. */
  lemma KnownAliasIsNotDesugared(decl: TypeDecl, underlying: Ty, kind: OptionalTypeKind,
                                 mode: OutputLanguageMode, mapping: PrimitiveTypeMapping, syntax: ClangSyntax)
    requires IsKnown(mapping, mode, decl)
    ensures Printable(TypeAliasType(decl, underlying), mode, mapping)
    ensures TypeText(TypeAliasType(decl, underlying), kind, mode, mapping, syntax)
         == TypeText(StructType(decl), kind, mode, mapping, syntax)
  {
  }

  /** Whether the type finally printed is a known type the table marks nullable. */
  predicate CarriesNullability(t: Ty, mode: OutputLanguageMode, mapping: PrimitiveTypeMapping)
  {
    match t
    case StructType(decl) =>
      IsKnown(mapping, mode, decl) && mapping.KnownTypeInfo(mode, decl).value.canBeNullable
    case TypeAliasType(decl, underlying) =>
      if IsKnown(mapping, mode, decl) then mapping.KnownTypeInfo(mode, decl).value.canBeNullable
      else CarriesNullability(underlying, mode, mapping)
    case _ => false
  }

  /**
   * When the printed type is a known nullable type, the text is that type's
   * table name followed by exactly one nullability qualifier for `kind`.
   */
  lemma {:induction false} NullabilityFollowsKnownName(t: Ty, kind: OptionalTypeKind, mode: OutputLanguageMode,
                                                      mapping: PrimitiveTypeMapping, syntax: ClangSyntax)
    requires Printable(t, mode, mapping)
    requires CarriesNullability(t, mode, mapping)
    ensures StripUnknownAliases(t, mode, mapping).StructType? || StripUnknownAliases(t, mode, mapping).TypeAliasType?
    ensures StripUnknownAliases(t, mode, mapping).decl in (if mode == Cxx then mapping.cxxTypes else mapping.cTypes)
    ensures TypeText(t, kind, mode, mapping, syntax)
         == mapping.KnownTypeInfo(mode, StripUnknownAliases(t, mode, mapping).decl).value.name + syntax.nullability(kind)
  {
    match t
    case StructType(_) =>
    case TypeAliasType(decl, underlying) =>
      if !IsKnown(mapping, mode, decl) {
        NullabilityFollowsKnownName(underlying, kind, mode, mapping, syntax);
      }
  }

  /**
   * Unless the printed type is a known nullable type, the nullability
   * printer is never consulted: every optional kind, and every choice of
   * nullability tokens, gives the same text.
   */
  lemma {:induction false} OptionalKindDroppedUnlessNullable(t: Ty, kind1: OptionalTypeKind, kind2: OptionalTypeKind,
                                                            mode: OutputLanguageMode, mapping: PrimitiveTypeMapping,
                                                            syntax1: ClangSyntax, syntax2: ClangSyntax)
    requires Printable(t, mode, mapping)
    requires !CarriesNullability(t, mode, mapping)
    ensures TypeText(t, kind1, mode, mapping, syntax1) == TypeText(t, kind2, mode, mapping, syntax2)
  {
    match t
    case StructType(_) =>
    case TypeAliasType(decl, underlying) =>
      if !IsKnown(mapping, mode, decl) {
        OptionalKindDroppedUnlessNullable(underlying, kind1, kind2, mode, mapping, syntax1, syntax2);
      }
    case TupleType(_) =>
    case OtherType(_, _) =>
  }

  /**
   * When the printed type is known but cannot be null, the text is its table
   * name alone: no nullability qualifier follows, whatever the optional kind.
   */
  lemma {:induction false} KnownNonNullablePrintsName(t: Ty, kind: OptionalTypeKind, mode: OutputLanguageMode,
                                                     mapping: PrimitiveTypeMapping, syntax: ClangSyntax)
    requires Printable(t, mode, mapping)
    requires var r := StripUnknownAliases(t, mode, mapping);
             (r.StructType? || r.TypeAliasType?) && IsKnown(mapping, mode, r.decl)
             && !mapping.KnownTypeInfo(mode, r.decl).value.canBeNullable
    ensures TypeText(t, kind, mode, mapping, syntax)
         == mapping.KnownTypeInfo(mode, StripUnknownAliases(t, mode, mapping).decl).value.name
  {
    match t
    case StructType(_) =>
    case TypeAliasType(decl, underlying) =>
      if !IsKnown(mapping, mode, decl) {
        KnownNonNullablePrintsName(underlying, kind, mode, mapping, syntax);
      }
  }

  /** An empty tuple is `void`, whatever its optional kind and language. */
  lemma EmptyTupleIsVoid(kind: OptionalTypeKind, mode: OutputLanguageMode, mapping: PrimitiveTypeMapping, syntax: ClangSyntax)
    ensures Printable(TupleType([]), mode, mapping)
    ensures TypeText(TupleType([]), kind, mode, mapping, syntax) == "void"
  {
  }

  /** A struct the table does not know contributes no text at all. */
  lemma UnknownStructIsEmpty(decl: TypeDecl, kind: OptionalTypeKind, mode: OutputLanguageMode,
                             mapping: PrimitiveTypeMapping, syntax: ClangSyntax)
    requires !IsKnown(mapping, mode, decl)
    ensures TypeText(StructType(decl), kind, mode, mapping, syntax) == ""
  {
  }

  /** Any other desugared type becomes a comment holding its description. */
  lemma OtherTypeIsComment(description: string, kind: OptionalTypeKind, mode: OutputLanguageMode,
                           mapping: PrimitiveTypeMapping, syntax: ClangSyntax)
    ensures Printable(OtherType(description, false), mode, mapping)
    ensures !Printable(OtherType(description, true), mode, mapping)
    ensures TypeText(OtherType(description, false), kind, mode, mapping, syntax) == "/* " + description + " */"
  {
  }

  /** When both partitions of the table agree, both languages print every type alike. */
  lemma {:induction false} SameTablesSameText(t: Ty, kind: OptionalTypeKind, mapping: PrimitiveTypeMapping, syntax: ClangSyntax)
    requires mapping.cTypes == mapping.cxxTypes
    requires Printable(t, ObjC, mapping)
    ensures Printable(t, Cxx, mapping)
    ensures TypeText(t, kind, ObjC, mapping, syntax) == TypeText(t, kind, Cxx, mapping, syntax)
  {
    match t
    case StructType(_) =>
    case TypeAliasType(decl, underlying) =>
      if !IsKnown(mapping, ObjC, decl) {
        SameTablesSameText(underlying, kind, mapping, syntax);
      }
    case TupleType(_) =>
    case OtherType(_, _) =>
  }

  /**
   * The type visitor of the function printer. It appends to the stream it
   * shares with its caller; each visit adds exactly `TypeText`.
   */
  class CFunctionSignatureTypePrinter {
    const os: RawOStream
    const typeMapping: PrimitiveTypeMapping
    const languageMode: OutputLanguageMode
    const syntax: ClangSyntax

    constructor (os: RawOStream, typeMapping: PrimitiveTypeMapping, languageMode: OutputLanguageMode, syntax: ClangSyntax)
      ensures this.os == os && this.typeMapping == typeMapping
      ensures this.languageMode == languageMode && this.syntax == syntax
    {
      this.os := os;
      this.typeMapping := typeMapping;
      this.languageMode := languageMode;
      this.syntax := syntax;
    }

    /** Prints `typeDecl` if the table of the current language knows it, and says whether it did. */
    method PrintIfKnownSimpleType(typeDecl: TypeDecl, optionalKind: OptionalTypeKind) returns (printed: bool)
      modifies os
      ensures printed == IsKnown(typeMapping, languageMode, typeDecl)
      ensures os.text == old(os.text) +
        (if printed then KnownSimpleTypeText(typeMapping.KnownTypeInfo(languageMode, typeDecl).value, optionalKind, syntax)
         else "")
    {
      if languageMode == Cxx {
        if typeDecl !in typeMapping.cxxTypes {
          return false;
        }
        var knownTypeInfo := typeMapping.cxxTypes[typeDecl];
        os.Write(knownTypeInfo.name);
        if knownTypeInfo.canBeNullable {
          os.Write(syntax.nullability(optionalKind));
        }
        return true;
      }
      if typeDecl !in typeMapping.cTypes {
        return false;
      }
      var knownTypeInfo := typeMapping.cTypes[typeDecl];
      os.Write(knownTypeInfo.name);
      if knownTypeInfo.canBeNullable {
        os.Write(syntax.nullability(optionalKind));
      }
      return true;
    }

    /** The generic case: a comment holding the type's description. */
    method VisitType(ty: Ty, optionalKind: OptionalTypeKind)
      requires ty.OtherType? && !ty.sugared
      modifies os
      ensures os.text == old(os.text) + TypeText(ty, optionalKind, languageMode, typeMapping, syntax)
    {
      os.Write("/* ");
      os.Write(ty.description);
      os.Write(" */");
    }

    method VisitTupleType(tt: Ty, optionalKind: OptionalTypeKind)
      requires tt.TupleType? && |tt.elements| == 0
      modifies os
      ensures os.text == old(os.text) + TypeText(tt, optionalKind, languageMode, typeMapping, syntax)
    {
      os.Write("void");
    }

    /** A known alias prints its entry; otherwise one layer of sugar goes and the visit goes on. */
    method VisitTypeAliasType(aliasTy: Ty, optionalKind: OptionalTypeKind)
      requires aliasTy.TypeAliasType? && Printable(aliasTy, languageMode, typeMapping)
      modifies os
      ensures os.text == old(os.text) + TypeText(aliasTy, optionalKind, languageMode, typeMapping, syntax)
      decreases aliasTy, 0
    {
      var alias := aliasTy.decl;
      var printed := PrintIfKnownSimpleType(alias, optionalKind);
      if printed {
        return;
      }
      Visit(aliasTy.singlyDesugared, optionalKind);
    }

    /** A known struct prints its entry; an unknown one prints nothing. */
    method VisitStructType(st: Ty, optionalKind: OptionalTypeKind)
      requires st.StructType?
      modifies os
      ensures os.text == old(os.text) + TypeText(st, optionalKind, languageMode, typeMapping, syntax)
    {
      var printed := PrintIfKnownSimpleType(st.decl, optionalKind);
    }

    /** The visitor's dispatch on the shape of the type. */
    method Visit(ty: Ty, optionalKind: OptionalTypeKind)
      requires Printable(ty, languageMode, typeMapping)
      modifies os
      ensures os.text == old(os.text) + TypeText(ty, optionalKind, languageMode, typeMapping, syntax)
      decreases ty, 1
    {
      match ty
      case StructType(_) => VisitStructType(ty, optionalKind);
      case TypeAliasType(_, _) => VisitTypeAliasType(ty, optionalKind);
      case TupleType(_) => VisitTupleType(ty, optionalKind);
      case OtherType(_, _) => VisitType(ty, optionalKind);
    }
  }
}
