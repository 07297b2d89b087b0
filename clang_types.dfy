/**
 * The values the C/C++ function printer works on: Swift types after the
 * type checker has resolved them, the optional kind that rides alongside a
 * type, the primitive type table, the two collaborators of the syntax
 * printer that are not part of this model, and the output stream.
 */
module ClangTypes {

  datatype Option<+T> = None | Some(value: T)

  /** The identity of a nominal declaration: a struct or a type alias. */
  datatype TypeDecl = TypeDecl(id: string)

  /** Swift's OptionalTypeKind: `T`, `T?` or `T!`. */
  datatype OptionalTypeKind = NonOptional | Optional | ImplicitlyUnwrappedOptional

  /**
   * The shapes of Swift type the visitor tells apart. A type alias carries
   * the type that one step of desugaring yields. Every other type is
   * `OtherType`, described by the text `Type::print` would produce and by
   * whether it is still sugar (a parenthesised type, an array sugar, ...).
   */
  datatype Ty =
    | StructType(decl: TypeDecl)
    | TypeAliasType(decl: TypeDecl, singlyDesugared: Ty)
    | TupleType(elements: seq<Ty>)
    | OtherType(description: string, sugared: bool)

  /** The output language the type printer is instantiated for. */
  datatype OutputLanguageMode = ObjC | Cxx

  /** What the primitive table knows of a type in one language. */
  datatype ClangTypeInfo = ClangTypeInfo(name: string, canBeNullable: bool)

  /**
   * The primitive type table, one partition per language: the declarations
   * it maps to a C (and Objective-C) name and those it maps to a C++ name.
   */
  datatype PrimitiveTypeMapping = PrimitiveTypeMapping(
    cTypes: map<TypeDecl, ClangTypeInfo>,
    cxxTypes: map<TypeDecl, ClangTypeInfo>)
  {
    /** getKnownCxxTypeInfo in C++ mode, getKnownCTypeInfo in every other mode. */
    function KnownTypeInfo(mode: OutputLanguageMode, decl: TypeDecl): Option<ClangTypeInfo>
    {
      if mode == Cxx then
        (if decl in cxxTypes then Some(cxxTypes[decl]) else None)
      else
        (if decl in cTypes then Some(cTypes[decl]) else None)
    }
  }

  /**
   * The two services of the syntax printer that the function printer calls
   * but whose text is decided elsewhere: the nullability qualifier for an
   * optional kind, and the spelling of an identifier (with escaping).
   */
  datatype ClangSyntax = ClangSyntax(
    nullability: OptionalTypeKind -> string,
    identifier: string -> string)

  /** The output stream every printer appends to. */
  class RawOStream {
    var text: string

    constructor ()
      ensures text == ""
    {
      text := "";
    }

    method Write(s: string)
      modifies this
      ensures text == old(text) + s
    {
      text := text + s;
    }
  }

  /** The C++ mode reads only the C++ partition of the table, every other mode only the C partition. */
  lemma LookupUsesOnePartition(m1: PrimitiveTypeMapping, m2: PrimitiveTypeMapping, mode: OutputLanguageMode, decl: TypeDecl)
    requires mode == Cxx ==> m1.cxxTypes == m2.cxxTypes
    requires mode != Cxx ==> m1.cTypes == m2.cTypes
    ensures m1.KnownTypeInfo(mode, decl) == m2.KnownTypeInfo(mode, decl)
  {
  }
}
