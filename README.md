# C and C++ function declarations for Swift functions

This project models the part of Swift's C/C++ header printer that turns a
type-checked Swift function into a forward declaration. There are two
dialects: C (the printer runs the type visitor in Objective-C mode) and C++.
The model has two halves.

- **The signature type printer** (`CFunctionSignatureTypePrinter`) turns one
  resolved type and its optional kind into text. A struct or alias that the
  primitive type table knows prints as its table name. The nullability
  qualifier follows only when the table says the type can be null. An alias
  the table does not know loses one layer of sugar and is visited again with
  the same optional kind. An empty tuple prints `void`. A struct the table
  does not know prints nothing. Any other desugared type prints as a comment
  `/* <description> */`.
- **The two declaration printers** (`printFunctionDeclAsCFunctionDecl`,
  `printFunctionDeclAsCxxFunctionDecl`) write the return type, a space, the
  function name exactly as given, and the parameters in parentheses,
  separated by `", "`. With no parameters, C writes `(void)` and C++ writes
  `()`. A parameter without a name is printed as its type alone in C. In
  C++ it is named `_<i>`, where `i` is its 1-based position among all the
  parameters, named or not.

Each half has two parts. Pure functions (`TypeText`, `CFunctionDecl`,
`CxxFunctionDecl`) say what the text is. Classes append that text to a
shared output stream, one write at a time, as the C++ code does. Every
method's postcondition states that the stream grows by exactly the text the
function gives. The lemmas state the properties of those functions.

Files:

- `clang_types.dfy`: the Swift type shapes, optional kinds, the primitive
  type table, the syntax-printer services, and the output stream.
- `decimal.dfy`: decimal text of the parameter index, and reading it back.
- `signature_type_printer.dfy`: the type projection and its visitor class.
- `function_printer.dfy`: the declaration texts and the printer class with
  its `interleaveComma` loops.
- `scenarios.dfy`: concrete declarations in both dialects.

### Behaviour worth noting

- An unknown struct contributes the empty string. So `quux(x: Unmapped)`
  prints as `void quux( x)`.
- An alias's own declaration is looked up in the table before one layer of
  sugar is removed, so a known alias never shows its underlying type.
- The C++ synthesised name counts all parameters, named or not: the second
  parameter of `baz(x: Int32, _: Int32)` is `_2`.
- Both dialects call the same nullability printer. The model does not say
  whether that printer writes a token in C++ mode.

## Model

| member | source | states |
|---|---|---|
| `ClangTypes.LookupUsesOnePartition` | lib/PrintAsClang/PrintClangFunction.cpp:56-74 | C++ mode reads only the C++ table and every other mode only the C table: two tables that agree on the partition read give the same answer |
| `SignatureTypePrinter.TypeText` | lib/PrintAsClang/PrintClangFunction.cpp:76-110 | the reference text of the visitor: a known struct or alias opens with its table name for every optional kind, and only a struct or an alias can print as nothing |
| `Decimal.ToDecimal` | lib/PrintAsClang/PrintClangFunction.cpp:206 | the text of the parameter index is non-empty, all decimal digits, and has no leading zero |
| `Decimal.FromToDecimal` | lib/PrintAsClang/PrintClangFunction.cpp:206 | reading the printed index back as a decimal number gives the index |
| `Decimal.ToDecimalInjective` | lib/PrintAsClang/PrintClangFunction.cpp:206 | distinct indices print as distinct texts |
| `SignatureTypePrinter.StripUnknownAliases` | lib/PrintAsClang/PrintClangFunction.cpp:89-96 | peeling every unknown alias layer gives a type that is not an unknown alias, still meets the visitor's assertions, and prints the same as the original for every optional kind |
| `SignatureTypePrinter.UnknownAliasChainPrintsInner` | lib/PrintAsClang/PrintClangFunction.cpp:89-96 | a chain of any length of aliases unknown to the table prints the same as its innermost type, with the same optional kind |
| `SignatureTypePrinter.KnownAliasIsNotDesugared` | lib/PrintAsClang/PrintClangFunction.cpp:91-93 | a known alias prints its own table entry whatever its underlying type is, even one the visitor could not print |
| `SignatureTypePrinter.NullabilityFollowsKnownName` | lib/PrintAsClang/PrintClangFunction.cpp:56-74 | when the type finally printed is known and nullable, the text is its table name followed by exactly one nullability qualifier for the optional kind |
| `SignatureTypePrinter.OptionalKindDroppedUnlessNullable` | lib/PrintAsClang/PrintClangFunction.cpp:56-74 | unless the type finally printed is known and nullable, the nullability printer is never consulted: every optional kind and every choice of nullability tokens give the same text |
| `SignatureTypePrinter.KnownNonNullablePrintsName` | lib/PrintAsClang/PrintClangFunction.cpp:56-74 | when the type finally printed is known but cannot be null, the text is its table name alone, with no qualifier for any optional kind |
| `SignatureTypePrinter.SameTablesSameText` | lib/PrintAsClang/PrintClangFunction.cpp:56-74 | the two modes differ only in the table they read: with equal tables, C and C++ print every type alike |
| `SignatureTypePrinter.EmptyTupleIsVoid` | lib/PrintAsClang/PrintClangFunction.cpp:83-87 | an empty tuple prints `void` for every optional kind and language |
| `SignatureTypePrinter.UnknownStructIsEmpty` | lib/PrintAsClang/PrintClangFunction.cpp:98-106 | a struct the table does not know prints the empty string |
| `SignatureTypePrinter.OtherTypeIsComment` | lib/PrintAsClang/PrintClangFunction.cpp:76-81 | a desugared type of any other kind prints `/* description */`; a still-sugared one breaks the visitor's assertion |
| `SignatureTypePrinter.CFunctionSignatureTypePrinter.constructor` | lib/PrintAsClang/PrintClangFunction.cpp:50-54 | the visitor writes to the given stream, with the given table and language |
| `SignatureTypePrinter.CFunctionSignatureTypePrinter.PrintIfKnownSimpleType` | lib/PrintAsClang/PrintClangFunction.cpp:56-74 | returns whether the current language's table knows the declaration; if it does, it appends the name and, only for a nullable entry, the nullability; if not, it appends nothing |
| `SignatureTypePrinter.CFunctionSignatureTypePrinter.VisitType` | lib/PrintAsClang/PrintClangFunction.cpp:76-81 | for a desugared type, it appends the comment holding the description |
| `SignatureTypePrinter.CFunctionSignatureTypePrinter.VisitTupleType` | lib/PrintAsClang/PrintClangFunction.cpp:83-87 | for an empty tuple, it appends `void` |
| `SignatureTypePrinter.CFunctionSignatureTypePrinter.VisitTypeAliasType` | lib/PrintAsClang/PrintClangFunction.cpp:89-96 | it appends the alias's text: the known entry, or the visit of the singly desugared type with the same optional kind |
| `SignatureTypePrinter.CFunctionSignatureTypePrinter.VisitStructType` | lib/PrintAsClang/PrintClangFunction.cpp:98-106 | it appends the struct's known entry, or nothing |
| `SignatureTypePrinter.CFunctionSignatureTypePrinter.Visit` | lib/PrintAsClang/PrintClangFunction.cpp:108-110 | dispatching on the type's shape appends exactly `TypeText` of the type and optional kind |
| `ClangFunctionPrinter.CommaSeparatedFrame` | lib/PrintAsClang/PrintClangFunction.cpp:150-158 | the text `interleaveComma` produces opens with the first parameter's text, closes with the last one's, and its length is their total plus two per separator |
| `ClangFunctionPrinter.CommaSeparatedPrefix` | lib/PrintAsClang/PrintClangFunction.cpp:150-158 | each further parameter adds `", "` and its text; the first adds only its text |
| `ClangFunctionPrinter.CommaSeparatedAppend` | lib/PrintAsClang/PrintClangFunction.cpp:150-158 | the joined text of two non-empty runs of parameters is the two joined texts with one `", "` between them |
| `ClangFunctionPrinter.CommaSeparatedCons` | lib/PrintAsClang/PrintClangFunction.cpp:150-158 | read front to back, the list is the first parameter, `", "`, then the rest |
| `ClangFunctionPrinter.DeclarationShape` | lib/PrintAsClang/PrintClangFunction.cpp:141-162 | in both dialects (C++ at lines 187-212) the declaration begins with the return type, one space, the raw function name and `(`, and ends with `)` |
| `ClangFunctionPrinter.CDeclWithoutParameters` | lib/PrintAsClang/PrintClangFunction.cpp:149-162 | a C declaration without parameters is the return type, a space, the name and `(void)` |
| `ClangFunctionPrinter.CxxDeclWithoutParameters` | lib/PrintAsClang/PrintClangFunction.cpp:194-212 | a C++ declaration without parameters is the return type, a space, the name and `()` |
| `ClangFunctionPrinter.CParameterText` | lib/PrintAsClang/PrintClangFunction.cpp:122-134 | the C text of parameter `i` is its type, followed by a space and the spelled name only when it has a name |
| `ClangFunctionPrinter.CxxParameterText` | lib/PrintAsClang/PrintClangFunction.cpp:196-209 | the C++ text of parameter `i` is its type, a space and the spelled name: its own, or `_` and `i + 1` when it has none |
| `ClangFunctionPrinter.SynthesizedNameShape` | lib/PrintAsClang/PrintClangFunction.cpp:204-207 | a synthesised name is `_` followed by one or more decimal digits |
| `ClangFunctionPrinter.SynthesizedNamesDistinct` | lib/PrintAsClang/PrintClangFunction.cpp:204-207 | two positions never get the same synthesised name |
| `ClangFunctionPrinter.DialectsAgreeOnNamedParameters` | lib/PrintAsClang/PrintClangFunction.cpp:165-212 | with equal tables, a function that has parameters, all of them named, prints the same in C and C++ |
| `ClangFunctionPrinter.DeclAndTypeClangFunctionPrinter.PrintTypeAndName` | lib/PrintAsClang/PrintClangFunction.cpp:122-134 | the local `print` helper appends the type's text, then a space and the spelled name if the name is not empty |
| `ClangFunctionPrinter.DeclAndTypeClangFunctionPrinter.PrintCParameter` | lib/PrintAsClang/PrintClangFunction.cpp:150-158 | the C callback appends the parameter's type and, if any, its name |
| `ClangFunctionPrinter.DeclAndTypeClangFunctionPrinter.PrintCxxParameter` | lib/PrintAsClang/PrintClangFunction.cpp:197-210 | the C++ callback appends the parameter's type and its own or synthesised name for the given index |
| `ClangFunctionPrinter.DeclAndTypeClangFunctionPrinter.PrintCParameterList` | lib/PrintAsClang/PrintClangFunction.cpp:147-161 | the loop appends `void` for no parameters, else every parameter's C text in order with `", "` between |
| `ClangFunctionPrinter.DeclAndTypeClangFunctionPrinter.PrintCxxParameterList` | lib/PrintAsClang/PrintClangFunction.cpp:193-211 | the loop, counting `paramIndex` from 1 once per parameter, appends every parameter's C++ text in order with `", "` between, and nothing for none |
| `ClangFunctionPrinter.DeclAndTypeClangFunctionPrinter.PrintFunctionDeclAsCFunctionDecl` | lib/PrintAsClang/PrintClangFunction.cpp:119-163 | it appends exactly `CFunctionDecl` |
| `ClangFunctionPrinter.DeclAndTypeClangFunctionPrinter.PrintFunctionDeclAsCxxFunctionDecl` | lib/PrintAsClang/PrintClangFunction.cpp:165-213 | it appends exactly `CxxFunctionDecl` |
| `Scenarios.NamedParameter` | lib/PrintAsClang/PrintClangFunction.cpp:141-162 | `foo(x: Int32) -> Bool` prints `bool foo(int32_t x)` in both dialects |
| `Scenarios.NoParameters` | lib/PrintAsClang/PrintClangFunction.cpp:149-161 | `bar()` prints `void bar(void)` in C and `void bar()` in C++ |
| `Scenarios.AnonymousParameterInC` | lib/PrintAsClang/PrintClangFunction.cpp:130-133 | `baz(x: Int32, _: Int32)` prints `void baz(int32_t x, int32_t)` in C |
| `Scenarios.AnonymousParameterInCxx` | lib/PrintAsClang/PrintClangFunction.cpp:196-209 | the same function prints `void baz(int32_t x, int32_t _2)` in C++ |
| `Scenarios.OptionalDropped` | lib/PrintAsClang/PrintClangFunction.cpp:67-73 | `qux(x: Int32?)`, where `int32_t` cannot be null, prints `void qux(int32_t x)` in both dialects |
| `Scenarios.UnknownStructParameter` | lib/PrintAsClang/PrintClangFunction.cpp:98-106 | a parameter of an unknown struct type leaves its type position empty: `void quux( x)` |
| `Scenarios.AliasAndOtherType` | lib/PrintAsClang/PrintClangFunction.cpp:76-96 | an unknown alias of `Int32` prints `int32_t`, and a desugared `Array<Int>` return type, a bound generic struct the visitor has no case for, falls through to the comment `/* Array<Int> */` |

## Left out

- `printNullability` and `printIdentifier` belong to the syntax printer, which is not part of this model. They are parameters: the two functions of `ClangSyntax`. Nothing is assumed about their tokens or escaping.
- The contents of the primitive type table (`getKnownCTypeInfo`, `getKnownCxxTypeInfo`) are not modelled. The table is a parameter with two maps.
- `DeclAndTypePrinter::getObjectTypeAndOptionality` is outside this model. Its result, the object type and its optional kind, is given as input for the return type and for each parameter.
- `Type::print`, the textual description of an arbitrary Swift type, is modelled as the opaque `description` string of `OtherType`.
- The `TypeVisitor` dispatch machinery is reduced to one `match` in `Visit`. Bound generic structs and every kind of type the visitor does not handle are `OtherType`. `raw_ostream` is reduced to a class whose text grows by appending.
- The two assertions in the visitor (line 77, type already desugared; line 84, empty tuple) are preconditions (`Printable`), not run-time checks.
- The visitor's `Optional<OptionalTypeKind>` parameter is always engaged in this file, so the model passes a plain optional kind.
- `ClangFunctionSignatureTypePrinter` (lines 29-41) is not modelled. Nothing in this file uses it.
- `paramIndex` is a `size_t`, and the model uses an unbounded natural. Wrap-around would need 2^64 parameters.
- `OutputLanguageMode` has only the two modes this file uses, Objective-C and C++.
