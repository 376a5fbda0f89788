# Substitution-driven type and name rewriter (Qt Creator C++ model)

This project is a Dafny model of the C++ type/name rewriter in Qt Creator's
C++ support library (`src/libs/cplusplus/CppRewriter.cpp`). Given a type or
name tree and a substitution environment, the rewriter builds a structurally
rewritten copy. It is used to specialise template-like types and to
re-qualify names.

- `cpp_types.dfy` (module `CppTypes`) holds the trees. `Type` and `Name` are
  datatypes. Their constructors stand for the `Control` interner's factory
  operations, so canonicalisation is structural equality. A
  `FullySpecifiedType` is a `FullType`: a type node plus a 32-bit flag word.
  A nullable `const Name *` is an `Option<Name>`. `MergeFlags` is the
  bitwise OR that `accept` applies.
- `rewriter.dfy` (module `Rewriter`) holds `RewriteType`/`RewriteName`. These
  are mutually recursive functions. `RewriteType` is `accept`: visit the
  node, then OR the original flags into the produced node. `VisitType` holds
  the per-shape `visit` methods. The temporary stacks and the loops that fill
  argument arrays are plain structural recursion (`RewriteArguments`,
  `RewriteTypes`, `RewriteNames`).
- `substitution_map.dfy` (module `Bindings`) holds `SubstitutionMap` as a
  class with a `seq` of bindings. `Bind` appends. `Apply` is the backward
  scan, proved equal to the specification function `MapLookup`.
- `qualified_names.dfy` (module `QualifiedNames`) holds `UseQualifiedNames`.
  It is a specification function plus a method with the source's loop that
  builds the qualified name. The folded name is `QualifiedChain`, and
  `Components` splits it back.
- `environment.dfy` (module `Environment`) holds `SubstitutionEnvironment`
  as a class. Its fields are the provider stack (`seq<Substitution>`), the
  current scope and the lookup context. A provider that is a binding map
  refers to the map object, so bindings added after `enter` are visible.
  `Apply` is the backward scan over the providers, proved equal to
  `EnvLookup` on the environment's value (`View()`).
- `rewriter_properties.dfy` (module `RewriterProperties`) holds the
  properties of whole rewrites.
- `entry_points.dfy` (module `EntryPoints`) holds the free functions
  `rewriteType`/`rewriteName` and two clients of the environment's
  contracts.

The symbol table is outside the rewriter. `LookupContext::lookup` is a
function-valued field of `LookupContext`. `LookupContext::fullyQualifiedName`
is a field of the `Symbol` value: the names of its enclosing declarations,
outermost first, then its own name.

An undefined type keeps its flags: `visit(UndefinedType*)` (lines 75-78)
produces a flagless `FullySpecifiedType()`, and `accept` (lines 58-64) then
ORs the original flags into it; see `RewriterProperties.UndefinedKeepsFlags`.
Environment lookup tests only `isUndefinedType()`, never the flags.

## Model

| member | source | states |
|---|---|---|
| CppTypes.MergeFlags | src/libs/cplusplus/CppRewriter.cpp:58-64 | the merged flag word is the union: it holds every flag of the original type and of the produced node, and any word holding both holds it; merging no flags leaves the original word |
| Rewriter.RewriteType | src/libs/cplusplus/CppRewriter.cpp:58-73 | the result keeps every flag of the input; a type that is not a named type keeps exactly its flags and its head (shape, builtin kind, array size, function arity and attributes, declaration) |
| Rewriter.VisitType | src/libs/cplusplus/CppRewriter.cpp:75-206 | every visit except a named type produces a flagless node of the same head as the visited node |
| Rewriter.RewriteArgument | src/libs/cplusplus/CppRewriter.cpp:141-146 | a rebuilt argument keeps the attributes `copy` duplicates, and a null argument name stays null |
| Rewriter.RewriteArguments | src/libs/cplusplus/CppRewriter.cpp:140-149 | the rebuilt argument list has the original length, and argument i is the rewrite of original argument i |
| Rewriter.RewriteTypes | src/libs/cplusplus/CppRewriter.cpp:252-254 | the rewritten template arguments keep count and order, and element i is the rewrite of argument i |
| Rewriter.RewriteNames | src/libs/cplusplus/CppRewriter.cpp:276-278 | the rewritten selector components keep count and order, and element i is the rewrite of component i |
| Rewriter.Reintern | src/libs/cplusplus/CppRewriter.cpp:218-224 | a null identifier stays null; any other identifier is re-interned to an equal one |
| Rewriter.RewriteName | src/libs/cplusplus/CppRewriter.cpp:229-280 | the result is null exactly when the input is; otherwise it keeps the name's head (shape, identifier, operator kind, component counts, `hasArguments`) |
| RewriterProperties.UnsubstitutedTypeUnchanged | src/libs/cplusplus/CppRewriter.cpp:75-152 | a type in which the environment answers no named type is rewritten to a structurally equal type, flags included |
| RewriterProperties.UnsubstitutedArgumentUnchanged | src/libs/cplusplus/CppRewriter.cpp:140-149 | such an argument is rebuilt equal to the original |
| RewriterProperties.UnsubstitutedNameUnchanged | src/libs/cplusplus/CppRewriter.cpp:238-280 | a name in which the environment answers no nested named type is rewritten to a structurally equal name |
| RewriterProperties.EmptyEnvironmentLeavesType | src/libs/cplusplus/CppRewriter.cpp:295-307 | an environment with no providers answers no named type anywhere inside a type |
| RewriterProperties.EmptyEnvironmentLeavesArgument | src/libs/cplusplus/CppRewriter.cpp:295-307 | the same inside a function argument |
| RewriterProperties.EmptyEnvironmentLeavesName | src/libs/cplusplus/CppRewriter.cpp:295-307 | the same inside a name |
| RewriterProperties.EmptyEnvironmentKeepsType | src/libs/cplusplus/CppRewriter.cpp:80-152 | with no providers, rewriting any type gives a structurally equal type |
| RewriterProperties.EmptyEnvironmentKeepsName | src/libs/cplusplus/CppRewriter.cpp:238-280 | with no providers, rewriting any name gives a structurally equal name (for example `std::vector` stays `std::vector`) |
| RewriterProperties.SubstitutedNamedType | src/libs/cplusplus/CppRewriter.cpp:120-124 | a named type the environment answers becomes the answer's type as it is, not rewritten again, with flags exactly the union of the original flags and the answer's flags |
| RewriterProperties.UnsubstitutedNamedType | src/libs/cplusplus/CppRewriter.cpp:120-128 | a named type the environment does not answer becomes a named type over the rewritten name, with the original flags |
| RewriterProperties.RewrittenFunction | src/libs/cplusplus/CppRewriter.cpp:131-152 | a rewritten function keeps its flags, attributes and argument count; its name and return type are rewritten; argument i has the rewritten name and type of original argument i and its attributes |
| RewriterProperties.UndefinedKeepsFlags | src/libs/cplusplus/CppRewriter.cpp:75-78 | an undefined type is rewritten to the undefined type with the same flags |
| RewriterProperties.DeclarationPassesThrough | src/libs/cplusplus/CppRewriter.cpp:154-206 | namespaces, classes, enums, forward declarations and the Objective-C shapes are returned unchanged |
| RewriterProperties.RewrittenNameLists | src/libs/cplusplus/CppRewriter.cpp:250-280 | a template name keeps its identifier and its argument count and order, argument i being rewritten; a selector keeps its component count, order and `hasArguments` |
| QualifiedNames.EmptyContext | src/libs/cplusplus/CppRewriter.cpp:290-293 | a default lookup context finds nothing |
| QualifiedNames.ComponentsOfChain | src/libs/cplusplus/CppRewriter.cpp:394-400 | the qualified name folded from components whose first one is present and unqualified splits back into exactly those components |
| QualifiedNames.ChainIsNullIffAllNull | src/libs/cplusplus/CppRewriter.cpp:394-400 | the folded name is null exactly when every component is null |
| QualifiedNames.UseQualifiedNames | src/libs/cplusplus/CppRewriter.cpp:380-409 | no current scope gives the undefined type, and so does an empty lookup result |
| QualifiedNames.UseQualifiedNamesApply | src/libs/cplusplus/CppRewriter.cpp:380-409 | the loop that folds the declaration's fully qualified name computes exactly `UseQualifiedNames` |
| QualifiedNames.OnlyFirstResultCounts | src/libs/cplusplus/CppRewriter.cpp:391-406 | only the first lookup result decides: contexts that agree on it give the same answer, whatever the other results are |
| QualifiedNames.QualifiedAnswerNamesDeclaration | src/libs/cplusplus/CppRewriter.cpp:393-402 | when the first result has a declaration whose fully qualified name is non-empty and starts with a present, unqualified component, the answer is a flagless named type whose name splits back into that fully qualified name |
| Bindings.MapLookupUnbound | src/libs/cplusplus/CppRewriter.cpp:357-366 | with no binding of an equal name, the lookup gives the undefined type |
| Bindings.MapLookupNewest | src/libs/cplusplus/CppRewriter.cpp:359-364 | the newest binding of an equal name decides, whatever was bound before it |
| Bindings.MapLookupAfterBind | src/libs/cplusplus/CppRewriter.cpp:352-355 | a new binding answers its own name, and every other name is answered as before |
| Bindings.SubstitutionMap.constructor | src/libs/cplusplus/CppRewriter.cpp:342-345 | a new map has no bindings |
| Bindings.SubstitutionMap.Bind | src/libs/cplusplus/CppRewriter.cpp:352-355 | `bind` appends one binding, so the earlier ones are unchanged |
| Bindings.SubstitutionMap.Apply | src/libs/cplusplus/CppRewriter.cpp:357-367 | the backward scan returns the `MapLookup` answer: the newest equal binding's type, or undefined |
| Environment.EnvLookup | src/libs/cplusplus/CppRewriter.cpp:295-308 | a null name and an empty provider stack both give the undefined type |
| Environment.UndefinedIffNoProviderAnswers | src/libs/cplusplus/CppRewriter.cpp:297-307 | the lookup is undefined exactly when every provider answers undefined, and then it is the flagless undefined type |
| Environment.NewestDefinedProviderWins | src/libs/cplusplus/CppRewriter.cpp:298-303 | the answer is that of the most recently entered provider whose answer is defined |
| Environment.EnteredProviderShadows | src/libs/cplusplus/CppRewriter.cpp:310-313 | an entered provider shadows the stack beneath it where it answers, and every other answer is as before |
| Environment.SubstitutionEnvironment.constructor | src/libs/cplusplus/CppRewriter.cpp:290-293 | a new environment has no providers, no scope and an empty context |
| Environment.SubstitutionEnvironment.Apply | src/libs/cplusplus/CppRewriter.cpp:295-308 | the backward scan returns `EnvLookup` on the environment's value |
| Environment.SubstitutionEnvironment.Enter | src/libs/cplusplus/CppRewriter.cpp:310-313 | `enter` pushes the provider and changes nothing else |
| Environment.SubstitutionEnvironment.Leave | src/libs/cplusplus/CppRewriter.cpp:315-318 | `leave` pops the newest provider and changes nothing else |
| Environment.SubstitutionEnvironment.SwitchScope | src/libs/cplusplus/CppRewriter.cpp:325-330 | `switchScope` installs the new scope and returns the previous one |
| Environment.SubstitutionEnvironment.SetContext | src/libs/cplusplus/CppRewriter.cpp:337-340 | `setContext` replaces the lookup context and nothing else |
| EntryPoints.RewriteTypeIn | src/libs/cplusplus/CppRewriter.cpp:412-418 | `rewriteType` rewrites over the environment's current value, only ever adds flags, and with no providers returns its input |
| EntryPoints.RewriteNameIn | src/libs/cplusplus/CppRewriter.cpp:420-426 | `rewriteName` maps null to null and, with no providers, returns its input |
| EntryPoints.ShadowingAcrossLeave | src/libs/cplusplus/CppRewriter.cpp:295-318 | a map entered later shadows an earlier one for the same name, including a binding made after it was entered; after `leave` the earlier answer returns |
| EntryPoints.EnterThenLeave | src/libs/cplusplus/CppRewriter.cpp:310-318 | `enter` followed by `leave` restores the provider stack and the environment's value |

## Left out

- The `qWarning()` diagnostics for declaration shapes (lines 156-205) are not modelled. They are output only; the declaration itself is returned unchanged.
- The `Control` interner's storage, memory allocation and pointer identity are not modelled. Datatype constructors and structural equality stand in for them.
- `Name::isEqualTo` is taken as structural equality of names. `Names.cpp` is not part of this model.
- `LookupContext::lookup` and `LookupContext::fullyQualifiedName` are given, not implemented. The first is a function-valued field of the context; the second is carried by the `Symbol` value.
- `Function::copy` and `Argument::copy` duplicate attributes that the rewriter never inspects. These are one opaque `Attributes` value. A function's argument symbols are `Argument` records.
- `Substitution` is an abstract class in the original. Only its two implementations in this file are modelled: `SubstitutionMap` and `UseQualifiedNames`.
- QualifiedNames.EmptyContext: a default-constructed `LookupContext` is taken to find nothing for every name and scope. What its `lookup` returns is decided outside this file; the environment constructor installs this context.
- `SubstitutionEnvironment::scope()` and `context()` are plain accessors. They are the fields `currentScope` and `context`.
- Environment.SubstitutionEnvironment.Leave: requires a non-empty stack. Removing the last element of an empty list is undefined in the original.
- Bindings.SubstitutionMap.Apply: takes a non-null name. The original dereferences the name, and the environment never passes null.
- Integer widths are not modelled: array sizes, kinds and operator kinds are unbounded, and the rewriter only copies them. The flag word is modelled as 32 bits.
- A rewrite reads the environment's value (`View()`), since no provider changes during a rewrite. The `Rewrite` session object that pairs the interner with the environment is not a separate entity.
