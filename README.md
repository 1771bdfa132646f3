# Groovy MOP metadata, modelled in Dafny

This project models the metadata layer of Groovy's Meta Object Protocol (MOP).
It has three parts:

- `MetaObjectProtocol` holds the read-only queries a meta class answers: all
  properties, the property of a name, all methods, the methods of a name
  filtered by argument types, and `respondsTo`. The Java interface is
  implemented by Groovy's `MetaClassImpl`, which is not modelled. The queries
  are defined from the interface's documentation, over a `MetaClass` that
  holds the flat catalog of a class's methods and properties.
- `DefaultMetaMethod` is the immutable method record. It has two
  constructors, accessors for its name, declaring class, signature, handle and
  modifier word, and the predicates `isStatic`, `isAbstract`, `isPrivate`,
  `isProtected` and `isPublic`. Each predicate tests one bit.
- `DefaultMetaProperty` is the immutable property record. It has a name, a
  type, an ordered list of getter candidates, an optional setter and optional
  field getter and field setter, and the constant modifiers PUBLIC.

Supporting modules:

- `Modifier` holds the method access flags of section 4.6 (Table 4.6-A) of
  the Java Virtual Machine Specification, with the values
  `java.lang.reflect.Modifier` uses: PUBLIC 0x0001, PRIVATE 0x0002,
  PROTECTED 0x0004, STATIC 0x0008, ABSTRACT 0x0400. It also maps between
  flag sets and modifier words. A Java `int` is modelled as `bv32`.
- `JavaTypes` names a class by its name. A `MethodType` is its parameter list
  and return type. A `MethodHandle` is an opaque token that carries its type.
- `Wrappers` holds `Option`. `None` stands for Java `null`.

All fields in the source are `final`, so every record is a Dafny datatype
value. No operation changes a record after it is built, and every query is a
function. The queries have no `requires` clause, so each one is total: it
answers every input, unknown names included, and it cannot fail. Being
functions, they give the same answer each time they are called on the same
arguments.

Whether an argument type can be passed to a parameter type is decided by the
platform. Every method query therefore takes this relation as a parameter,
`assignable(argument, parameter)`, and the model assumes nothing about it. The
only exception is `OwnSignatureFindsMethod`, which asks for it to be
reflexive.

The documentation of `getMetaMethods(String, Class...)` says on
src/main/groovy/mop/MetaObjectProtocol.java:62: "If argument types is not null
any method will match". The parameter description on line 68 ("or null") and
the next sentence (lines 63-65) show that "is null" is meant. The model follows
that reading: only a missing array turns the type filter off.

The filter is defined twice. `Filter` is built from the executable
position-by-position walk `ArgumentsMatch`. `Accepts` is the documented rule
written as a quantified predicate. `ArgumentsMatchIsPositional` and
`MatchesIsAccepts` prove that the two agree, and every query's contract is
stated against `Accepts`.

## Model

| member | source | states |
|---|---|---|
| `MetaObjectProtocol.MetaClass.GetMetaProperties` | src/main/groovy/mop/MetaObjectProtocol.java:36-42 | The catalog's property list. `GetMetaProperty` is stated against it. |
| `MetaObjectProtocol.MetaClass.GetMetaMethods` | src/main/groovy/mop/MetaObjectProtocol.java:52-58 | The catalog's method list. Every filtered answer is stated against it. |
| `MetaObjectProtocol.MetaClass.GetTheClass` | src/main/groovy/mop/MetaObjectProtocol.java:84-89 | Returns the stored class; nothing more is modelled. |
| `MetaObjectProtocol.MetaClass.GetMetaProperty` | src/main/groovy/mop/MetaObjectProtocol.java:44-50 | A returned property has the requested name and is one of `GetMetaProperties()`. The answer is `None` exactly when no property has that name. |
| `MetaObjectProtocol.FindProperty` | src/main/groovy/mop/MetaObjectProtocol.java:44-50 | The search behind `GetMetaProperty`. A hit has the name and is in the list, and a miss means no listed property has the name. |
| `MetaObjectProtocol.UniqueNameFindsItsProperty` | src/main/groovy/mop/MetaObjectProtocol.java:44-50 | When property names are unique, asking for a listed property's name returns that property. |
| `MetaObjectProtocol.FindUnique` | src/main/groovy/mop/MetaObjectProtocol.java:44-50 | The list-level induction behind `UniqueNameFindsItsProperty`. |
| `MetaObjectProtocol.MetaClass.GetMetaMethodsNamed` | src/main/groovy/mop/MetaObjectProtocol.java:60-72 | A method is in the answer exactly when it is in `GetMetaMethods()` and meets the documented name, count and type rule. The answer is empty exactly when no catalog method meets the rule, and it is never longer than the catalog. |
| `MetaObjectProtocol.MetaClass.RespondsTo` | src/main/groovy/mop/MetaObjectProtocol.java:74-82 | The answer holds exactly the catalog methods of that name that match the argument types. It is empty exactly when no such method exists, so a non-empty answer is the truthy one. |
| `MetaObjectProtocol.Filter` | src/main/groovy/mop/MetaObjectProtocol.java:60-72 | Filtering a method sequence keeps exactly the entries that meet the documented rule. It is empty exactly when none does, and it adds no element of its own. |
| `MetaObjectProtocol.FilterIsSubMultiset` | src/main/groovy/mop/MetaObjectProtocol.java:52-72 | Counting repeats too, no method occurs in a filtered answer more often than in the catalog. The filter never creates an entry. |
| `MetaObjectProtocol.ArgumentsMatchIsPositional` | src/main/groovy/mop/MetaObjectProtocol.java:63-65 | The positional walk succeeds exactly when the parameter count equals the array length and every position matches. A null element matches any type at its position. |
| `MetaObjectProtocol.MatchesIsAccepts` | src/main/groovy/mop/MetaObjectProtocol.java:61-65 | The executable match decides the documented rule, both with and without an argument array. |
| `MetaObjectProtocol.NoArrayMeansNoTypeFilter` | src/main/groovy/mop/MetaObjectProtocol.java:61-68 | With the array absent, the answer holds exactly the catalog methods whose name equals `name`. It is the same for every assignability relation, so no parameter types are consulted. |
| `MetaObjectProtocol.FilterWithoutArrayIgnoresAssignability` | src/main/groovy/mop/MetaObjectProtocol.java:61-68 | The induction behind the independence claim of `NoArrayMeansNoTypeFilter`. |
| `MetaObjectProtocol.ArityMismatchExcludes` | src/main/groovy/mop/MetaObjectProtocol.java:63-65 | With an array present, a method whose parameter count differs from the array length is never returned, from either query, whatever the elements are. |
| `MetaObjectProtocol.AllNullSelectsArity` | src/main/groovy/mop/MetaObjectProtocol.java:63-65 | An all-null array of length k selects exactly the catalog methods of that name with k parameters. Null elements match anything yet still count. |
| `MetaObjectProtocol.IncompatibleElementExcludes` | src/main/groovy/mop/MetaObjectProtocol.java:62-63 | A non-null element at position i excludes a method unless it is assignable to that method's parameter type at i. |
| `MetaObjectProtocol.NullElementNeverExcludes` | src/main/groovy/mop/MetaObjectProtocol.java:63-64 | Replacing any element of the array with null never removes a method from the answer. |
| `MetaObjectProtocol.AnswerIsCatalogFilter` | src/main/groovy/mop/MetaObjectProtocol.java:52-72 | Every method found for `name` and an array is an element of `GetMetaMethods()`, is called `name`, and is also found for `name` without an array. |
| `MetaObjectProtocol.OwnSignatureFindsMethod` | src/main/groovy/mop/MetaObjectProtocol.java:60-82 | When assignability is reflexive, a catalog method is found by its own name and exact parameter types, and `RespondsTo` answers non-empty for them. |
| `MetaObjectProtocol.UnknownNameAnswersEmpty` | src/main/groovy/mop/MetaObjectProtocol.java:23-26 | For a name no method or property has, both method queries answer empty and the property query answers `None`. None of them fails. |
| `MetaObjectProtocol.OverloadExampleByType` | src/main/groovy/mop/MetaObjectProtocol.java:60-72 | For `foo()`, `foo(int)`, `foo(String, int)` with exact type equality, `[int]` selects only `foo(int)` and `[String]` selects nothing. |
| `MetaObjectProtocol.OverloadExampleNoArray` | src/main/groovy/mop/MetaObjectProtocol.java:60-72 | On the same class and with no array, the answer is all three overloads of `foo`. |
| `MetaObjectProtocol.OverloadExampleWithNull` | src/main/groovy/mop/MetaObjectProtocol.java:60-72 | On the same class, `[null, int]` selects only `foo(String, int)`. |
| `MetaObjectProtocol.OverloadExampleRespondsTo` | src/main/groovy/mop/MetaObjectProtocol.java:74-82 | On the same class, `respondsTo("foo", [])` is `[foo()]` and `respondsTo("bar", [])` is empty. |
| `DefaultMetaMethod.FromSignature` | src/main/groovy/mop/internal/DefaultMetaMethod.java:37-43 | The signature-only constructor: the getters return the given class, name, parameter types and return type. The modifiers are PUBLIC and there is no target. |
| `DefaultMetaMethod.FromHandle` | src/main/groovy/mop/internal/DefaultMetaMethod.java:45-51 | The handle constructor: the getters return the given class, name and modifiers, and the target is the handle. The parameter classes and return type are those of the handle's type. |
| `DefaultMetaMethod.SignatureConstructorIsPublicOnly` | src/main/groovy/mop/internal/DefaultMetaMethod.java:37-96 | After the signature-only constructor, `isPublic()` holds and `isStatic()`, `isAbstract()`, `isPrivate()` and `isProtected()` do not. Public is the only named flag. |
| `DefaultMetaMethod.PredicatesAnswerFlags` | src/main/groovy/mop/internal/DefaultMetaMethod.java:78-96 | Build a method from the modifier word for any flag set. Each of the five predicates is then true exactly when its flag is in the set. |
| `DefaultMetaMethod.PredicatesIgnoreOtherBits` | src/main/groovy/mop/internal/DefaultMetaMethod.java:78-96 | Setting modifier bits outside the five named ones never changes what any predicate answers. |
| `Modifier.MasksAreSingleBits` | src/main/groovy/mop/internal/DefaultMetaMethod.java:78-96 | Each flag value tested is one non-zero bit, and two different flags never share a bit. |
| `DefaultMetaMethod.MetaMethod.IsStatic` | src/main/groovy/mop/internal/DefaultMetaMethod.java:78-80 | True exactly when bit 3 (STATIC, 0x0008) of the modifier word is set. |
| `DefaultMetaMethod.MetaMethod.IsAbstract` | src/main/groovy/mop/internal/DefaultMetaMethod.java:82-84 | True exactly when bit 10 (ABSTRACT, 0x0400) of the modifier word is set. |
| `DefaultMetaMethod.MetaMethod.IsPrivate` | src/main/groovy/mop/internal/DefaultMetaMethod.java:86-88 | True exactly when bit 1 (PRIVATE, 0x0002) of the modifier word is set. |
| `DefaultMetaMethod.MetaMethod.IsProtected` | src/main/groovy/mop/internal/DefaultMetaMethod.java:90-92 | True exactly when bit 2 (PROTECTED, 0x0004) of the modifier word is set. |
| `DefaultMetaMethod.MetaMethod.IsPublic` | src/main/groovy/mop/internal/DefaultMetaMethod.java:94-96 | True exactly when bit 0 (PUBLIC, 0x0001) of the modifier word is set. |
| `DefaultMetaMethod.MetaMethod.GetReturnType` | src/main/groovy/mop/internal/DefaultMetaMethod.java:61-63 | On a record built by a constructor that has a handle, this is the return type of the handle's type. The constructor rows state the rest. |
| `DefaultMetaMethod.MetaMethod.GetParameterClasses` | src/main/groovy/mop/internal/DefaultMetaMethod.java:102-104 | On a record built by a constructor that has a handle, these are the parameter types of the handle's type. The constructor rows state the rest. |
| `DefaultMetaMethod.MetaMethod.GetTarget` | src/main/groovy/mop/internal/DefaultMetaMethod.java:106-108 | On a record built by a constructor, an absent target means the modifiers are PUBLIC. The constructor rows say which handle is returned. |
| `DefaultMetaMethod.MetaMethod.GetModifiers` | src/main/groovy/mop/internal/DefaultMetaMethod.java:53-55 | Its value is stated by the `ensures` of `FromSignature` (PUBLIC) and `FromHandle` (the given word). |
| `DefaultMetaMethod.MetaMethod.GetName` | src/main/groovy/mop/internal/DefaultMetaMethod.java:57-59 | Its value is stated by the `ensures` of `FromSignature` and `FromHandle`: the given name. |
| `DefaultMetaMethod.MetaMethod.GetDeclaringClass` | src/main/groovy/mop/internal/DefaultMetaMethod.java:98-100 | Its value is stated by the `ensures` of `FromSignature` and `FromHandle`: the given class. |
| `Modifier.FlagsOfEncode` | src/main/groovy/mop/internal/DefaultMetaMethod.java:78-96 | Encode any set of the five flags as a modifier word and read the bits back: the result is the same set. |
| `Modifier.EncodeFlagsOf` | src/main/groovy/mop/internal/DefaultMetaMethod.java:78-96 | Read the named flags of any word and encode them again: the result keeps exactly the five named bits of the word. |
| `DefaultMetaProperty.NewMetaProperty` | src/main/groovy/mop/internal/DefaultMetaProperty.java:36-84 | The getters return the constructor's name, type, setter, field getter and field setter. The field accessors are not swapped, and each may be absent on its own. The getter list comes back as the same sequence, so it has the same length and order. |
| `DefaultMetaProperty.MetaProperty.GetName` | src/main/groovy/mop/internal/DefaultMetaProperty.java:48-50 | Its value is stated by the `ensures` of `NewMetaProperty`: the given name. |
| `DefaultMetaProperty.MetaProperty.GetType` | src/main/groovy/mop/internal/DefaultMetaProperty.java:55-57 | Its value is stated by the `ensures` of `NewMetaProperty`: the given type. |
| `DefaultMetaProperty.MetaProperty.GetModifiers` | src/main/groovy/mop/internal/DefaultMetaProperty.java:62-64 | Its value is stated by `ModifiersArePublic`: PUBLIC, for every property. |
| `DefaultMetaProperty.MetaProperty.GetPropertyGetter` | src/main/groovy/mop/internal/DefaultMetaProperty.java:66-69 | Its value is stated by the `ensures` of `NewMetaProperty`: the given getter list. |
| `DefaultMetaProperty.MetaProperty.GetPropertySetter` | src/main/groovy/mop/internal/DefaultMetaProperty.java:71-74 | Its value is stated by the `ensures` of `NewMetaProperty`: the given setter. |
| `DefaultMetaProperty.MetaProperty.GetFieldGetter` | src/main/groovy/mop/internal/DefaultMetaProperty.java:76-79 | Its value is stated by the `ensures` of `NewMetaProperty`: the given field getter. |
| `DefaultMetaProperty.MetaProperty.GetFieldSetter` | src/main/groovy/mop/internal/DefaultMetaProperty.java:81-84 | Its value is stated by the `ensures` of `NewMetaProperty`: the given field setter. |
| `DefaultMetaProperty.ModifiersArePublic` | src/main/groovy/mop/internal/DefaultMetaProperty.java:62-64 | Every property's modifiers are PUBLIC, the same for any two properties whatever their accessors. Public is the only named flag. |

## Left out

- `toString` (src/main/groovy/mop/internal/DefaultMetaMethod.java:65-76) is not modelled. It prints an identity hash and the platform's array formatting.
- Method handles and method types are not modelled beyond an opaque token that carries its type. Nothing here invokes a handle.
- How the platform decides that one class is assignable to another is not modelled. It is a parameter of every method query.
- Building a meta class from reflection is not modelled. That code is not part of this model, so the catalog is given as data.
- `getTheClass` only returns the stored class.
- The thread-safety and "persistent collections" promise is modelled only as immutability: all records and answers are values. Concurrency is not modelled.
- MetaObjectProtocol.MetaClass.GetMetaMethodsNamed: the contract states which methods are in the answer, not their order or how many times each appears. The source promises neither. `Filter` happens to keep catalog order.
- MetaObjectProtocol.MetaClass.GetMetaProperty: if two properties share a name, the model returns the first. The source does not say which one is returned, so the contract claims only the name and the membership.
- MetaObjectProtocol.MetaClass.RespondsTo: its Java parameter is `Object...`. Turning non-`Class` arguments into classes happens in the implementing meta class, which is not part of this model. A `null` array is not modelled either. The model takes the argument array as a sequence of optional class names.
- DefaultMetaMethod.FromHandle: a `null` handle makes the Java constructor throw `NullPointerException` at `target.type()` (line 49). The model's handle parameter cannot be absent, so that failure is not modelled.
- `null` names, a `null` signature and a `null` getter list are not modelled. The source does not handle them either; they surface later as `NullPointerException` or as `null` answers.
- DefaultMetaProperty.NewMetaProperty: Java stores the caller's `List` and returns that same object from `getPropertyGetter`, so a caller that mutates the list changes the property. The model's getter list is a value, so this aliasing is not modelled.
- Two method records are equal in the model exactly when all their fields are equal. The Java class defines no `equals`, so Java compares them by identity.
- Rejecting duplicate property names is not modelled: nothing in this code builds a catalog. `UniqueNameFindsItsProperty` shows what unique names give.
- The raw datatype constructor `MetaMethod(...)` can build records that neither Java constructor can. An example is a handle whose type differs from the signature. `Constructed()` names what the two constructors guarantee, and both `FromSignature` and `FromHandle` ensure it. A `MetaClass` catalog does not require it of its entries.
