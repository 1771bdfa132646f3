/**
 * `groovy.mop.MetaObjectProtocol`: the read-only queries a meta class
 * answers. The interface is implemented by Groovy's `MetaClassImpl`, which
 * is not modelled; the queries are defined here from the interface's
 * documentation, over a meta class given as the flat catalog of its
 * methods and properties. No query has a
 * precondition: none of them can fail, for an unknown name either.
 */
module MetaObjectProtocol {

  import opened Wrappers
  import opened JavaTypes
  import opened DefaultMetaMethod
  import opened DefaultMetaProperty

  /** The compatibility of an argument type with a parameter type:
      `assignable(argument, parameter)`. Deciding it is the platform's
      business, so every query takes it from the caller. */
  type Assignability = (ClassName, ClassName) -> bool

  /** An argument-type array; `None` stands for a `null` element. */
  type ArgumentTypes = seq<Option<ClassName>>

  /** The metadata of one class. */
  datatype MetaClass = MetaClass(
    theClass: ClassName,
    metaMethods: seq<MetaMethod>,
    metaProperties: seq<MetaProperty>)
  {
    function GetTheClass(): ClassName { theClass }

    function GetMetaProperties(): seq<MetaProperty> { metaProperties }

    /** The property of the given name, `None` when there is none. */
    function GetMetaProperty(name: string): (r: Option<MetaProperty>)
      ensures r.Some? ==> r.value.GetName() == name && r.value in GetMetaProperties()
      ensures r.None? <==> forall p :: p in GetMetaProperties() ==> p.GetName() != name
    {
      FindProperty(metaProperties, name)
    }

    function GetMetaMethods(): seq<MetaMethod> { metaMethods }

    /** The methods called `name` that take `argumentTypes`; with no array,
        all methods called `name`. */
    function GetMetaMethodsNamed(name: string, argumentTypes: Option<ArgumentTypes>, assignable: Assignability)
      : (r: seq<MetaMethod>)
      ensures forall m :: m in r <==> m in GetMetaMethods() && Accepts(m, name, argumentTypes, assignable)
      ensures r == [] <==> forall m :: m in GetMetaMethods() ==> !Accepts(m, name, argumentTypes, assignable)
      ensures |r| <= |GetMetaMethods()|
    {
      Filter(metaMethods, name, argumentTypes, assignable)
    }

    /** The methods called `name` that take `argTypes`; an empty answer
        means the class does not respond to such a call. */
    function RespondsTo(name: string, argTypes: ArgumentTypes, assignable: Assignability): (r: seq<MetaMethod>)
      ensures forall m :: m in r <==> m in GetMetaMethods() && Accepts(m, name, Some(argTypes), assignable)
      ensures r == [] <==> forall m :: m in GetMetaMethods() ==> !Accepts(m, name, Some(argTypes), assignable)
    {
      GetMetaMethodsNamed(name, Some(argTypes), assignable)
    }
  }

  /** The first property called `name`, if any. */
  function FindProperty(properties: seq<MetaProperty>, name: string): (r: Option<MetaProperty>)
    ensures r.Some? ==> r.value.GetName() == name && r.value in properties
    ensures r.None? <==> forall p :: p in properties ==> p.GetName() != name
  {
    if properties == [] then None
    else if properties[0].GetName() == name then Some(properties[0])
    else FindProperty(properties[1..], name)
  }

  /** One position of the match: a `null` element matches every type. */
  predicate PositionMatches(argument: Option<ClassName>, parameter: ClassName, assignable: Assignability) {
    argument.None? || assignable(argument.value, parameter)
  }

  /** The matching rule as documented: the method's name is `name` and,
      when an array is given, the method has as many parameters as the
      array has elements and every position matches. */
  ghost predicate Accepts(m: MetaMethod, name: string, argumentTypes: Option<ArgumentTypes>, assignable: Assignability) {
    && m.GetName() == name
    && match argumentTypes
       case None => true
       case Some(args) =>
         && |args| == |m.GetParameterClasses()|
         && forall i :: 0 <= i < |args| ==> PositionMatches(args[i], m.GetParameterClasses()[i], assignable)
  }

  /** Walks parameters and arguments together; either running out first
      is a count mismatch. */
  predicate ArgumentsMatch(parameters: seq<ClassName>, args: ArgumentTypes, assignable: Assignability) {
    if parameters == [] || args == [] then parameters == [] && args == []
    else PositionMatches(args[0], parameters[0], assignable) && ArgumentsMatch(parameters[1..], args[1..], assignable)
  }

  predicate Matches(m: MetaMethod, name: string, argumentTypes: Option<ArgumentTypes>, assignable: Assignability) {
    && m.GetName() == name
    && (argumentTypes.None? || ArgumentsMatch(m.GetParameterClasses(), argumentTypes.value, assignable))
  }

  /** The positional walk decides the documented rule: equal counts and a
      match at every position. */
  lemma {:induction false} ArgumentsMatchIsPositional(parameters: seq<ClassName>, args: ArgumentTypes, assignable: Assignability)
    ensures ArgumentsMatch(parameters, args, assignable)
      <==> |parameters| == |args| && forall i :: 0 <= i < |args| ==> PositionMatches(args[i], parameters[i], assignable)
  {
    if parameters != [] && args != [] {
      ArgumentsMatchIsPositional(parameters[1..], args[1..], assignable);
      if |parameters| == |args| && forall i :: 0 <= i < |args| ==> PositionMatches(args[i], parameters[i], assignable) {
        forall i | 0 <= i < |args| - 1
          ensures PositionMatches(args[1..][i], parameters[1..][i], assignable)
        {
          assert PositionMatches(args[i + 1], parameters[i + 1], assignable);
        }
      }
      if ArgumentsMatch(parameters, args, assignable) {
        forall i | 0 <= i < |args|
          ensures PositionMatches(args[i], parameters[i], assignable)
        {
          if i > 0 {
            assert args[i] == args[1..][i - 1] && parameters[i] == parameters[1..][i - 1];
          }
        }
      }
    }
  }

  lemma MatchesIsAccepts(m: MetaMethod, name: string, argumentTypes: Option<ArgumentTypes>, assignable: Assignability)
    ensures Matches(m, name, argumentTypes, assignable) <==> Accepts(m, name, argumentTypes, assignable)
  {
    if argumentTypes.Some? {
      ArgumentsMatchIsPositional(m.GetParameterClasses(), argumentTypes.value, assignable);
    }
  }

  /** The methods of `methods` that match, in catalog order. */
  function Filter(methods: seq<MetaMethod>, name: string, argumentTypes: Option<ArgumentTypes>, assignable: Assignability)
    : (r: seq<MetaMethod>)
    ensures forall m :: m in r <==> m in methods && Accepts(m, name, argumentTypes, assignable)
    ensures r == [] <==> forall m :: m in methods ==> !Accepts(m, name, argumentTypes, assignable)
    ensures |r| <= |methods|
  {
    if methods == [] then []
    else
      MatchesIsAccepts(methods[0], name, argumentTypes, assignable);
      (if Matches(methods[0], name, argumentTypes, assignable) then [methods[0]] else [])
      + Filter(methods[1..], name, argumentTypes, assignable)
  }

  /** A filter never adds an entry, counting repeats too: no method occurs
      in the answer more often than in the catalog. */
  lemma {:induction false} FilterIsSubMultiset(
    methods: seq<MetaMethod>, name: string, argumentTypes: Option<ArgumentTypes>, assignable: Assignability)
    ensures multiset(Filter(methods, name, argumentTypes, assignable)) <= multiset(methods)
  {
    if methods != [] {
      var rest := Filter(methods[1..], name, argumentTypes, assignable);
      var head := if Matches(methods[0], name, argumentTypes, assignable) then [methods[0]] else [];
      assert Filter(methods, name, argumentTypes, assignable) == head + rest;
      FilterIsSubMultiset(methods[1..], name, argumentTypes, assignable);
      KeepOrDropHead(methods[0], head, rest, Filter(methods, name, argumentTypes, assignable), methods[1..], methods);
    }
  }

  /** One step of a filter: keeping or dropping the head of a sequence adds
      no occurrence. */
  lemma KeepOrDropHead<T>(x: T, head: seq<T>, rest: seq<T>, r: seq<T>, tail: seq<T>, s: seq<T>)
    requires head == [] || head == [x]
    requires r == head + rest && s != [] && x == s[0] && tail == s[1..]
    requires multiset(rest) <= multiset(tail)
    ensures multiset(r) <= multiset(s)
  {
    assert [x] + tail == s;
  }

  /** Without an argument array the parameter types play no part: the
      answer holds exactly the methods of that name, and it is the same
      whatever assignability relation is supplied. */
  lemma {:induction false} NoArrayMeansNoTypeFilter(mc: MetaClass, name: string, assignable: Assignability, other: Assignability)
    ensures forall m ::
              m in mc.GetMetaMethodsNamed(name, None, assignable) <==> m in mc.GetMetaMethods() && m.GetName() == name
    ensures mc.GetMetaMethodsNamed(name, None, assignable) == mc.GetMetaMethodsNamed(name, None, other)
  {
    FilterWithoutArrayIgnoresAssignability(mc.metaMethods, name, assignable, other);
  }

  lemma {:induction false} FilterWithoutArrayIgnoresAssignability(
    methods: seq<MetaMethod>, name: string, assignable: Assignability, other: Assignability)
    ensures Filter(methods, name, None, assignable) == Filter(methods, name, None, other)
  {
    if methods != [] {
      FilterWithoutArrayIgnoresAssignability(methods[1..], name, assignable, other);
    }
  }

  /** With an array, a method whose parameter count differs from the
      array's length is never returned, whatever the elements are. */
  lemma ArityMismatchExcludes(mc: MetaClass, name: string, args: ArgumentTypes, assignable: Assignability, m: MetaMethod)
    requires |args| != |m.GetParameterClasses()|
    ensures m !in mc.GetMetaMethodsNamed(name, Some(args), assignable)
    ensures m !in mc.RespondsTo(name, args, assignable)
  {
  }

  /** An array of `k` null elements: the k-ary methods of that name. */
  function Wildcards(k: nat): (args: ArgumentTypes)
    ensures |args| == k && forall i :: 0 <= i < k ==> args[i].None?
  {
    seq(k, _ => None)
  }

  /** A null element matches every type yet counts toward the parameter
      count, so an all-null array of length `k` selects exactly the methods
      of that name with `k` parameters. */
  lemma AllNullSelectsArity(mc: MetaClass, name: string, k: nat, assignable: Assignability)
    ensures forall m ::
              m in mc.GetMetaMethodsNamed(name, Some(Wildcards(k)), assignable)
              <==> m in mc.GetMetaMethods() && m.GetName() == name && |m.GetParameterClasses()| == k
  {
  }

  /** A non-null element at position `i` excludes a method unless it is
      compatible with the method's parameter type at `i`. */
  lemma IncompatibleElementExcludes(
    mc: MetaClass, name: string, args: ArgumentTypes, assignable: Assignability, m: MetaMethod, i: nat)
    requires i < |args| && i < |m.GetParameterClasses()|
    requires args[i].Some? && !assignable(args[i].value, m.GetParameterClasses()[i])
    ensures m !in mc.GetMetaMethodsNamed(name, Some(args), assignable)
  {
  }

  /** Replacing any element with null never loses a method: a null element
      matches whatever the element it replaces matched. */
  lemma NullElementNeverExcludes(
    mc: MetaClass, name: string, args: ArgumentTypes, assignable: Assignability, m: MetaMethod, i: nat)
    requires i < |args|
    requires m in mc.GetMetaMethodsNamed(name, Some(args), assignable)
    ensures m in mc.GetMetaMethodsNamed(name, Some(args[i := None]), assignable)
  {
    var args' := args[i := None];
    forall j | 0 <= j < |args'|
      ensures PositionMatches(args'[j], m.GetParameterClasses()[j], assignable)
    {
      if j != i {
        assert args'[j] == args[j];
      }
    }
  }

  /** Any answer is a filter of the catalog: each method in it is one of
      `GetMetaMethods()`, is called `name`, and is also in the answer to the
      same name without an array. */
  lemma AnswerIsCatalogFilter(mc: MetaClass, name: string, args: ArgumentTypes, assignable: Assignability)
    ensures forall m ::
              m in mc.GetMetaMethodsNamed(name, Some(args), assignable)
              ==> && m in mc.GetMetaMethods()
                  && m.GetName() == name
                  && m in mc.GetMetaMethodsNamed(name, None, assignable)
  {
  }

  /** The array that names exactly the given parameter types. */
  function ExactTypes(parameters: seq<ClassName>): (args: ArgumentTypes)
    ensures |args| == |parameters| && forall i :: 0 <= i < |args| ==> args[i] == Some(parameters[i])
  {
    seq(|parameters|, i requires 0 <= i < |parameters| => Some(parameters[i]))
  }

  /** When every type is assignable to itself, a method of the catalog is
      found by its own name and parameter types. */
  lemma OwnSignatureFindsMethod(mc: MetaClass, m: MetaMethod, assignable: Assignability)
    requires m in mc.GetMetaMethods()
    requires forall t :: assignable(t, t)
    ensures m in mc.GetMetaMethodsNamed(m.GetName(), Some(ExactTypes(m.GetParameterClasses())), assignable)
    ensures mc.RespondsTo(m.GetName(), ExactTypes(m.GetParameterClasses()), assignable) != []
  {
  }

  /** An unknown name is answered with empty results, never an error. */
  lemma UnknownNameAnswersEmpty(
    mc: MetaClass, name: string, argumentTypes: Option<ArgumentTypes>, args: ArgumentTypes, assignable: Assignability)
    requires forall m :: m in mc.GetMetaMethods() ==> m.GetName() != name
    requires forall p :: p in mc.GetMetaProperties() ==> p.GetName() != name
    ensures mc.GetMetaMethodsNamed(name, argumentTypes, assignable) == []
    ensures mc.RespondsTo(name, args, assignable) == []
    ensures mc.GetMetaProperty(name) == None
  {
  }

  /** Property names are unique within the catalog. */
  ghost predicate UniquePropertyNames(properties: seq<MetaProperty>) {
    forall i, j :: 0 <= i < j < |properties| ==> properties[i].GetName() != properties[j].GetName()
  }

  /** When property names are unique, the property of a name is the one
      listed under that name. */
  lemma {:induction false} UniqueNameFindsItsProperty(mc: MetaClass, p: MetaProperty)
    requires UniquePropertyNames(mc.GetMetaProperties())
    requires p in mc.GetMetaProperties()
    ensures mc.GetMetaProperty(p.GetName()) == Some(p)
  {
    FindUnique(mc.metaProperties, p);
  }

  lemma {:induction false} FindUnique(properties: seq<MetaProperty>, p: MetaProperty)
    requires UniquePropertyNames(properties)
    requires p in properties
    ensures FindProperty(properties, p.GetName()) == Some(p)
  {
    if properties[0] != p {
      var k :| 0 <= k < |properties| && properties[k] == p;
      assert k > 0;
      assert properties[0].GetName() != properties[k].GetName();
      assert UniquePropertyNames(properties[1..]) by {
        forall i, j | 0 <= i < j < |properties[1..]|
          ensures properties[1..][i].GetName() != properties[1..][j].GetName()
        {
          assert properties[1..][i] == properties[i + 1] && properties[1..][j] == properties[j + 1];
        }
      }
      assert properties[1..][k - 1] == p;
      FindUnique(properties[1..], p);
    }
  }

  /** Assignability as plain type equality, for the example below. */
  predicate SameType(argument: ClassName, parameter: ClassName) {
    argument == parameter
  }

  /** A class `T` declaring `foo()`, `foo(int)` and `foo(String, int)`. */
  function Foo0(): MetaMethod { FromSignature("T", "foo", MethodType([], "void")) }
  function Foo1(): MetaMethod { FromSignature("T", "foo", MethodType(["int"], "void")) }
  function Foo2(): MetaMethod { FromSignature("T", "foo", MethodType(["java.lang.String", "int"], "void")) }
  function FooClass(): MetaClass { MetaClass("T", [Foo0(), Foo1(), Foo2()], []) }

  /** The queries on `T`, with type equality as assignability. */
  lemma OverloadExampleByType()
    ensures FooClass().GetMetaMethodsNamed("foo", Some([Some("int")]), SameType) == [Foo1()]
    ensures FooClass().GetMetaMethodsNamed("foo", Some([Some("java.lang.String")]), SameType) == []
  {
    assert [Foo0(), Foo1(), Foo2()][1..] == [Foo1(), Foo2()];
    assert [Foo1(), Foo2()][1..] == [Foo2()];
    assert !Matches(Foo0(), "foo", Some([Some("int")]), SameType);
    assert Matches(Foo1(), "foo", Some([Some("int")]), SameType);
    assert !Matches(Foo2(), "foo", Some([Some("int")]), SameType);
    assert !Matches(Foo0(), "foo", Some([Some("java.lang.String")]), SameType);
    assert !Matches(Foo1(), "foo", Some([Some("java.lang.String")]), SameType);
    assert !Matches(Foo2(), "foo", Some([Some("java.lang.String")]), SameType);
  }

  /** Without an array, all three overloads of `foo`. */
  lemma OverloadExampleNoArray()
    ensures FooClass().GetMetaMethodsNamed("foo", None, SameType) == [Foo0(), Foo1(), Foo2()]
  {
    assert [Foo0(), Foo1(), Foo2()][1..] == [Foo1(), Foo2()];
    assert [Foo1(), Foo2()][1..] == [Foo2()];
  }

  lemma OverloadExampleWithNull()
    ensures FooClass().GetMetaMethodsNamed("foo", Some([None, Some("int")]), SameType) == [Foo2()]
  {
    assert [Foo0(), Foo1(), Foo2()][1..] == [Foo1(), Foo2()];
    assert [Foo1(), Foo2()][1..] == [Foo2()];
    assert !Matches(Foo0(), "foo", Some([None, Some("int")]), SameType);
    assert !Matches(Foo1(), "foo", Some([None, Some("int")]), SameType);
    assert Matches(Foo2(), "foo", Some([None, Some("int")]), SameType);
  }

  lemma OverloadExampleRespondsTo()
    ensures FooClass().RespondsTo("foo", [], SameType) == [Foo0()]
    ensures FooClass().RespondsTo("bar", [], SameType) == []
  {
    assert [Foo0(), Foo1(), Foo2()][1..] == [Foo1(), Foo2()];
    assert [Foo1(), Foo2()][1..] == [Foo2()];
  }
}
