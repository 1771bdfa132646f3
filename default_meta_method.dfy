/**
 * `groovy.mop.internal.DefaultMetaMethod`: an immutable description of one
 * method of a class. Every field is final and set once by one of the two
 * constructors, so the record is a datatype value and each constructor a
 * function that builds it.
 */
module DefaultMetaMethod {

  import opened Wrappers
  import opened JavaTypes
  import Modifier

  datatype MetaMethod = MetaMethod(
    signature: MethodType,
    modifiers: bv32,
    target: Option<MethodHandle>,
    name: string,
    declaringClass: ClassName)
  {
    function GetModifiers(): bv32 { modifiers }

    function GetName(): string { name }

    /** For a record built by a constructor, the return type of the
        handle's type when there is a handle. */
    function GetReturnType(): (r: ClassName)
      ensures Constructed() && target.Some? ==> r == target.value.methodType.returnType
    {
      signature.returnType
    }

    function GetDeclaringClass(): ClassName { declaringClass }

    /** For a record built by a constructor, the parameter types of the
        handle's type when there is a handle. */
    function GetParameterClasses(): (r: seq<ClassName>)
      ensures Constructed() && target.Some? ==> r == target.value.methodType.parameterArray
    {
      signature.parameterArray
    }

    /** The handle given to the second constructor; `None` stands for `null`.
        A record built without a handle is public. */
    function GetTarget(): (r: Option<MethodHandle>)
      ensures Constructed() && r.None? ==> GetModifiers() == Modifier.PUBLIC
    {
      target
    }

    /** What the two constructors guarantee of every record they build: with
        a handle, the signature is the handle's type; without one, the
        modifiers are PUBLIC. */
    ghost predicate Constructed() {
      && (target.Some? ==> signature == target.value.methodType)
      && (target.None? ==> modifiers == Modifier.PUBLIC)
    }

    /** Bit 3 of the modifier word, STATIC. */
    predicate IsStatic()
      ensures IsStatic() <==> (GetModifiers() >> 3) & 1 == 1
    {
      GetModifiers() & Modifier.STATIC != 0
    }

    /** Bit 10 of the modifier word, ABSTRACT. */
    predicate IsAbstract()
      ensures IsAbstract() <==> (GetModifiers() >> 10) & 1 == 1
    {
      GetModifiers() & Modifier.ABSTRACT != 0
    }

    /** Bit 1 of the modifier word, PRIVATE. */
    predicate IsPrivate()
      ensures IsPrivate() <==> (GetModifiers() >> 1) & 1 == 1
    {
      GetModifiers() & Modifier.PRIVATE != 0
    }

    /** Bit 2 of the modifier word, PROTECTED. */
    predicate IsProtected()
      ensures IsProtected() <==> (GetModifiers() >> 2) & 1 == 1
    {
      GetModifiers() & Modifier.PROTECTED != 0
    }

    /** Bit 0 of the modifier word, PUBLIC. */
    predicate IsPublic()
      ensures IsPublic() <==> GetModifiers() & 1 == 1
    {
      GetModifiers() & Modifier.PUBLIC != 0
    }
  }

  /** `DefaultMetaMethod(Class, String, MethodType)`: a public method with the
      given signature and no handle. */
  function FromSignature(declaringClass: ClassName, name: string, signature: MethodType): (m: MetaMethod)
    ensures m.GetDeclaringClass() == declaringClass && m.GetName() == name
    ensures m.GetParameterClasses() == signature.parameterArray
    ensures m.GetReturnType() == signature.returnType
    ensures m.GetModifiers() == Modifier.PUBLIC
    ensures m.GetTarget() == None
    ensures m.Constructed()
  {
    MetaMethod(signature, Modifier.PUBLIC, None, name, declaringClass)
  }

  /** `DefaultMetaMethod(Class, String, int, MethodHandle)`: the signature is
      the type of the handle. */
  function FromHandle(declaringClass: ClassName, name: string, modifiers: bv32, target: MethodHandle): (m: MetaMethod)
    ensures m.GetDeclaringClass() == declaringClass && m.GetName() == name
    ensures m.GetModifiers() == modifiers
    ensures m.GetParameterClasses() == target.methodType.parameterArray
    ensures m.GetReturnType() == target.methodType.returnType
    ensures m.GetTarget() == Some(target)
    ensures m.Constructed()
  {
    MetaMethod(target.methodType, modifiers, Some(target), name, declaringClass)
  }

  /** A method built from a signature alone is public and nothing else. */
  lemma SignatureConstructorIsPublicOnly(declaringClass: ClassName, name: string, signature: MethodType)
    ensures var m := FromSignature(declaringClass, name, signature);
      m.IsPublic() && !m.IsStatic() && !m.IsAbstract() && !m.IsPrivate() && !m.IsProtected()
    ensures Modifier.FlagsOf(FromSignature(declaringClass, name, signature).GetModifiers()) == {Modifier.Public}
  {
    Modifier.FlagsOfEncode({Modifier.Public});
  }

  /** Each predicate is true exactly when its own bit is set in the modifier
      word: building a method from the word for a flag set `fs` makes the
      predicates answer exactly the members of `fs`. */
  lemma {:induction false} PredicatesAnswerFlags(declaringClass: ClassName, name: string, fs: set<Modifier.Flag>, target: MethodHandle)
    ensures var m := FromHandle(declaringClass, name, Modifier.Encode(fs), target);
      && (m.IsPublic() <==> Modifier.Public in fs)
      && (m.IsPrivate() <==> Modifier.Private in fs)
      && (m.IsProtected() <==> Modifier.Protected in fs)
      && (m.IsStatic() <==> Modifier.Static in fs)
      && (m.IsAbstract() <==> Modifier.Abstract in fs)
  {
    Modifier.HasEncode(fs, Modifier.Public);
    Modifier.HasEncode(fs, Modifier.Private);
    Modifier.HasEncode(fs, Modifier.Protected);
    Modifier.HasEncode(fs, Modifier.Static);
    Modifier.HasEncode(fs, Modifier.Abstract);
  }

  /** Bits other than the five named ones (FINAL, SYNCHRONIZED, ...) never
      change what the predicates answer. */
  lemma PredicatesIgnoreOtherBits(m: MetaMethod, extra: bv32)
    requires extra & Modifier.KNOWN == 0
    ensures var m' := m.(modifiers := m.modifiers | extra);
      && (m'.IsPublic() <==> m.IsPublic())
      && (m'.IsPrivate() <==> m.IsPrivate())
      && (m'.IsProtected() <==> m.IsProtected())
      && (m'.IsStatic() <==> m.IsStatic())
      && (m'.IsAbstract() <==> m.IsAbstract())
  {
  }
}
