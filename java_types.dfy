/**
 * The few platform types the metadata records mention, reduced to what the
 * records need from them. A `java.lang.Class` is identified by its name; a
 * `java.lang.invoke.MethodType` is its parameter list and return type; a
 * `java.lang.invoke.MethodHandle` is an opaque token that knows its type and
 * is never invoked here.
 */
module JavaTypes {

  /** A class, by its binary name (`"java.lang.String"`, `"int"`, `"void"`). */
  type ClassName = string

  /** A method type: `parameterArray()` and `returnType()`. */
  datatype MethodType = MethodType(parameterArray: seq<ClassName>, returnType: ClassName)

  /** A method handle: an opaque identity plus the value of `type()`. */
  datatype MethodHandle = MethodHandle(token: nat, methodType: MethodType)
}
