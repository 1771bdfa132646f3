/**
 * `groovy.mop.internal.DefaultMetaProperty`: an immutable description of a
 * bean property, with its getter candidates and up to three more accessors.
 * Every field is final and set once by the constructor.
 */
module DefaultMetaProperty {

  import opened Wrappers
  import opened JavaTypes
  import Modifier
  import opened DefaultMetaMethod

  datatype MetaProperty = MetaProperty(
    name: string,
    propertyType: ClassName,
    getter: seq<MetaMethod>,
    setter: Option<MetaMethod>,
    fieldGetter: Option<MetaMethod>,
    fieldSetter: Option<MetaMethod>)
  {
    function GetName(): string { name }

    function GetType(): ClassName { propertyType }

    /** Every property reports public modifiers, whatever its accessors. */
    function GetModifiers(): bv32 { Modifier.PUBLIC }

    function GetPropertyGetter(): seq<MetaMethod> { getter }

    function GetPropertySetter(): Option<MetaMethod> { setter }

    function GetFieldGetter(): Option<MetaMethod> { fieldGetter }

    function GetFieldSetter(): Option<MetaMethod> { fieldSetter }
  }

  /** `DefaultMetaProperty(name, type, getter, setter, fieldGetter,
      fieldSetter)`; `None` stands for a `null` accessor. */
  function NewMetaProperty(
    name: string, propertyType: ClassName, getter: seq<MetaMethod>,
    setter: Option<MetaMethod>, fieldGetter: Option<MetaMethod>, fieldSetter: Option<MetaMethod>): (p: MetaProperty)
    ensures p.GetName() == name && p.GetType() == propertyType
    ensures p.GetPropertyGetter() == getter
    ensures p.GetPropertySetter() == setter
    ensures p.GetFieldGetter() == fieldGetter && p.GetFieldSetter() == fieldSetter
  {
    MetaProperty(name, propertyType, getter, setter, fieldGetter, fieldSetter)
  }

  /** The modifiers of a property are the constant PUBLIC: the same for any
      two properties, and with no other named flag set. */
  lemma ModifiersArePublic(p: MetaProperty, q: MetaProperty)
    ensures p.GetModifiers() == q.GetModifiers() == Modifier.PUBLIC
    ensures Modifier.FlagsOf(p.GetModifiers()) == {Modifier.Public}
  {
    Modifier.FlagsOfEncode({Modifier.Public});
  }
}
