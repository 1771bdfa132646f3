/**
 * The method access flags of section 4.6 (Table 4.6-A) of the Java Virtual
 * Machine Specification, with the values `java.lang.reflect.Modifier` gives
 * them. A Java `int` modifier word is a 32-bit vector.
 */
module Modifier {

  const PUBLIC: bv32 := 0x0001
  const PRIVATE: bv32 := 0x0002
  const PROTECTED: bv32 := 0x0004
  const STATIC: bv32 := 0x0008
  const ABSTRACT: bv32 := 0x0400

  /** The bits that the metadata records give a name to. */
  const KNOWN: bv32 := PUBLIC | PRIVATE | PROTECTED | STATIC | ABSTRACT

  /** The flags a method record can be asked about. */
  datatype Flag = Public | Private | Protected | Static | Abstract

  const ALL_FLAGS: set<Flag> := {Public, Private, Protected, Static, Abstract}

  function Mask(f: Flag): bv32 {
    match f
    case Public => PUBLIC
    case Private => PRIVATE
    case Protected => PROTECTED
    case Static => STATIC
    case Abstract => ABSTRACT
  }

  /** True when the bit of `f` is set in `mods`. */
  predicate Has(mods: bv32, f: Flag) {
    mods & Mask(f) != 0
  }

  /** The named flags set in a modifier word. */
  function FlagsOf(mods: bv32): set<Flag> {
    set f | f in ALL_FLAGS && Has(mods, f)
  }

  /** The modifier word that sets exactly the bits of `fs`. */
  function Encode(fs: set<Flag>): bv32 {
    (if Public in fs then PUBLIC else 0)
    | (if Private in fs then PRIVATE else 0)
    | (if Protected in fs then PROTECTED else 0)
    | (if Static in fs then STATIC else 0)
    | (if Abstract in fs then ABSTRACT else 0)
  }

  /** Each mask is a single bit, at the position Table 4.6-A gives it, and
      two different flags never share a bit. */
  lemma MasksAreSingleBits(f: Flag, g: Flag)
    ensures Mask(f) != 0 && Mask(f) & (Mask(f) - 1) == 0
    ensures f != g ==> Mask(f) & Mask(g) == 0
    ensures Mask(f) & KNOWN == Mask(f)
  {
  }

  /** Encoding a flag set and reading it back yields the same set. */
  lemma {:induction false} FlagsOfEncode(fs: set<Flag>)
    ensures FlagsOf(Encode(fs)) == fs
  {
    forall f: Flag
      ensures f in FlagsOf(Encode(fs)) <==> f in fs
    {
      InAllFlags(f);
      HasEncode(fs, f);
    }
  }

  lemma InAllFlags(f: Flag)
    ensures f in ALL_FLAGS
  {
    match f {
      case Public =>
      case Private =>
      case Protected =>
      case Static =>
      case Abstract =>
    }
  }

  lemma HasEncode(fs: set<Flag>, f: Flag)
    ensures Has(Encode(fs), f) <==> f in fs
  {
    EncodeBits(Public in fs, Private in fs, Protected in fs, Static in fs, Abstract in fs);
  }

  lemma EncodeBits(a: bool, b: bool, c: bool, d: bool, e: bool)
    ensures var w := (if a then PUBLIC else 0) | (if b then PRIVATE else 0) | (if c then PROTECTED else 0)
                     | (if d then STATIC else 0) | (if e then ABSTRACT else 0);
      && (w & PUBLIC != 0 <==> a)
      && (w & PRIVATE != 0 <==> b)
      && (w & PROTECTED != 0 <==> c)
      && (w & STATIC != 0 <==> d)
      && (w & ABSTRACT != 0 <==> e)
  {
  }

  /** Reading the flags of a word and encoding them again keeps exactly the
      named bits of the word and clears every other bit. */
  lemma {:induction false} EncodeFlagsOf(mods: bv32)
    ensures Encode(FlagsOf(mods)) == mods & KNOWN
  {
    var fs := FlagsOf(mods);
    InFlagsOf(mods, Public);
    InFlagsOf(mods, Private);
    InFlagsOf(mods, Protected);
    InFlagsOf(mods, Static);
    InFlagsOf(mods, Abstract);
    KnownBits(mods);
  }

  lemma InFlagsOf(mods: bv32, f: Flag)
    ensures f in FlagsOf(mods) <==> Has(mods, f)
  {
    InAllFlags(f);
  }

  lemma KnownBits(mods: bv32)
    ensures (if mods & PUBLIC != 0 then PUBLIC else 0)
      | (if mods & PRIVATE != 0 then PRIVATE else 0)
      | (if mods & PROTECTED != 0 then PROTECTED else 0)
      | (if mods & STATIC != 0 then STATIC else 0)
      | (if mods & ABSTRACT != 0 then ABSTRACT else 0)
      == mods & KNOWN
  {
  }
}
