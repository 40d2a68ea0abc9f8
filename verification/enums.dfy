/**
  The host's `Material` enumeration, kept abstract.

  An enumeration is the list of its constants' names in declaration order; a
  constant is identified by its ordinal, its position in that list. Java
  guarantees that the names of one enum type are pairwise distinct, which is
  the validity condition below. `Enum.valueOf` is the exact-name lookup that
  either yields the constant or throws `IllegalArgumentException`.
 */
module Enums {

  /** One constant of the enumeration, identified by its ordinal. */
  datatype Material = Material(ordinal: nat)

  /** The enumeration: the names of its constants, in declaration order. */
  datatype EnumType = EnumType(names: seq<string>) {

    /** Java enum constants have pairwise distinct names. */
    predicate Valid() {
      forall i, j :: 0 <= i < j < |names| ==> names[i] != names[j]
    }

    predicate Declares(m: Material) {
      m.ordinal < |names|
    }

    /** `m.name()` */
    function Name(m: Material): string
      requires Declares(m)
    {
      names[m.ordinal]
    }
  }

  /** What `valueOf` yields: a constant, or the exception for an unknown name. */
  datatype ValueOfResult = Constant(value: Material) | IllegalArgumentException

  /** Position of the first occurrence of `name` in `names`, if any. */
  function IndexOf(names: seq<string>, name: string): (r: Position)
    ensures r.At? ==> r.index < |names| && names[r.index] == name
    ensures r.At? ==> forall j :: 0 <= j < r.index ==> names[j] != name
    ensures r.Absent? <==> name !in names
  {
    if names == [] then Absent
    else if names[0] == name then At(0)
    else match IndexOf(names[1..], name)
      case Absent => Absent
      case At(k) => At(k + 1)
  }

  /** Where a name sits in the list of names, if anywhere. */
  datatype Position = Absent | At(index: nat)

  /** `Material.valueOf(name)`: exact, case-sensitive match of a constant's name. */
  function ValueOf(e: EnumType, name: string): (r: ValueOfResult)
    ensures r.Constant? <==> name in e.names
    ensures r.Constant? ==> e.Declares(r.value) && e.Name(r.value) == name
    ensures r.Constant? && e.Valid() ==>
      forall j :: 0 <= j < |e.names| && e.names[j] == name ==> j == r.value.ordinal
  {
    match IndexOf(e.names, name)
    case Absent => IllegalArgumentException
    case At(i) => Constant(Material(i))
  }

  /** Under distinct names, `valueOf` recovers every constant from its name. */
  lemma ValueOfName(e: EnumType, m: Material)
    requires e.Valid() && e.Declares(m)
    ensures ValueOf(e, e.Name(m)) == Constant(m)
  {
  }
}
