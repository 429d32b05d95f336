/**
 * The query argument record of the command line layer (cibyl/cli/argument.py):
 * a `@dataclass` with three required fields and five defaulted ones, no
 * methods and no validation. Equality is the one `@dataclass` generates:
 * same class, then all eight fields compared in declaration order.
 */
module CliArgument {

  import opened Wrappers

  /**
   * A Python class object, tagged by its module-qualified name
   * (`builtins.str`, `cibyl.models.ci.zuul.test.TestKind`): two tags are equal
   * exactly when they denote the same class, which is what `==` on classes tests.
   */
  datatype PyType = TypeNamed(qualifiedName: string)

  /**
   * One argument. `V` is the type of the value a parser stores in it
   * (`value: object`); `func` names the backend function the argument maps to.
   */
  datatype Argument<V> = Argument(
    name: string,
    argType: PyType,
    description: string,
    nargs: int,
    func: Option<string>,
    populated: bool,
    level: int,
    value: Option<V>)

  /**
   * What `==` may be handed: an `Argument`, or an object of some other class
   * together with the answer its own `__eq__` gives when asked in turn
   * (false when it has none of its own).
   */
  datatype ArgOperand<V> = ArgumentObject(arg: Argument<V>) | OtherObject(ownEq: bool)

  /**
   * The generated `__init__`: the defaults are nargs 1, func None,
   * populated False, level 0 and value None; every value given is stored
   * as it is.
   */
  function MakeArgument<V>(name: string, argType: PyType, description: string,
                           nargs: int := 1, func: Option<string> := None,
                           populated: bool := false, level: int := 0,
                           value: Option<V> := None): (a: Argument<V>)
    ensures a.name == name && a.argType == argType && a.description == description
    ensures a.nargs == nargs && a.func == func && a.populated == populated
    ensures a.level == level && a.value == value
  {
    Argument(name, argType, description, nargs, func, populated, level, value)
  }

  /**
   * `==` with the generated `__eq__` on the left: against another class that
   * method declines (`NotImplemented`) and the other object's own answer is
   * taken; between arguments the eight fields are compared in order.
   */
  predicate ArgEq<V(==)>(a: Argument<V>, other: ArgOperand<V>)
  {
    match other
    case OtherObject(ownEq) => ownEq
    case ArgumentObject(b) =>
      (a.name, a.argType, a.description, a.nargs) == (b.name, b.argType, b.description, b.nargs) &&
      (a.func, a.populated, a.level, a.value) == (b.func, b.populated, b.level, b.value)
  }

  /** `arg.populated = p`: a record update of that one field. */
  function WithPopulated<V>(a: Argument<V>, p: bool): (r: Argument<V>)
    ensures r.populated == p
    ensures r.name == a.name && r.argType == a.argType && r.description == a.description
    ensures r.nargs == a.nargs && r.func == a.func && r.level == a.level && r.value == a.value
  {
    a.(populated := p)
  }

  /** `arg.value = v`: a record update of that one field. */
  function WithValue<V>(a: Argument<V>, v: Option<V>): (r: Argument<V>)
    ensures r.value == v
    ensures r.name == a.name && r.argType == a.argType && r.description == a.description
    ensures r.nargs == a.nargs && r.func == a.func && r.populated == a.populated && r.level == a.level
  {
    a.(value := v)
  }

  /** Built from name, type and description only, an argument takes every default. */
  lemma DefaultsWhenOmitted<V>(name: string, t: PyType, description: string)
    ensures var a: Argument<V> := MakeArgument(name, t, description);
      a.nargs == 1 && a.func == None && !a.populated && a.level == 0 && a.value == None
  {
  }

  /** The constructor neither validates nor normalises: it loses no field. */
  lemma MakeArgumentRoundTrip<V>(a: Argument<V>)
    ensures MakeArgument(a.name, a.argType, a.description, a.nargs, a.func,
                         a.populated, a.level, a.value) == a
  {
  }

  /** Against another class `==` is that class's own answer; between arguments it is field equality. */
  lemma ArgEqFieldwise<V>(a: Argument<V>, other: ArgOperand<V>)
    ensures other.OtherObject? ==> (ArgEq(a, other) <==> other.ownEq)
    ensures other.ArgumentObject? ==>
      (ArgEq(a, other) <==>
        a.name == other.arg.name && a.argType == other.arg.argType &&
        a.description == other.arg.description && a.nargs == other.arg.nargs &&
        a.func == other.arg.func && a.populated == other.arg.populated &&
        a.level == other.arg.level && a.value == other.arg.value)
  {
  }

  /** Field equality covers every field, so `==` coincides with value identity. */
  lemma ArgEqIsIdentity<V>(a: Argument<V>, b: Argument<V>)
    ensures ArgEq(a, ArgumentObject(b)) <==> a == b
  {
  }

  /** Marking an argument populated twice is the same as marking it once. */
  lemma WithPopulatedIdempotent<V>(a: Argument<V>, p: bool)
    ensures WithPopulated(WithPopulated(a, p), p) == WithPopulated(a, p)
  {
  }

  /** Setting `populated` and setting `value` touch disjoint fields, so they commute. */
  lemma UpdatesCommute<V>(a: Argument<V>, p: bool, v: Option<V>)
    ensures WithValue(WithPopulated(a, p), v) == WithPopulated(WithValue(a, v), p)
  {
  }

  /** After `arg.populated = p`, the argument equals the old one exactly when `p` was its old flag. */
  lemma WithPopulatedEq<V>(a: Argument<V>, p: bool)
    ensures ArgEq(WithPopulated(a, p), ArgumentObject(a)) <==> a.populated == p
  {
  }
}
