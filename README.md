# Zuul test model and CLI query argument, in Dafny

This project models two value types of cibyl, the tool that gathers job,
build and test status from CI back ends into one report:

- the **Zuul `Test` model** (`cibyl/models/ci/zuul/test.py`): the enumerations
  `TestKind` (UNKNOWN, ANSIBLE, TEMPEST) and `TestStatus` (UNKNOWN, SUCCESS,
  FAILURE, SKIPPED) with their Python values; the defining `Test.Data` record and
  its defaults; the attribute table `Test.API`; the constructor, which stores the
  status as the string `status.name` in `result`; the equality `__eq__` over kind,
  name, result, duration and url; and the `status` property, which reads the raw
  result back onto `TestStatus` by exact name and falls back to UNKNOWN;
- the **CLI `Argument` record** (`cibyl/cli/argument.py`): a `@dataclass` with
  name, type, description, arity (`nargs`), backend function (`func`),
  `populated` flag, hierarchy `level` and `value`, its defaults, its generated
  field-wise equality, and field updates as record updates.

Files: `wrappers.dfy` (module `Wrappers`, the `Option` type standing for Python's
`None`), `cli_argument.dfy` (module `CliArgument`), `zuul_test.dfy` (module
`ZuulTest`, which imports `CliArgument` because API entries list arguments).

Modelling choices:

- Python objects of another class are a separate case of the operand types
  `ZuulTest.PyObject` (`NotATest`) and `CliArgument.ArgOperand` (`OtherObject`).
  The Zuul `__eq__` returns False for them itself. The generated `__eq__` of `Argument` returns
  `NotImplemented`, so Python asks the other object's own `__eq__`; that answer is
  carried by `OtherObject(ownEq)`. In a value model the `self is other` short cut
  is covered by reflexivity.
- Python class objects (`arg_type`, `attr_type`) are `PyType` values tagged by
  the class's module-qualified name (`builtins.str`,
  `cibyl.models.ci.zuul.test.TestKind`), so each class has its own tag: the base
  `Test` class and the Zuul `Test` class, which share a short name, get
  different tags, and `==` between two tags is "is the same class".
- `duration` is a type parameter `D` compared only for equality; `value` of an
  argument is a type parameter `V`.
- The base model class (`cibyl.models.ci.base.test`) is not part of this model.
  Its API table is a parameter of `TestApi`. Its attribute wrapper
  (`self.result.value`) is modelled by storing `result` as the plain string.
  `__eq__` compares the wrappers themselves (`self.result == other.result`);
  the model takes equality of two wrappers to be equality of the values they
  hold.

## Model

| member | source | states |
|---|---|---|
| ZuulTest.TestKind.Value | cibyl/models/ci/zuul/test.py:23-31 | `.value` of the kinds: the distinct values 0, 1, 2 (UNKNOWN is 0) |
| ZuulTest.TestStatus.Value | cibyl/models/ci/zuul/test.py:34-44 | `.value` of the statuses: the distinct values 0 to 3 (UNKNOWN is 0) |
| ZuulTest.NamesOf | cibyl/models/ci/zuul/test.py:124-127 | the list comprehension of member names holds, position by position, the name of each listed status, so a string is in it exactly when it is the name of one of them |
| ZuulTest.DefaultData | cibyl/models/ci/zuul/test.py:53-63 | default data: name UNDEFINED, status UNKNOWN, no duration, no url |
| ZuulTest.TestApi | cibyl/models/ci/zuul/test.py:65-75 | the API has every inherited key plus `kind` and `url`; those two map to types TestKind and str with no arguments; every other inherited entry is unchanged |
| ZuulTest.MakeTest | cibyl/models/ci/zuul/test.py:78-95 | the constructor (defaults: kind UNKNOWN, data `Data()`) keeps kind, name, duration and url, stores `status.name` as result, and that result reads back through `status` as the status it was given |
| ZuulTest.Status | cibyl/models/ci/zuul/test.py:112-148 | SUCCESS, FAILURE and SKIPPED exactly when the raw result is that name, and UNKNOWN exactly for every other string |
| ZuulTest.StatusNameRoundTrip | cibyl/models/ci/zuul/test.py:122-148 | a result holding a status's name reads back as that status, for all four statuses |
| ZuulTest.StatusRecognisesOnlyNames | cibyl/models/ci/zuul/test.py:122-148 | a recognised result is the name of the status returned; the name of the returned status equals the result iff the result is some status's name |
| ZuulTest.ConstructorRoundTrip | cibyl/models/ci/zuul/test.py:88-148 | rebuilding a test from its kind, name, `status`, duration and url gives back the same test exactly when its result is the name of some status (as every constructed test's is) |
| ZuulTest.DefaultTestFields | cibyl/models/ci/zuul/test.py:53-95 | `Test()` has kind UNKNOWN, name UNDEFINED, result UNKNOWN, no duration, no url, and status UNKNOWN |
| ZuulTest.EqFieldwise | cibyl/models/ci/zuul/test.py:98-110 | equality is false against another class, and between tests holds iff all five fields agree |
| ZuulTest.EqIsEquivalence | cibyl/models/ci/zuul/test.py:98-110 | equality is reflexive, symmetric and transitive |
| ZuulTest.EqSameStatus | cibyl/models/ci/zuul/test.py:98-148 | equal tests report the same status |
| ZuulTest.MakeTestEq | cibyl/models/ci/zuul/test.py:88-110 | two constructed tests are equal iff they were built from the same kind and the same data |
| CliArgument.MakeArgument | cibyl/cli/argument.py:20-31 | the generated constructor stores every given field unchanged |
| CliArgument.DefaultsWhenOmitted | cibyl/cli/argument.py:24-31 | with only name, type and description given: nargs 1, func None, populated False, level 0, value None |
| CliArgument.MakeArgumentRoundTrip | cibyl/cli/argument.py:20-31 | rebuilding an argument from its own eight fields gives the same argument (no validation or normalisation) |
| CliArgument.ArgEqFieldwise | cibyl/cli/argument.py:20-31 | against another class the generated `__eq__` declines and `==` is that class's own answer; between arguments it holds iff all eight fields are pairwise equal |
| CliArgument.ArgEqIsIdentity | cibyl/cli/argument.py:20-31 | generated equality between arguments coincides with equality of the whole record |
| CliArgument.WithPopulated | cibyl/cli/argument.py:29 | setting `populated` changes that field only |
| CliArgument.WithValue | cibyl/cli/argument.py:31 | setting `value` changes that field only |
| CliArgument.WithPopulatedIdempotent | cibyl/cli/argument.py:29 | setting `populated` twice to the same flag is setting it once |
| CliArgument.UpdatesCommute | cibyl/cli/argument.py:29-31 | setting `populated` and setting `value` commute |
| CliArgument.WithPopulatedEq | cibyl/cli/argument.py:20-31 | after setting `populated`, the argument equals a copy taken before the update iff the flag did not change |

## Left out

- Extra keyword arguments of the Zuul `Test` constructor are passed to the base model class, which is not part of this model; they are not modelled.
- The base API table, attribute merging, `populate`, hierarchy upsert and the level-ordered dispatch that use these types live in classes that are not part of this model.
- ZuulTest.Eq: equality of the base class's attribute wrappers is taken to be equality of the values they hold; if that class compared wrappers by identity, distinct tests would never be equal, and `EqFieldwise`, `EqIsEquivalence`, `EqSameStatus` and `MakeTestEq` rest on this assumption.
- CliArgument.WithPopulated: Python assigns `arg.populated` in place on a shared object, so every holder of a reference sees the change (for instance the inherited entries of `Test.API`, which `{**BaseTest.API, ...}` copies only shallowly); the model returns a new value and does not capture this aliasing. The same holds for `CliArgument.WithValue` and for the shared entries of `ZuulTest.TestApi`.
- CliArgument.ArgEq: `arg_type` is annotated `object` and may hold any object; the model admits only classes (`PyType`), compared as "same class".
- CliArgument.ArgEq: when the other object is of another class, its own `__eq__` is not modelled; its answer is the parameter `ownEq` of `OtherObject`, so an object such as a match-anything sentinel can compare equal to an argument.
- A subclass of the Zuul `Test` passes the `isinstance` test of `__eq__`; the model has no subclasses, only "a Zuul test" or "another class".
- `duration` is a float in seconds; only its equality is modelled. A NaN duration is unequal to itself in Python, so two distinct objects with NaN durations compare unequal; the model treats `D` equality as reflexive.
- The shared default `Data()` instance of the constructor is read only, so `Data` is an immutable value.
- `nargs` is an `int` as annotated; argparse arity strings such as `'*'` are not modelled.
- Source adapters (connecting to and querying a CI back end, wrapping their errors), logging and report printing are outside these two value types and are not modelled.
