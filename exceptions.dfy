/** evaluate_exception, which decides whether a command error is, or was
    caused by, an error of a given class.  Two variants compare exact types
    (campfire/utils/exceptions.py, bot/campfire/exceptions.py); the third
    (lib/exceptions.py) accepts subclasses but compares causes with ==. */
module Exceptions {
  import opened Common

  type ClassId = nat

  /** The class of every class object, Python's `type`. */
  const Metaclass: ClassId := 0

  /** The classes an error type can be: anything but the metaclass. */
  type ErrorClass = c: ClassId | c != Metaclass witness 1

  /** A member of a causes list: an error instance, or a class object itself. */
  datatype Value = Instance(cls: ErrorClass) | ClassObject(of: ErrorClass)

  /** type(v): an instance's class, or the metaclass for a class object. */
  function TypeOf(v: Value): ClassId {
    match v
    case Instance(c) => c
    case ClassObject(_) => Metaclass
  }

  /** A raised error: its class, the proper base classes of that class, and
      its causes when it has that attribute. */
  datatype Thrown = Thrown(cls: ClassId, bases: set<ClassId>, causes: Option<seq<Value>>)

  /** The loop of the exact variants: some cause whose type is the target. */
  function SomeCauseOfType(causes: seq<Value>, target: ErrorClass): (b: bool)
    ensures b <==> exists i :: 0 <= i < |causes| && TypeOf(causes[i]) == target
  {
    if |causes| == 0 then false
    else if TypeOf(causes[0]) == target then true
    else
      assert forall i :: 1 <= i < |causes| ==> causes[i] == causes[1..][i - 1];
      SomeCauseOfType(causes[1..], target)
  }

  /** The loop of lib/exceptions.py: some cause equal to the target class. */
  function SomeCauseIsClass(causes: seq<Value>, target: ErrorClass): (b: bool)
    ensures b <==> exists i :: 0 <= i < |causes| && causes[i] == ClassObject(target)
  {
    if |causes| == 0 then false
    else if causes[0] == ClassObject(target) then true
    else
      assert forall i :: 1 <= i < |causes| ==> causes[i] == causes[1..][i - 1];
      SomeCauseIsClass(causes[1..], target)
  }

  /** evaluate_exception with `type(x) is T`: the error's own class is the
      target, or one of its causes is an instance of exactly the target. */
  function ExactMatch(e: Thrown, target: ErrorClass): (b: bool)
    ensures b <==>
      e.cls == target ||
      (e.causes.Some? && exists i :: 0 <= i < |e.causes.value| && e.causes.value[i] == Instance(target))
  {
    if e.cls == target then true
    else e.causes.Some? && SomeCauseOfType(e.causes.value, target)
  }

  /** evaluate_exception with isinstance and `cause == T`: the error is an
      instance of the target or of a subclass, or one of its causes is the
      target class object itself. */
  function InstanceMatch(e: Thrown, target: ErrorClass): (b: bool)
    ensures b <==>
      e.cls == target || target in e.bases ||
      (e.causes.Some? && exists i :: 0 <= i < |e.causes.value| && e.causes.value[i] == ClassObject(target))
  {
    if e.cls == target || target in e.bases then true
    else e.causes.Some? && SomeCauseIsClass(e.causes.value, target)
  }

  /** An instance of a subclass matches with isinstance but not by exact type. */
  lemma SubclassOnlyMatchesInstance(e: Thrown, target: ErrorClass)
    requires e.cls != target && target in e.bases && e.causes.None?
    ensures InstanceMatch(e, target) && !ExactMatch(e, target)
  {
  }

  /** A cause that is the class object matches with ==, never by exact type. */
  lemma ClassCauseOnlyMatchesInstance(cls: ClassId, bases: set<ClassId>, target: ErrorClass)
    requires cls != target && target !in bases
    ensures InstanceMatch(Thrown(cls, bases, Some([ClassObject(target)])), target)
    ensures !ExactMatch(Thrown(cls, bases, Some([ClassObject(target)])), target)
  {
    assert [ClassObject(target)][0] == ClassObject(target);
  }

  /** A cause that is an instance of the target matches by exact type, never
      with ==. */
  lemma InstanceCauseOnlyMatchesExactly(cls: ClassId, bases: set<ClassId>, target: ErrorClass)
    requires cls != target && target !in bases
    ensures ExactMatch(Thrown(cls, bases, Some([Instance(target)])), target)
    ensures !InstanceMatch(Thrown(cls, bases, Some([Instance(target)])), target)
  {
    assert [Instance(target)][0] == Instance(target);
  }

  /** Without causes, an exact match is always an isinstance match, and the
      two agree when the target is not a proper base of the error's class. */
  lemma VariantsAgreeWithoutCauses(e: Thrown, target: ErrorClass)
    requires e.causes.None?
    ensures ExactMatch(e, target) ==> InstanceMatch(e, target)
    ensures target !in e.bases ==> (ExactMatch(e, target) <==> InstanceMatch(e, target))
  {
  }

  // The classes of tests/lib/test_exceptions.py.
  const OnlyInGuild: ErrorClass := 1
  const OnlyInDM: ErrorClass := 2
  const MagicMock: ClassId := 3

  /** The four cases of tests/lib/test_exceptions.py, for lib/exceptions.py. */
  lemma LibraryTestCases()
    ensures InstanceMatch(Thrown(OnlyInGuild, {}, None), OnlyInGuild)
    ensures InstanceMatch(Thrown(MagicMock, {}, Some([ClassObject(OnlyInGuild)])), OnlyInGuild)
    ensures !InstanceMatch(Thrown(OnlyInDM, {}, None), OnlyInGuild)
    ensures !InstanceMatch(Thrown(MagicMock, {}, Some([ClassObject(OnlyInDM)])), OnlyInGuild)
  {
    assert [ClassObject(OnlyInGuild)][0] == ClassObject(OnlyInGuild);
  }
}
