/** The Python values that form directives receive and produce, and the
    errors they raise. */
module Values {

  /** An argument passed to a directive. Only the aspects the directives
      look at are kept: whether the object is a string, whether it provides
      `IInterface`, and its `__module__` and `__name__` attributes. */
  datatype Value =
    | Str(s: string)
    | Interface(moduleName: string, name: string)
    | Other(moduleAttr: Option<string>, nameAttr: Option<string>)

  datatype Option<T> = None | Some(value: T)

  /** `zope.interface.Interface`, the scope used when a directive names none. */
  const BaseInterface: Value := Interface("zope.interface", "Interface")

  /** The exceptions a directive definition can raise. `TypeError` is raised
      by a factory itself with the given message; `SignatureError` is the
      `TypeError` Python raises when a factory is called with arguments its
      signature does not accept; `AttributeError` names the missing
      attribute; `ValueError` is raised by a checker plugin. */
  datatype Error =
    | TypeError(message: string)
    | SignatureError
    | AttributeError(attribute: string)
    | ValueError

  datatype Result<T> = Ok(value: T) | Err(error: Error)

  /** A positional index into a stored triple. */
  type Index = i: nat | i < 3

  /** One element of a list-valued tagged value: a Python 3-tuple. */
  datatype Entry = Entry(first: Value, second: Value, third: Value) {
    /** `entry[i]` */
    function Item(i: Index): Value {
      match i
      case 0 => first
      case 1 => second
      case 2 => third
    }
  }

  predicate DistinctNames(kw: seq<(string, Value)>) {
    forall i, j :: 0 <= i < j < |kw| ==> kw[i].0 != kw[j].0
  }

  /** The keyword arguments of a call, in the order `kw.items()` yields them.
      Python never passes the same keyword twice. */
  type Kwargs = kw: seq<(string, Value)> | DistinctNames(kw)

  /** The keyword names of a call. */
  function Names(kw: Kwargs): (r: set<string>)
    ensures forall i :: 0 <= i < |kw| ==> kw[i].0 in r
    ensures forall n :: n in r ==> exists i :: 0 <= i < |kw| && kw[i].0 == n
  {
    set i | 0 <= i < |kw| :: kw[i].0
  }

  /** The dictionary `kw` itself. */
  function ToDict(kw: Kwargs): (r: map<string, Value>)
    ensures r.Keys == Names(kw)
    ensures forall i :: 0 <= i < |kw| ==> r[kw[i].0] == kw[i].1
    decreases |kw|
  {
    if kw == [] then map[]
    else
      var init: Kwargs := kw[..|kw| - 1];
      var last := kw[|kw| - 1];
      var m := ToDict(init);
      LastNameIsNew(kw);
      assert last.0 !in m;
      var r := m[last.0 := last.1];
      r
  }

  lemma LastNameIsNew(kw: Kwargs)
    requires kw != []
    ensures kw[|kw| - 1].0 !in Names(kw[..|kw| - 1])
    ensures Names(kw) == Names(kw[..|kw| - 1]) + {kw[|kw| - 1].0}
  {
    var init: Kwargs := kw[..|kw| - 1];
    forall n | n in Names(kw) ensures n in Names(init) + {kw[|kw| - 1].0} {
      var i :| 0 <= i < |kw| && kw[i].0 == n;
      if i < |kw| - 1 { assert init[i] == kw[i]; }
    }
    forall n | n in Names(init) ensures n in Names(kw) {
      var i :| 0 <= i < |init| && init[i].0 == n;
      assert kw[i] == init[i];
    }
  }

  /** Distinct keywords give a dictionary with one item per keyword. */
  lemma {:induction false} ToDictSize(kw: Kwargs)
    ensures |ToDict(kw)| == |kw|
    decreases |kw|
  {
    if kw != [] {
      var init: Kwargs := kw[..|kw| - 1];
      ToDictSize(init);
      LastNameIsNew(kw);
      assert ToDict(kw) == ToDict(init)[kw[|kw| - 1].0 := kw[|kw| - 1].1];
    }
  }
}
