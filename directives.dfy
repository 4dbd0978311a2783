/** The form directives of plone.autoform: each `factory` turns the
    arguments of one directive call into a metadata fragment, to be stored
    under the directive's key on the schema being defined. */
module Directives {
  import opened Values

  /** The tagged-value keys the directives store under. */
  datatype Key = OmittedKey | ModesKey | OrderKey | WidgetsKey | ReadPermissionsKey | WritePermissionsKey {
    /** Keys of `MetadataListDirective`s hold lists of triples; the others hold dictionaries. */
    predicate IsListKey() {
      OmittedKey? || ModesKey? || OrderKey?
    }
  }

  /** The directive classes. */
  datatype Directive = Omit | NoOmit | Mode | Widget | OrderBefore | OrderAfter | ReadPermission | WritePermission {
    function ClassName(): string {
      match this
      case Omit => "omit"
      case NoOmit => "no_omit"
      case Mode => "mode"
      case Widget => "widget"
      case OrderBefore => "order_before"
      case OrderAfter => "order_after"
      case ReadPermission => "read_permission"
      case WritePermission => "write_permission"
    }

    function StoreKey(): Key {
      match this
      case Omit => OmittedKey
      case NoOmit => OmittedKey
      case Mode => ModesKey
      case Widget => WidgetsKey
      case OrderBefore => OrderKey
      case OrderAfter => OrderKey
      case ReadPermission => ReadPermissionsKey
      case WritePermission => WritePermissionsKey
    }
  }

  /** A metadata fragment, and the stored value it is merged into: a list of
      triples or a name-to-value dictionary. */
  datatype Fragment = ListValue(entries: seq<Entry>) | DictValue(items: map<string, Value>)

  /** The class attribute `value` of omit, no_omit, order_before and order_after. */
  const OmitValue := "true"
  const NoOmitValue := "false"
  const BeforeValue := "before"
  const AfterValue := "after"

  /** `omit.factory(*args)`, shared by `no_omit`, whose class name and
      `value` are passed in. A leading interface argument is the scope and
      is not an entry; every other argument becomes one entry, in order. */
  function OmitFactory(className: string, value: string, args: seq<Value>): (r: Result<seq<Entry>>)
    ensures r.Err? <==> args == []
    ensures r.Err? ==> r.error == TypeError("The " + className + " directive expects at least one argument.")
    ensures r.Ok? && args[0].Interface? ==>
      |r.value| == |args| - 1 &&
      forall i :: 0 <= i < |r.value| ==> r.value[i] == Entry(args[0], args[i + 1], Str(value))
    ensures r.Ok? && !args[0].Interface? ==>
      |r.value| == |args| &&
      forall i :: 0 <= i < |r.value| ==> r.value[i] == Entry(BaseInterface, args[i], Str(value))
  {
    if args == [] then
      Err(TypeError("The " + className + " directive expects at least one argument."))
    else
      var formInterface := if args[0].Interface? then args[0] else BaseInterface;
      var fields := if args[0].Interface? then args[1..] else args;
      Ok(seq(|fields|, i requires 0 <= i < |fields| => Entry(formInterface, fields[i], Str(value))))
  }

  /** `mode.factory(*args, **kw)`: at most one positional argument, the
      scope, taken as it is; one entry per keyword. */
  function ModeFactory(args: seq<Value>, kw: Kwargs): (r: Result<seq<Entry>>)
    ensures r.Err? <==> |args| > 1
    ensures r.Err? ==> r.error == TypeError("The mode directive expects 0 or 1 non-keyword arguments.")
    ensures r.Ok? ==>
      |r.value| == |kw| &&
      forall i :: 0 <= i < |kw| ==>
        r.value[i] == Entry(if args == [] then BaseInterface else args[0], Str(kw[i].0), kw[i].1)
  {
    if |args| > 1 then
      Err(TypeError("The mode directive expects 0 or 1 non-keyword arguments."))
    else
      var formInterface := if args == [] then BaseInterface else args[0];
      Ok(seq(|kw|, i requires 0 <= i < |kw| => Entry(formInterface, Str(kw[i].0), kw[i].1)))
  }

  /** What `widget.factory` stores for one widget argument: a string as it
      is, anything else as `"<__module__>.<__name__>"`; the attributes are
      read module first, and a missing one raises AttributeError. */
  function WidgetName(w: Value): Result<string> {
    match w
    case Str(s) => Ok(s)
    case Interface(m, n) => Ok(m + "." + n)
    case Other(m, n) =>
      if m.None? then Err(AttributeError("__module__"))
      else if n.None? then Err(AttributeError("__name__"))
      else Ok(m.value + "." + n.value)
  }

  /** The dictionary `widget.factory(**kw)` builds, processing the keywords
      in order and stopping at the first one whose name cannot be read. */
  function WidgetFragment(kw: Kwargs): Result<map<string, Value>>
    decreases |kw|
  {
    if kw == [] then Ok(map[])
    else
      var init: Kwargs := kw[..|kw| - 1];
      var last := kw[|kw| - 1];
      match WidgetFragment(init)
      case Err(e) => Err(e)
      case Ok(m) =>
        match WidgetName(last.1)
        case Err(e) => Err(e)
        case Ok(s) => Ok(m[last.0 := Str(s)])
  }

  /** The widget dictionary has the keywords' names as its keys, and the
      widget name of each keyword's value as that keyword's value; it is
      built unless some value has no readable name. */
  lemma {:induction false} WidgetFragmentSpec(kw: Kwargs)
    ensures WidgetFragment(kw).Ok? <==> forall i :: 0 <= i < |kw| ==> WidgetName(kw[i].1).Ok?
    ensures WidgetFragment(kw).Ok? ==> WidgetFragment(kw).value.Keys == Names(kw)
    ensures WidgetFragment(kw).Ok? ==>
      forall i :: 0 <= i < |kw| ==> WidgetFragment(kw).value[kw[i].0] == Str(WidgetName(kw[i].1).value)
    decreases |kw|
  {
    if kw != [] {
      var init: Kwargs := kw[..|kw| - 1];
      var last := kw[|kw| - 1];
      WidgetFragmentSpec(init);
      LastNameIsNew(kw);
      assert forall i :: 0 <= i < |init| ==> init[i] == kw[i];
    }
  }

  /** `widget.factory(**kw)`: the loop that fills the `widgets` dictionary. */
  method WidgetFactory(kw: Kwargs) returns (r: Result<map<string, Value>>)
    ensures r == WidgetFragment(kw)
  {
    var widgets: map<string, Value> := map[];
    var i := 0;
    while i < |kw|
      invariant 0 <= i <= |kw|
      invariant WidgetFragment(kw[..i]) == Ok(widgets)
    {
      var (fieldName, widget) := kw[i];
      WidgetFragmentStep(kw, i);
      var name: string;
      match widget {
        case Str(s) =>
          name := s;
        case Interface(m, n) =>
          name := m + "." + n;
        case Other(m, n) =>
          if m.None? {
            r := Err(AttributeError("__module__"));
            WidgetErrorPersists(kw, i + 1);
            return;
          }
          if n.None? {
            r := Err(AttributeError("__name__"));
            WidgetErrorPersists(kw, i + 1);
            return;
          }
          name := m.value + "." + n.value;
      }
      widgets := widgets[fieldName := Str(name)];
      i := i + 1;
    }
    assert kw[..|kw|] == kw;
    r := Ok(widgets);
  }

  /** One turn of the loop: the fragment of a one-longer prefix. */
  lemma WidgetFragmentStep(kw: Kwargs, i: nat)
    requires i < |kw| && WidgetFragment(kw[..i]).Ok?
    ensures WidgetFragment(kw[..i + 1]) ==
      match WidgetName(kw[i].1)
      case Err(e) => Err(e)
      case Ok(s) => Ok(WidgetFragment(kw[..i]).value[kw[i].0 := Str(s)])
  {
    assert kw[..i + 1][..i] == kw[..i];
  }

  /** Once a prefix of the keywords fails, the whole call fails with the same error. */
  lemma {:induction false} WidgetErrorPersists(kw: Kwargs, k: nat)
    requires k <= |kw|
    requires WidgetFragment(kw[..k]).Err?
    ensures WidgetFragment(kw) == WidgetFragment(kw[..k])
    decreases |kw| - k
  {
    if k < |kw| {
      assert kw[..k + 1][..k] == kw[..k];
      WidgetErrorPersists(kw, k + 1);
    } else {
      assert kw[..k] == kw;
    }
  }

  /** `order_before.factory(**kw)`, shared by `order_after`: one
      `(field, value, relative_to)` triple per keyword. */
  function OrderFactory(value: string, kw: Kwargs): (r: seq<Entry>)
    ensures |r| == |kw|
    ensures forall i :: 0 <= i < |kw| ==> r[i] == Entry(Str(kw[i].0), Str(value), kw[i].1)
  {
    seq(|kw|, i requires 0 <= i < |kw| => Entry(Str(kw[i].0), Str(value), kw[i].1))
  }

  /** What `DirectiveClass.__call__(*args, **kw)` gets from `factory`: the
      fragment, or the exception raised. Factories that take only positional
      or only keyword arguments fail Python's own signature check first. */
  function Factory(d: Directive, args: seq<Value>, kw: Kwargs): (r: Result<Fragment>)
    ensures r.Ok? ==> (r.value.ListValue? <==> d.StoreKey().IsListKey())
  {
    match d
    case Omit =>
      if kw != [] then Err(SignatureError) else ListResult(OmitFactory(d.ClassName(), OmitValue, args))
    case NoOmit =>
      if kw != [] then Err(SignatureError) else ListResult(OmitFactory(d.ClassName(), NoOmitValue, args))
    case Mode =>
      ListResult(ModeFactory(args, kw))
    case Widget =>
      if args != [] then Err(SignatureError)
      else (match WidgetFragment(kw)
        case Err(e) => Err(e)
        case Ok(m) => Ok(DictValue(m)))
    case OrderBefore =>
      if args != [] then Err(SignatureError) else Ok(ListValue(OrderFactory(BeforeValue, kw)))
    case OrderAfter =>
      if args != [] then Err(SignatureError) else Ok(ListValue(OrderFactory(AfterValue, kw)))
    case ReadPermission =>
      if args != [] then Err(SignatureError) else Ok(DictValue(ToDict(kw)))
    case WritePermission =>
      if args != [] then Err(SignatureError) else Ok(DictValue(ToDict(kw)))
  }

  function ListResult(r: Result<seq<Entry>>): Result<Fragment> {
    match r
    case Err(e) => Err(e)
    case Ok(es) => Ok(ListValue(es))
  }

  // Properties of the factories

  /** The values at position `i` of a list of triples. */
  function Column(entries: seq<Entry>, i: Index): (r: seq<Value>)
    ensures |r| == |entries|
    ensures forall j :: 0 <= j < |entries| ==> r[j] == entries[j].Item(i)
  {
    seq(|entries|, j requires 0 <= j < |entries| => entries[j].Item(i))
  }

  /** The field arguments of an omit call are recovered, in order, from
      position 1 of its entries; a lone interface gives no entries. */
  lemma OmitFieldsRecovered(className: string, value: string, args: seq<Value>)
    requires args != []
    ensures OmitFactory(className, value, args).Ok?
    ensures Column(OmitFactory(className, value, args).value, 1) ==
            if args[0].Interface? then args[1..] else args
    ensures |args| == 1 && args[0].Interface? ==> OmitFactory(className, value, args) == Ok([])
  {
    var es := OmitFactory(className, value, args).value;
    var fields := if args[0].Interface? then args[1..] else args;
    assert |Column(es, 1)| == |fields|;
    forall j | 0 <= j < |fields| ensures Column(es, 1)[j] == fields[j] {
      assert es[j].Item(1) == es[j].second;
    }
  }

  /** omit and no_omit produce the same triples for the same arguments,
      except that the value is 'true' for one and 'false' for the other. */
  lemma OmitAndNoOmitDiffer(args: seq<Value>)
    requires args != []
    ensures var o := OmitFactory("omit", OmitValue, args).value;
            var n := OmitFactory("no_omit", NoOmitValue, args).value;
            |o| == |n| &&
            forall i :: 0 <= i < |o| ==>
              o[i].first == n[i].first && o[i].second == n[i].second &&
              o[i].third == Str("true") && n[i].third == Str("false")
  {
  }

  /** The keywords of a mode call are recovered from positions 1 and 2 of
      its entries, and every entry names a different field. */
  lemma ModeKeywordsRecovered(args: seq<Value>, kw: Kwargs)
    requires |args| <= 1
    ensures var es := ModeFactory(args, kw).value;
            seq(|es|, j requires 0 <= j < |es| => (es[j].second.s, es[j].third)) == kw
    ensures var es := ModeFactory(args, kw).value;
            forall i, j :: 0 <= i < j < |es| ==> es[i].second != es[j].second
  {
    var es := ModeFactory(args, kw).value;
    var back := seq(|es|, j requires 0 <= j < |es| => (es[j].second.s, es[j].third));
    assert |back| == |kw|;
    forall j | 0 <= j < |kw| ensures back[j] == kw[j] {
    }
  }

  /** The keywords of an order call are recovered from positions 0 and 2 of
      its entries; position 1 always holds the directive's `value`. */
  lemma OrderKeywordsRecovered(value: string, kw: Kwargs)
    ensures var es := OrderFactory(value, kw);
            seq(|es|, j requires 0 <= j < |es| => (es[j].first.s, es[j].third)) == kw
    ensures forall e :: e in OrderFactory(value, kw) ==> e.second == Str(value)
  {
    var es := OrderFactory(value, kw);
    var back := seq(|es|, j requires 0 <= j < |es| => (es[j].first.s, es[j].third));
    assert |back| == |kw|;
    forall j | 0 <= j < |kw| ensures back[j] == kw[j] {
    }
  }

  /** Every keyword is stored; a string value is kept unchanged, any other
      value is stored as its dotted `<__module__>.<__name__>`; every stored
      widget is a string. */
  lemma WidgetStoresNames(kw: Kwargs)
    requires WidgetFragment(kw).Ok?
    ensures forall i :: 0 <= i < |kw| ==> kw[i].0 in WidgetFragment(kw).value
    ensures forall i :: 0 <= i < |kw| && kw[i].1.Str? ==> WidgetFragment(kw).value[kw[i].0] == kw[i].1
    ensures forall i :: 0 <= i < |kw| && kw[i].1.Interface? ==>
              WidgetFragment(kw).value[kw[i].0] == Str(kw[i].1.moduleName + "." + kw[i].1.name)
    ensures forall i :: 0 <= i < |kw| && kw[i].1.Other? ==>
              kw[i].1.moduleAttr.Some? && kw[i].1.nameAttr.Some? &&
              WidgetFragment(kw).value[kw[i].0] == Str(kw[i].1.moduleAttr.value + "." + kw[i].1.nameAttr.value)
    ensures forall n :: n in WidgetFragment(kw).value ==> WidgetFragment(kw).value[n].Str?
  {
    WidgetFragmentSpec(kw);
    var m := WidgetFragment(kw).value;
    forall n | n in m ensures m[n].Str? {
      var i :| 0 <= i < |kw| && kw[i].0 == n;
    }
  }

  /** A widget call fails exactly with the error of the first keyword whose
      value has no readable `__module__` or `__name__`. */
  lemma {:induction false} WidgetFirstFailure(kw: Kwargs, i: nat)
    requires i < |kw| && WidgetName(kw[i].1).Err?
    requires forall j :: 0 <= j < i ==> WidgetName(kw[j].1).Ok?
    ensures WidgetFragment(kw) == Err(WidgetName(kw[i].1).error)
    decreases |kw|
  {
    var init: Kwargs := kw[..|kw| - 1];
    if i < |kw| - 1 {
      assert init[i] == kw[i];
      WidgetFirstFailure(init, i);
    } else {
      WidgetFragmentSpec(init);
      assert WidgetFragment(init).Ok?;
    }
  }

  /** A stored permission is the keyword's value, and nothing else is stored. */
  lemma {:induction false} PermissionItemsAreKeywords(kw: Kwargs, n: string, v: Value)
    ensures (n in ToDict(kw) && ToDict(kw)[n] == v) <==> (n, v) in kw
  {
    if n in ToDict(kw) {
      var i :| 0 <= i < |kw| && kw[i].0 == n;
      assert ToDict(kw)[n] == kw[i].1;
      if (n, v) in kw {
        var j :| 0 <= j < |kw| && kw[j] == (n, v);
        assert i == j;
      }
    }
    if (n, v) in kw {
      var j :| 0 <= j < |kw| && kw[j] == (n, v);
      assert n in Names(kw);
    }
  }

  /** When a call raises, and which exception. */
  lemma FactoryErrors(d: Directive, args: seq<Value>, kw: Kwargs)
    ensures (d == Omit || d == NoOmit) ==>
      (Factory(d, args, kw).Err? <==> kw != [] || args == [])
    ensures (d == Omit || d == NoOmit) && kw == [] && args == [] ==>
      Factory(d, args, kw) == Err(TypeError("The " + d.ClassName() + " directive expects at least one argument."))
    ensures d == Mode ==> (Factory(d, args, kw).Err? <==> |args| > 1)
    ensures d == Widget ==>
      (Factory(d, args, kw).Err? <==> args != [] || exists i :: 0 <= i < |kw| && WidgetName(kw[i].1).Err?)
    ensures d in {OrderBefore, OrderAfter, ReadPermission, WritePermission} ==>
      (Factory(d, args, kw).Err? <==> args != [])
  {
    WidgetFragmentSpec(kw);
  }
}
