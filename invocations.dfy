/** The schema of the multiple-invocations test: every directive is called
    more than once, and each call's fragment is added to what the earlier
    calls stored. */
module Invocations {
  import opened Values
  import opened Directives
  import opened Storage
  import opened Checking
  import opened Scenarios

  // test_multiple_invocations

  const MultiFields := Schema({"foo", "bar", "baz", "qux"}, [ModelSchemaFields])

  const OmitAndWidgetCalls: seq<Call> := [
    Call(Omit, [Str("foo")], []),
    Call(Omit, [Str("bar")], []),
    Call(Widget, [], [("foo", Str("some.dummy.Widget"))]),
    Call(Widget, [], [("baz", Str("other.Widget"))])
  ]
  const ModeCalls: seq<Call> := [
    Call(Mode, [], [("bar", Str("hidden"))]),
    Call(Mode, [], [("foo", Str("display"))])
  ]
  const OrderingCalls: seq<Call> := [
    Call(OrderBefore, [], [("baz", Str("title"))]),
    Call(OrderAfter, [], [("baz", Str("qux"))]),
    Call(OrderAfter, [], [("qux", Str("bar"))]),
    Call(OrderBefore, [], [("foo", Str("body"))])
  ]
  const PermissionsCalls: seq<Call> := [
    Call(ReadPermission, [], [("foo", Str("zope2.View")), ("bar", Str("zope2.View"))]),
    Call(ReadPermission, [], [("baz", Str("random.Permission"))]),
    Call(WritePermission, [], [("foo", Str("cmf.ModifyPortalContent"))]),
    Call(WritePermission, [], [("baz", Str("another.Permission"))])
  ]
  /** The body of the test schema, in order. */
  const MultiCalls := OmitAndWidgetCalls + ModeCalls + OrderingCalls + PermissionsCalls

  /** The fragment of each call, in order. */
  const Omit1 := [Entry(BaseInterface, Str("foo"), Str("true"))]
  const Omit2 := [Entry(BaseInterface, Str("bar"), Str("true"))]
  const Widget1 := map["foo" := Str("some.dummy.Widget")]
  const Widget2 := map["baz" := Str("other.Widget")]
  const Mode1 := [Entry(BaseInterface, Str("bar"), Str("hidden"))]
  const Mode2 := [Entry(BaseInterface, Str("foo"), Str("display"))]
  const Order1 := [Entry(Str("baz"), Str("before"), Str("title"))]
  const Order2 := [Entry(Str("baz"), Str("after"), Str("qux"))]
  const Order3 := [Entry(Str("qux"), Str("after"), Str("bar"))]
  const Order4 := [Entry(Str("foo"), Str("before"), Str("body"))]
  const Read1 := map["foo" := Str("zope2.View"), "bar" := Str("zope2.View")]
  const Read2 := map["baz" := Str("random.Permission")]
  const Write1 := map["foo" := Str("cmf.ModifyPortalContent")]
  const Write2 := map["baz" := Str("another.Permission")]

  /** Each call of the body, on whatever was stored before it. */
  lemma OmitAndWidgetSteps(t: Tags)
    ensures Apply(t, OmitAndWidgetCalls[0]) == Ok(Store(t, OmittedKey, ListValue(Omit1)))
    ensures Apply(t, OmitAndWidgetCalls[1]) == Ok(Store(t, OmittedKey, ListValue(Omit2)))
    ensures Apply(t, OmitAndWidgetCalls[2]) == Ok(Store(t, WidgetsKey, DictValue(Widget1)))
    ensures Apply(t, OmitAndWidgetCalls[3]) == Ok(Store(t, WidgetsKey, DictValue(Widget2)))
  {
    var o1 := OmitFactory("omit", OmitValue, [Str("foo")]).value;
    assert o1 == Omit1;
    var o2 := OmitFactory("omit", OmitValue, [Str("bar")]).value;
    assert o2 == Omit2;
    var w1: Kwargs := [("foo", Str("some.dummy.Widget"))];
    assert w1[..0] == [];
    assert WidgetFragment(w1) == Ok(Widget1);
    var w2: Kwargs := [("baz", Str("other.Widget"))];
    assert w2[..0] == [];
    assert WidgetFragment(w2) == Ok(Widget2);
  }

  lemma ModeCallSteps(t: Tags)
    ensures Apply(t, ModeCalls[0]) == Ok(Store(t, ModesKey, ListValue(Mode1)))
    ensures Apply(t, ModeCalls[1]) == Ok(Store(t, ModesKey, ListValue(Mode2)))
  {
    var m1 := ModeFactory([], [("bar", Str("hidden"))]).value;
    assert m1 == Mode1;
    var m2 := ModeFactory([], [("foo", Str("display"))]).value;
    assert m2 == Mode2;
  }

  lemma OrderingSteps(t: Tags)
    ensures Apply(t, OrderingCalls[0]) == Ok(Store(t, OrderKey, ListValue(Order1)))
    ensures Apply(t, OrderingCalls[1]) == Ok(Store(t, OrderKey, ListValue(Order2)))
    ensures Apply(t, OrderingCalls[2]) == Ok(Store(t, OrderKey, ListValue(Order3)))
    ensures Apply(t, OrderingCalls[3]) == Ok(Store(t, OrderKey, ListValue(Order4)))
  {
    var r1 := OrderFactory(BeforeValue, [("baz", Str("title"))]);
    assert r1 == Order1;
    var r2 := OrderFactory(AfterValue, [("baz", Str("qux"))]);
    assert r2 == Order2;
    var r3 := OrderFactory(AfterValue, [("qux", Str("bar"))]);
    assert r3 == Order3;
    var r4 := OrderFactory(BeforeValue, [("foo", Str("body"))]);
    assert r4 == Order4;
  }

  lemma ReadPermissionSteps(t: Tags)
    ensures Apply(t, PermissionsCalls[0]) == Ok(Store(t, ReadPermissionsKey, DictValue(Read1)))
    ensures Apply(t, PermissionsCalls[1]) == Ok(Store(t, ReadPermissionsKey, DictValue(Read2)))
  {
    var p: Kwargs := [("foo", Str("zope2.View")), ("bar", Str("zope2.View"))];
    var p0: Kwargs := p[..1];
    assert p0 == [("foo", Str("zope2.View"))];
    assert ToDict(p0) == map["foo" := Str("zope2.View")];
    assert ToDict(p) == Read1;
    assert ToDict([("baz", Str("random.Permission"))]) == Read2;
  }

  lemma WritePermissionSteps(t: Tags)
    ensures Apply(t, PermissionsCalls[2]) == Ok(Store(t, WritePermissionsKey, DictValue(Write1)))
    ensures Apply(t, PermissionsCalls[3]) == Ok(Store(t, WritePermissionsKey, DictValue(Write2)))
  {
    assert ToDict([("foo", Str("cmf.ModifyPortalContent"))]) == Write1;
    assert ToDict([("baz", Str("another.Permission"))]) == Write2;
  }

  /** The tagged values each group of calls leaves, starting from `t`. */
  function AfterOmitAndWidgets(t: Tags): Tags {
    Store(Store(Store(Store(t, OmittedKey, ListValue(Omit1)), OmittedKey, ListValue(Omit2)),
                WidgetsKey, DictValue(Widget1)), WidgetsKey, DictValue(Widget2))
  }
  function AfterModes(t: Tags): Tags {
    Store(Store(t, ModesKey, ListValue(Mode1)), ModesKey, ListValue(Mode2))
  }
  function AfterOrdering(t: Tags): Tags {
    Store(Store(Store(Store(t, OrderKey, ListValue(Order1)), OrderKey, ListValue(Order2)),
                OrderKey, ListValue(Order3)), OrderKey, ListValue(Order4))
  }
  function AfterPermissionCalls(t: Tags): Tags {
    Store(Store(Store(Store(t, ReadPermissionsKey, DictValue(Read1)), ReadPermissionsKey, DictValue(Read2)),
                WritePermissionsKey, DictValue(Write1)), WritePermissionsKey, DictValue(Write2))
  }
  function AfterMulti(t: Tags): Tags {
    AfterPermissionCalls(AfterOrdering(AfterModes(AfterOmitAndWidgets(t))))
  }

  lemma OmitAndWidgetCallsRun(t: Tags)
    ensures Run(t, OmitAndWidgetCalls) == Ok(AfterOmitAndWidgets(t))
  {
    var c := OmitAndWidgetCalls;
    OmitAndWidgetSteps(t); var t1 := Store(t, OmittedKey, ListValue(Omit1)); RunFirst(t, c, t1);
    OmitAndWidgetSteps(t1); var t2 := Store(t1, OmittedKey, ListValue(Omit2)); RunFirst(t1, c[1..], t2);
    OmitAndWidgetSteps(t2); var t3 := Store(t2, WidgetsKey, DictValue(Widget1)); RunFirst(t2, c[2..], t3);
    OmitAndWidgetSteps(t3); var t4 := Store(t3, WidgetsKey, DictValue(Widget2)); RunFirst(t3, c[3..], t4);
    assert c[1..][1..] == c[2..] && c[2..][1..] == c[3..] && c[3..][1..] == [];
  }

  lemma ModeCallsRun(t: Tags)
    ensures Run(t, ModeCalls) == Ok(AfterModes(t))
  {
    var c := ModeCalls;
    ModeCallSteps(t); var t1 := Store(t, ModesKey, ListValue(Mode1)); RunFirst(t, c, t1);
    ModeCallSteps(t1); var t2 := Store(t1, ModesKey, ListValue(Mode2)); RunFirst(t1, c[1..], t2);
    assert c[1..][1..] == [];
  }

  lemma OrderingCallsRun(t: Tags)
    ensures Run(t, OrderingCalls) == Ok(AfterOrdering(t))
  {
    var c := OrderingCalls;
    OrderingSteps(t); var t1 := Store(t, OrderKey, ListValue(Order1)); RunFirst(t, c, t1);
    OrderingSteps(t1); var t2 := Store(t1, OrderKey, ListValue(Order2)); RunFirst(t1, c[1..], t2);
    OrderingSteps(t2); var t3 := Store(t2, OrderKey, ListValue(Order3)); RunFirst(t2, c[2..], t3);
    OrderingSteps(t3); var t4 := Store(t3, OrderKey, ListValue(Order4)); RunFirst(t3, c[3..], t4);
    assert c[1..][1..] == c[2..] && c[2..][1..] == c[3..] && c[3..][1..] == [];
  }

  lemma PermissionsCallsRun(t: Tags)
    ensures Run(t, PermissionsCalls) == Ok(AfterPermissionCalls(t))
  {
    var c := PermissionsCalls;
    ReadPermissionSteps(t); var t1 := Store(t, ReadPermissionsKey, DictValue(Read1)); RunFirst(t, c, t1);
    ReadPermissionSteps(t1); var t2 := Store(t1, ReadPermissionsKey, DictValue(Read2)); RunFirst(t1, c[1..], t2);
    WritePermissionSteps(t2); var t3 := Store(t2, WritePermissionsKey, DictValue(Write1)); RunFirst(t2, c[2..], t3);
    WritePermissionSteps(t3); var t4 := Store(t3, WritePermissionsKey, DictValue(Write2)); RunFirst(t3, c[3..], t4);
    assert c[1..][1..] == c[2..] && c[2..][1..] == c[3..] && c[3..][1..] == [];
  }

  /** The whole body runs through without raising. */
  lemma MultiCallsRun(t: Tags)
    ensures Run(t, MultiCalls) == Ok(AfterMulti(t))
  {
    var a, b, c, d := OmitAndWidgetCalls, ModeCalls, OrderingCalls, PermissionsCalls;
    OmitAndWidgetCallsRun(t);
    ModeCallsRun(AfterOmitAndWidgets(t));
    OrderingCallsRun(AfterModes(AfterOmitAndWidgets(t)));
    PermissionsCallsRun(AfterOrdering(AfterModes(AfterOmitAndWidgets(t))));
    RunAppend(t, a, b);
    RunAppend(t, a + b, c);
    RunAppend(t, a + b + c, d);
  }

  /** What each group of calls adds, with every other key left as it was. */
  lemma OmitAndWidgetsStored(t: Tags)
    ensures AfterOmitAndWidgets(t) ==
      t[OmittedKey := ListValue(EntriesAt(t, OmittedKey) + (Omit1 + Omit2))]
       [WidgetsKey := DictValue(ItemsAt(t, WidgetsKey) + Widget1 + Widget2)]
  {
    var e := EntriesAt(t, OmittedKey);
    assert e + Omit1 + Omit2 == e + (Omit1 + Omit2);
  }

  lemma ModesStored(t: Tags)
    ensures AfterModes(t) == t[ModesKey := ListValue(EntriesAt(t, ModesKey) + (Mode1 + Mode2))]
  {
    var m := EntriesAt(t, ModesKey);
    assert m + Mode1 + Mode2 == m + (Mode1 + Mode2);
  }

  lemma OrderingStored(t: Tags)
    ensures AfterOrdering(t) == t[OrderKey := ListValue(EntriesAt(t, OrderKey) + (Order1 + Order2 + Order3 + Order4))]
  {
    var r := EntriesAt(t, OrderKey);
    assert r + Order1 + Order2 + Order3 + Order4 == r + (Order1 + Order2 + Order3 + Order4);
  }

  lemma PermissionCallsStored(t: Tags)
    ensures AfterPermissionCalls(t) ==
      t[ReadPermissionsKey := DictValue(ItemsAt(t, ReadPermissionsKey) + Read1 + Read2)]
       [WritePermissionsKey := DictValue(ItemsAt(t, WritePermissionsKey) + Write1 + Write2)]
  {
  }

  /** The whole body, on any tags: each list key gets its calls' entries appended in order ... */
  lemma MultiOmittedStored(t: Tags)
    ensures EntriesAt(AfterMulti(t), OmittedKey) == EntriesAt(t, OmittedKey) + (Omit1 + Omit2)
  {
    OmitAndWidgetsStored(t);
    var t1 := AfterOmitAndWidgets(t);
    ModesStored(t1);
    var t2 := AfterModes(t1);
    OrderingStored(t2);
    var t3 := AfterOrdering(t2);
    PermissionCallsStored(t3);
  }

  lemma MultiModesStored(t: Tags)
    ensures EntriesAt(AfterMulti(t), ModesKey) == EntriesAt(t, ModesKey) + (Mode1 + Mode2)
  {
    OmitAndWidgetsStored(t);
    var t1 := AfterOmitAndWidgets(t);
    ModesStored(t1);
    var t2 := AfterModes(t1);
    OrderingStored(t2);
    var t3 := AfterOrdering(t2);
    PermissionCallsStored(t3);
  }

  lemma MultiOrderStored(t: Tags)
    ensures EntriesAt(AfterMulti(t), OrderKey) == EntriesAt(t, OrderKey) + (Order1 + Order2 + Order3 + Order4)
  {
    OmitAndWidgetsStored(t);
    var t1 := AfterOmitAndWidgets(t);
    ModesStored(t1);
    var t2 := AfterModes(t1);
    OrderingStored(t2);
    var t3 := AfterOrdering(t2);
    PermissionCallsStored(t3);
  }

  /** ... and each dictionary key gets its calls' items. */
  lemma MultiWidgetsStored(t: Tags)
    ensures ItemsAt(AfterMulti(t), WidgetsKey) == ItemsAt(t, WidgetsKey) + Widget1 + Widget2
  {
    OmitAndWidgetsStored(t);
    var t1 := AfterOmitAndWidgets(t);
    ModesStored(t1);
    var t2 := AfterModes(t1);
    OrderingStored(t2);
    var t3 := AfterOrdering(t2);
    PermissionCallsStored(t3);
  }

  lemma MultiReadStored(t: Tags)
    ensures ItemsAt(AfterMulti(t), ReadPermissionsKey) == ItemsAt(t, ReadPermissionsKey) + Read1 + Read2
  {
    OmitAndWidgetsStored(t);
    var t1 := AfterOmitAndWidgets(t);
    ModesStored(t1);
    var t2 := AfterModes(t1);
    OrderingStored(t2);
    var t3 := AfterOrdering(t2);
    PermissionCallsStored(t3);
  }

  lemma MultiWriteStored(t: Tags)
    ensures ItemsAt(AfterMulti(t), WritePermissionsKey) == ItemsAt(t, WritePermissionsKey) + Write1 + Write2
  {
    OmitAndWidgetsStored(t);
    var t1 := AfterOmitAndWidgets(t);
    ModesStored(t1);
    var t2 := AfterModes(t1);
    OrderingStored(t2);
    var t3 := AfterOrdering(t2);
    PermissionCallsStored(t3);
  }

  /** What the test body leaves, starting from no tagged values. */
  lemma MultiListsFromEmpty()
    ensures EntriesAt(AfterMulti(map[]), OmittedKey) == Omit1 + Omit2
    ensures EntriesAt(AfterMulti(map[]), ModesKey) == Mode1 + Mode2
    ensures EntriesAt(AfterMulti(map[]), OrderKey) == Order1 + Order2 + Order3 + Order4
  {
    var empty: Tags := map[];
    MultiOmittedStored(empty);
    MultiModesStored(empty);
    MultiOrderStored(empty);
  }

  lemma MultiWidgetsFromEmpty()
    ensures ItemsAt(AfterMulti(map[]), WidgetsKey) == Widget1 + Widget2
  {
    var empty: Tags := map[];
    MultiWidgetsStored(empty);
    var none: map<string, Value> := map[];
    assert none + Widget1 == Widget1;
  }

  lemma MultiReadFromEmpty()
    ensures ItemsAt(AfterMulti(map[]), ReadPermissionsKey) == Read1 + Read2
  {
    var empty: Tags := map[];
    MultiReadStored(empty);
    var none: map<string, Value> := map[];
    assert none + Read1 == Read1;
  }

  lemma MultiWriteFromEmpty()
    ensures ItemsAt(AfterMulti(map[]), WritePermissionsKey) == Write1 + Write2
  {
    var empty: Tags := map[];
    MultiWriteStored(empty);
    var none: map<string, Value> := map[];
    assert none + Write1 == Write1;
  }

  lemma MultiFieldNames()
    ensures FieldNames(MultiFields) == {"foo", "bar", "baz", "qux"}
  {
  }

  /** Every name the body stores is a field of the test schema. */
  lemma MultiListsAccepted(tags: Tags)
    requires EntriesAt(tags, OmittedKey) == Omit1 + Omit2
    requires EntriesAt(tags, ModesKey) == Mode1 + Mode2
    requires EntriesAt(tags, OrderKey) == Order1 + Order2 + Order3 + Order4
    ensures forall e :: e in EntriesAt(tags, OmittedKey) ==> IsField(MultiFields, e.second)
    ensures forall e :: e in EntriesAt(tags, ModesKey) ==> IsField(MultiFields, e.second)
    ensures forall e :: e in EntriesAt(tags, OrderKey) ==> IsField(MultiFields, e.first)
  {
    MultiFieldNames();
  }

  lemma MultiDictsAccepted(tags: Tags)
    requires ItemsAt(tags, WidgetsKey) == Widget1 + Widget2
    requires ItemsAt(tags, ReadPermissionsKey) == Read1 + Read2
    requires ItemsAt(tags, WritePermissionsKey) == Write1 + Write2
    ensures forall n :: n in ItemsAt(tags, WidgetsKey) ==> n in FieldNames(MultiFields)
    ensures forall n :: n in ItemsAt(tags, ReadPermissionsKey) ==> n in FieldNames(MultiFields)
    ensures forall n :: n in ItemsAt(tags, WritePermissionsKey) ==> n in FieldNames(MultiFields)
  {
    MultiFieldNames();
  }

  /** Repeated calls accumulate: the test schema defines without raising,
      each list holds every call's entries in invocation order and each
      dictionary holds every call's items. */
  lemma MultipleInvocationsAccumulate()
    ensures Define(MultiFields, MultiCalls).Ok?
    ensures var tags := Define(MultiFields, MultiCalls).value;
      && EntriesAt(tags, OmittedKey) == Omit1 + Omit2
      && ItemsAt(tags, WidgetsKey) == Widget1 + Widget2
      && EntriesAt(tags, ModesKey) == Mode1 + Mode2
      && EntriesAt(tags, OrderKey) == Order1 + Order2 + Order3 + Order4
      && ItemsAt(tags, ReadPermissionsKey) == Read1 + Read2
      && ItemsAt(tags, WritePermissionsKey) == Write1 + Write2
  {
    var empty: Tags := map[];
    MultiCallsRun(empty);
    var tags := AfterMulti(empty);
    MultiListsFromEmpty();
    MultiWidgetsFromEmpty();
    MultiReadFromEmpty();
    MultiWriteFromEmpty();
    MultiListsAccepted(tags);
    MultiDictsAccepted(tags);
    ValidationRule(MultiFields, tags);
  }
}
