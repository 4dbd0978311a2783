/** The schema definitions of the directive tests, with the tagged values
    they are expected to store or the exception they are expected to raise. */
module Scenarios {
  import opened Values
  import opened Directives
  import opened Storage
  import opened Checking

  /** `plone.supermodel.model.Schema` as a directive argument, and as a base schema. */
  const ModelSchema: Value := Interface("plone.supermodel.model", "Schema")
  const ModelSchemaFields := Schema({}, [])

  /** The first call of a body, when it does not raise. */
  lemma RunFirst(tags: Tags, calls: seq<Call>, t: Tags)
    requires calls != [] && Apply(tags, calls[0]) == Ok(t)
    ensures Run(tags, calls) == Run(t, calls[1..])
  {
  }

  // test_schema_directives_store_tagged_values

  const DummyFields := Schema({"foo", "bar", "baz", "qux"}, [ModelSchemaFields])

  const OmitCalls: seq<Call> := [
    Call(Omit, [Str("foo"), Str("bar")], []),
    Call(Omit, [ModelSchema, Str("qux")], []),
    Call(NoOmit, [ModelSchema, Str("bar")], [])
  ]
  const WidgetAndModeCalls: seq<Call> := [
    Call(Widget, [], [("foo", Str("some.dummy.Widget")), ("baz", Str("other.Widget"))]),
    Call(Mode, [], [("bar", Str("hidden"))]),
    Call(Mode, [ModelSchema], [("bar", Str("input"))])
  ]
  const OrderCalls: seq<Call> := [
    Call(OrderBefore, [], [("baz", Str("title"))]),
    Call(OrderAfter, [], [("qux", Str("title"))])
  ]
  const PermissionCalls: seq<Call> := [
    Call(ReadPermission, [], [("foo", Str("zope2.View"))]),
    Call(WritePermission, [], [("foo", Str("cmf.ModifyPortalContent"))])
  ]
  /** The body of the test schema, in order. */
  const StoreCalls := OmitCalls + WidgetAndModeCalls + OrderCalls + PermissionCalls

  const O1 := [Entry(BaseInterface, Str("foo"), Str("true")), Entry(BaseInterface, Str("bar"), Str("true"))]
  const O2 := [Entry(ModelSchema, Str("qux"), Str("true"))]
  const O3 := [Entry(ModelSchema, Str("bar"), Str("false"))]
  const W4 := map["foo" := Str("some.dummy.Widget"), "baz" := Str("other.Widget")]
  const M5 := [Entry(BaseInterface, Str("bar"), Str("hidden"))]
  const M6 := [Entry(ModelSchema, Str("bar"), Str("input"))]
  const R7 := [Entry(Str("baz"), Str("before"), Str("title"))]
  const R8 := [Entry(Str("qux"), Str("after"), Str("title"))]
  const P9 := map["foo" := Str("zope2.View")]
  const P10 := map["foo" := Str("cmf.ModifyPortalContent")]

  /** Each call of the body, on whatever was stored before it. */
  lemma OmitSteps(t: Tags)
    ensures Apply(t, OmitCalls[0]) == Ok(Store(t, OmittedKey, ListValue(O1)))
    ensures Apply(t, OmitCalls[1]) == Ok(Store(t, OmittedKey, ListValue(O2)))
    ensures Apply(t, OmitCalls[2]) == Ok(Store(t, OmittedKey, ListValue(O3)))
  {
    var o1 := OmitFactory("omit", OmitValue, [Str("foo"), Str("bar")]).value;
    assert o1 == O1;
    var o2 := OmitFactory("omit", OmitValue, [ModelSchema, Str("qux")]).value;
    assert o2 == O2;
    var o3 := OmitFactory("no_omit", NoOmitValue, [ModelSchema, Str("bar")]).value;
    assert o3 == O3;
  }

  lemma WidgetStep(t: Tags)
    ensures Apply(t, WidgetAndModeCalls[0]) == Ok(Store(t, WidgetsKey, DictValue(W4)))
  {
    var w: Kwargs := [("foo", Str("some.dummy.Widget")), ("baz", Str("other.Widget"))];
    assert w[..1] == [("foo", Str("some.dummy.Widget"))];
    assert WidgetFragment(w[..1]) == Ok(map["foo" := Str("some.dummy.Widget")]);
    assert WidgetFragment(w) == Ok(W4);
  }

  lemma ModeSteps(t: Tags)
    ensures Apply(t, WidgetAndModeCalls[1]) == Ok(Store(t, ModesKey, ListValue(M5)))
    ensures Apply(t, WidgetAndModeCalls[2]) == Ok(Store(t, ModesKey, ListValue(M6)))
  {
    var m5 := ModeFactory([], [("bar", Str("hidden"))]).value;
    assert m5 == M5;
    var m6 := ModeFactory([ModelSchema], [("bar", Str("input"))]).value;
    assert m6 == M6;
  }

  lemma OrderSteps(t: Tags)
    ensures Apply(t, OrderCalls[0]) == Ok(Store(t, OrderKey, ListValue(R7)))
    ensures Apply(t, OrderCalls[1]) == Ok(Store(t, OrderKey, ListValue(R8)))
  {
    var r7 := OrderFactory(BeforeValue, [("baz", Str("title"))]);
    assert r7 == R7;
    var r8 := OrderFactory(AfterValue, [("qux", Str("title"))]);
    assert r8 == R8;
  }

  lemma PermissionSteps(t: Tags)
    ensures Apply(t, PermissionCalls[0]) == Ok(Store(t, ReadPermissionsKey, DictValue(P9)))
    ensures Apply(t, PermissionCalls[1]) == Ok(Store(t, WritePermissionsKey, DictValue(P10)))
  {
    assert ToDict([("foo", Str("zope2.View"))]) == P9;
    assert ToDict([("foo", Str("cmf.ModifyPortalContent"))]) == P10;
  }

  /** The tagged values each group of calls leaves, starting from `t`. */
  function AfterOmits(t: Tags): Tags {
    Store(Store(Store(t, OmittedKey, ListValue(O1)), OmittedKey, ListValue(O2)), OmittedKey, ListValue(O3))
  }
  function AfterWidgetAndModes(t: Tags): Tags {
    Store(Store(Store(t, WidgetsKey, DictValue(W4)), ModesKey, ListValue(M5)), ModesKey, ListValue(M6))
  }
  function AfterOrders(t: Tags): Tags {
    Store(Store(t, OrderKey, ListValue(R7)), OrderKey, ListValue(R8))
  }
  function AfterPermissions(t: Tags): Tags {
    Store(Store(t, ReadPermissionsKey, DictValue(P9)), WritePermissionsKey, DictValue(P10))
  }
  function AfterAll(t: Tags): Tags {
    AfterPermissions(AfterOrders(AfterWidgetAndModes(AfterOmits(t))))
  }

  lemma OmitCallsRun(t: Tags)
    ensures Run(t, OmitCalls) == Ok(AfterOmits(t))
  {
    var c := OmitCalls;
    OmitSteps(t); var t1 := Store(t, OmittedKey, ListValue(O1)); RunFirst(t, c, t1);
    OmitSteps(t1); var t2 := Store(t1, OmittedKey, ListValue(O2)); RunFirst(t1, c[1..], t2);
    OmitSteps(t2); var t3 := Store(t2, OmittedKey, ListValue(O3)); RunFirst(t2, c[2..], t3);
    assert c[1..][1..] == c[2..] && c[2..][1..] == [];
  }

  lemma WidgetAndModeCallsRun(t: Tags)
    ensures Run(t, WidgetAndModeCalls) == Ok(AfterWidgetAndModes(t))
  {
    var c := WidgetAndModeCalls;
    WidgetStep(t); var t1 := Store(t, WidgetsKey, DictValue(W4)); RunFirst(t, c, t1);
    ModeSteps(t1); var t2 := Store(t1, ModesKey, ListValue(M5)); RunFirst(t1, c[1..], t2);
    ModeSteps(t2); var t3 := Store(t2, ModesKey, ListValue(M6)); RunFirst(t2, c[2..], t3);
    assert c[1..][1..] == c[2..] && c[2..][1..] == [];
  }

  lemma OrderCallsRun(t: Tags)
    ensures Run(t, OrderCalls) == Ok(AfterOrders(t))
  {
    var c := OrderCalls;
    OrderSteps(t); var t1 := Store(t, OrderKey, ListValue(R7)); RunFirst(t, c, t1);
    OrderSteps(t1); var t2 := Store(t1, OrderKey, ListValue(R8)); RunFirst(t1, c[1..], t2);
    assert c[1..][1..] == [];
  }

  lemma PermissionCallsRun(t: Tags)
    ensures Run(t, PermissionCalls) == Ok(AfterPermissions(t))
  {
    var c := PermissionCalls;
    PermissionSteps(t); var t1 := Store(t, ReadPermissionsKey, DictValue(P9)); RunFirst(t, c, t1);
    PermissionSteps(t1); var t2 := Store(t1, WritePermissionsKey, DictValue(P10)); RunFirst(t1, c[1..], t2);
    assert c[1..][1..] == [];
  }

  /** The whole body runs through without raising. */
  lemma StoreCallsRun(t: Tags)
    ensures Run(t, StoreCalls) == Ok(AfterAll(t))
  {
    var a, b, c, d := OmitCalls, WidgetAndModeCalls, OrderCalls, PermissionCalls;
    OmitCallsRun(t);
    WidgetAndModeCallsRun(AfterOmits(t));
    OrderCallsRun(AfterWidgetAndModes(AfterOmits(t)));
    PermissionCallsRun(AfterOrders(AfterWidgetAndModes(AfterOmits(t))));
    RunAppend(t, a, b);
    RunAppend(t, a + b, c);
    RunAppend(t, a + b + c, d);
  }

  /** What each group of calls adds, with every other key left as it was. */
  lemma OmitsStored(t: Tags)
    ensures AfterOmits(t) == t[OmittedKey := ListValue(EntriesAt(t, OmittedKey) + (O1 + O2 + O3))]
  {
    var e := EntriesAt(t, OmittedKey);
    assert e + O1 + O2 + O3 == e + (O1 + O2 + O3);
  }

  lemma WidgetAndModesStored(t: Tags)
    ensures AfterWidgetAndModes(t) ==
      t[WidgetsKey := DictValue(ItemsAt(t, WidgetsKey) + W4)][ModesKey := ListValue(EntriesAt(t, ModesKey) + (M5 + M6))]
  {
    var m := EntriesAt(t, ModesKey);
    assert m + M5 + M6 == m + (M5 + M6);
  }

  lemma OrdersStored(t: Tags)
    ensures AfterOrders(t) == t[OrderKey := ListValue(EntriesAt(t, OrderKey) + (R7 + R8))]
  {
    var r := EntriesAt(t, OrderKey);
    assert r + R7 + R8 == r + (R7 + R8);
  }

  lemma PermissionsStored(t: Tags)
    ensures AfterPermissions(t) ==
      t[ReadPermissionsKey := DictValue(ItemsAt(t, ReadPermissionsKey) + P9)]
       [WritePermissionsKey := DictValue(ItemsAt(t, WritePermissionsKey) + P10)]
  {
  }

  /** The whole body, on any tags: each list key gets its group's entries appended ... */
  lemma ListsStored(t: Tags)
    ensures EntriesAt(AfterAll(t), OmittedKey) == EntriesAt(t, OmittedKey) + (O1 + O2 + O3)
    ensures EntriesAt(AfterAll(t), ModesKey) == EntriesAt(t, ModesKey) + (M5 + M6)
    ensures EntriesAt(AfterAll(t), OrderKey) == EntriesAt(t, OrderKey) + (R7 + R8)
  {
    OmitsStored(t);
    var t1 := AfterOmits(t);
    WidgetAndModesStored(t1);
    var t2 := AfterWidgetAndModes(t1);
    OrdersStored(t2);
    var t3 := AfterOrders(t2);
    PermissionsStored(t3);
  }

  /** ... and each dictionary key gets its group's items. */
  lemma WidgetItemsStored(t: Tags)
    ensures ItemsAt(AfterAll(t), WidgetsKey) == ItemsAt(t, WidgetsKey) + W4
  {
    OmitsStored(t);
    var t1 := AfterOmits(t);
    WidgetAndModesStored(t1);
    var t2 := AfterWidgetAndModes(t1);
    OrdersStored(t2);
    var t3 := AfterOrders(t2);
    PermissionsStored(t3);
  }

  lemma ReadItemsStored(t: Tags)
    ensures ItemsAt(AfterAll(t), ReadPermissionsKey) == ItemsAt(t, ReadPermissionsKey) + P9
  {
    OmitsStored(t);
    var t1 := AfterOmits(t);
    WidgetAndModesStored(t1);
    var t2 := AfterWidgetAndModes(t1);
    OrdersStored(t2);
    var t3 := AfterOrders(t2);
    PermissionsStored(t3);
  }

  lemma WriteItemsStored(t: Tags)
    ensures ItemsAt(AfterAll(t), WritePermissionsKey) == ItemsAt(t, WritePermissionsKey) + P10
  {
    OmitsStored(t);
    var t1 := AfterOmits(t);
    WidgetAndModesStored(t1);
    var t2 := AfterWidgetAndModes(t1);
    OrdersStored(t2);
    var t3 := AfterOrders(t2);
    PermissionsStored(t3);
  }

  /** What the test body leaves, starting from no tagged values. */
  lemma StoredFromEmpty()
    ensures EntriesAt(AfterAll(map[]), OmittedKey) == O1 + O2 + O3
    ensures ItemsAt(AfterAll(map[]), WidgetsKey) == W4
    ensures EntriesAt(AfterAll(map[]), ModesKey) == M5 + M6
    ensures EntriesAt(AfterAll(map[]), OrderKey) == R7 + R8
    ensures ItemsAt(AfterAll(map[]), ReadPermissionsKey) == P9
    ensures ItemsAt(AfterAll(map[]), WritePermissionsKey) == P10
  {
    var empty: Tags := map[];
    ListsStored(empty);
    WidgetItemsStored(empty);
    ReadItemsStored(empty);
    WriteItemsStored(empty);
    assert map[] + W4 == W4 && map[] + P9 == P9 && map[] + P10 == P10;
  }

  lemma DummyFieldsAccept(tags: Tags)
    requires EntriesAt(tags, OmittedKey) == O1 + O2 + O3
    requires ItemsAt(tags, WidgetsKey) == W4
    requires EntriesAt(tags, ModesKey) == M5 + M6
    requires EntriesAt(tags, OrderKey) == R7 + R8
    requires ItemsAt(tags, ReadPermissionsKey) == P9
    requires ItemsAt(tags, WritePermissionsKey) == P10
    ensures Validate(DummyFields, tags) == Ok(tags)
  {
    DummyNamesAreFields();
    ValidationRule(DummyFields, tags);
  }

  /** Every name the test body stores is a field of the test schema. */
  lemma DummyNamesAreFields()
    ensures forall e :: e in O1 + O2 + O3 ==> IsField(DummyFields, e.second)
    ensures forall e :: e in M5 + M6 ==> IsField(DummyFields, e.second)
    ensures forall e :: e in R7 + R8 ==> IsField(DummyFields, e.first)
    ensures forall n :: n in W4 ==> n in FieldNames(DummyFields)
    ensures forall n :: n in P9 ==> n in FieldNames(DummyFields)
    ensures forall n :: n in P10 ==> n in FieldNames(DummyFields)
  {
    assert FieldNames(DummyFields) == {"foo", "bar", "baz", "qux"};
    assert O1 + O2 + O3 == [O1[0], O1[1], O2[0], O3[0]];
    assert M5 + M6 == [M5[0], M6[0]];
    assert R7 + R8 == [R7[0], R8[0]];
  }

  /** The test schema defines without raising and stores the expected tagged values. */
  lemma StoresTaggedValues()
    ensures Define(DummyFields, StoreCalls).Ok?
    ensures var tags := Define(DummyFields, StoreCalls).value;
      && EntriesAt(tags, OmittedKey) == O1 + O2 + O3
      && ItemsAt(tags, WidgetsKey) == W4
      && EntriesAt(tags, ModesKey) == M5 + M6
      && EntriesAt(tags, OrderKey) == R7 + R8
      && ItemsAt(tags, ReadPermissionsKey) == P9
      && ItemsAt(tags, WritePermissionsKey) == P10
  {
    var empty: Tags := map[];
    StoreCallsRun(empty);
    StoredFromEmpty();
    DummyFieldsAccept(AfterAll(empty));
  }

  // test_widget_supports_instances_and_strings

  /** The class `plone.autoform.tests.test_directives.DummyWidget`. */
  const DummyWidget: Value := Other(Some("plone.autoform.tests.test_directives"), Some("DummyWidget"))

  /** A widget class is stored under its dotted name. */
  lemma WidgetClassStoredByName()
    ensures Define(Schema({"foo", "bar", "baz"}, [ModelSchemaFields]), [Call(Widget, [], [("foo", DummyWidget)])]) ==
      Ok(map[WidgetsKey := DictValue(map["foo" := Str("plone.autoform.tests.test_directives.DummyWidget")])])
  {
    var kw: Kwargs := [("foo", DummyWidget)];
    assert kw[..0] == [];
    var w := map["foo" := Str("plone.autoform.tests.test_directives.DummyWidget")];
    assert "plone.autoform.tests.test_directives" + "." + "DummyWidget" == "plone.autoform.tests.test_directives.DummyWidget";
    assert WidgetFragment(kw[..0]) == Ok(map[]);
    assert WidgetFragment(kw) == Ok(w);
    var calls := [Call(Widget, [], kw)];
    var empty: Tags := map[];
    assert map[] + w == w;
    var t := Store(empty, WidgetsKey, DictValue(w));
    assert t == map[WidgetsKey := DictValue(w)];
    RunFirst(empty, calls, t);
    var s := Schema({"foo", "bar", "baz"}, [ModelSchemaFields]);
    assert "foo" in FieldNames(s);
    ValidationRule(s, t);
  }

  // test_misspelled_field

  /** Ordering a field the schema does not have raises ValueError. */
  lemma MisspelledOrderFieldRaises()
    ensures Define(Schema({"bar"}, [ModelSchemaFields]), [Call(OrderBefore, [], [("ber", Str("*"))])]) == Err(ValueError)
  {
    var s := Schema({"bar"}, [ModelSchemaFields]);
    var empty: Tags := map[];
    var calls := [Call(OrderBefore, [], [("ber", Str("*"))])];
    var r := [Entry(Str("ber"), Str("before"), Str("*"))];
    assert OrderFactory(BeforeValue, [("ber", Str("*"))]) == r;
    var t := Store(empty, OrderKey, ListValue(r));
    assert EntriesAt(t, OrderKey) == r;
    RunFirst(empty, calls, t);
    assert FieldNames(s) == {"bar"};
    ValidationRule(s, t);
  }

  /** Omitting a field the schema does not have raises ValueError. */
  lemma MisspelledOmittedFieldRaises()
    ensures Define(Schema({"baz"}, [ModelSchemaFields]), [Call(Omit, [Str("buz")], [])]) == Err(ValueError)
  {
    var s := Schema({"baz"}, [ModelSchemaFields]);
    var empty: Tags := map[];
    var calls := [Call(Omit, [Str("buz")], [])];
    var o := OmitFactory("omit", OmitValue, [Str("buz")]).value;
    assert o == [Entry(BaseInterface, Str("buz"), Str("true"))];
    var t := Store(empty, OmittedKey, ListValue(o));
    assert EntriesAt(t, OmittedKey) == o;
    RunFirst(empty, calls, t);
    assert FieldNames(s) == {"baz"};
    ValidationRule(s, t);
  }

  // test_derived_class_fields

  const FooFields := Schema({"foo"}, [ModelSchemaFields])
  const BarFields := Schema({"bar"}, [FooFields])

  /** A field inherited from a base schema may be named in a directive. */
  lemma InheritedFieldAccepted()
    ensures Define(BarFields, [Call(OrderAfter, [], [("foo", Str("bar"))])]) ==
      Ok(map[OrderKey := ListValue([Entry(Str("foo"), Str("after"), Str("bar"))])])
  {
    var empty: Tags := map[];
    var calls := [Call(OrderAfter, [], [("foo", Str("bar"))])];
    var r := [Entry(Str("foo"), Str("after"), Str("bar"))];
    assert OrderFactory(AfterValue, [("foo", Str("bar"))]) == r;
    assert [] + r == r;
    var t := Store(empty, OrderKey, ListValue(r));
    assert t == map[OrderKey := ListValue(r)];
    RunFirst(empty, calls, t);
    FooInherited();
    ValidationRule(BarFields, t);
  }

  /** The derived schema's names include its base's. */
  lemma FooInherited()
    ensures "foo" in FieldNames(BarFields)
  {
    assert BarFields.bases[0] == FooFields;
    assert IsAncestor(FooFields, BarFields);
    AncestorFieldsInherited(FooFields, BarFields);
    assert "foo" in FieldNames(FooFields);
  }
}
