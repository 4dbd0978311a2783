/** The checker plugins that run once a schema is defined: every field name
    a directive stored must be a name of the schema, inherited names
    included, or the definition raises ValueError. */
module Checking {
  import opened Values
  import opened Directives
  import opened Storage

  /** A schema interface: the names it defines itself and its bases. */
  datatype Schema = Schema(own: set<string>, bases: seq<Schema>)

  /** The names `name in schema` accepts: its own and those of its bases, recursively. */
  function FieldNames(s: Schema): set<string>
    decreases s
  {
    s.own + (set b, n | b in s.bases && n in FieldNames(b) :: n)
  }

  /** `a` is a base of `s`, directly or through other bases. */
  predicate IsAncestor(a: Schema, s: Schema)
    decreases s
  {
    exists i :: 0 <= i < |s.bases| && (s.bases[i] == a || IsAncestor(a, s.bases[i]))
  }

  /** Every name of an ancestor is a name of the schema. */
  lemma {:induction false} AncestorFieldsInherited(a: Schema, s: Schema)
    requires IsAncestor(a, s)
    ensures FieldNames(a) <= FieldNames(s)
    decreases s
  {
    var i :| 0 <= i < |s.bases| && (s.bases[i] == a || IsAncestor(a, s.bases[i]));
    var b := s.bases[i];
    assert FieldNames(b) <= FieldNames(s);
    if b != a {
      AncestorFieldsInherited(a, b);
    }
  }

  /** Every name of a schema is defined by the schema itself or by an ancestor. */
  lemma {:induction false} FieldNamesAreDefined(s: Schema, n: string)
    requires n in FieldNames(s)
    ensures n in s.own || exists a :: IsAncestor(a, s) && n in a.own
    decreases s
  {
    if n !in s.own {
      var b :| b in s.bases && n in FieldNames(b);
      var i :| 0 <= i < |s.bases| && s.bases[i] == b;
      assert IsAncestor(b, s);
      if n !in b.own {
        FieldNamesAreDefined(b, n);
        var a :| IsAncestor(a, b) && n in a.own;
        assert IsAncestor(a, s);
      }
    }
  }

  /** `ListPositionCheckerPlugin` checks the element at `position` of every
      stored triple; `DictCheckerPlugin` checks every stored key. */
  datatype Checker = ListPositionChecker(key: Key, position: Index) | DictChecker(key: Key)

  const OmittedPlugin := ListPositionChecker(OmittedKey, 1)
  const ModesPlugin := ListPositionChecker(ModesKey, 1)
  const WidgetsPlugin := DictChecker(WidgetsKey)
  const OrderPlugin := ListPositionChecker(OrderKey, 0)
  const ReadPermissionsPlugin := DictChecker(ReadPermissionsKey)
  const WritePermissionsPlugin := DictChecker(WritePermissionsKey)

  const Plugins: seq<Checker> :=
    [OmittedPlugin, ModesPlugin, WidgetsPlugin, OrderPlugin, ReadPermissionsPlugin, WritePermissionsPlugin]

  /** The names a plugin looks up in the schema; nothing when the key was never stored. */
  function CheckedNames(p: Checker, tags: Tags): set<Value> {
    match p
    case ListPositionChecker(k, pos) => set e | e in EntriesAt(tags, k) :: e.Item(pos)
    case DictChecker(k) => set n | n in ItemsAt(tags, k) :: Str(n)
  }

  /** A looked-up name is found when it is a string the schema defines or inherits. */
  predicate IsField(s: Schema, v: Value) {
    v.Str? && v.s in FieldNames(s)
  }

  predicate Accepts(p: Checker, s: Schema, tags: Tags) {
    forall v :: v in CheckedNames(p, tags) ==> IsField(s, v)
  }

  /** All plugins run on the defined schema; any unknown name raises ValueError. */
  function Validate(s: Schema, tags: Tags): (r: Result<Tags>)
    ensures r.Ok? ==> r.value == tags
    ensures r.Err? ==> r.error == ValueError
  {
    if forall i :: 0 <= i < |Plugins| ==> Accepts(Plugins[i], s, tags) then Ok(tags) else Err(ValueError)
  }

  /** Defining a schema: run the directive calls of its body, then the plugins. */
  function Define(s: Schema, calls: seq<Call>): Result<Tags> {
    match Run(map[], calls)
    case Err(e) => Err(e)
    case Ok(tags) => Validate(s, tags)
  }

  /** What validation looks at: position 1 of the omitted and modes entries,
      position 0 of the order entries, and the keys of the three dictionaries. */
  lemma ValidationRule(s: Schema, tags: Tags)
    ensures Validate(s, tags).Ok? <==>
      (forall e :: e in EntriesAt(tags, OmittedKey) ==> IsField(s, e.second)) &&
      (forall e :: e in EntriesAt(tags, ModesKey) ==> IsField(s, e.second)) &&
      (forall e :: e in EntriesAt(tags, OrderKey) ==> IsField(s, e.first)) &&
      (forall n :: n in ItemsAt(tags, WidgetsKey) ==> n in FieldNames(s)) &&
      (forall n :: n in ItemsAt(tags, ReadPermissionsKey) ==> n in FieldNames(s)) &&
      (forall n :: n in ItemsAt(tags, WritePermissionsKey) ==> n in FieldNames(s))
  {
    EveryPluginAccepts(s, tags);
    ListPluginRule(OmittedPlugin, s, tags);
    ListPluginRule(ModesPlugin, s, tags);
    ListPluginRule(OrderPlugin, s, tags);
    DictPluginRule(WidgetsPlugin, s, tags);
    DictPluginRule(ReadPermissionsPlugin, s, tags);
    DictPluginRule(WritePermissionsPlugin, s, tags);
  }

  /** Running the plugins means running each of the six in turn. */
  lemma EveryPluginAccepts(s: Schema, tags: Tags)
    ensures (forall i :: 0 <= i < |Plugins| ==> Accepts(Plugins[i], s, tags)) <==>
      Accepts(OmittedPlugin, s, tags) && Accepts(ModesPlugin, s, tags) && Accepts(WidgetsPlugin, s, tags) &&
      Accepts(OrderPlugin, s, tags) && Accepts(ReadPermissionsPlugin, s, tags) && Accepts(WritePermissionsPlugin, s, tags)
  {
    assert Plugins[0] == OmittedPlugin && Plugins[1] == ModesPlugin && Plugins[2] == WidgetsPlugin;
    assert Plugins[3] == OrderPlugin && Plugins[4] == ReadPermissionsPlugin && Plugins[5] == WritePermissionsPlugin;
  }

  lemma ListPluginRule(p: Checker, s: Schema, tags: Tags)
    requires p.ListPositionChecker?
    ensures Accepts(p, s, tags) <==> forall e :: e in EntriesAt(tags, p.key) ==> IsField(s, e.Item(p.position))
  {
    if Accepts(p, s, tags) {
      forall e | e in EntriesAt(tags, p.key) ensures IsField(s, e.Item(p.position)) {
        assert e.Item(p.position) in CheckedNames(p, tags);
      }
    }
  }

  lemma DictPluginRule(p: Checker, s: Schema, tags: Tags)
    requires p.DictChecker?
    ensures Accepts(p, s, tags) <==> forall n :: n in ItemsAt(tags, p.key) ==> n in FieldNames(s)
  {
    if Accepts(p, s, tags) {
      forall n | n in ItemsAt(tags, p.key) ensures n in FieldNames(s) {
        assert Str(n) in CheckedNames(p, tags);
      }
    }
  }

  lemma PluginKeysDistinct(p: Checker, j: int)
    requires p in Plugins && 0 <= j < |Plugins|
    requires Plugins[j].key == p.key
    ensures Plugins[j] == p
  {
  }

  /** The plugins other than the one checking `k` see the same names when
      only key `k` is replaced. */
  lemma OtherPluginsUnaffected(tags: Tags, k: Key, f: Fragment, j: int)
    requires 0 <= j < |Plugins| && Plugins[j].key != k
    ensures CheckedNames(Plugins[j], tags[k := f]) == CheckedNames(Plugins[j], tags)
  {
    assert EntriesAt(tags[k := f], Plugins[j].key) == EntriesAt(tags, Plugins[j].key);
    assert ItemsAt(tags[k := f], Plugins[j].key) == ItemsAt(tags, Plugins[j].key);
  }

  /** A list plugin looks only at the column its `position` names: storing
      other triples that agree with the stored ones in that column, one for
      one, never changes the outcome of validation. */
  lemma {:induction false} ListPluginSeesOnlyItsColumn(s: Schema, tags: Tags, p: Checker, others: seq<Entry>)
    requires p in Plugins && p.ListPositionChecker?
    requires |others| == |EntriesAt(tags, p.key)|
    requires forall i :: 0 <= i < |others| ==> others[i].Item(p.position) == EntriesAt(tags, p.key)[i].Item(p.position)
    ensures Validate(s, tags[p.key := ListValue(others)]).Ok? <==> Validate(s, tags).Ok?
  {
    var es := EntriesAt(tags, p.key);
    var moved := tags[p.key := ListValue(others)];
    assert EntriesAt(moved, p.key) == others;
    forall v ensures v in CheckedNames(p, moved) <==> v in CheckedNames(p, tags) {
      if v in CheckedNames(p, moved) {
        var e :| e in others && e.Item(p.position) == v;
        var i :| 0 <= i < |others| && others[i] == e;
        assert es[i].Item(p.position) == v;
      }
      if v in CheckedNames(p, tags) {
        var e :| e in es && e.Item(p.position) == v;
        var i :| 0 <= i < |es| && es[i] == e;
        assert others[i].Item(p.position) == v;
      }
    }
    forall j | 0 <= j < |Plugins| ensures CheckedNames(Plugins[j], moved) == CheckedNames(Plugins[j], tags) {
      if Plugins[j].key == p.key {
        PluginKeysDistinct(p, j);
      } else {
        OtherPluginsUnaffected(tags, p.key, ListValue(others), j);
      }
    }
  }

  /** A dictionary plugin looks only at the names: storing other values under
      the same names never changes the outcome of validation. */
  lemma {:induction false} DictPluginSeesOnlyNames(s: Schema, tags: Tags, p: Checker, items: map<string, Value>)
    requires p in Plugins && p.DictChecker?
    requires items.Keys == ItemsAt(tags, p.key).Keys
    ensures Validate(s, tags[p.key := DictValue(items)]).Ok? <==> Validate(s, tags).Ok?
  {
    var moved := tags[p.key := DictValue(items)];
    assert ItemsAt(moved, p.key) == items;
    assert CheckedNames(p, moved) == CheckedNames(p, tags);
    forall j | 0 <= j < |Plugins| ensures CheckedNames(Plugins[j], moved) == CheckedNames(Plugins[j], tags) {
      if Plugins[j].key == p.key {
        PluginKeysDistinct(p, j);
      } else {
        OtherPluginsUnaffected(tags, p.key, DictValue(items), j);
      }
    }
  }

  /** The entries with their position 2 replaced by the given values. */
  function Retarget(es: seq<Entry>, targets: seq<Value>): (r: seq<Entry>)
    requires |targets| == |es|
    ensures |r| == |es|
    ensures forall i :: 0 <= i < |es| ==> r[i] == Entry(es[i].first, es[i].second, targets[i])
  {
    seq(|es|, i requires 0 <= i < |es| => Entry(es[i].first, es[i].second, targets[i]))
  }

  /** The `relative_to` target of an order entry is never looked up: the
      outcome of validation does not depend on it. */
  lemma OrderTargetUnchecked(s: Schema, tags: Tags, targets: seq<Value>)
    requires OrderKey in tags && tags[OrderKey].ListValue?
    requires |targets| == |tags[OrderKey].entries|
    ensures var moved := tags[OrderKey := ListValue(Retarget(tags[OrderKey].entries, targets))];
            Validate(s, moved).Ok? <==> Validate(s, tags).Ok?
  {
    assert Plugins[3] == OrderPlugin;
    ListPluginSeesOnlyItsColumn(s, tags, OrderPlugin, Retarget(tags[OrderKey].entries, targets));
  }

  /** A schema definition succeeds exactly when no directive call raises and
      every name the calls stored, in the positions the plugins check, is a
      name of the schema. */
  lemma DefineRule(s: Schema, calls: seq<Call>)
    ensures Define(s, calls).Ok? <==>
      (forall i :: 0 <= i < |calls| ==> CallFactory(calls[i]).Ok?) &&
      (forall e :: e in ListContributions(calls, OmittedKey) ==> IsField(s, e.second)) &&
      (forall e :: e in ListContributions(calls, ModesKey) ==> IsField(s, e.second)) &&
      (forall e :: e in ListContributions(calls, OrderKey) ==> IsField(s, e.first)) &&
      (forall n :: n in DictContributions(calls, WidgetsKey) ==> n in FieldNames(s)) &&
      (forall n :: n in DictContributions(calls, ReadPermissionsKey) ==> n in FieldNames(s)) &&
      (forall n :: n in DictContributions(calls, WritePermissionsKey) ==> n in FieldNames(s))
  {
    var empty: Tags := map[];
    RunFailsAtFirstFailingCall(empty, calls);
    if Run(empty, calls).Ok? {
      var tags := Run(empty, calls).value;
      RunExtendsLists(empty, calls, OmittedKey);
      RunExtendsLists(empty, calls, ModesKey);
      RunExtendsLists(empty, calls, OrderKey);
      RunUnitesDicts(empty, calls, WidgetsKey);
      RunUnitesDicts(empty, calls, ReadPermissionsKey);
      RunUnitesDicts(empty, calls, WritePermissionsKey);
      ValidationRule(s, tags);
    }
  }
}
