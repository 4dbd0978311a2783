/** How directive calls in a schema body accumulate: each call's fragment is
    merged into the collection stored under the directive's key, a list
    being extended and a dictionary updated. */
module Storage {
  import opened Values
  import opened Directives

  /** The tagged values gathered while a schema body runs. */
  type Tags = map<Key, Fragment>

  /** List keys hold lists and dictionary keys hold dictionaries. */
  predicate WellTyped(tags: Tags) {
    forall k :: k in tags ==> (tags[k].ListValue? <==> k.IsListKey())
  }

  /** The list stored under `k`, or the empty list `setdefault` would create. */
  function EntriesAt(tags: Tags, k: Key): seq<Entry> {
    if k in tags && tags[k].ListValue? then tags[k].entries else []
  }

  /** The dictionary stored under `k`, or the empty one `setdefault` would create. */
  function ItemsAt(tags: Tags, k: Key): map<string, Value> {
    if k in tags && tags[k].DictValue? then tags[k].items else map[]
  }

  /** `tags.setdefault(key, []).extend(fragment)` for a list directive and
      `tags.setdefault(key, {}).update(fragment)` for a dictionary directive. */
  function Store(tags: Tags, k: Key, frag: Fragment): Tags
    requires frag.ListValue? <==> k.IsListKey()
  {
    match frag
    case ListValue(es) => tags[k := ListValue(EntriesAt(tags, k) + es)]
    case DictValue(m) => tags[k := DictValue(ItemsAt(tags, k) + m)]
  }

  /** Storing touches key `k` only: a list fragment is appended to the list
      there, a dictionary fragment adds its names, a name only the old
      dictionary has keeps its value and a name only the fragment has gets
      the fragment's value. */
  lemma StoreMerges(tags: Tags, k: Key, frag: Fragment)
    requires frag.ListValue? <==> k.IsListKey()
    ensures var r := Store(tags, k, frag);
      && r.Keys == tags.Keys + {k}
      && (forall k' :: k' in tags && k' != k ==> r[k'] == tags[k'])
      && (frag.ListValue? ==> r[k] == ListValue(EntriesAt(tags, k) + frag.entries))
      && (frag.DictValue? ==> r[k].DictValue? && r[k].items.Keys == ItemsAt(tags, k).Keys + frag.items.Keys)
      && (frag.DictValue? ==> forall n :: n in ItemsAt(tags, k) && n !in frag.items ==> r[k].items[n] == ItemsAt(tags, k)[n])
      && (frag.DictValue? ==> forall n :: n in frag.items && n !in ItemsAt(tags, k) ==> r[k].items[n] == frag.items[n])
  {
  }

  /** One directive call written in a schema body. */
  datatype Call = Call(directive: Directive, args: seq<Value>, kw: Kwargs)

  function CallFactory(c: Call): Result<Fragment> {
    Factory(c.directive, c.args, c.kw)
  }

  /** A directive call: run the factory, then store the fragment. */
  function Apply(tags: Tags, c: Call): (r: Result<Tags>)
    ensures r.Err? <==> CallFactory(c).Err?
    ensures r.Err? ==> r.error == CallFactory(c).error
    ensures WellTyped(tags) && r.Ok? ==> WellTyped(r.value)
  {
    match CallFactory(c)
    case Err(e) => Err(e)
    case Ok(frag) => Ok(Store(tags, c.directive.StoreKey(), frag))
  }

  /** The calls of a schema body, in order; the first exception ends the body. */
  function Run(tags: Tags, calls: seq<Call>): Result<Tags>
    decreases |calls|
  {
    if calls == [] then Ok(tags)
    else
      match Apply(tags, calls[0])
      case Err(e) => Err(e)
      case Ok(t) => Run(t, calls[1..])
  }

  /** The entries a call contributes to list key `k`. */
  function ListContribution(c: Call, k: Key): seq<Entry> {
    if c.directive.StoreKey() == k && CallFactory(c).Ok? && CallFactory(c).value.ListValue?
    then CallFactory(c).value.entries
    else []
  }

  /** The entries of all calls for list key `k`, in invocation order. */
  function ListContributions(calls: seq<Call>, k: Key): seq<Entry>
    decreases |calls|
  {
    if calls == [] then [] else ListContribution(calls[0], k) + ListContributions(calls[1..], k)
  }

  /** The items a call contributes to dictionary key `k`. */
  function DictItems(c: Call, k: Key): map<string, Value> {
    if c.directive.StoreKey() == k && CallFactory(c).Ok? && CallFactory(c).value.DictValue?
    then CallFactory(c).value.items
    else map[]
  }

  /** The names a call contributes to dictionary key `k`. */
  function DictContribution(c: Call, k: Key): set<string> {
    DictItems(c, k).Keys
  }

  /** The names of all calls for dictionary key `k`. */
  function DictContributions(calls: seq<Call>, k: Key): set<string>
    decreases |calls|
  {
    if calls == [] then {} else DictContribution(calls[0], k) + DictContributions(calls[1..], k)
  }

  /** Running a body keeps list keys holding lists and dictionary keys holding dictionaries. */
  lemma {:induction false} RunPreservesWellTyped(tags: Tags, calls: seq<Call>)
    requires WellTyped(tags)
    ensures Run(tags, calls).Ok? ==> WellTyped(Run(tags, calls).value)
    decreases |calls|
  {
    if calls != [] && Apply(tags, calls[0]).Ok? {
      RunPreservesWellTyped(Apply(tags, calls[0]).value, calls[1..]);
    }
  }

  /** A body raises exactly when one of its calls' factories does, and it
      raises the exception of the first such call. */
  lemma {:induction false} RunFailsAtFirstFailingCall(tags: Tags, calls: seq<Call>)
    ensures Run(tags, calls).Err? <==> exists i :: 0 <= i < |calls| && CallFactory(calls[i]).Err?
    ensures Run(tags, calls).Err? ==>
      exists i :: 0 <= i < |calls| && CallFactory(calls[i]) == Err(Run(tags, calls).error) &&
                  forall j :: 0 <= j < i ==> CallFactory(calls[j]).Ok?
    decreases |calls|
  {
    if calls != [] {
      match Apply(tags, calls[0])
      case Err(e) =>
      case Ok(t) =>
        RunFailsAtFirstFailingCall(t, calls[1..]);
        if Run(t, calls[1..]).Err? {
          var i :| 0 <= i < |calls[1..]| && CallFactory(calls[1..][i]) == Err(Run(t, calls[1..]).error) &&
                   forall j :: 0 <= j < i ==> CallFactory(calls[1..][j]).Ok?;
          assert CallFactory(calls[i + 1]) == Err(Run(tags, calls).error);
          forall j | 0 <= j < i + 1 ensures CallFactory(calls[j]).Ok? {
            if j > 0 { assert calls[j] == calls[1..][j - 1]; }
          }
        } else {
          forall i | 0 <= i < |calls| ensures CallFactory(calls[i]).Ok? {
            if i > 0 { assert calls[i] == calls[1..][i - 1]; }
          }
        }
    }
  }

  /** Repeated list directives accumulate: the entries stored under a list
      key afterwards are those before, followed by each call's entries in
      invocation order. */
  lemma {:induction false} RunExtendsLists(tags: Tags, calls: seq<Call>, k: Key)
    requires WellTyped(tags) && k.IsListKey()
    requires Run(tags, calls).Ok?
    ensures EntriesAt(Run(tags, calls).value, k) == EntriesAt(tags, k) + ListContributions(calls, k)
    decreases |calls|
  {
    if calls != [] {
      var t := ListStep(tags, calls, k);
      RunExtendsLists(t, calls[1..], k);
    }
  }

  /** The first call's entries moved from the calls still to run to the stored list. */
  lemma ListStep(tags: Tags, calls: seq<Call>, k: Key) returns (t: Tags)
    requires WellTyped(tags) && k.IsListKey()
    requires calls != [] && Run(tags, calls).Ok?
    ensures WellTyped(t) && Run(tags, calls) == Run(t, calls[1..])
    ensures EntriesAt(t, k) + ListContributions(calls[1..], k) == EntriesAt(tags, k) + ListContributions(calls, k)
  {
    t := Apply(tags, calls[0]).value;
    var before, own, rest := EntriesAt(tags, k), ListContribution(calls[0], k), ListContributions(calls[1..], k);
    ApplyExtendsList(tags, calls[0], k);
    assert ListContributions(calls, k) == own + rest;
    ConcatAssoc(before, own, rest);
  }

  /** The first call of a body that does not raise, and what it leaves for the rest. */
  lemma RunStep(tags: Tags, calls: seq<Call>) returns (t: Tags)
    requires calls != [] && Run(tags, calls).Ok?
    ensures Apply(tags, calls[0]) == Ok(t)
    ensures Run(tags, calls) == Run(t, calls[1..])
    ensures WellTyped(tags) ==> WellTyped(t)
    ensures forall k :: ListContributions(calls, k) == ListContribution(calls[0], k) + ListContributions(calls[1..], k)
    ensures forall k :: DictContributions(calls, k) == DictContribution(calls[0], k) + DictContributions(calls[1..], k)
  {
    t := Apply(tags, calls[0]).value;
  }

  lemma ConcatAssoc(a: seq<Entry>, b: seq<Entry>, c: seq<Entry>)
    ensures a + (b + c) == (a + b) + c
  {
  }

  /** One call extends list key `k` by its own contribution. */
  lemma ApplyExtendsList(tags: Tags, c: Call, k: Key)
    requires WellTyped(tags) && k.IsListKey()
    requires Apply(tags, c).Ok?
    ensures WellTyped(Apply(tags, c).value)
    ensures EntriesAt(Apply(tags, c).value, k) == EntriesAt(tags, k) + ListContribution(c, k)
  {
    var frag := CallFactory(c).value;
    if c.directive.StoreKey() != k {
      assert EntriesAt(Apply(tags, c).value, k) == EntriesAt(tags, k);
    }
  }

  /** Repeated dictionary directives accumulate: the names stored under a
      dictionary key afterwards are those before together with every call's
      names, and a name no call mentions keeps its value. */
  lemma {:induction false} RunUnitesDicts(tags: Tags, calls: seq<Call>, k: Key)
    requires WellTyped(tags) && !k.IsListKey()
    requires Run(tags, calls).Ok?
    ensures ItemsAt(Run(tags, calls).value, k).Keys == ItemsAt(tags, k).Keys + DictContributions(calls, k)
    ensures forall n :: n in ItemsAt(tags, k) && n !in DictContributions(calls, k) ==>
              ItemsAt(Run(tags, calls).value, k)[n] == ItemsAt(tags, k)[n]
    decreases |calls|
  {
    if calls != [] {
      var t := RunStep(tags, calls);
      ApplyUnitesDict(tags, calls[0], k);
      RunUnitesDicts(t, calls[1..], k);
    }
  }

  /** A name some call of the body mentions ends up holding the value that
      the last call mentioning it gives it. */
  lemma {:induction false} RunKeepsLastValues(tags: Tags, calls: seq<Call>, k: Key)
    requires WellTyped(tags) && !k.IsListKey()
    requires Run(tags, calls).Ok?
    ensures forall n :: n in DictContributions(calls, k) ==>
              exists i :: 0 <= i < |calls| && n in DictItems(calls[i], k) &&
                          n in ItemsAt(Run(tags, calls).value, k) &&
                          ItemsAt(Run(tags, calls).value, k)[n] == DictItems(calls[i], k)[n] &&
                          n !in DictContributions(calls[i + 1..], k)
    decreases |calls|
  {
    if calls != [] {
      var t := RunStep(tags, calls);
      ApplyUnitesDict(tags, calls[0], k);
      RunUnitesDicts(t, calls[1..], k);
      RunKeepsLastValues(t, calls[1..], k);
      var r := ItemsAt(Run(tags, calls).value, k);
      forall n | n in DictContributions(calls, k)
        ensures exists i :: 0 <= i < |calls| && n in DictItems(calls[i], k) &&
                            n in r && r[n] == DictItems(calls[i], k)[n] &&
                            n !in DictContributions(calls[i + 1..], k)
      {
        if n in DictContributions(calls[1..], k) {
          var i :| 0 <= i < |calls[1..]| && n in DictItems(calls[1..][i], k) &&
                   n in r && r[n] == DictItems(calls[1..][i], k)[n] &&
                   n !in DictContributions(calls[1..][i + 1..], k);
          assert calls[i + 1] == calls[1..][i] && calls[i + 2..] == calls[1..][i + 1..];
        } else {
          assert n in DictItems(calls[0], k) && calls[0 + 1..] == calls[1..];
        }
      }
    }
  }

  /** One call adds its own names to dictionary key `k`, each with the value
      the call gives it, and keeps the values of the other names. */
  lemma ApplyUnitesDict(tags: Tags, c: Call, k: Key)
    requires WellTyped(tags) && !k.IsListKey()
    requires Apply(tags, c).Ok?
    ensures ItemsAt(Apply(tags, c).value, k).Keys == ItemsAt(tags, k).Keys + DictContribution(c, k)
    ensures forall n :: n in ItemsAt(tags, k) && n !in DictContribution(c, k) ==>
              ItemsAt(Apply(tags, c).value, k)[n] == ItemsAt(tags, k)[n]
    ensures forall n :: n in DictItems(c, k) ==> ItemsAt(Apply(tags, c).value, k)[n] == DictItems(c, k)[n]
  {
    if c.directive.StoreKey() != k {
      assert ItemsAt(Apply(tags, c).value, k) == ItemsAt(tags, k);
    }
  }

  /** Splitting a body in two: the second part runs on what the first stored. */
  lemma {:induction false} RunAppend(tags: Tags, a: seq<Call>, b: seq<Call>)
    ensures Run(tags, a + b) == match Run(tags, a) case Err(e) => Err(e) case Ok(t) => Run(t, b)
    decreases |a|
  {
    if a == [] {
      assert a + b == b;
    } else {
      assert (a + b)[0] == a[0] && (a + b)[1..] == a[1..] + b;
      if Apply(tags, a[0]).Ok? {
        RunAppend(Apply(tags, a[0]).value, a[1..], b);
      }
    }
  }

  /** An omit and a no_omit of the same field do not cancel: both entries are kept, in order. */
  lemma OmitAndNoOmitCoexist(tags: Tags, field: string)
    requires WellTyped(tags)
    ensures var calls := [Call(Omit, [Str(field)], []), Call(NoOmit, [Str(field)], [])];
            Run(tags, calls).Ok? &&
            EntriesAt(Run(tags, calls).value, OmittedKey) ==
              EntriesAt(tags, OmittedKey) +
              [Entry(BaseInterface, Str(field), Str("true")), Entry(BaseInterface, Str(field), Str("false"))]
  {
    var calls := [Call(Omit, [Str(field)], []), Call(NoOmit, [Str(field)], [])];
    var o := OmitFactory("omit", OmitValue, [Str(field)]).value;
    assert o == [Entry(BaseInterface, Str(field), Str("true"))];
    var n := OmitFactory("no_omit", NoOmitValue, [Str(field)]).value;
    assert n == [Entry(BaseInterface, Str(field), Str("false"))];
    var t1 := Store(tags, OmittedKey, ListValue(o));
    assert Apply(tags, calls[0]) == Ok(t1);
    var t2 := Store(t1, OmittedKey, ListValue(n));
    assert Apply(t1, calls[1]) == Ok(t2);
    assert Run(t2, calls[2..]) == Ok(t2);
    assert Run(t1, calls[1..]) == Ok(t2);
  }
}
