# plone.autoform form directives, modelled in Dafny

plone.autoform lets a schema interface carry form hints. Inside the class body of a
`model.Schema` subclass you call directives: `omit`/`no_omit`, `mode`, `widget`,
`order_before`/`order_after` and `read_permission`/`write_permission`.

- Each directive's `factory` turns the call's arguments into a metadata fragment.
  The fragment is a list of triples, or a dictionary from field name to value.
- The fragment is stored as a tagged value under the directive's key. A list key is
  extended and a dictionary key is updated, so repeated calls accumulate.
- Once the schema is defined, one checker plugin per key looks up every stored field
  name in the schema's own and inherited fields. An unknown name raises `ValueError`.

The project has six modules:

- `Values` (`values.dfy`): the Python values the directives see, the exceptions they
  raise, keyword arguments as a sequence of distinct `(name, value)` pairs, and the
  triples stored in list-valued tags.
- `Directives` (`directives.dfy`): the eight factories, and the facts the tests rely
  on about what each one produces. `widget.factory` is modelled as a method with its
  loop, proved against the specification function `WidgetFragment`.
- `Storage` (`storage.dfy`): storing a fragment, running the directive calls of a
  class body in order, and the accumulation laws for list and dictionary keys.
- `Checking` (`checking.dfy`): schemas with bases, the six checker plugins with their
  `key` and `position`, validation, and `Define` (run the body, then validate).
- `Scenarios` (`scenarios.dfy`) and `Invocations` (`invocations.dfy`): the schemas of
  the directive tests, with the tagged values each one stores or the exception it raises.

## Model

| member | source | states |
|---|---|---|
| Values.ToDict | plone/autoform/directives.py:109-110 | The `**kw` dictionary has exactly the keyword names as keys, and each keyword's value under its name. |
| Values.ToDictSize | plone/autoform/directives.py:123-124 | The dictionary built from distinct keywords has one item per keyword. |
| Directives.OmitFactory | plone/autoform/directives.py:20-27 | No arguments raises `TypeError("The <class> directive expects at least one argument.")`. Otherwise: a leading interface is the scope and is not an entry, else the scope is `Interface`; there is one `(scope, field, value)` triple per remaining argument, in order. |
| Directives.OmitFieldsRecovered | plone/autoform/directives.py:20-27 | The field arguments come back, in order, from position 1 of the triples; a lone interface argument gives an empty list and no error. |
| Directives.OmitAndNoOmitDiffer | plone/autoform/directives.py:30-33 | `no_omit` gives the same scopes and fields as `omit` for the same arguments, with `'false'` where `omit` has `'true'`. |
| Directives.ModeFactory | plone/autoform/directives.py:47-53 | More than one positional argument raises `TypeError("The mode directive expects 0 or 1 non-keyword arguments.")`. Otherwise there is one `(scope, field, mode)` triple per keyword; the scope is the positional argument if given, else `Interface`. |
| Directives.ModeKeywordsRecovered | plone/autoform/directives.py:47-53 | Positions 1 and 2 of the triples give back exactly the keyword items, and no two triples name the same field. |
| Directives.WidgetFragmentSpec | plone/autoform/directives.py:67-73 | The widget dictionary is built exactly when every value has a readable widget name. Its keys are exactly the keyword names, and each holds the widget name of that keyword's value. |
| Directives.WidgetFactory | plone/autoform/directives.py:67-73 | The loop that fills `widgets` returns exactly the fragment the specification function describes, including the first `AttributeError`. |
| Directives.WidgetStoresNames | plone/autoform/directives.py:67-73 | Every keyword is stored. A string is kept unchanged; an interface or other object becomes `"<__module__>.<__name__>"`; every stored widget is a string. |
| Directives.WidgetFirstFailure | plone/autoform/directives.py:69-71 | A widget call raises exactly the `AttributeError` of the first keyword whose value lacks `__module__` (checked first) or `__name__`. |
| Directives.OrderFactory | plone/autoform/directives.py:87-88 | One `(field, value, relative_to)` triple per keyword, in keyword order. |
| Directives.OrderKeywordsRecovered | plone/autoform/directives.py:87-95 | Positions 0 and 2 of the triples give back exactly the keyword items; position 1 is always `'before'` for `order_before` or `'after'` for `order_after`. |
| Directives.PermissionItemsAreKeywords | plone/autoform/directives.py:109-124 | A name maps to a value in the stored permission dictionary if and only if that pair was passed as a keyword. |
| Directives.Factory | plone/autoform/directives.py:13-124 | A successful call yields a list fragment for the list directives (omit, no_omit, mode, order) and a dictionary fragment for the others. |
| Directives.FactoryErrors | plone/autoform/directives.py:20-124 | When each directive raises: omit/no_omit raise with keywords or with no arguments; mode raises with more than one positional argument; widget raises with positional arguments or an unreadable widget name; order and permissions raise only with positional arguments. |
| Storage.StoreMerges | plone/autoform/tests/test_directives.py:108-125 | Storing touches only the directive's key. A list fragment is appended to the stored list; a dictionary fragment adds its names; a name only the old dictionary has keeps its value; a name only the fragment has gets the fragment's value. |
| Storage.Apply | plone/autoform/tests/test_directives.py:84-125 | A call raises exactly when its factory does, with the same exception; otherwise list keys still hold lists and dictionary keys dictionaries. |
| Storage.ApplyExtendsList | plone/autoform/tests/test_directives.py:111-121 | One call extends a list key by exactly its own entries. |
| Storage.ApplyUnitesDict | plone/autoform/tests/test_directives.py:108-110 | One call adds exactly its own names to a dictionary key, each with the value the call gives it, and keeps the values of the other names. |
| Storage.RunPreservesWellTyped | plone/autoform/directives.py:13-124 | After any body, list keys hold lists and dictionary keys hold dictionaries. |
| Storage.RunFailsAtFirstFailingCall | plone/autoform/directives.py:20-22 | A body raises if and only if one of its calls raises, and it raises the exception of the first such call. |
| Storage.RunExtendsLists | plone/autoform/tests/test_directives.py:111-121 | A list key ends with the entries it had before, followed by every call's entries in invocation order. |
| Storage.RunUnitesDicts | plone/autoform/tests/test_directives.py:122-125 | A dictionary key ends with the union of the names it had and every call's names; a name no call mentions keeps its value. |
| Storage.RunKeepsLastValues | plone/autoform/tests/test_directives.py:122-125 | A name some call mentions holds the value that the last call mentioning it gives it, so a name only one call mentions holds that call's value. |
| Storage.RunAppend | plone/autoform/tests/test_directives.py:84-101 | Running two stretches of a body one after the other is the same as running them together. |
| Storage.OmitAndNoOmitCoexist | plone/autoform/tests/test_directives.py:55-59 | `omit(f)` followed by `no_omit(f)` keeps both triples, in that order; neither cancels the other. |
| Checking.AncestorFieldsInherited | plone/autoform/tests/test_directives.py:142-151 | Every field of a base schema, direct or indirect, is a field of the derived schema. |
| Checking.FieldNamesAreDefined | plone/autoform/tests/test_directives.py:142-151 | Every field of a schema is defined by the schema itself or by one of its ancestors. |
| Checking.Validate | plone/autoform/directives.py:36-128 | Validation either returns the tags unchanged or raises `ValueError`. |
| Checking.ValidationRule | plone/autoform/directives.py:36-128 | Validation passes if and only if all of these are schema fields: position 1 of every omitted and modes triple, position 0 of every order triple, and every key of the widgets and both permission dictionaries. |
| Checking.ListPluginSeesOnlyItsColumn | plone/autoform/directives.py:36-100 | Replacing the triples under a list plugin's key by triples that agree with them, one for one, at the plugin's `position` never changes the outcome of validation. |
| Checking.DictPluginSeesOnlyNames | plone/autoform/directives.py:76-128 | Replacing the values under a dictionary plugin's key, keeping the same names, never changes the outcome of validation. |
| Checking.OrderTargetUnchecked | plone/autoform/directives.py:98-100 | Replacing the `relative_to` targets of the order triples never changes the outcome of validation. |
| Checking.DefineRule | plone/autoform/directives.py:36-128 | A schema definition succeeds if and only if no call raises and every checked name, taken from all calls' fragments, is a field of the schema. |
| Scenarios.StoresTaggedValues | plone/autoform/tests/test_directives.py:32-69 | The ten-directive schema defines without error. It stores exactly the omitted, modes, order, widgets, read and write values the test expects. |
| Scenarios.WidgetClassStoredByName | plone/autoform/tests/test_directives.py:71-82 | `widget(foo=DummyWidget)` stores `'plone.autoform.tests.test_directives.DummyWidget'` under `foo`, and nothing else. |
| Scenarios.MisspelledOrderFieldRaises | plone/autoform/tests/test_directives.py:129-139 | `order_before(ber='*')` on a schema whose only field is `bar` raises `ValueError`. |
| Scenarios.MisspelledOmittedFieldRaises | plone/autoform/tests/test_directives.py:134-140 | `omit('buz')` on a schema whose only field is `baz` raises `ValueError`. |
| Scenarios.InheritedFieldAccepted | plone/autoform/tests/test_directives.py:142-151 | `order_after(foo='bar')` on a schema that inherits `foo` is accepted, and stores the single triple `('foo', 'after', 'bar')`. |
| Invocations.MultipleInvocationsAccumulate | plone/autoform/tests/test_directives.py:84-125 | The fourteen-call schema defines without error. Each list holds every call's triples in invocation order, and each dictionary holds every call's items. |

## Left out

- The plone.supermodel class-advice machinery is not part of this model. It covers `MetadataListDirective`, `MetadataDictDirective`, finding the interface being defined, and writing its tagged values. A class body is modelled as a sequence of calls run from empty tags (`Storage.Run`), and storing as `setdefault(...).extend` or `setdefault(...).update` (`Storage.Store`), so a later call's value for a name replaces an earlier one.
- The checker plugin classes of plone.supermodel are not part of this model. Only their `key` and `position` settings from `directives.py`, and the rule the tests assert, are modelled. The message of the `ValueError` is not modelled.
- The order in which the six plugins run is not modelled; any failing plugin gives the same `ValueError`.
- Keyword order: a call's keywords are a sequence in the order `kw.items()` yields them. Python 2 leaves that order unspecified, so the per-position contracts hold relative to whatever order it is.
- The key strings (`OMITTED_KEY` and the others) live in plone/autoform/interfaces.py, which is not part of this model; keys are the enumeration `Directives.Key`.
- A call whose arguments the factory signature rejects is Python's own `TypeError`, modelled as the separate error `SignatureError`. This covers keywords passed to omit/no_omit and positional arguments passed to widget, order or the permission directives.
- `IInterface.providedBy` is the `Interface` tag of `Values.Value`, and an interface is identified by its module and name. `basestring` is the `Str` tag. Other objects carry only optional `__module__` and `__name__` attributes.
- plone/autoform/form.py has no logic of its own to model, and the ZCML and component setup of the tests (plone/autoform/tests/test_directives.py:23-30) is configuration.
