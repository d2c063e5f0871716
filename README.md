# Schemathesis pytest plugin and runner events, in Dafny

This project models two parts of schemathesis, the property-based API testing
tool.

The first is the **pytest plugin** (`src/schemathesis/extra/pytest_plugin.py`):
- A test function bound to a schema is collected by `SchemathesisCase`. It is
  expanded into one pytest item per (input type, endpoint) pair, or one item per
  parametrization call registered by `pytest_generate_tests` hooks.
- Each item gets a name of the form `name[<input type>_input][<method>:<path>]`,
  with a `[<call id>]` suffix when parametrized.
- An endpoint whose schema is invalid gets a body that always fails (a lambda
  of no arguments); its items are then resolved for that body. Any other
  exception during enumeration fails the whole collection.
- At run time, `pytest_pyfunc_call` skips an `invalid`-input test that Hypothesis
  found unsatisfiable, forwards the captured Hypothesis output otherwise, and
  turns `InvalidArgument` into a failure.

The second is the **runner's execution events** (`src/schemathesis/runner/events.py`):
the class-method constructors that derive `Initialized`, `BeforeExecution`,
`AfterExecution`, `InternalError` and `Finished` from a schema, an endpoint, an
exception or a result set.

Files:
- `basics.dfy` (module `Basics`): `Option`, `Distinct`, facts about splitting
  sequences.
- `decimal.dfy` (module `Decimal`): Python's `str(int)` and its inverse, used for
  the status code in error messages.
- `models.dfy` (module `Models`): `InputType` and `Endpoint`, shared by both parts.
- `pytest_plugin.dfy` (module `PytestPlugin`): the collector and the run-time hook.
- `events.dfy` (module `RunnerEvents`): the event constructors.

How the host runner is represented:
- pytest's collection tree, fixture manager and `Metafunc` are replaced by a
  `Host` value. It says whether the module and the enclosing class (if any)
  define `pytest_generate_tests`. It gives the fixture names resolved for a
  pair's definition, and the calls registered when the given hook list runs on
  it, or `None` when a hook raises. Both are functions of the body `_make_test`
  built, because pytest reads the marks and the signature of that callable.
- Hypothesis' `create_test` is a function field of `SchemathesisCase`.
- `get_all_endpoints()` is an `Option` (`None` when it raises).
- The pure parts are functions:
  - `_get_test_name` is `TestName`;
  - `_make_test` is `MakeTest`;
  - `collect` is `Collect`, over the pairs in input-type-outer order.
- The step-by-step parts are methods proved equal to those functions:
  - `_parametrize` is `Parametrize`; it builds the hook list by appending;
  - `_gen_items` is `GenItems`; its loop runs over the registered calls;
  - `pytest_pyfunc_call` is `PyfuncCall`; its loop writes every captured line
    to a `Console` object through `BaseReport`, the model of Hypothesis'
    `base_report`.
- `pytest.fail` and `pytest.skip` are result values (`CollectionFailed`,
  `AlwaysFails`, `Failed`, `Skipped`), not exceptions.

## Model

| member | source | states |
|---|---|---|
| Models.InputTypeValue | src/schemathesis/extra/pytest_plugin.py:26 | the input type's `value` is non-empty, and `valid` and `invalid` differ in their first character, so the `[<value>_input]` part of a name tells the input type |
| PytestPlugin.TestNameInjective | src/schemathesis/extra/pytest_plugin.py:25-26 | when methods contain no `:`, equal plain names imply the same input type, method and path |
| PytestPlugin.ItemNameInjective | src/schemathesis/extra/pytest_plugin.py:37-54 | when, in addition, paths contain no `]`, equal item names (plain, or with a `[<call id>]` suffix) imply the same input type, method, path and call |
| PytestPlugin.BracketInPathCollides | src/schemathesis/extra/pytest_plugin.py:26-54 | a path containing `]` breaks that uniqueness: the plain name for path `/users][a` equals the sub-item name for path `/users` with call id `a` |
| PytestPlugin.MakeTest | src/schemathesis/extra/pytest_plugin.py:84-88 | `InvalidSchema` gives a body that fails with "Invalid schema for endpoint"; a created test is kept; any other exception escapes (`None`), so no other exception is caught here |
| PytestPlugin.HookList | src/schemathesis/extra/pytest_plugin.py:75-80 | at most two hooks; the module hook is in the list exactly when the module defines `pytest_generate_tests`; the class hook is in it exactly when there is a class and it defines the hook; the module hook comes first |
| PytestPlugin.Parametrize | src/schemathesis/extra/pytest_plugin.py:70-82 | the calls returned are the ones registered when exactly that hook list runs on the definition of the given body |
| PytestPlugin.PairItems | src/schemathesis/extra/pytest_plugin.py:37-45 | a pair yields items exactly when `create_test` raises nothing other than `InvalidSchema` and no generation hook raises on the definition built around the pair's body |
| PytestPlugin.PairItemsShape | src/schemathesis/extra/pytest_plugin.py:47-64 | every item has the pair's input type, the body `_make_test` built and a name made from the pair and its own call; with no calls there is exactly one item with the plain name, no original name, no callspec, no keywords and the unpruned fixture info; with k calls there are k items in registration order, item i named `plain + "[" + id_i + "]"`, with original name `plain`, callspec call i, keywords `{id_i: True}` and the pruned fixture info |
| PytestPlugin.GenItems | src/schemathesis/extra/pytest_plugin.py:28-64 | the loop over the registered calls yields exactly the items `PairItems` specifies |
| PytestPlugin.Pairs | src/schemathesis/extra/pytest_plugin.py:95-96 | every visited pair is made of a listed input type and a catalog endpoint |
| PytestPlugin.PairsLength | src/schemathesis/extra/pytest_plugin.py:95-96 | the enumeration visits (number of input types) * (number of endpoints) pairs |
| PytestPlugin.PairsAt | src/schemathesis/extra/pytest_plugin.py:95-96 | input types are the outer loop: input type i with endpoint j is visited at position i * (number of endpoints) + j |
| PytestPlugin.Collect | src/schemathesis/extra/pytest_plugin.py:90-100 | a failed collection carries "Error during collection"; when there is an input type to enumerate, a catalog that raises fails the collection |
| PytestPlugin.CollectSucceeds | src/schemathesis/extra/pytest_plugin.py:92-100 | collection succeeds exactly when there are no input types, or the catalog answers and no visited pair has `create_test` raising something other than `InvalidSchema` or a hook raising |
| PytestPlugin.OtherErrorFailsCollection | src/schemathesis/extra/pytest_plugin.py:92-100 | another exception from `create_test` for any visited pair fails the whole collection with "Error during collection"; no partial list is returned |
| PytestPlugin.CollectCount | src/schemathesis/extra/pytest_plugin.py:93-98 | a successful collection has, summed over the visited pairs, max(1, number of registered calls) items |
| PytestPlugin.CollectUnparametrizedCount | src/schemathesis/extra/pytest_plugin.py:47-48 | without registered calls, a successful collection has (number of input types) * (number of endpoints) items |
| PytestPlugin.CollectOrder | src/schemathesis/extra/pytest_plugin.py:93-98 | the items of the pair visited at position k form one contiguous block, exactly that pair's `PairItems`; before it come the items of every earlier pair (so it starts at their total count), after it those of every later pair |
| PytestPlugin.SchemaErrorsAreLocal | src/schemathesis/extra/pytest_plugin.py:84-98 | a pair whose `create_test` outcome is the same in two cases over the same catalog contributes the same block of items to both successful collections, placed after the items of the pairs visited before it: an invalid schema at another endpoint moves the block but does not change it |
| PytestPlugin.InvalidSchemaChangesOwnItems | src/schemathesis/extra/pytest_plugin.py:41-45 | the definition, fixture info and metafunc are built from the body itself, so an invalid schema can change the pair's own items: with hooks that register two calls for the Hypothesis test and none for the fail-lambda, the created case collects two items and the invalid one a single plain item |
| PytestPlugin.PairNamesDistinct | src/schemathesis/extra/pytest_plugin.py:53-54 | the item names of one pair are distinct exactly when the registered call ids are |
| PytestPlugin.CollectedNamesDistinct | src/schemathesis/extra/pytest_plugin.py:93-98 | with distinct input types, catalog endpoints with distinct (method, path), no `:` in methods, no `]` in paths and distinct call ids, all collected item names are distinct |
| PytestPlugin.GetObj | src/schemathesis/extra/pytest_plugin.py:109-114 | calling the partial with any arguments calls the test with the parent's object prepended |
| PytestPlugin.Triage | src/schemathesis/extra/pytest_plugin.py:135-143 | the hook skips with "BAR" exactly for an `invalid` SchemathesisFunction whose call was `Unsatisfiable`; otherwise a return passes, `Unsatisfiable` is re-raised (so `valid` fails), `InvalidArgument` fails with `args[0]` (an `IndexError` when there are no args), and other errors are re-raised unchanged |
| PytestPlugin.Forwarded | src/schemathesis/extra/pytest_plugin.py:135-139 | the lines forwarded are either none or all of them, and all of them exactly when the hook does not skip (or there are none) |
| PytestPlugin.PyfuncCall | src/schemathesis/extra/pytest_plugin.py:127-143 | the console gains exactly the forwarded lines, in capture order, and the result is the triage verdict |
| PytestPlugin.Console.BaseReport | src/schemathesis/extra/pytest_plugin.py:139 | reporting a line appends it to the console and changes nothing else |
| RunnerEvents.InitializedFromSchema | src/schemathesis/runner/events.py:32-40 | endpoint count, location, base URL and specification name come from the schema; the start time is the clock reading given |
| RunnerEvents.BeforeExecutionFromEndpoint | src/schemathesis/runner/events.py:53-55 | the event holds the endpoint's method and path |
| RunnerEvents.BeforeExecutionIdentifiesEndpoint | src/schemathesis/runner/events.py:53-55 | two endpoints give the same event exactly when they share method and path, so the rest of the endpoint is not recorded |
| RunnerEvents.NewAfterExecution | src/schemathesis/runner/events.py:58-65 | the status is the one given and the Hypothesis output defaults to the empty list |
| RunnerEvents.InternalErrorFromExc | src/schemathesis/runner/events.py:80-90 | there is no traceback exactly for an `HTTPError`, which is checked first; 404 gives "Schema was not found at {url}"; any other code gives "Failed to load schema, code {code} was returned from {url}"; a connection error gives "Failed to load schema from {request url}" with the formatted exception; anything else gives "An internal error happened during a test run" with the formatted exception |
| RunnerEvents.MessageDeterminesKind | src/schemathesis/runner/events.py:82-90 | equal messages come from the same branch: not found, bad status, connection failure or internal error |
| RunnerEvents.BadStatusMessageInjective | src/schemathesis/runner/events.py:85-86 | for status codes other than 404 the message determines both the code and the URL |
| Decimal.IntToStringRoundTrip | src/schemathesis/runner/events.py:86 | the status code as rendered in the message reads back as the same integer |
| Decimal.IntToStringInjective | src/schemathesis/runner/events.py:86 | distinct status codes are rendered differently |
| RunnerEvents.SerializeAll | src/schemathesis/runner/events.py:128 | one serialized entry per result, entry i being the serialization of result i |
| RunnerEvents.SerializeAllAppend | src/schemathesis/runner/events.py:128 | serializing a concatenation of results gives the concatenation of the serializations, so iteration order is kept |
| RunnerEvents.FinishedFromResults | src/schemathesis/runner/events.py:117-130 | the passed, failed and errored counts, the four flags and `total` are copied unchanged; `results` has one serialized entry per result, in order; the running time is the argument |

## Left out

- pytest's collection tree is abstracted into `Host`:
  - `FunctionDefinition`, the fixture manager's `getfixtureinfo`, `Metafunc` and `ihook.pytest_generate_tests.call_extra` are foreign, mutable pytest structures;
  - `getfixtureinfo` is reduced to the fixture names it resolves for the body;
  - the calls the hooks register are given by `Host.registeredCalls`;
  - how pluggy orders pytest's own hook implementations with the extra ones is not modelled; only the extra list and its order are.
- `fixtures.add_funcarg_pseudo_fixture_def` and `prune_dependency_tree` (pytest_plugin.py:50-51): they mutate pytest's fixture definitions, which are not modelled. Their effect on the items is the `pruned` flag of the shared fixture info.
- A parametrization call (pytest's `CallSpec2`) is reduced to its `id`. The parameter values it carries are not modelled.
- Exceptions from `getfixtureinfo` and from instantiating the test class (`cls()`) are not modelled. Only `create_test`, `get_all_endpoints()` and the hooks may raise in the model.
- `pytest_pycollect_makeitem` (pytest_plugin.py:117-124): a thin hook wrapper around the external predicate `is_schemathesis_test`.
- Hypothesis' `create_test` is represented by the opaque token of the test it builds.
- `capture_hypothesis_output` is a context manager; its captured lines are a given sequence.
- The repeated-collection promise is not stated as a lemma. `Collect` is a function, so the same inputs give the same result.
- `except Exception` in `collect` does not catch `BaseException` subclasses. Besides `KeyboardInterrupt`, these include the outcomes of `pytest.fail` and `pytest.skip` raised inside a generation hook or by `metafunc.parametrize` (for example for an argument name the test does not take); they leave the collector instead of becoming "Error during collection". The model has no such exceptions: a `None` from `Host.registeredCalls` stands only for an `Exception` subclass.
- `get_all_endpoints()` is called once per input type (pytest_plugin.py:95-96). The model reads one catalog answer for all input types; a schema whose answer changes between calls is not modelled.
- `TestBody` drops the callable's parameters. `AlwaysFails` stands for a lambda that takes no arguments. For a test defined as a method, `_getobj` (pytest_plugin.py:109-114) binds the class instance to that lambda, and calling it raises `TypeError` rather than failing with "Invalid schema for endpoint". The model does not capture that case; `GetObj` records only the bound arguments.
- PytestPlugin.SchemaErrorsAreLocal: does not claim that an invalid schema leaves the pair's own items or names unchanged. The fixture info and the metafunc are built from the fail-lambda (pytest_plugin.py:41-45, 74), which has no parameters and none of the test's marks, so the hooks may register other calls for it or raise (see `InvalidSchemaChangesOwnItems`). The lemma states locality for the pairs whose outcome is unchanged.
- `pytest_plugin.py:48` contains a stray backtick before `input_type=input_type`. It is read as passing the input type, as the other branch does.
- `constants.py` is not part of this model. `InputType.value` is taken to be `"valid"` / `"invalid"`, the values the plugin's names and the `invalid` check imply.
- `models.py` is not part of this model. The `TestResultSet` counts, flags and `total` are given fields rather than derived from the results. The inner key type `Union[str, Status]` of `total` is modelled as `string`.
- `time.monotonic()` and the float `start_time` / `running_time` are given as `real` parameters, with no floating-point behaviour.
- `format_exception` and `SerializedTestResult.from_test_result` are foreign. They are function parameters.
- The requests and schemathesis exception classes are the `RunnerException` datatype. It carries only the status code and URLs that `from_exc` reads.
- `ExecutionEvent` and `Interrupted` have no behaviour and are not modelled.
- PytestPlugin.CollectedNamesDistinct: holds only under its premises. These are: no `:` in methods, no `]` in paths (see `BracketInPathCollides`), distinct (method, path) in the catalog, distinct input types, and distinct call ids. The plugin does not check any of these itself.
