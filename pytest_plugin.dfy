/**
 * The schemathesis pytest plugin: a collector that turns one schema-bound test
 * function into one pytest item per (input type, endpoint, parametrization
 * call), and the run-time hook that triages Hypothesis outcomes.
 *
 * pytest's collection tree, fixture manager and metafunc are replaced by a
 * `Host` that answers the two questions the plugin asks of them; Hypothesis'
 * `create_test` is a function of the endpoint and input type.
 */
module PytestPlugin {
  import opened Basics
  import opened Models

  const INVALID_SCHEMA_MESSAGE := "Invalid schema for endpoint"
  const COLLECTION_ERROR_MESSAGE := "Error during collection"
  const UNSATISFIABLE_SKIP_REASON := "BAR"

  // ---------------------------------------------------------------------------
  // Collaborators
  // ---------------------------------------------------------------------------

  /** What `create_test(endpoint, test_function, input_type=...)` does. */
  datatype CreateOutcome =
    | Created(test: nat)          // returns a Hypothesis test, identified by an opaque token
    | RaisesInvalidSchema         // raises InvalidSchema
    | RaisesOther(kind: string)   // raises any other exception

  /** The callable an item runs. */
  datatype TestBody =
    | HypothesisTest(test: nat)    // what `create_test` returned
    | AlwaysFails(message: string) // `lambda: pytest.fail(message)`

  /**
   * The collector's view of the decorated test function: its name, the input
   * types it is bound to and the schema's endpoint catalog (None when
   * `get_all_endpoints()` raises).
   */
  datatype SchemathesisCase = SchemathesisCase(
    name: string,
    inputTypes: seq<InputType>,
    endpoints: Option<seq<Endpoint>>,
    createTest: (Endpoint, InputType) -> CreateOutcome)

  /** A module or class object; all that matters is whether it defines `pytest_generate_tests`. */
  datatype Scope = Scope(definesGenerateTests: bool)

  /** The two `pytest_generate_tests` implementations the plugin may pass to pytest. */
  datatype Hook = ModuleHook | ClassHook

  /** One registered parametrization call (pytest's CallSpec2), identified by its id. */
  datatype CallSpec = CallSpec(id: string)

  /** pytest's FuncFixtureInfo: the fixture names and whether the dependency tree was pruned. */
  datatype FixtureInfo = FixtureInfo(argnames: seq<string>, pruned: bool)

  /**
   * The host runner. `fixtureNames` is what `getfixtureinfo` resolves for the
   * definition built for a pair around the body `_make_test` produced;
   * `registeredCalls` is `metafunc._calls` after pytest ran its own hooks
   * together with the given extra ones on that definition (None when a hook
   * raised). Both see the body, because pytest reads the marks and the
   * signature of the callable itself.
   */
  datatype Host = Host(
    moduleScope: Scope,
    classScope: Option<Scope>,
    fixtureNames: (Endpoint, InputType, TestBody) -> seq<string>,
    registeredCalls: (seq<Hook>, Endpoint, InputType, TestBody) -> Option<seq<CallSpec>>)

  /** A SchemathesisFunction item. An empty `keywords` map stands for pytest's default `None`. */
  datatype Item = Item(
    name: string,
    originalName: Option<string>,
    inputType: InputType,
    body: TestBody,
    fixtureInfo: FixtureInfo,
    callspec: Option<CallSpec>,
    keywords: map<string, bool>)

  /** What `collect` produces: the items, or the single failure `pytest.fail` reports. */
  datatype Collected = Collected(items: seq<Item>) | CollectionFailed(message: string)

  // ---------------------------------------------------------------------------
  // Naming
  // ---------------------------------------------------------------------------

  /** `_get_test_name`: `name[<input type>_input][<method>:<path>]`. */
  function TestName(base: string, e: Endpoint, t: InputType): string
  {
    base + "[" + InputTypeValue(t) + "_input][" + e.httpMethod + ":" + e.path + "]"
  }

  /** The suffix a parametrization call adds to the plain name. */
  function CallSuffix(cs: Option<CallSpec>): string
  {
    match cs
    case None => ""
    case Some(c) => "[" + c.id + "]"
  }

  /** The name of the item for a pair and, when there is one, a parametrization call. */
  function ItemName(base: string, e: Endpoint, t: InputType, cs: Option<CallSpec>): string
  {
    TestName(base, e, t) + CallSuffix(cs)
  }

  /** The name with its parts re-associated around the two separators that delimit the method. */
  lemma NameParts(base: string, e: Endpoint, t: InputType, cs: Option<CallSpec>)
    ensures ItemName(base, e, t, cs)
         == (base + "[") + (InputTypeValue(t) + ("_input][" + (e.httpMethod + [':'] + (e.path + [']'] + CallSuffix(cs)))))
  {
    Reassociate(base, "[", InputTypeValue(t), "_input][", e.httpMethod, [':'], e.path, [']'], CallSuffix(cs));
  }

  lemma Reassociate<T>(a: seq<T>, b: seq<T>, c: seq<T>, d: seq<T>, e: seq<T>, f: seq<T>, g: seq<T>, h: seq<T>, i: seq<T>)
    ensures a + b + c + d + e + f + g + h + i == (a + b) + (c + (d + (e + f + (g + h + i))))
  {
  }

  /** Equal names agree on the input type, the method and what follows the method's colon. */
  lemma {:induction false} NameHeadInjective(base: string, e1: Endpoint, t1: InputType, cs1: Option<CallSpec>,
                                             e2: Endpoint, t2: InputType, cs2: Option<CallSpec>)
    requires ':' !in e1.httpMethod && ':' !in e2.httpMethod
    requires ItemName(base, e1, t1, cs1) == ItemName(base, e2, t2, cs2)
    ensures t1 == t2 && e1.httpMethod == e2.httpMethod
    ensures e1.path + [']'] + CallSuffix(cs1) == e2.path + [']'] + CallSuffix(cs2)
  {
    NameParts(base, e1, t1, cs1);
    NameParts(base, e2, t2, cs2);
    var y1, y2 := e1.path + [']'] + CallSuffix(cs1), e2.path + [']'] + CallSuffix(cs2);
    var x1, x2 := e1.httpMethod + [':'] + y1, e2.httpMethod + [':'] + y2;
    var r1, r2 := InputTypeValue(t1) + ("_input][" + x1), InputTypeValue(t2) + ("_input][" + x2);
    CancelPrefix(base + "[", r1, r2);
    assert r1[0] == InputTypeValue(t1)[0] && r2[0] == InputTypeValue(t2)[0];
    assert t1 == t2;
    CancelPrefix(InputTypeValue(t1), "_input][" + x1, "_input][" + x2);
    CancelPrefix("_input][", x1, x2);
    SplitAtSeparator(e1.httpMethod, y1, e2.httpMethod, y2, ':');
  }

  /**
   * Plain names are unambiguous: when methods contain no `:`, equal names
   * come from the same input type, method and path.
   */
  lemma {:induction false} TestNameInjective(base: string, e1: Endpoint, t1: InputType, e2: Endpoint, t2: InputType)
    requires ':' !in e1.httpMethod && ':' !in e2.httpMethod
    requires TestName(base, e1, t1) == TestName(base, e2, t2)
    ensures t1 == t2 && e1.httpMethod == e2.httpMethod && e1.path == e2.path
  {
    assert ItemName(base, e1, t1, None) == TestName(base, e1, t1);
    assert ItemName(base, e2, t2, None) == TestName(base, e2, t2);
    NameHeadInjective(base, e1, t1, None, e2, t2, None);
    assert e1.path + [']'] + CallSuffix(None) == e1.path + "]";
    assert e2.path + [']'] + CallSuffix(None) == e2.path + "]";
    CancelSuffix(e1.path, e2.path, "]");
  }

  /**
   * All item names are unambiguous when methods contain no `:` and paths no
   * `]`: the name determines the input type, method, path and call id.
   */
  lemma {:induction false} ItemNameInjective(base: string, e1: Endpoint, t1: InputType, cs1: Option<CallSpec>,
                                             e2: Endpoint, t2: InputType, cs2: Option<CallSpec>)
    requires ':' !in e1.httpMethod && ':' !in e2.httpMethod
    requires ']' !in e1.path && ']' !in e2.path
    requires ItemName(base, e1, t1, cs1) == ItemName(base, e2, t2, cs2)
    ensures t1 == t2 && e1.httpMethod == e2.httpMethod && e1.path == e2.path && cs1 == cs2
  {
    NameHeadInjective(base, e1, t1, cs1, e2, t2, cs2);
    SplitAtSeparator(e1.path, CallSuffix(cs1), e2.path, CallSuffix(cs2), ']');
    if cs1.Some? && cs2.Some? {
      assert CallSuffix(cs1) == "[" + (cs1.value.id + "]");
      assert CallSuffix(cs2) == "[" + (cs2.value.id + "]");
      CancelPrefix("[", cs1.value.id + "]", cs2.value.id + "]");
      CancelSuffix(cs1.value.id, cs2.value.id, "]");
    }
  }

  /** Without the `]` restriction on paths, a plain name and a parametrized name can coincide. */
  lemma BracketInPathCollides()
    ensures ItemName("test_api", Endpoint("GET", "/users][a", ""), Valid, None)
         == ItemName("test_api", Endpoint("GET", "/users", ""), Valid, Some(CallSpec("a")))
  {
  }

  // ---------------------------------------------------------------------------
  // Building one pair's items
  // ---------------------------------------------------------------------------

  /**
   * `_make_test`: the body `create_test` builds; an InvalidSchema becomes a
   * body that always fails, any other exception escapes (None).
   */
  function MakeTest(c: SchemathesisCase, e: Endpoint, t: InputType): (r: Option<TestBody>)
    ensures r.None? <==> c.createTest(e, t).RaisesOther?
    ensures c.createTest(e, t).RaisesInvalidSchema? ==> r == Some(AlwaysFails(INVALID_SCHEMA_MESSAGE))
    ensures c.createTest(e, t).Created? ==> r == Some(HypothesisTest(c.createTest(e, t).test))
  {
    match c.createTest(e, t)
    case Created(test) => Some(HypothesisTest(test))
    case RaisesInvalidSchema => Some(AlwaysFails(INVALID_SCHEMA_MESSAGE))
    case RaisesOther(_) => None
  }

  /**
   * The list `_parametrize` hands to `call_extra`: the module's
   * `pytest_generate_tests`, then the class instance's, each only if defined.
   */
  function HookList(host: Host): (hooks: seq<Hook>)
    ensures |hooks| <= 2
    ensures ModuleHook in hooks <==> host.moduleScope.definesGenerateTests
    ensures ClassHook in hooks <==> host.classScope.Some? && host.classScope.value.definesGenerateTests
    ensures forall i, j :: 0 <= i < j < |hooks| ==> hooks[i] == ModuleHook && hooks[j] == ClassHook
  {
    (if host.moduleScope.definesGenerateTests then [ModuleHook] else [])
    + (if host.classScope.Some? && host.classScope.value.definesGenerateTests then [ClassHook] else [])
  }

  /** `_parametrize`: collect the generation hooks, run them, and return the registered calls. */
  method Parametrize(host: Host, e: Endpoint, t: InputType, funcobj: TestBody) returns (calls: Option<seq<CallSpec>>)
    ensures calls == host.registeredCalls(HookList(host), e, t, funcobj)
  {
    var methods: seq<Hook> := [];
    if host.moduleScope.definesGenerateTests {
      methods := methods + [ModuleHook];
    }
    if host.classScope.Some? && host.classScope.value.definesGenerateTests {
      methods := methods + [ClassHook];
    }
    assert methods == HookList(host);
    calls := host.registeredCalls(methods, e, t, funcobj);
  }

  /** The calls the hooks register for a pair's body; None when `_make_test` or a hook raises. */
  function Calls(c: SchemathesisCase, host: Host, e: Endpoint, t: InputType): Option<seq<CallSpec>>
  {
    match MakeTest(c, e, t)
    case None => None
    case Some(body) => host.registeredCalls(HookList(host), e, t, body)
  }

  /** The item yielded when no parametrization call was registered. */
  function PlainItem(name: string, t: InputType, body: TestBody, info: FixtureInfo): Item
  {
    Item(name, None, t, body, info, None, map[])
  }

  /** The item yielded for one registered parametrization call. */
  function SubItem(name: string, t: InputType, body: TestBody, info: FixtureInfo, call: CallSpec): Item
  {
    Item(name + "[" + call.id + "]", Some(name), t, body, info, Some(call), map[call.id := true])
  }

  /**
   * What `_gen_items` yields for one (endpoint, input type) pair, or None when
   * an exception escapes it.
   */
  function PairItems(c: SchemathesisCase, host: Host, e: Endpoint, t: InputType): (r: Option<seq<Item>>)
    ensures r.Some? <==> !c.createTest(e, t).RaisesOther? && Calls(c, host, e, t).Some?
  {
    match MakeTest(c, e, t)
    case None => None
    case Some(body) =>
      match Calls(c, host, e, t)
      case None => None
      case Some(calls) =>
        var name := TestName(c.name, e, t);
        var info := FixtureInfo(host.fixtureNames(e, t, body), false);
        if calls == [] then
          Some([PlainItem(name, t, body, info)])
        else
          Some(seq(|calls|, i requires 0 <= i < |calls| => SubItem(name, t, body, info.(pruned := true), calls[i])))
  }

  /**
   * The items of a pair: each has the pair's input type, the body `_make_test`
   * built and a name made from the pair and its own call; one plain item when
   * no call was registered, otherwise one item per call in registration order.
   */
  lemma PairItemsShape(c: SchemathesisCase, host: Host, e: Endpoint, t: InputType)
    requires PairItems(c, host, e, t).Some?
    ensures forall i :: 0 <= i < |PairItems(c, host, e, t).value| ==>
      && PairItems(c, host, e, t).value[i].inputType == t
      && PairItems(c, host, e, t).value[i].body == MakeTest(c, e, t).value
      && PairItems(c, host, e, t).value[i].name == ItemName(c.name, e, t, PairItems(c, host, e, t).value[i].callspec)
    // no calls: exactly one item, with the plain name and the fixture info as resolved
    ensures Calls(c, host, e, t).value == [] ==>
      && |PairItems(c, host, e, t).value| == 1
      && PairItems(c, host, e, t).value[0].name == TestName(c.name, e, t)
      && PairItems(c, host, e, t).value[0].originalName.None?
      && PairItems(c, host, e, t).value[0].callspec.None?
      && PairItems(c, host, e, t).value[0].keywords == map[]
      && PairItems(c, host, e, t).value[0].fixtureInfo == FixtureInfo(host.fixtureNames(e, t, MakeTest(c, e, t).value), false)
    // k calls: k items in registration order, each qualified by its call's id
    ensures Calls(c, host, e, t).value != [] ==>
      var calls := Calls(c, host, e, t).value;
      && |PairItems(c, host, e, t).value| == |calls|
      && forall i :: 0 <= i < |calls| ==>
        && PairItems(c, host, e, t).value[i].name == TestName(c.name, e, t) + "[" + calls[i].id + "]"
        && PairItems(c, host, e, t).value[i].originalName == Some(TestName(c.name, e, t))
        && PairItems(c, host, e, t).value[i].callspec == Some(calls[i])
        && PairItems(c, host, e, t).value[i].keywords == map[calls[i].id := true]
        && PairItems(c, host, e, t).value[i].fixtureInfo == FixtureInfo(host.fixtureNames(e, t, MakeTest(c, e, t).value), true)
  {
    PairItemsNamedAfter(c, host, e, t);
  }

  /** Every item of a pair is named after the pair and its own call. */
  lemma PairItemsNamedAfter(c: SchemathesisCase, host: Host, e: Endpoint, t: InputType)
    requires PairItems(c, host, e, t).Some?
    ensures forall i :: 0 <= i < |PairItems(c, host, e, t).value| ==>
      PairItems(c, host, e, t).value[i].name == ItemName(c.name, e, t, PairItems(c, host, e, t).value[i].callspec)
  {
    var items := PairItems(c, host, e, t).value;
    var calls := Calls(c, host, e, t).value;
    if calls != [] {
      forall i | 0 <= i < |calls|
        ensures items[i].name == ItemName(c.name, e, t, items[i].callspec)
      {
        SubNameIsItemName(c.name, e, t, calls[i]);
      }
    }
  }

  /** A sub-item's name is the item name for its call. */
  lemma SubNameIsItemName(base: string, e: Endpoint, t: InputType, call: CallSpec)
    ensures TestName(base, e, t) + "[" + call.id + "]" == ItemName(base, e, t, Some(call))
  {
    var n := TestName(base, e, t);
    assert n + "[" + call.id + "]" == n + ("[" + call.id + "]");
  }

  /** With registered calls, a pair's items are one sub-item per call, sharing the pruned fixture info. */
  lemma PairItemsParametrized(c: SchemathesisCase, host: Host, e: Endpoint, t: InputType)
    requires MakeTest(c, e, t).Some? && Calls(c, host, e, t).Some? && Calls(c, host, e, t).value != []
    ensures PairItems(c, host, e, t).Some?
    ensures |PairItems(c, host, e, t).value| == |Calls(c, host, e, t).value|
    ensures forall j :: 0 <= j < |Calls(c, host, e, t).value| ==>
      PairItems(c, host, e, t).value[j]
      == SubItem(TestName(c.name, e, t), t, MakeTest(c, e, t).value,
                 FixtureInfo(host.fixtureNames(e, t, MakeTest(c, e, t).value), true), Calls(c, host, e, t).value[j])
  {
  }

  /** `_gen_items`: build the pair's items one registered call at a time. */
  method GenItems(c: SchemathesisCase, host: Host, e: Endpoint, t: InputType) returns (r: Option<seq<Item>>)
    ensures r == PairItems(c, host, e, t)
  {
    var name := TestName(c.name, e, t);
    var funcobj := MakeTest(c, e, t);
    if funcobj.None? {
      return None;
    }
    var fixtureinfo := FixtureInfo(host.fixtureNames(e, t, funcobj.value), false);
    var metafuncCalls := Parametrize(host, e, t, funcobj.value);
    if metafuncCalls.None? {
      return None;
    }
    var calls := metafuncCalls.value;
    if calls == [] {
      return Some([PlainItem(name, t, funcobj.value, fixtureinfo)]);
    }
    // prune_dependency_tree() updates the fixture info every sub-item shares
    fixtureinfo := fixtureinfo.(pruned := true);
    var items: seq<Item> := [];
    for i := 0 to |calls|
      invariant |items| == i
      invariant forall j :: 0 <= j < i ==> items[j] == SubItem(name, t, funcobj.value, fixtureinfo, calls[j])
    {
      items := items + [SubItem(name, t, funcobj.value, fixtureinfo, calls[i])];
    }
    PairItemsParametrized(c, host, e, t);
    assert items == PairItems(c, host, e, t).value;
    return Some(items);
  }

  // ---------------------------------------------------------------------------
  // Collection
  // ---------------------------------------------------------------------------

  /** One input type paired with every endpoint, in catalog order. */
  function Row(t: InputType, endpoints: seq<Endpoint>): (r: seq<(InputType, Endpoint)>)
    ensures |r| == |endpoints|
    ensures forall j :: 0 <= j < |endpoints| ==> r[j] == (t, endpoints[j])
  {
    seq(|endpoints|, j requires 0 <= j < |endpoints| => (t, endpoints[j]))
  }

  /** The (input type, endpoint) pairs in the order `collect` visits them: input types outer. */
  function Pairs(types: seq<InputType>, endpoints: seq<Endpoint>): (r: seq<(InputType, Endpoint)>)
    ensures forall k :: 0 <= k < |r| ==> r[k].0 in types && r[k].1 in endpoints
  {
    if types == [] then []
    else
      var rest := Pairs(types[1..], endpoints);
      assert forall k :: 0 <= k < |rest| ==> rest[k].0 in types;
      Row(types[0], endpoints) + rest
  }

  /** The enumeration visits |types| * |endpoints| pairs. */
  lemma {:induction false} PairsLength(types: seq<InputType>, endpoints: seq<Endpoint>)
    ensures |Pairs(types, endpoints)| == |types| * |endpoints|
  {
    if types != [] {
      PairsLength(types[1..], endpoints);
      assert |types| * |endpoints| == |endpoints| + (|types| - 1) * |endpoints|;
    }
  }

  /** Input type i and endpoint j sit at position i * |endpoints| + j. */
  lemma {:induction false} PairsAt(types: seq<InputType>, endpoints: seq<Endpoint>, i: nat, j: nat)
    requires i < |types| && j < |endpoints|
    ensures i * |endpoints| + j < |Pairs(types, endpoints)|
    ensures Pairs(types, endpoints)[i * |endpoints| + j] == (types[i], endpoints[j])
  {
    var n := |endpoints|;
    if i == 0 {
      assert Pairs(types, endpoints)[j] == Row(types[0], endpoints)[j];
    } else {
      PairsAt(types[1..], endpoints, i - 1, j);
      assert i * n + j == n + ((i - 1) * n + j);
    }
  }

  /** What `_gen_items` yields for a pair, as a function of the pair. */
  function PairExpansion(c: SchemathesisCase, host: Host): ((InputType, Endpoint)) -> Option<seq<Item>>
  {
    (p: (InputType, Endpoint)) => PairItems(c, host, p.1, p.0)
  }

  /** The items of the given pairs, concatenated; None as soon as one pair raises. */
  function ExpandPairs(c: SchemathesisCase, host: Host, pairs: seq<(InputType, Endpoint)>): Option<seq<Item>>
  {
    FlatMap(PairExpansion(c, host), pairs)
  }

  /**
   * `collect`: every pair's items, input types outer and endpoints inner; any
   * exception escaping the enumeration collapses into one collection failure.
   */
  function Collect(c: SchemathesisCase, host: Host): (r: Collected)
    ensures r.CollectionFailed? ==> r.message == COLLECTION_ERROR_MESSAGE
    ensures c.inputTypes != [] && c.endpoints.None? ==> r.CollectionFailed?
  {
    if c.inputTypes == [] then Collected([])
    else
      match c.endpoints
      case None => CollectionFailed(COLLECTION_ERROR_MESSAGE)
      case Some(es) =>
        match ExpandPairs(c, host, Pairs(c.inputTypes, es))
        case None => CollectionFailed(COLLECTION_ERROR_MESSAGE)
        case Some(items) => Collected(items)
  }

  /** The pairs a case enumerates (none when the catalog raises). */
  function CasePairs(c: SchemathesisCase): seq<(InputType, Endpoint)>
  {
    match c.endpoints
    case None => []
    case Some(es) => Pairs(c.inputTypes, es)
  }

  /** How many items a pair contributes: one, or one per registered call. */
  function PairCount(c: SchemathesisCase, host: Host, p: (InputType, Endpoint)): nat
  {
    match Calls(c, host, p.1, p.0)
    case None => 0
    case Some(calls) => if |calls| == 0 then 1 else |calls|
  }

  /** The sum of `PairCount` over the pairs. */
  function TotalCount(c: SchemathesisCase, host: Host, pairs: seq<(InputType, Endpoint)>): nat
  {
    if pairs == [] then 0 else PairCount(c, host, pairs[0]) + TotalCount(c, host, pairs[1..])
  }

  function Names(items: seq<Item>): seq<string>
  {
    seq(|items|, i requires 0 <= i < |items| => items[i].name)
  }

  /** Expansion succeeds exactly when no pair raises. */
  lemma {:induction false} ExpandPairsSucceeds(c: SchemathesisCase, host: Host, pairs: seq<(InputType, Endpoint)>)
    ensures ExpandPairs(c, host, pairs).Some? <==>
      forall k :: 0 <= k < |pairs| ==> PairItems(c, host, pairs[k].1, pairs[k].0).Some?
  {
    if pairs != [] {
      ExpandPairsSucceeds(c, host, pairs[1..]);
      assert forall k :: 1 <= k < |pairs| ==> pairs[1..][k - 1] == pairs[k];
    }
  }

  /** The number of items is the sum over the pairs of max(1, number of calls). */
  lemma {:induction false} ExpandPairsCount(c: SchemathesisCase, host: Host, pairs: seq<(InputType, Endpoint)>)
    requires ExpandPairs(c, host, pairs).Some?
    ensures |ExpandPairs(c, host, pairs).value| == TotalCount(c, host, pairs)
  {
    if pairs != [] {
      ExpandPairsCount(c, host, pairs[1..]);
    }
  }

  /** Expanding a concatenation of pair lists concatenates the expansions. */
  lemma ExpandPairsAppend(c: SchemathesisCase, host: Host, a: seq<(InputType, Endpoint)>, b: seq<(InputType, Endpoint)>)
    requires ExpandPairs(c, host, a + b).Some?
    ensures ExpandPairs(c, host, a).Some? && ExpandPairs(c, host, b).Some?
    ensures ExpandPairs(c, host, a + b).value == ExpandPairs(c, host, a).value + ExpandPairs(c, host, b).value
  {
    FlatMapAppend(PairExpansion(c, host), a, b);
  }


  /**
   * Collection succeeds exactly when there is nothing to enumerate, or the
   * catalog answers and no pair raises; an InvalidSchema does not count as
   * raising.
   */
  lemma CollectSucceeds(c: SchemathesisCase, host: Host)
    ensures Collect(c, host).Collected? <==>
      || c.inputTypes == []
      || (&& c.endpoints.Some?
          && forall k :: 0 <= k < |CasePairs(c)| ==>
               !c.createTest(CasePairs(c)[k].1, CasePairs(c)[k].0).RaisesOther?
               && Calls(c, host, CasePairs(c)[k].1, CasePairs(c)[k].0).Some?)
  {
    ExpandPairsSucceeds(c, host, CasePairs(c));
  }

  /** Any other exception from `create_test`, for any visited pair, fails the whole collection. */
  lemma OtherErrorFailsCollection(c: SchemathesisCase, host: Host, i: nat, j: nat)
    requires c.endpoints.Some? && i < |c.inputTypes| && j < |c.endpoints.value|
    requires c.createTest(c.endpoints.value[j], c.inputTypes[i]).RaisesOther?
    ensures Collect(c, host) == CollectionFailed(COLLECTION_ERROR_MESSAGE)
  {
    var es := c.endpoints.value;
    var k := i * |es| + j;
    PairsAt(c.inputTypes, es, i, j);
    assert CasePairs(c)[k] == (c.inputTypes[i], es[j]);
    assert c.createTest(CasePairs(c)[k].1, CasePairs(c)[k].0).RaisesOther?;
    CollectSucceeds(c, host);
  }

  /** A successful collection holds sum over pairs of max(1, k_pair) items. */
  lemma CollectCount(c: SchemathesisCase, host: Host)
    requires Collect(c, host).Collected?
    ensures |Collect(c, host).items| == TotalCount(c, host, CasePairs(c))
  {
    if c.inputTypes != [] {
      ExpandPairsCount(c, host, CasePairs(c));
    }
  }

  /** Every pair contributing one item each gives |input types| * |endpoints| items. */
  lemma {:induction false} TotalCountUnparametrized(c: SchemathesisCase, host: Host, pairs: seq<(InputType, Endpoint)>)
    requires forall k :: 0 <= k < |pairs| ==> Calls(c, host, pairs[k].1, pairs[k].0) == Some([])
    ensures TotalCount(c, host, pairs) == |pairs|
  {
    if pairs != [] {
      assert PairCount(c, host, pairs[0]) == 1;
      assert forall k :: 0 <= k < |pairs| - 1 ==> pairs[1..][k] == pairs[k + 1];
      TotalCountUnparametrized(c, host, pairs[1..]);
    }
  }

  /** Without parametrization a successful collection has one item per (input type, endpoint). */
  lemma CollectUnparametrizedCount(c: SchemathesisCase, host: Host)
    requires Collect(c, host).Collected? && c.endpoints.Some?
    requires forall e, t :: Calls(c, host, e, t) == Some([])
    ensures |Collect(c, host).items| == |c.inputTypes| * |c.endpoints.value|
  {
    CollectCount(c, host);
    TotalCountUnparametrized(c, host, CasePairs(c));
    PairsLength(c.inputTypes, c.endpoints.value);
  }

  /**
   * Collection order: the items of the pair visited at position k (see
   * `PairsAt` for where each input type and endpoint sits) form one block,
   * preceded by the items of all pairs visited before it and followed by
   * those of all pairs visited after it.
   */
  lemma CollectOrder(c: SchemathesisCase, host: Host, k: nat)
    requires Collect(c, host).Collected? && c.inputTypes != []
    requires k < |CasePairs(c)|
    ensures var pairs := CasePairs(c);
            && PairItems(c, host, pairs[k].1, pairs[k].0).Some?
            && ExpandPairs(c, host, pairs[..k]).Some?
            && ExpandPairs(c, host, pairs[k + 1..]).Some?
            && |ExpandPairs(c, host, pairs[..k]).value| == TotalCount(c, host, pairs[..k])
            && Collect(c, host).items
               == ExpandPairs(c, host, pairs[..k]).value
                  + PairItems(c, host, pairs[k].1, pairs[k].0).value
                  + ExpandPairs(c, host, pairs[k + 1..]).value
  {
    CollectIsExpansion(c, host);
    ExpandPairsSplit(c, host, CasePairs(c), k);
  }

  /** A successful collection with something to enumerate is the expansion of the visited pairs. */
  lemma CollectIsExpansion(c: SchemathesisCase, host: Host)
    requires Collect(c, host).Collected? && c.inputTypes != []
    ensures c.endpoints.Some? && ExpandPairs(c, host, CasePairs(c)).Some?
    ensures Collect(c, host).items == ExpandPairs(c, host, CasePairs(c)).value
  {
  }

  /** The expansion of a list of pairs, cut around the pair at position k. */
  lemma ExpandPairsSplit(c: SchemathesisCase, host: Host, pairs: seq<(InputType, Endpoint)>, k: nat)
    requires ExpandPairs(c, host, pairs).Some? && k < |pairs|
    ensures PairItems(c, host, pairs[k].1, pairs[k].0).Some?
    ensures ExpandPairs(c, host, pairs[..k]).Some? && ExpandPairs(c, host, pairs[k + 1..]).Some?
    ensures |ExpandPairs(c, host, pairs[..k]).value| == TotalCount(c, host, pairs[..k])
    ensures ExpandPairs(c, host, pairs).value
         == ExpandPairs(c, host, pairs[..k]).value
            + PairItems(c, host, pairs[k].1, pairs[k].0).value
            + ExpandPairs(c, host, pairs[k + 1..]).value
  {
    var before, from := pairs[..k], pairs[k..];
    assert pairs == before + from;
    ExpandPairsAppend(c, host, before, from);
    assert from[0] == pairs[k] && from[1..] == pairs[k + 1..];
    ExpandPairsCons(c, host, from);
    ExpandPairsCount(c, host, before);
  }

  /** Expanding a non-empty list of pairs is the first pair's items followed by the rest's. */
  lemma ExpandPairsCons(c: SchemathesisCase, host: Host, pairs: seq<(InputType, Endpoint)>)
    requires pairs != []
    ensures ExpandPairs(c, host, pairs).Some?
        <==> PairItems(c, host, pairs[0].1, pairs[0].0).Some? && ExpandPairs(c, host, pairs[1..]).Some?
    ensures ExpandPairs(c, host, pairs).Some? ==>
      ExpandPairs(c, host, pairs).value
      == PairItems(c, host, pairs[0].1, pairs[0].0).value + ExpandPairs(c, host, pairs[1..]).value
  {
    FlatMapCons(PairExpansion(c, host), pairs);
  }

  /**
   * Schema errors are local: a pair whose `create_test` outcome is the same in
   * two cases over the same catalog contributes the same block of items to
   * both collections, whatever the other endpoints' schemas make of theirs.
   * Only the block's position moves, to after the items of the pairs before it.
   */
  lemma SchemaErrorsAreLocal(c1: SchemathesisCase, c2: SchemathesisCase, host: Host, k: nat)
    requires c1.name == c2.name && c1.inputTypes == c2.inputTypes && c1.endpoints == c2.endpoints
    requires Collect(c1, host).Collected? && Collect(c2, host).Collected? && c1.inputTypes != []
    requires k < |CasePairs(c1)|
    requires c1.createTest(CasePairs(c1)[k].1, CasePairs(c1)[k].0) == c2.createTest(CasePairs(c1)[k].1, CasePairs(c1)[k].0)
    ensures var p := CasePairs(c1)[k];
            var o1, o2 := TotalCount(c1, host, CasePairs(c1)[..k]), TotalCount(c2, host, CasePairs(c1)[..k]);
            && PairItems(c1, host, p.1, p.0).Some?
            && PairItems(c2, host, p.1, p.0) == PairItems(c1, host, p.1, p.0)
            && o1 + |PairItems(c1, host, p.1, p.0).value| <= |Collect(c1, host).items|
            && o2 + |PairItems(c1, host, p.1, p.0).value| <= |Collect(c2, host).items|
            && Collect(c1, host).items[o1..o1 + |PairItems(c1, host, p.1, p.0).value|] == PairItems(c1, host, p.1, p.0).value
            && Collect(c2, host).items[o2..o2 + |PairItems(c1, host, p.1, p.0).value|] == PairItems(c1, host, p.1, p.0).value
  {
    var pairs := CasePairs(c1);
    assert CasePairs(c2) == pairs;
    var e, t := pairs[k].1, pairs[k].0;
    assert MakeTest(c1, e, t) == MakeTest(c2, e, t);
    assert PairItems(c2, host, e, t) == PairItems(c1, host, e, t);
    CollectOrder(c1, host, k);
    CollectOrder(c2, host, k);
    BlockAt(ExpandPairs(c1, host, pairs[..k]).value, PairItems(c1, host, e, t).value, ExpandPairs(c1, host, pairs[k + 1..]).value);
    BlockAt(ExpandPairs(c2, host, pairs[..k]).value, PairItems(c1, host, e, t).value, ExpandPairs(c2, host, pairs[k + 1..]).value);
  }

  lemma BlockAt<T>(before: seq<T>, block: seq<T>, after: seq<T>)
    ensures (before + block + after)[|before|..|before| + |block|] == block
  {
  }

  /**
   * The pair's own items do depend on its schema: when the hooks register two
   * calls for the Hypothesis test but none for the fail-lambda, which carries
   * none of the test's marks, a created test gives two items and an invalid
   * schema one plain item.
   */
  lemma InvalidSchemaChangesOwnItems()
    ensures var e := Endpoint("GET", "/users", "");
            var host := Host(Scope(true), None, (e': Endpoint, t: InputType, b: TestBody) => [],
                             (hs: seq<Hook>, e': Endpoint, t: InputType, b: TestBody) =>
                               if b.HypothesisTest? then Some([CallSpec("a"), CallSpec("b")]) else Some([]));
            var created := SchemathesisCase("test_api", [Valid], Some([e]), (e': Endpoint, t: InputType) => Created(0));
            var invalid := SchemathesisCase("test_api", [Valid], Some([e]), (e': Endpoint, t: InputType) => RaisesInvalidSchema);
            && Collect(created, host).Collected? && |Collect(created, host).items| == 2
            && Collect(invalid, host).Collected? && |Collect(invalid, host).items| == 1
  {
    var e := Endpoint("GET", "/users", "");
    var host := Host(Scope(true), None, (e': Endpoint, t: InputType, b: TestBody) => [],
                     (hs: seq<Hook>, e': Endpoint, t: InputType, b: TestBody) =>
                       if b.HypothesisTest? then Some([CallSpec("a"), CallSpec("b")]) else Some([]));
    var created := SchemathesisCase("test_api", [Valid], Some([e]), (e': Endpoint, t: InputType) => Created(0));
    var invalid := SchemathesisCase("test_api", [Valid], Some([e]), (e': Endpoint, t: InputType) => RaisesInvalidSchema);
    var pairs := Pairs([Valid], [e]);
    assert pairs == [(Valid, e)] by {
      assert Pairs([Valid][1..], [e]) == [];
    }
    assert CasePairs(created) == pairs && CasePairs(invalid) == pairs;
    assert |PairItems(created, host, e, Valid).value| == 2;
    assert |PairItems(invalid, host, e, Valid).value| == 1;
    ExpandPairsCons(created, host, pairs);
    ExpandPairsCons(invalid, host, pairs);
    assert pairs[1..] == [];
  }

  /** The names of a pair's items, from the plain name and the registered calls alone. */
  function PairNames(base: string, e: Endpoint, t: InputType, calls: seq<CallSpec>): seq<string>
  {
    if calls == [] then [TestName(base, e, t)]
    else seq(|calls|, i requires 0 <= i < |calls| => TestName(base, e, t) + "[" + calls[i].id + "]")
  }

  lemma PairItemsNames(c: SchemathesisCase, host: Host, e: Endpoint, t: InputType)
    requires PairItems(c, host, e, t).Some?
    ensures Names(PairItems(c, host, e, t).value) == PairNames(c.name, e, t, Calls(c, host, e, t).value)
  {
  }

  lemma NamesAppend(a: seq<Item>, b: seq<Item>)
    ensures Names(a + b) == Names(a) + Names(b)
  {
  }

  // ---------------------------------------------------------------------------
  // Name uniqueness
  // ---------------------------------------------------------------------------

  /** The part of a pair that names depend on. */
  function Key(p: (InputType, Endpoint)): (InputType, string, string)
  {
    (p.0, p.1.httpMethod, p.1.path)
  }

  /** The registered calls of a pair carry pairwise distinct ids (pytest makes ids unique). */
  predicate CallIdsDistinct(c: SchemathesisCase, host: Host, e: Endpoint, t: InputType)
  {
    match Calls(c, host, e, t)
    case None => true
    case Some(calls) => forall i, j :: 0 <= i < j < |calls| ==> calls[i].id != calls[j].id
  }

  /** The catalog's endpoints have distinct (method, path), methods without `:` and paths without `]`. */
  predicate EndpointsWellFormed(es: seq<Endpoint>)
  {
    && (forall i, j :: 0 <= i < j < |es| ==> (es[i].httpMethod, es[i].path) != (es[j].httpMethod, es[j].path))
    && (forall i :: 0 <= i < |es| ==> ':' !in es[i].httpMethod && ']' !in es[i].path)
  }

  /** Within one pair, item names are distinct exactly when the call ids are. */
  lemma PairNamesDistinct(c: SchemathesisCase, host: Host, e: Endpoint, t: InputType)
    requires PairItems(c, host, e, t).Some?
    ensures Distinct(Names(PairItems(c, host, e, t).value)) <==> CallIdsDistinct(c, host, e, t)
  {
    PairItemsNames(c, host, e, t);
    var calls := Calls(c, host, e, t).value;
    if calls != [] {
      SuffixedNamesDistinct(TestName(c.name, e, t), calls);
    }
  }

  /** Names made of one prefix and a bracketed call id are distinct exactly when the ids are. */
  lemma SuffixedNamesDistinct(prefix: string, calls: seq<CallSpec>)
    ensures Distinct(seq(|calls|, i requires 0 <= i < |calls| => prefix + "[" + calls[i].id + "]"))
        <==> forall i, j :: 0 <= i < j < |calls| ==> calls[i].id != calls[j].id
  {
    var names := seq(|calls|, i requires 0 <= i < |calls| => prefix + "[" + calls[i].id + "]");
    var cut := prefix + "[";
    forall i, j | 0 <= i < j < |calls|
      ensures names[i] == names[j] <==> calls[i].id == calls[j].id
    {
      assert names[i] == cut + (calls[i].id + "]");
      assert names[j] == cut + (calls[j].id + "]");
      if names[i] == names[j] {
        CancelPrefix(cut, calls[i].id + "]", calls[j].id + "]");
        CancelSuffix(calls[i].id, calls[j].id, "]");
      }
    }
  }

  lemma {:induction false} PairsKeysDistinct(types: seq<InputType>, es: seq<Endpoint>)
    requires Distinct(types) && EndpointsWellFormed(es)
    ensures forall a, b :: 0 <= a < b < |Pairs(types, es)| ==> Key(Pairs(types, es)[a]) != Key(Pairs(types, es)[b])
  {
    if types != [] {
      var pairs := Pairs(types, es);
      var row := Row(types[0], es);
      var rest := Pairs(types[1..], es);
      assert pairs == row + rest;
      assert Distinct(types[1..]);
      PairsKeysDistinct(types[1..], es);
      assert forall x, y :: 0 <= x < y < |rest| ==> Key(rest[x]) != Key(rest[y]);
      assert types[0] !in types[1..];
      forall a, b | 0 <= a < b < |pairs| ensures Key(pairs[a]) != Key(pairs[b]) {
        if b < |es| {
          assert pairs[a] == row[a] && pairs[b] == row[b];
          assert (es[a].httpMethod, es[a].path) != (es[b].httpMethod, es[b].path);
          assert Key(pairs[a]) == (types[0], es[a].httpMethod, es[a].path);
        } else if a < |es| {
          assert pairs[a] == row[a] && pairs[b] == rest[b - |es|];
          assert pairs[a].0 == types[0];
          assert rest[b - |es|].0 in types[1..];
          assert Key(pairs[a]).0 != Key(pairs[b]).0;
        } else {
          assert pairs[a] == rest[a - |es|] && pairs[b] == rest[b - |es|];
          assert Key(rest[a - |es|]) != Key(rest[b - |es|]);
        }
      }
    }
  }

  /** Every item is named after one of the pairs (with its own call, if any). */
  ghost predicate NamedAfterPairs(base: string, pairs: seq<(InputType, Endpoint)>, items: seq<Item>)
  {
    forall i :: 0 <= i < |items| ==>
      (exists k :: 0 <= k < |pairs| && items[i].name == ItemName(base, pairs[k].1, pairs[k].0, items[i].callspec))
  }

  /** Pairwise distinct keys, methods without `:` and paths without `]`. */
  ghost predicate PairsWellFormed(pairs: seq<(InputType, Endpoint)>)
  {
    && (forall a, b :: 0 <= a < b < |pairs| ==> Key(pairs[a]) != Key(pairs[b]))
    && (forall k :: 0 <= k < |pairs| ==> ':' !in pairs[k].1.httpMethod && ']' !in pairs[k].1.path)
  }

  /** No item of the first pair shares a name with an item named after a later pair. */
  lemma HeadNamesDisjoint(c: SchemathesisCase, pairs: seq<(InputType, Endpoint)>, rest: seq<Item>, x: Item, y: Item)
    requires pairs != [] && PairsWellFormed(pairs)
    requires x.name == ItemName(c.name, pairs[0].1, pairs[0].0, x.callspec)
    requires y in rest && NamedAfterPairs(c.name, pairs[1..], rest)
    ensures x.name != y.name
  {
    var b :| 0 <= b < |rest| && rest[b] == y;
    var tail := pairs[1..];
    var k :| 0 <= k < |tail| && y.name == ItemName(c.name, tail[k].1, tail[k].0, y.callspec);
    assert tail[k] == pairs[k + 1];
    if x.name == y.name {
      ItemNameInjective(c.name, pairs[0].1, pairs[0].0, x.callspec, tail[k].1, tail[k].0, y.callspec);
    }
  }

  /** The first pair's items and the later pairs' items share no name. */
  lemma HeadRestDisjoint(c: SchemathesisCase, pairs: seq<(InputType, Endpoint)>, head: seq<Item>, rest: seq<Item>)
    requires pairs != [] && PairsWellFormed(pairs)
    requires forall i :: 0 <= i < |head| ==> head[i].name == ItemName(c.name, pairs[0].1, pairs[0].0, head[i].callspec)
    requires NamedAfterPairs(c.name, pairs[1..], rest)
    ensures forall a, b :: 0 <= a < |head| && 0 <= b < |rest| ==> Names(head)[a] != Names(rest)[b]
  {
    forall a, b | 0 <= a < |head| && 0 <= b < |rest| ensures Names(head)[a] != Names(rest)[b] {
      HeadNamesDisjoint(c, pairs, rest, head[a], rest[b]);
    }
  }

  lemma {:induction false} ExpandPairsNamedAfter(c: SchemathesisCase, host: Host, pairs: seq<(InputType, Endpoint)>)
    requires ExpandPairs(c, host, pairs).Some?
    ensures NamedAfterPairs(c.name, pairs, ExpandPairs(c, host, pairs).value)
  {
    if pairs != [] {
      var head := PairItems(c, host, pairs[0].1, pairs[0].0).value;
      var tail := pairs[1..];
      var rest := ExpandPairs(c, host, tail).value;
      var items := head + rest;
      assert ExpandPairs(c, host, pairs).value == items;
      ExpandPairsNamedAfter(c, host, tail);
      PairItemsNamedAfter(c, host, pairs[0].1, pairs[0].0);
      forall i | 0 <= i < |items|
        ensures (exists k :: 0 <= k < |pairs| &&
                   items[i].name == ItemName(c.name, pairs[k].1, pairs[k].0, items[i].callspec))
      {
        if i < |head| {
          assert items[i] == head[i];
          assert items[i].name == ItemName(c.name, pairs[0].1, pairs[0].0, items[i].callspec);
        } else {
          assert items[i] == rest[i - |head|];
          var k :| 0 <= k < |tail| &&
            rest[i - |head|].name == ItemName(c.name, tail[k].1, tail[k].0, rest[i - |head|].callspec);
          assert tail[k] == pairs[k + 1];
        }
      }
    }
  }

  lemma {:induction false} ExpandPairsNamesDistinct(c: SchemathesisCase, host: Host, pairs: seq<(InputType, Endpoint)>)
    requires ExpandPairs(c, host, pairs).Some? && PairsWellFormed(pairs)
    requires forall e, t :: CallIdsDistinct(c, host, e, t)
    ensures Distinct(Names(ExpandPairs(c, host, pairs).value))
  {
    if pairs != [] {
      var p := pairs[0];
      var head := PairItems(c, host, p.1, p.0).value;
      var tail := pairs[1..];
      var rest := ExpandPairs(c, host, tail).value;
      ExpandPairsCons(c, host, pairs);
      assert PairsWellFormed(tail) by {
        assert forall k :: 0 <= k < |tail| ==> tail[k] == pairs[k + 1];
      }
      ExpandPairsNamesDistinct(c, host, tail);
      ExpandPairsNamedAfter(c, host, tail);
      PairItemsNamedAfter(c, host, p.1, p.0);
      PairNamesDistinct(c, host, p.1, p.0);
      HeadRestDisjoint(c, pairs, head, rest);
      NamesAppend(head, rest);
      DistinctAppend(Names(head), Names(rest));
    }
  }

  /**
   * Names are unique within one collection, given distinct input types, a
   * well-formed catalog and pytest's distinct call ids.
   */
  lemma CollectedNamesDistinct(c: SchemathesisCase, host: Host)
    requires Collect(c, host).Collected?
    requires Distinct(c.inputTypes)
    requires c.endpoints.Some? ==> EndpointsWellFormed(c.endpoints.value)
    requires forall e, t :: CallIdsDistinct(c, host, e, t)
    ensures Distinct(Names(Collect(c, host).items))
  {
    if c.inputTypes != [] {
      var es := c.endpoints.value;
      var pairs := Pairs(c.inputTypes, es);
      PairsKeysDistinct(c.inputTypes, es);
      forall k | 0 <= k < |pairs| ensures ':' !in pairs[k].1.httpMethod && ']' !in pairs[k].1.path {
        var j :| 0 <= j < |es| && es[j] == pairs[k].1;
      }
      ExpandPairsNamesDistinct(c, host, pairs);
    }
  }

  // ---------------------------------------------------------------------------
  // SchemathesisFunction
  // ---------------------------------------------------------------------------

  /** A call made through a `functools.partial`: the function and all its arguments. */
  datatype Invocation<V> = Invocation(fn: TestBody, args: seq<V>)

  /** `functools.partial(fn, *bound)`. */
  datatype Partial<V> = Partial(fn: TestBody, bound: seq<V>)

  function CallPartial<V>(p: Partial<V>, args: seq<V>): Invocation<V>
  {
    Invocation(p.fn, p.bound + args)
  }

  /** `_getobj`: bind the owning class instance as the method's first argument. */
  function GetObj<V(!new)>(obj: TestBody, parentObj: V): (p: Partial<V>)
    ensures forall args :: CallPartial(p, args) == Invocation(obj, [parentObj] + args)
  {
    Partial(obj, [parentObj])
  }

  // ---------------------------------------------------------------------------
  // Run-time triage (pytest_pyfunc_call)
  // ---------------------------------------------------------------------------

  /** The item pytest is about to call: one of ours (with its input type) or any other. */
  datatype PyFuncItem = SchemathesisFunction(inputType: InputType) | OtherFunction

  /** Hypothesis' exceptions that matter here, and everything else. */
  datatype RaisedError =
    | Unsatisfiable
    | InvalidArgument(args: seq<string>)
    | OtherError(kind: string)

  /** What the wrapped test call did. */
  datatype CallOutcome = Returned | Raised(error: RaisedError)

  /** How the hook leaves the test: passed, skipped, failed via `pytest.fail`, or with an exception. */
  datatype RunResult = Passed | Skipped(reason: string) | Failed(message: string) | Reraised(error: RaisedError)

  /** The one case the hook turns into a skip: an `invalid` item whose call was unsatisfiable. */
  predicate SkipsAsUnsatisfiable(item: PyFuncItem, outcome: CallOutcome)
  {
    item.SchemathesisFunction? && item.inputType.Invalid? && outcome == Raised(Unsatisfiable)
  }

  /** The hook's verdict on the call's outcome. */
  function Triage(item: PyFuncItem, outcome: CallOutcome): (r: RunResult)
    ensures r.Skipped? <==> SkipsAsUnsatisfiable(item, outcome)
    ensures r.Skipped? ==> r.reason == UNSATISFIABLE_SKIP_REASON
    ensures outcome == Returned ==> r == Passed
    ensures outcome == Raised(Unsatisfiable) && !SkipsAsUnsatisfiable(item, outcome) ==> r == Reraised(Unsatisfiable)
    ensures outcome.Raised? && outcome.error.InvalidArgument? && |outcome.error.args| > 0 ==>
      r == Failed(outcome.error.args[0])
    ensures outcome.Raised? && outcome.error.InvalidArgument? && outcome.error.args == [] ==>
      r == Reraised(OtherError("IndexError"))
    ensures outcome.Raised? && outcome.error.OtherError? ==> r == Reraised(outcome.error)
  {
    if SkipsAsUnsatisfiable(item, outcome) then Skipped(UNSATISFIABLE_SKIP_REASON)
    else
      match outcome
      case Returned => Passed
      case Raised(InvalidArgument(args)) =>
        // `exc.args[0]` itself raises when the exception carries no arguments
        if |args| > 0 then Failed(args[0]) else Reraised(OtherError("IndexError"))
      case Raised(error) => Reraised(error)
  }

  /** The captured Hypothesis output the hook forwards: all of it, unless it skips. */
  function Forwarded(item: PyFuncItem, outcome: CallOutcome, output: seq<string>): (lines: seq<string>)
    ensures lines == [] || lines == output
    ensures lines == output <==> !SkipsAsUnsatisfiable(item, outcome) || output == []
  {
    if SkipsAsUnsatisfiable(item, outcome) then [] else output
  }

  /** The console `base_report` writes to. */
  class Console {
    var lines: seq<string>

    constructor ()
      ensures lines == []
    {
      lines := [];
    }

    /** `base_report(text)`. */
    method BaseReport(text: string)
      modifies this
      ensures lines == old(lines) + [text]
    {
      lines := lines + [text];
    }
  }

  /**
   * `pytest_pyfunc_call`: after the call, either skip, or forward every
   * captured line to the console in order; then report the outcome.
   */
  method PyfuncCall(item: PyFuncItem, outcome: CallOutcome, output: seq<string>, console: Console) returns (r: RunResult)
    modifies console
    ensures console.lines == old(console.lines) + Forwarded(item, outcome, output)
    ensures r == Triage(item, outcome)
  {
    if SkipsAsUnsatisfiable(item, outcome) {
      return Skipped(UNSATISFIABLE_SKIP_REASON);
    }
    for i := 0 to |output|
      invariant console.lines == old(console.lines) + output[..i]
    {
      console.BaseReport(output[i]);
    }
    assert output[..|output|] == output;
    match outcome
    case Returned =>
      r := Passed;
    case Raised(InvalidArgument(args)) =>
      r := if |args| > 0 then Failed(args[0]) else Reraised(OtherError("IndexError"));
    case Raised(error) =>
      r := Reraised(error);
  }
}
