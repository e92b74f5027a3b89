/** What `load_side_project` promises about whole projects: exactly which inputs load,
    how the test map is filled from the raw test list, and the behaviour on a few
    concrete inputs: a dangling suite reference, repeated and equal test ids, name
    defaulting and irregular field types. */
module LoaderProperties {
  import opened Wrappers
  import opened Json
  import opened Loader

  /** `raw.get(key, [])` iterates without raising. */
  ghost predicate Iterable(members: seq<(string, Json)>, key: string) {
    ListField(members, key).Ok?
  }

  /** The items `raw.get(key, [])` iterates to (empty when it is not iterable). */
  ghost function Items(members: seq<(string, Json)>, key: string): seq<Json> {
    match ListField(members, key)
    case Ok(xs) => xs
    case Err(_) => []
  }

  /** The test-map key a raw test's id stands for; None for an unhashable id or a
      record that is not a dict. */
  function RawTestKey(rawTest: Json): Option<Key> {
    if rawTest.Obj? then HashKey(Get(rawTest.members, "id", Str(""))) else None
  }

  /** A raw test that builds: a dict whose commands are all dicts. */
  ghost predicate BuildableTest(t: Json) {
    && t.Obj?
    && Iterable(t.members, "commands")
    && (forall c :: c in Items(t.members, "commands") ==> c.Obj?)
  }

  /** A raw test that builds and whose id can be a dict key. */
  ghost predicate LoadableTest(t: Json) {
    BuildableTest(t) && RawTestKey(t).Some?
  }

  /** A raw suite that builds: a dict whose `tests` field iterates. */
  ghost predicate LoadableSuite(s: Json) {
    s.Obj? && Iterable(s.members, "tests")
  }

  /** The parsed documents the loader turns into a project rather than raising. */
  ghost predicate Loadable(raw: Json) {
    && raw.Obj?
    && Iterable(raw.members, "tests")
    && (forall t :: t in Items(raw.members, "tests") ==> LoadableTest(t))
    && Iterable(raw.members, "suites")
    && (forall s :: s in Items(raw.members, "suites") ==> LoadableSuite(s))
  }

  /** A test builds exactly when it is a dict of dict commands, and the built test's id
      has the raw id's key. */
  lemma BuildTestOkExactly(t: Json)
    ensures BuildTest(t).Ok? <==> BuildableTest(t)
    ensures BuildTest(t).Ok? ==> HashKey(BuildTest(t).value.id) == RawTestKey(t)
  {
    if t.Obj? && Iterable(t.members, "commands") {
      var cs := Items(t.members, "commands");
      assert ListField(t.members, "commands") == Ok(cs);
      if forall i :: 0 <= i < |cs| ==> cs[i].Obj? {
        forall c | c in cs ensures c.Obj? {
          var i :| 0 <= i < |cs| && cs[i] == c;
        }
      }
    }
  }

  /** Building and indexing a raw test list succeeds exactly when every raw test is
      loadable. */
  lemma TestsLoadExactly(ts: seq<Json>)
    ensures (Traverse(ts, BuildTest).Ok? && IndexTests(Traverse(ts, BuildTest).value).Ok?)
      <==> forall t :: t in ts ==> LoadableTest(t)
  {
    if forall t :: t in ts ==> LoadableTest(t) {
      LoadableTestsLoad(ts);
    }
    if Traverse(ts, BuildTest).Ok? && IndexTests(Traverse(ts, BuildTest).value).Ok? {
      LoadedTestsAreLoadable(ts);
    }
  }

  /** Every test of a loadable list builds, and every built id is hashable. */
  lemma LoadableTestsLoad(ts: seq<Json>)
    requires forall t :: t in ts ==> LoadableTest(t)
    ensures Traverse(ts, BuildTest).Ok? && IndexTests(Traverse(ts, BuildTest).value).Ok?
  {
    forall i | 0 <= i < |ts| ensures BuildTest(ts[i]).Ok? {
      assert LoadableTest(ts[i]);
      BuildTestOkExactly(ts[i]);
    }
    var built := Traverse(ts, BuildTest);
    forall i | 0 <= i < |ts| ensures HashKey(built.value[i].id).Some? {
      assert LoadableTest(ts[i]);
      BuildTestOkExactly(ts[i]);
    }
  }

  /** A test list that builds and indexes holds only loadable tests. */
  lemma LoadedTestsAreLoadable(ts: seq<Json>)
    requires Traverse(ts, BuildTest).Ok? && IndexTests(Traverse(ts, BuildTest).value).Ok?
    ensures forall t :: t in ts ==> LoadableTest(t)
  {
    var built := Traverse(ts, BuildTest);
    forall t | t in ts ensures LoadableTest(t) {
      var i :| 0 <= i < |ts| && ts[i] == t;
      assert BuildTest(t) == Ok(built.value[i]);
      assert HashKey(built.value[i].id).Some?;
      BuildTestOkExactly(t);
    }
  }

  /** Building a raw suite list succeeds exactly when every raw suite is loadable. */
  lemma SuitesLoadExactly(ss: seq<Json>)
    ensures Traverse(ss, BuildSuite).Ok? <==> forall s :: s in ss ==> LoadableSuite(s)
  {
    if forall s :: s in ss ==> LoadableSuite(s) {
      forall i | 0 <= i < |ss| ensures BuildSuite(ss[i]).Ok? {
        assert ss[i] in ss;
        assert ListField(ss[i].members, "tests").Ok?;
      }
    }
    if Traverse(ss, BuildSuite).Ok? {
      forall s | s in ss ensures LoadableSuite(s) {
        var i :| 0 <= i < |ss| && ss[i] == s;
        assert BuildSuite(ss[i]).Ok?;
      }
    }
  }

  /** The loader produces a project exactly for the loadable documents. */
  lemma LoadSucceedsExactly(raw: Json, defaultName: Option<string>)
    ensures BuildProject(raw, defaultName).Ok? <==> Loadable(raw)
  {
    if raw.Obj? && Iterable(raw.members, "tests") && Iterable(raw.members, "suites") {
      var ts := Items(raw.members, "tests");
      var ss := Items(raw.members, "suites");
      assert ListField(raw.members, "tests") == Ok(ts);
      assert ListField(raw.members, "suites") == Ok(ss);
      TestsLoadExactly(ts);
      SuitesLoadExactly(ss);
    }
  }

  /** The map built from a raw test list has a key exactly for each raw test id's key. */
  lemma IndexedKeys(ts: seq<Json>, built: seq<Test>, m: map<Key, Test>)
    requires Traverse(ts, BuildTest) == Ok(built)
    requires IndexTests(built) == Ok(m)
    ensures forall k :: k in m <==> exists t :: t in ts && RawTestKey(t) == Some(k)
  {
    forall k ensures k in m <==> exists t :: t in ts && RawTestKey(t) == Some(k) {
      if k in m {
        var i :| 0 <= i < |built| && HashKey(built[i].id) == Some(k);
        BuildTestOkExactly(ts[i]);
        assert ts[i] in ts;
      }
      if exists t :: t in ts && RawTestKey(t) == Some(k) {
        var t :| t in ts && RawTestKey(t) == Some(k);
        var i :| 0 <= i < |ts| && ts[i] == t;
        BuildTestOkExactly(ts[i]);
        assert HashKey(built[i].id) == Some(k);
      }
    }
  }

  /** The test map has a key exactly for each raw test id's key. */
  lemma TestMapKeys(raw: Json, defaultName: Option<string>)
    requires BuildProject(raw, defaultName).Ok?
    ensures forall k :: k in BuildProject(raw, defaultName).value.tests <==>
      exists t :: t in Items(raw.members, "tests") && RawTestKey(t) == Some(k)
  {
    var ts := Items(raw.members, "tests");
    IndexedKeys(ts, Traverse(ts, BuildTest).value, BuildProject(raw, defaultName).value.tests);
  }

  /** Under the key of the raw test at position `i`, when no later raw test has an id
      with the same key, the test map holds the build of that raw test: a later test
      with an equal id overwrites an earlier one. */
  lemma TestMapLastWriteWins(raw: Json, defaultName: Option<string>, i: nat)
    requires BuildProject(raw, defaultName).Ok?
    requires i < |Items(raw.members, "tests")|
    requires forall j :: i < j < |Items(raw.members, "tests")| ==>
      RawTestKey(Items(raw.members, "tests")[j]) != RawTestKey(Items(raw.members, "tests")[i])
    ensures RawTestKey(Items(raw.members, "tests")[i]).Some?
    ensures BuildTest(Items(raw.members, "tests")[i]).Ok?
    ensures var k := RawTestKey(Items(raw.members, "tests")[i]).value;
      && k in BuildProject(raw, defaultName).value.tests
      && BuildProject(raw, defaultName).value.tests[k]
           == BuildTest(Items(raw.members, "tests")[i]).value
  {
    var ts := Items(raw.members, "tests");
    var built := Traverse(ts, BuildTest).value;
    var m := BuildProject(raw, defaultName).value.tests;
    forall j | 0 <= j < |ts| ensures HashKey(built[j].id) == RawTestKey(ts[j]) {
      BuildTestOkExactly(ts[j]);
    }
    var k := HashKey(built[i].id).value;
    IndexTestsLastWriteWins(built);
    assert LastWithKey(built, k) == i;
  }

  /** Suites are built from the `suites` field alone: two loadable documents with the
      same `suites` get the same suites whatever their tests, so a suite's references are
      never resolved against, or checked against, the test map. */
  lemma SuitesIndependentOfTests(raw1: Json, raw2: Json, defaultName1: Option<string>,
                                 defaultName2: Option<string>)
    requires BuildProject(raw1, defaultName1).Ok? && BuildProject(raw2, defaultName2).Ok?
    requires Lookup(raw1.members, "suites") == Lookup(raw2.members, "suites")
    ensures BuildProject(raw1, defaultName1).value.suites
         == BuildProject(raw2, defaultName2).value.suites
  {
    var ss := Items(raw1.members, "suites");
    assert Items(raw2.members, "suites") == ss;
    var a := BuildProject(raw1, defaultName1).value.suites;
    var b := BuildProject(raw2, defaultName2).value.suites;
    assert |a| == |ss| == |b|;
    forall i | 0 <= i < |ss| ensures a[i] == b[i] {
      assert BuildSuite(ss[i]) == Ok(a[i]) && BuildSuite(ss[i]) == Ok(b[i]);
    }
  }

  /** A document without a `tests` field loads with an empty test map, and one without
      `suites` with no suites. */
  lemma MissingListsLoadEmpty(raw: Json, defaultName: Option<string>)
    requires raw.Obj?
    ensures Lookup(raw.members, "tests").None? && BuildProject(raw, defaultName).Ok? ==>
      BuildProject(raw, defaultName).value.tests == map[]
    ensures Lookup(raw.members, "suites").None? && BuildProject(raw, defaultName).Ok? ==>
      BuildProject(raw, defaultName).value.suites == []
    ensures Lookup(raw.members, "tests").None? && Lookup(raw.members, "suites").None? ==>
      BuildProject(raw, defaultName).Ok?
  {
    if Lookup(raw.members, "tests").None? && BuildProject(raw, defaultName).Ok? {
      TestMapKeys(raw, defaultName);
      assert Items(raw.members, "tests") == [];
    }
  }

  // Concrete scenarios, on a parser that returns the stated value for the text. The
  // small lemmas first evaluate the loader on the record shapes the scenarios use.

  lemma TraverseOne<A, B, E>(x: A, f: A -> Result<B, E>)
    requires f(x).Ok?
    ensures Traverse([x], f) == Ok([f(x).value])
  {
    var one := Traverse([x], f);
    assert [x][0] == x;
    assert one.Ok? && |one.value| == 1 && f(x) == Ok(one.value[0]);
    assert one.value == [f(x).value];
  }

  lemma TraverseTwo<A, B, E>(x: A, y: A, f: A -> Result<B, E>)
    requires f(x).Ok? && f(y).Ok?
    ensures Traverse([x, y], f) == Ok([f(x).value, f(y).value])
  {
    var two := Traverse([x, y], f);
    assert [x, y][0] == x && [x, y][1] == y;
    assert two.Ok? && |two.value| == 2 && f(x) == Ok(two.value[0]) && f(y) == Ok(two.value[1]);
    assert two.value == [f(x).value, f(y).value];
  }

  lemma IndexTwo(a: Test, b: Test)
    requires HashKey(a.id).Some? && HashKey(b.id).Some?
    ensures IndexTests([a]) == Ok(map[HashKey(a.id).value := a])
    ensures IndexTests([a, b]) == Ok(map[HashKey(a.id).value := a][HashKey(b.id).value := b])
  {
    assert [a][..0] == [];
    assert [a, b][..1] == [a];
  }

  lemma TestOfIdAndName(id: Json, name: Json)
    ensures BuildTest(Obj([("id", id), ("name", name)])) == Ok(Test(id, name, []))
  {
    var m := [("id", id), ("name", name)];
    LookupSingle(m, 0);
    LookupSingle(m, 1);
  }

  lemma TestOfIdNameAndNoCommands(id: Json, name: Json)
    ensures BuildTest(Obj([("id", id), ("name", name), ("commands", Arr([]))]))
         == Ok(Test(id, name, []))
  {
    var m := [("id", id), ("name", name), ("commands", Arr([]))];
    LookupSingle(m, 0);
    LookupSingle(m, 1);
    LookupSingle(m, 2);
  }

  lemma SuiteOfIdNameAndTests(id: Json, name: Json, tests: seq<Json>)
    ensures BuildSuite(Obj([("id", id), ("name", name), ("tests", Arr(tests))])) ==
      Ok(Suite(id, name, tests, false, false, Null))
  {
    var m := [("id", id), ("name", name), ("tests", Arr(tests))];
    LookupSingle(m, 0);
    LookupSingle(m, 1);
    LookupSingle(m, 2);
  }

  lemma ProjectOfTests(
    ts: seq<Json>, built: seq<Test>, m: map<Key, Test>, defaultName: Option<string>)
    requires Traverse(ts, BuildTest) == Ok(built) && IndexTests(built) == Ok(m)
    ensures BuildProject(Obj([("tests", Arr(ts))]), defaultName) ==
      Ok(Project(Str(""), ResolveName(Null, defaultName), Null, m, []))
  {
    var members := [("tests", Arr(ts))];
    LookupSingle(members, 0);
    assert ListField(members, "tests") == Ok(ts);
    assert ListField(members, "suites") == Ok([]);
    assert Traverse([], BuildSuite) == Ok([]);
    assert Get(members, "name", Null) == Null;
    assert Get(members, "id", Str("")) == Str("");
    assert Get(members, "url", Null) == Null;
  }

  lemma ProjectOfTestsAndSuites(ts: seq<Json>, ss: seq<Json>, built: seq<Test>, m: map<Key, Test>,
                                suites: seq<Suite>, defaultName: Option<string>)
    requires Traverse(ts, BuildTest) == Ok(built) && IndexTests(built) == Ok(m)
    requires Traverse(ss, BuildSuite) == Ok(suites)
    ensures BuildProject(Obj([("tests", Arr(ts)), ("suites", Arr(ss))]), defaultName) ==
      Ok(Project(Str(""), ResolveName(Null, defaultName), Null, m, suites))
  {
    var members := [("tests", Arr(ts)), ("suites", Arr(ss))];
    LookupSingle(members, 0);
    LookupSingle(members, 1);
    assert ListField(members, "tests") == Ok(ts);
    assert ListField(members, "suites") == Ok(ss);
    assert Get(members, "name", Null) == Null;
    assert Get(members, "id", Str("")) == Str("");
    assert Get(members, "url", Null) == Null;
  }

  /** The parsed document of the scenario below builds: its suite keeps both references. */
  lemma DanglingReferenceProject()
    ensures BuildProject(
      Obj([("tests", Arr([Obj([("id", Str("t1")), ("name", Str("A")), ("commands", Arr([]))])])),
           ("suites", Arr([Obj([("id", Str("s1")), ("name", Str("S")),
                                ("tests", Arr([Str("t1"), Str("missing")]))])]))]), None) ==
      Ok(Project(Str(""), Str(UnnamedProject), Null,
                 map[StrKey("t1") := Test(Str("t1"), Str("A"), [])],
                 [Suite(Str("s1"), Str("S"), [Str("t1"), Str("missing")], false, false, Null)]))
  {
    var t1 := Obj([("id", Str("t1")), ("name", Str("A")), ("commands", Arr([]))]);
    var s1 := Obj([("id", Str("s1")), ("name", Str("S")),
                   ("tests", Arr([Str("t1"), Str("missing")]))]);
    var test := Test(Str("t1"), Str("A"), []);
    var suite := Suite(Str("s1"), Str("S"), [Str("t1"), Str("missing")], false, false, Null);
    TestOfIdNameAndNoCommands(Str("t1"), Str("A"));
    SuiteOfIdNameAndTests(Str("s1"), Str("S"), [Str("t1"), Str("missing")]);
    TraverseOne(t1, BuildTest);
    TraverseOne(s1, BuildSuite);
    IndexTwo(test, test);
    ProjectOfTestsAndSuites([t1], [s1], [test], map[StrKey("t1") := test], [suite], None);
  }

  /** `{"tests":[{"id":"t1","name":"A","commands":[]}],
        "suites":[{"id":"s1","name":"S","tests":["t1","missing"]}]}`
      loads: the suite keeps both references, although "missing" names no test. */
  lemma DanglingSuiteReferenceLoads(text: string, parse: string -> Result<Json, string>)
    requires parse(text) == Ok(Obj([
      ("tests", Arr([Obj([("id", Str("t1")), ("name", Str("A")), ("commands", Arr([]))])])),
      ("suites", Arr([Obj([("id", Str("s1")), ("name", Str("S")),
                          ("tests", Arr([Str("t1"), Str("missing")]))])]))]))
    ensures LoadSideProject(Text(text), None, parse) ==
      Ok(Project(Str(""), Str(UnnamedProject), Null,
                 map[StrKey("t1") := Test(Str("t1"), Str("A"), [])],
                 [Suite(Str("s1"), Str("S"), [Str("t1"), Str("missing")], false, false, Null)]))
    ensures StrKey("missing") !in LoadSideProject(Text(text), None, parse).value.tests
  {
    DanglingReferenceProject();
  }

  /** Two tests with id "t": the map keeps one entry, the second test. */
  lemma DuplicateIdKeepsLast(text: string, parse: string -> Result<Json, string>)
    requires parse(text) == Ok(Obj([("tests", Arr([
      Obj([("id", Str("t")), ("name", Str("first"))]),
      Obj([("id", Str("t")), ("name", Str("second"))])]))]))
    ensures LoadSideProject(Text(text), None, parse) ==
      Ok(Project(Str(""), Str(UnnamedProject), Null,
                 map[StrKey("t") := Test(Str("t"), Str("second"), [])], []))
  {
    var a := Obj([("id", Str("t")), ("name", Str("first"))]);
    var b := Obj([("id", Str("t")), ("name", Str("second"))]);
    var ta := Test(Str("t"), Str("first"), []);
    var tb := Test(Str("t"), Str("second"), []);
    TestOfIdAndName(Str("t"), Str("first"));
    TestOfIdAndName(Str("t"), Str("second"));
    TraverseTwo(a, b, BuildTest);
    IndexTwo(ta, tb);
    assert map[StrKey("t") := ta][StrKey("t") := tb] == map[StrKey("t") := tb];
    ProjectOfTests([a, b], [ta, tb], map[StrKey("t") := tb], None);
  }

  /** Ids 1 and true are one Python dict key: the second test replaces the first. */
  lemma EqualNumericIdsCollide(text: string, parse: string -> Result<Json, string>)
    requires parse(text) == Ok(Obj([("tests", Arr([
      Obj([("id", Int(1)), ("name", Str("a"))]),
      Obj([("id", Bool(true)), ("name", Str("b"))])]))]))
    ensures LoadSideProject(Text(text), None, parse) ==
      Ok(Project(Str(""), Str(UnnamedProject), Null,
                 map[NumKey(1.0) := Test(Bool(true), Str("b"), [])], []))
  {
    var a := Obj([("id", Int(1)), ("name", Str("a"))]);
    var b := Obj([("id", Bool(true)), ("name", Str("b"))]);
    var ta := Test(Int(1), Str("a"), []);
    var tb := Test(Bool(true), Str("b"), []);
    TestOfIdAndName(Int(1), Str("a"));
    TestOfIdAndName(Bool(true), Str("b"));
    TraverseTwo(a, b, BuildTest);
    IndexTwo(ta, tb);
    assert map[NumKey(1.0) := ta][NumKey(1.0) := tb] == map[NumKey(1.0) := tb];
    ProjectOfTests([a, b], [ta, tb], map[NumKey(1.0) := tb], None);
  }

  /** `{"name": ""}` with default name "Fallback" is named "Fallback". */
  lemma EmptyNameTakesDefault(text: string, parse: string -> Result<Json, string>)
    requires parse(text) == Ok(Obj([("name", Str(""))]))
    ensures LoadSideProject(Text(text), Some("Fallback"), parse) ==
      Ok(Project(Str(""), Str("Fallback"), Null, map[], []))
  {
  }

  /** `{}` without a default name is named "Unnamed Project", and every other field takes
      its default. */
  lemma EmptyDocumentIsUnnamed(text: string, parse: string -> Result<Json, string>)
    requires parse(text) == Ok(Obj([]))
    ensures LoadSideProject(Text(text), None, parse) ==
      Ok(Project(Str(""), Str("Unnamed Project"), Null, map[], []))
  {
  }

  /** A `commands` field holding null is iterated and raises: irregular field types are
      not defaulted. */
  lemma NullCommandsRaise()
    ensures BuildTest(Obj([("commands", Null)])) == Err(NotIterable(Null))
  {
  }

  /** A command that is not a dict raises when `.get` is called on it, and the test fails
      with that error. */
  lemma NonDictCommandRaises()
    ensures BuildTest(Obj([("commands", Arr([Obj([]), Int(5), Null]))]))
         == Err(AttributeError(Int(5)))
  {
  }

  /** A float id equal to an integer id, or to a boolean, is the same test-map key. */
  lemma FloatIdCollides()
    ensures HashKey(Float(1.0)) == HashKey(Int(1)) == HashKey(Bool(true))
    ensures HashKey(Float(0.0)) == HashKey(Int(0)) == HashKey(Bool(false))
  {
  }

  /** A suite's `tests` given as a string is split into one-character references. */
  lemma StringSuiteTestsSplit()
    ensures BuildSuite(Obj([("tests", Str("ab"))])).Ok?
    ensures BuildSuite(Obj([("tests", Str("ab"))])).value.tests == [Str("a"), Str("b")]
  {
  }
}
