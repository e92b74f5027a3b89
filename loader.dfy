/** The Selenium IDE `.side` project loader: three builders (command, test, suite) and
    the entry point that parses the text, resolves the project name, folds the tests
    into a map keyed by test id and builds the suites. Every field is read with
    `dict.get`; a field the loader only passes on keeps whatever JSON value it had. */
module Loader {
  import opened Wrappers
  import opened Json

  /** The argument handed to the loader: text, or any other Python object. */
  datatype Payload = Text(text: string) | NotText

  /** What the loader raises. */
  datatype LoadError =
    | InputTypeError                     // the argument is not a `str`
    | MalformedJson(diagnostic: string)  // the JSON parser rejected the text
    | AttributeError(receiver: Json)     // `.get` on a value that is not a dict
    | NotIterable(value: Json)           // iterating None, a boolean or a number
    | UnhashableKey(key: Json)           // a list or dict as a test-map key

  datatype Command = Command(id: Json, command: Json, target: Json, value: Json, comment: Json)

  datatype Test = Test(id: Json, name: Json, commands: seq<Command>)

  /** `tests` holds the raw test-id references, never resolved against the project. */
  datatype Suite = Suite(
    id: Json, name: Json, tests: seq<Json>, persistSession: bool, parallel: bool, timeout: Json)

  datatype Project =
    Project(id: Json, name: Json, url: Json, tests: map<Key, Test>, suites: seq<Suite>)

  const UnnamedProject: string := "Unnamed Project"

  /** The error names a value that really makes the operation it stands for raise. */
  predicate Genuine(e: LoadError) {
    match e
    case AttributeError(v) => !v.Obj?
    case NotIterable(v) => Iterate(v).None?
    case UnhashableKey(v) => HashKey(v).None?
    case _ => true
  }

  // Field policies, one per way the loader reads a field.

  /** `raw.get(key, default)`: a missing key gives `default`; a present value is kept as it
      is, even when it is falsy. */
  predicate KeptOrDefault(members: seq<(string, Json)>, key: string, default: Json, out: Json) {
    && (Lookup(members, key).None? ==> out == default)
    && (Lookup(members, key).Some? ==> out == Lookup(members, key).value)
  }

  /** `raw.get(key, "") or ""`: the empty string exactly when the key is missing or its
      value is falsy; a truthy value is kept. */
  predicate FalsyToEmpty(members: seq<(string, Json)>, key: string, out: Json) {
    && (out == Str("") <==> Lookup(members, key).None? || !Truthy(Lookup(members, key).value))
    && (Lookup(members, key).Some? && Truthy(Lookup(members, key).value) ==>
          out == Lookup(members, key).value)
  }

  /** `bool(raw.get(key, False))`: true exactly when the key is present with a truthy value. */
  predicate TruthOf(members: seq<(string, Json)>, key: string, out: bool) {
    out <==> Lookup(members, key).Some? && Truthy(Lookup(members, key).value)
  }

  /** `raw.get(key, [])` as a comprehension or `list()` iterates it. */
  function ListField(members: seq<(string, Json)>, key: string): (r: Result<seq<Json>, LoadError>)
    ensures Lookup(members, key).None? ==> r == Ok([])
    ensures Lookup(members, key).Some? && Lookup(members, key).value.Arr? ==>
      r == Ok(Lookup(members, key).value.items)
    ensures r.Err? <==> Lookup(members, key).Some? && Iterate(Lookup(members, key).value).None?
    ensures r.Err? ==> r.error == NotIterable(Lookup(members, key).value)
    ensures r.Ok? ==> Iterate(Get(members, key, Arr([]))) == Some(r.value)
  {
    var v := Get(members, key, Arr([]));
    match Iterate(v)
    case Some(xs) => Ok(xs)
    case None => Err(NotIterable(v))
  }

  /** `_build_command`. */
  function BuildCommand(raw: Json): (r: Result<Command, LoadError>)
    ensures r.Ok? <==> raw.Obj?
    ensures !raw.Obj? ==> r == Err(AttributeError(raw))
    ensures r.Ok? ==>
      && KeptOrDefault(raw.members, "id", Str(""), r.value.id)
      && KeptOrDefault(raw.members, "command", Str(""), r.value.command)
      && FalsyToEmpty(raw.members, "target", r.value.target)
      && FalsyToEmpty(raw.members, "value", r.value.value)
      && KeptOrDefault(raw.members, "comment", Null, r.value.comment)
  {
    if !raw.Obj? then Err(AttributeError(raw))
    else
      var m := raw.members;
      Ok(Command(
        id := Get(m, "id", Str("")),
        command := Get(m, "command", Str("")),
        target := Or(Get(m, "target", Str("")), Str("")),
        value := Or(Get(m, "value", Str("")), Str("")),
        comment := Get(m, "comment", Null)))
  }

  /** `_build_test`. */
  function BuildTest(raw: Json): (r: Result<Test, LoadError>)
    ensures !raw.Obj? ==> r == Err(AttributeError(raw))
    ensures raw.Obj? ==>
      (r.Ok? <==>
        ListField(raw.members, "commands").Ok?
        && forall i :: 0 <= i < |ListField(raw.members, "commands").value| ==>
             ListField(raw.members, "commands").value[i].Obj?)
    ensures r.Ok? ==>
      && KeptOrDefault(raw.members, "id", Str(""), r.value.id)
      && KeptOrDefault(raw.members, "name", Str(""), r.value.name)
      && ListField(raw.members, "commands").Ok?
      && |r.value.commands| == |ListField(raw.members, "commands").value|
      && forall i :: 0 <= i < |r.value.commands| ==>
           BuildCommand(ListField(raw.members, "commands").value[i]) == Ok(r.value.commands[i])
    ensures raw.Obj? && Lookup(raw.members, "commands").None? ==> r.Ok? && r.value.commands == []
    ensures raw.Obj? && ListField(raw.members, "commands").Err? ==>
      r == Err(ListField(raw.members, "commands").error)
    ensures raw.Obj? && ListField(raw.members, "commands").Ok? && r.Err? ==>
      var cs := ListField(raw.members, "commands").value;
      exists i :: 0 <= i < |cs| && r.error == AttributeError(cs[i])
        && !cs[i].Obj? && forall j :: 0 <= j < i ==> cs[j].Obj?
    ensures r.Err? ==> Genuine(r.error)
  {
    if !raw.Obj? then Err(AttributeError(raw))
    else
      var m := raw.members;
      var rawCommands :- ListField(m, "commands");
      var commands :- Traverse(rawCommands, BuildCommand);
      Ok(Test(id := Get(m, "id", Str("")), name := Get(m, "name", Str("")), commands := commands))
  }

  /** `_build_suite`. */
  function BuildSuite(raw: Json): (r: Result<Suite, LoadError>)
    ensures !raw.Obj? ==> r == Err(AttributeError(raw))
    ensures raw.Obj? ==> (r.Ok? <==> ListField(raw.members, "tests").Ok?)
    ensures r.Ok? ==>
      && KeptOrDefault(raw.members, "id", Str(""), r.value.id)
      && KeptOrDefault(raw.members, "name", Str(""), r.value.name)
      && Iterate(Get(raw.members, "tests", Arr([]))) == Some(r.value.tests)
      && TruthOf(raw.members, "persistSession", r.value.persistSession)
      && TruthOf(raw.members, "parallel", r.value.parallel)
      && KeptOrDefault(raw.members, "timeout", Null, r.value.timeout)
    ensures raw.Obj? && Lookup(raw.members, "tests").None? ==> r.Ok? && r.value.tests == []
    ensures (raw.Obj? && Lookup(raw.members, "tests").Some?
             && Lookup(raw.members, "tests").value.Arr?) ==>
      r.Ok? && r.value.tests == Lookup(raw.members, "tests").value.items
    ensures raw.Obj? && r.Err? ==> r == Err(ListField(raw.members, "tests").error)
    ensures r.Err? ==> Genuine(r.error)
  {
    if !raw.Obj? then Err(AttributeError(raw))
    else
      var m := raw.members;
      var tests :- ListField(m, "tests");
      Ok(Suite(
        id := Get(m, "id", Str("")),
        name := Get(m, "name", Str("")),
        tests := tests,
        persistSession := Truthy(Get(m, "persistSession", Bool(false))),
        parallel := Truthy(Get(m, "parallel", Bool(false))),
        timeout := Get(m, "timeout", Null)))
  }

  /** The keys of `m` are exactly the keys of the tests' ids. */
  ghost predicate KeysAreIds(tests: seq<Test>, m: map<Key, Test>) {
    forall k :: k in m <==> exists i :: 0 <= i < |tests| && HashKey(tests[i].id) == Some(k)
  }

  /** Position of the last test whose id has key `k`, or -1 when there is none. */
  function LastWithKey(tests: seq<Test>, k: Key): (i: int)
    ensures -1 <= i < |tests|
    ensures i >= 0 ==> HashKey(tests[i].id) == Some(k)
    ensures forall j :: i < j < |tests| ==> HashKey(tests[j].id) != Some(k)
  {
    if |tests| == 0 then -1
    else if HashKey(tests[|tests| - 1].id) == Some(k) then |tests| - 1
    else LastWithKey(tests[..|tests| - 1], k)
  }

  /** Under every key, `m` holds the last test whose id has that key. */
  ghost predicate LastWriteWins(tests: seq<Test>, m: map<Key, Test>) {
    forall k :: k in m ==> 0 <= LastWithKey(tests, k) && m[k] == tests[LastWithKey(tests, k)]
  }

  /** `{test.id: test for test in tests}`: tests are inserted in order, so a later test
      overwrites an earlier one with an equal id; the first unhashable id raises. */
  function IndexTests(tests: seq<Test>): (r: Result<map<Key, Test>, LoadError>)
    ensures r.Ok? <==> forall i :: 0 <= i < |tests| ==> HashKey(tests[i].id).Some?
    ensures r.Err? ==>
      exists i :: 0 <= i < |tests| && r.error == UnhashableKey(tests[i].id)
        && HashKey(tests[i].id).None?
        && forall j :: 0 <= j < i ==> HashKey(tests[j].id).Some?
    ensures r.Ok? ==> KeysAreIds(tests, r.value)
  {
    if |tests| == 0 then Ok(map[])
    else
      var n := |tests| - 1;
      var front := tests[..n];
      assert forall i :: 0 <= i < n ==> front[i] == tests[i];
      match IndexTests(front)
      case Err(e) =>
        ghost var i :| 0 <= i < n && e == UnhashableKey(front[i].id) && HashKey(front[i].id).None?
          && forall j :: 0 <= j < i ==> HashKey(front[j].id).Some?;
        assert e == UnhashableKey(tests[i].id) && HashKey(tests[i].id).None?;
        Err(e)
      case Ok(m) =>
        assert forall j :: 0 <= j < n ==> HashKey(tests[j].id).Some?;
        match HashKey(tests[n].id)
        case None => Err(UnhashableKey(tests[n].id))
        case Some(k) =>
          Ok(m[k := tests[n]])
  }

  /** The map holds, under every key, the last test whose id has that key. */
  lemma {:induction false} IndexTestsLastWriteWins(tests: seq<Test>)
    requires IndexTests(tests).Ok?
    ensures LastWriteWins(tests, IndexTests(tests).value)
  {
    if |tests| > 0 {
      var n := |tests| - 1;
      IndexTestsLastWriteWins(tests[..n]);
      InsertLast(tests, IndexTests(tests[..n]).value, HashKey(tests[n].id).value);
    }
  }

  /** Writing the last test over the map of all the others keeps the last writer under
      every key. */
  lemma InsertLast(tests: seq<Test>, m: map<Key, Test>, k: Key)
    requires |tests| > 0
    requires LastWriteWins(tests[..|tests| - 1], m)
    requires HashKey(tests[|tests| - 1].id) == Some(k)
    ensures LastWriteWins(tests, m[k := tests[|tests| - 1]])
  {
    var n := |tests| - 1;
    forall k' | k' in m[k := tests[n]]
      ensures 0 <= LastWithKey(tests, k') && m[k := tests[n]][k'] == tests[LastWithKey(tests, k')]
    {
      if k' != k {
        assert LastWithKey(tests, k') == LastWithKey(tests[..n], k');
      }
    }
  }

  /** `raw_name or default_name or "Unnamed Project"`. */
  function ResolveName(rawName: Json, defaultName: Option<string>): (name: Json)
    ensures Truthy(name)
    ensures Truthy(rawName) ==> name == rawName
    ensures !Truthy(rawName) && defaultName.Some? && defaultName.value != "" ==>
      name == Str(defaultName.value)
    ensures !Truthy(rawName) && (defaultName.None? || defaultName.value == "") ==>
      name == Str(UnnamedProject)
  {
    if Truthy(rawName) then rawName
    else if defaultName.Some? && defaultName.value != "" then Str(defaultName.value)
    else Str(UnnamedProject)
  }

  /** `e` is the error of the first stage of the load that raises, the stages running in
      the order the loader takes them: iterating `tests`, building each test, hashing each
      test id, iterating `suites`, building each suite. */
  predicate FirstFailingStage(members: seq<(string, Json)>, e: LoadError) {
    var rawTests := ListField(members, "tests");
    if rawTests.Err? then e == rawTests.error
    else
      var tests := Traverse(rawTests.value, BuildTest);
      if tests.Err? then e == tests.error
      else
        var testMap := IndexTests(tests.value);
        if testMap.Err? then e == testMap.error
        else
          var rawSuites := ListField(members, "suites");
          if rawSuites.Err? then e == rawSuites.error
          else
            var suites := Traverse(rawSuites.value, BuildSuite);
            suites.Err? && e == suites.error
  }

  /** The part of `load_side_project` after parsing. */
  function BuildProject(raw: Json, defaultName: Option<string>): (r: Result<Project, LoadError>)
    ensures !raw.Obj? ==> r == Err(AttributeError(raw))
    ensures r.Ok? ==>
      && raw.Obj?
      && KeptOrDefault(raw.members, "id", Str(""), r.value.id)
      && KeptOrDefault(raw.members, "url", Null, r.value.url)
      && r.value.name == ResolveName(Get(raw.members, "name", Null), defaultName)
    ensures r.Ok? ==>
      && ListField(raw.members, "tests").Ok?
      && Traverse(ListField(raw.members, "tests").value, BuildTest).Ok?
      && IndexTests(Traverse(ListField(raw.members, "tests").value, BuildTest).value)
           == Ok(r.value.tests)
    ensures r.Ok? ==>
      && ListField(raw.members, "suites").Ok?
      && |r.value.suites| == |ListField(raw.members, "suites").value|
      && forall i :: 0 <= i < |r.value.suites| ==>
           BuildSuite(ListField(raw.members, "suites").value[i]) == Ok(r.value.suites[i])
    ensures raw.Obj? && r.Err? ==> FirstFailingStage(raw.members, r.error)
    ensures r.Err? ==> Genuine(r.error)
  {
    if !raw.Obj? then Err(AttributeError(raw))
    else
      var m := raw.members;
      var name := ResolveName(Get(m, "name", Null), defaultName);
      var rawTests :- ListField(m, "tests");
      var tests :- Traverse(rawTests, BuildTest);
      var testMap :- IndexTests(tests);
      var rawSuites :- ListField(m, "suites");
      var suites :- Traverse(rawSuites, BuildSuite);
      Ok(Project(id := Get(m, "id", Str("")), name := name, url := Get(m, "url", Null),
                 tests := testMap, suites := suites))
  }

  /** `load_side_project(json_payload, default_name=...)`, with the JSON parser given as
      `parse`: it yields the parsed value or the parser's diagnostic. */
  function LoadSideProject(payload: Payload, defaultName: Option<string>,
                           parse: string -> Result<Json, string>): (r: Result<Project, LoadError>)
    ensures payload.NotText? ==> r == Err(InputTypeError)
    ensures payload.Text? && parse(payload.text).Err? ==>
      r == Err(MalformedJson(parse(payload.text).error))
    ensures payload.Text? && parse(payload.text).Ok? ==>
      r == BuildProject(parse(payload.text).value, defaultName)
    ensures r.Err? ==> Genuine(r.error)
    ensures r.Ok? ==> Truthy(r.value.name)
  {
    match payload
    case NotText => Err(InputTypeError)
    case Text(text) =>
      match parse(text)
      case Err(diagnostic) => Err(MalformedJson(diagnostic))
      case Ok(raw) => BuildProject(raw, defaultName)
  }
}
