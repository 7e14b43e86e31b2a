/**
 * The rest of `execute_tool` and `call_tool`: the arguments of a tool call
 * are split into URL path substitutions, query pairs and a JSON body; the
 * HTTP outcome is classified by its status; and the result becomes an MCP
 * tool result with an `is_error` flag.
 */
module Invocation {
  import opened Wrappers
  import opened OpenApi
  import opened Text
  import opened Catalog
  import opened Lookup

  /** A JSON value, known by its serialisation `value.to_string()`. */
  datatype Json = Json(text: string)

  /** `value.to_string().trim_matches('"')`: a JSON string loses its quotes. */
  function Render(v: Json): string {
    TrimMatches(v.text, '"')
  }

  /** A JSON string renders as its contents when those neither start nor end with a quote. */
  lemma RenderQuoted(s: string)
    requires s == [] || (s[0] != '"' && s[|s| - 1] != '"')
    ensures Render(Json("\"" + s + "\"")) == s
  {
    var q := "\"" + s + "\"";
    var open := q[..|q| - 1];
    assert open == "\"" + s && open[1..] == s;
    assert TrimEnd(q, '"') == TrimEnd(open, '"');
    if s == [] {
      assert open[..0] == [];
      assert TrimEnd(open, '"') == TrimEnd([], '"');
    } else {
      assert TrimEnd(open, '"') == open;
      assert TrimStart(open, '"') == TrimStart(s, '"');
    }
  }

  /** The `arguments` value of a call: a JSON object (its entries in iteration order), or anything else. */
  datatype Arguments = Object(entries: seq<(string, Json)>) | NonObject(value: Json)

  /** `args_obj.get(k)`: the value stored under `k`; the last entry wins as when a map is built by insertion. */
  function ValueOf(args: seq<(string, Json)>, k: string): Option<Json> {
    if args == [] then None
    else if args[|args| - 1].0 == k then Some(args[|args| - 1].1)
    else ValueOf(args[..|args| - 1], k)
  }

  /** A JSON object has each key once. */
  predicate DistinctKeys(args: seq<(string, Json)>) {
    forall i, j :: 0 <= i < j < |args| ==> args[i].0 != args[j].0
  }

  /** A key no entry carries has no value. */
  lemma {:induction false} ValueOfAbsent(args: seq<(string, Json)>, k: string)
    requires forall i :: 0 <= i < |args| ==> args[i].0 != k
    ensures ValueOf(args, k) == None
  {
    if args != [] {
      ValueOfAbsent(args[..|args| - 1], k);
    }
  }

  lemma {:induction false} ValueOfPresent(args: seq<(string, Json)>, i: nat)
    requires i < |args| && DistinctKeys(args)
    ensures ValueOf(args, args[i].0) == Some(args[i].1)
  {
    if i < |args| - 1 {
      ValueOfPresent(args[..|args| - 1], i);
    }
  }

  /* ---------- path parameters ---------- */

  /** `format!("{{{}}}", key)`. */
  function Placeholder(k: string): (p: string)
    ensures p != [] && p[0] == '{'
  {
    "{" + k + "}"
  }

  /** One round of the substitution loop: replace `{k}` in `url` if the path template mentions it. */
  function SubstStep(url: string, path: string, entry: (string, Json)): string {
    if Contains(path, Placeholder(entry.0)) then Replace(url, Placeholder(entry.0), Render(entry.1)) else url
  }

  /** `url` after the substitution loop has run over `args` in order. */
  function Substituted(url: string, path: string, args: seq<(string, Json)>): string {
    if args == [] then url else SubstStep(Substituted(url, path, args[..|args| - 1]), path, args[|args| - 1])
  }

  /** The substitution loop of `execute_tool`, rewriting `url` once per argument. */
  method SubstitutePath(url0: string, path: string, args: seq<(string, Json)>) returns (url: string)
    ensures url == Substituted(url0, path, args)
  {
    url := url0;
    for k := 0 to |args|
      invariant url == Substituted(url0, path, args[..k])
    {
      var (key, value) := args[k];
      assert args[..k + 1][..k] == args[..k];
      if Contains(path, Placeholder(key)) {
        url := Replace(url, Placeholder(key), Render(value));
      }
    }
    assert args[..|args|] == args;
  }

  /** A path template read as literal text and `{name}` holes. */
  datatype Segment = Lit(text: string) | Hole(name: string)

  function SegmentText(s: Segment): string {
    match s
    case Lit(t) => t
    case Hole(n) => Placeholder(n)
  }

  /** The text of a template. */
  function Join(segs: seq<Segment>): string {
    if segs == [] then [] else SegmentText(segs[0]) + Join(segs[1..])
  }

  predicate Braceless(s: string) {
    '{' !in s && '}' !in s
  }

  /** Literal text holds no `{`, and hole names hold no brace: the text reads back as these segments. */
  predicate Template(segs: seq<Segment>) {
    forall i :: 0 <= i < |segs| ==>
      match segs[i]
      case Lit(t) => '{' !in t
      case Hole(n) => Braceless(n)
  }

  /** The holes named `k` filled with `text`. */
  function FillOne(segs: seq<Segment>, k: string, text: string): seq<Segment> {
    seq(|segs|, i requires 0 <= i < |segs| => if segs[i] == Hole(k) then Lit(text) else segs[i])
  }

  function Fill(s: Segment, args: seq<(string, Json)>): Segment {
    match s
    case Lit(_) => s
    case Hole(n) =>
      match ValueOf(args, n)
      case Some(v) => Lit(Render(v))
      case None => s
  }

  /** Every hole whose name is an argument key filled with the rendered value; the others kept. */
  function Filled(segs: seq<Segment>, args: seq<(string, Json)>): seq<Segment> {
    seq(|segs|, i requires 0 <= i < |segs| => Fill(segs[i], args))
  }

  /** A `{n}` with `n` other than `k` is not an occurrence of `{k}` when neither name holds `}`. */
  lemma PlaceholderMismatch(n: string, k: string, t: string)
    requires n != k && '}' !in n && '}' !in k
    requires |Placeholder(k)| <= |Placeholder(n) + t|
    ensures (Placeholder(n) + t)[..|Placeholder(k)|] != Placeholder(k)
  {
    var s, p := Placeholder(n) + t, Placeholder(k);
    if |k| < |n| {
      assert s[|k| + 1] == n[|k|] && p[|k| + 1] == '}';
    } else if |k| > |n| {
      assert s[|n| + 1] == '}' && p[|n| + 1] == k[|n|];
    } else {
      var d :| 0 <= d < |n| && n[d] != k[d];
      assert s[d + 1] == n[d] && p[d + 1] == k[d];
    }
  }

  lemma JoinCons(segs: seq<Segment>)
    requires segs != []
    ensures Join(segs) == SegmentText(segs[0]) + Join(segs[1..])
  {
  }

  /** A hole other than `{k}` passes through `Replace` untouched. */
  lemma ReplaceOtherHole(n: string, k: string, t: string, rep: string)
    requires n != k && Braceless(n) && '}' !in k
    ensures Replace(Placeholder(n) + t, Placeholder(k), rep) == Placeholder(n) + Replace(t, Placeholder(k), rep)
  {
    var s, p := Placeholder(n) + t, Placeholder(k);
    if |p| <= |s| {
      PlaceholderMismatch(n, k, t);
    }
    ReplaceNoMatch(s, p, rep);
    var closed := n + "}";
    assert s[0] == '{' && s[1..] == closed + t;
    ReplaceSkips(closed, t, p, rep);
    assert Placeholder(n) == ['{'] + closed;
  }

  /** Replacing `{k}` in a template's text fills exactly its holes named `k`. */
  lemma {:induction false} ReplaceHole(segs: seq<Segment>, k: string, rep: string)
    requires Template(segs) && '}' !in k && '{' !in rep
    ensures Replace(Join(segs), Placeholder(k), rep) == Join(FillOne(segs, k, rep))
    decreases |segs|
  {
    var p := Placeholder(k);
    if segs == [] {
      assert FillOne(segs, k, rep) == [];
    } else {
      var rest := segs[1..];
      var filled := FillOne(segs, k, rep);
      assert Template(rest) by {
        forall i | 0 <= i < |rest| ensures rest[i] == segs[i + 1] { }
      }
      ReplaceHole(rest, k, rep);
      assert filled[1..] == FillOne(rest, k, rep);
      JoinCons(filled);
      match segs[0]
      case Lit(a) =>
        ReplaceSkips(a, Join(rest), p, rep);
      case Hole(n) =>
        if n == k {
          ReplaceHead(Join(rest), p, rep);
        } else {
          ReplaceOtherHole(n, k, Join(rest), rep);
        }
    }
  }

  /** A hole other than `{k}` contributes no occurrence of `{k}`. */
  lemma ContainsOtherHole(n: string, k: string, t: string)
    requires n != k && Braceless(n) && '}' !in k
    ensures Contains(Placeholder(n) + t, Placeholder(k)) == Contains(t, Placeholder(k))
  {
    var s, p := Placeholder(n) + t, Placeholder(k);
    assert s[1..] == (n + "}") + t;
    ContainsSkips(n + "}", t, p);
    if |p| <= |s| {
      PlaceholderMismatch(n, k, t);
    }
  }

  /** A template's text mentions `{k}` exactly when the template has a hole named `k`. */
  lemma {:induction false} ContainsHole(segs: seq<Segment>, k: string)
    requires Template(segs) && '}' !in k
    ensures Contains(Join(segs), Placeholder(k)) <==> Hole(k) in segs
    decreases |segs|
  {
    var p := Placeholder(k);
    if segs != [] {
      var rest := segs[1..];
      assert Template(rest) by {
        forall i | 0 <= i < |rest| ensures rest[i] == segs[i + 1] { }
      }
      ContainsHole(rest, k);
      assert segs == [segs[0]] + rest;
      InAppend([segs[0]], rest, Hole(k));
      match segs[0]
      case Lit(a) =>
        ContainsSkips(a, Join(rest), p);
      case Hole(n) =>
        if n == k {
          var s := p + Join(rest);
          assert s[..|p|] == p;
        } else {
          ContainsOtherHole(n, k, Join(rest));
        }
    }
  }

  /** Filling the holes named by one more argument is one more `FillOne`. */
  lemma FillStep(segs: seq<Segment>, init: seq<(string, Json)>, k: string, v: Json)
    requires ValueOf(init, k) == None
    ensures FillOne(Filled(segs, init), k, Render(v)) == Filled(segs, init + [(k, v)])
  {
    var args := init + [(k, v)];
    assert args[..|args| - 1] == init;
  }

  /** An argument whose placeholder the template lacks fills nothing. */
  lemma FillSkip(segs: seq<Segment>, init: seq<(string, Json)>, k: string, v: Json)
    requires Hole(k) !in segs
    ensures Filled(segs, init) == Filled(segs, init + [(k, v)])
  {
    var args := init + [(k, v)];
    assert args[..|args| - 1] == init;
    forall i | 0 <= i < |segs| ensures Fill(segs[i], init) == Fill(segs[i], args) {
      assert segs[i] in segs;
    }
  }

  /** The holes of a template filled with text free of `{` form a template again. */
  lemma FilledIsTemplate(segs: seq<Segment>, args: seq<(string, Json)>)
    requires Template(segs)
    requires forall i :: 0 <= i < |args| && Hole(args[i].0) in segs ==> '{' !in Render(args[i].1)
    ensures Template(Filled(segs, args))
  {
    forall i | 0 <= i < |segs| && segs[i].Hole? && ValueOf(args, segs[i].name).Some?
      ensures '{' !in Render(ValueOf(args, segs[i].name).value)
    {
      ValueOfIn(args, segs[i].name);
      var j :| 0 <= j < |args| && args[j] == (segs[i].name, ValueOf(args, segs[i].name).value);
      assert Hole(args[j].0) in segs;
    }
  }

  lemma {:induction false} ValueOfIn(args: seq<(string, Json)>, k: string)
    requires ValueOf(args, k).Some?
    ensures exists i :: 0 <= i < |args| && args[i] == (k, ValueOf(args, k).value)
  {
    if args[|args| - 1].0 != k {
      ValueOfIn(args[..|args| - 1], k);
      var i :| 0 <= i < |args| - 1 && args[..|args| - 1][i] == (k, ValueOf(args, k).value);
      assert args[i] == args[..|args| - 1][i];
    } else {
      assert args[|args| - 1] == (k, ValueOf(args, k).value);
    }
  }

  /**
   * URL substitution as the template promises: when the base URL and the
   * rendered values of the arguments a hole names hold no `{`, and the keys
   * are distinct and hold no `}`, the
   * loop yields the base followed by the path with every `{k}` whose `k` is an
   * argument key replaced by that argument's rendered value.
   */
  lemma {:induction false} SubstituteTemplate(base: string, segs: seq<Segment>, args: seq<(string, Json)>)
    requires Template(segs) && '{' !in base && DistinctKeys(args)
    requires forall i :: 0 <= i < |args| ==> '}' !in args[i].0
    requires forall i :: 0 <= i < |args| && Hole(args[i].0) in segs ==> '{' !in Render(args[i].1)
    ensures Substituted(base + Join(segs), Join(segs), args) == base + Join(Filled(segs, args))
    decreases |args|
  {
    var path := Join(segs);
    if args == [] {
      assert Filled(segs, args) == segs;
    } else {
      var init, last := args[..|args| - 1], args[|args| - 1];
      var (k, v) := last;
      assert args == init + [(k, v)];
      assert forall i :: 0 <= i < |init| ==> init[i] == args[i];
      SubstituteTemplate(base, segs, init);
      var f0 := Filled(segs, init);
      ContainsHole(segs, k);
      if Hole(k) in segs {
        ValueOfAbsent(init, k);
        FilledIsTemplate(segs, init);
        ReplaceSkips(base, Join(f0), Placeholder(k), Render(v));
        ReplaceHole(f0, k, Render(v));
        FillStep(segs, init, k, v);
      } else {
        FillSkip(segs, init, k, v);
      }
    }
  }

  /* ---------- query parameters and body ---------- */

  /** The query pair parameter `p` contributes: its name and rendered value, when it is a query parameter with an argument. */
  function QueryPair(p: RefOr<Parameter>, args: seq<(string, Json)>): seq<(string, string)> {
    if p.Item? && p.item.location == Query then
      match ValueOf(args, p.item.name)
      case Some(v) => [(p.item.name, Render(v))]
      case None => []
    else []
  }

  /** The query pairs, in parameter declaration order. */
  function QueryPairs(params: seq<RefOr<Parameter>>, args: seq<(string, Json)>): seq<(string, string)> {
    if params == [] then [] else QueryPairs(params[..|params| - 1], args) + QueryPair(params[|params| - 1], args)
  }

  /** `used_param_names`: the names of the inline parameters, whatever their location. */
  function DeclaredNames(params: seq<RefOr<Parameter>>): set<string> {
    set i | 0 <= i < |params| && params[i].Item? :: params[i].item.name
  }

  /** There is an inline query parameter named `n`. */
  predicate QueryDeclared(params: seq<RefOr<Parameter>>, n: string) {
    exists i :: 0 <= i < |params| && params[i].Item? && params[i].item.location == Query && params[i].item.name == n
  }

  /**
   * A query pair is sent for a name exactly when an inline query parameter
   * declares it and the arguments hold it; its value is the rendered argument.
   */
  lemma {:induction false} QueryPairsSpec(params: seq<RefOr<Parameter>>, args: seq<(string, Json)>, n: string, v: string)
    ensures (n, v) in QueryPairs(params, args)
            <==> QueryDeclared(params, n) && ValueOf(args, n).Some? && v == Render(ValueOf(args, n).value)
  {
    if params != [] {
      var init, last := params[..|params| - 1], params[|params| - 1];
      QueryPairsSpec(init, args, n, v);
      InAppend(QueryPairs(init, args), QueryPair(last, args), (n, v));
      if QueryDeclared(params, n) && !QueryDeclared(init, n) {
        var i :| 0 <= i < |params| && params[i].Item? && params[i].item.location == Query && params[i].item.name == n;
        assert i == |params| - 1;
      }
      if QueryDeclared(init, n) {
        var i :| 0 <= i < |init| && init[i].Item? && init[i].item.location == Query && init[i].item.name == n;
        assert params[i] == init[i];
      }
    }
  }

  lemma DeclaredNamesStep(params: seq<RefOr<Parameter>>, i: nat)
    requires i < |params|
    ensures DeclaredNames(params[..i + 1])
            == DeclaredNames(params[..i]) + (if params[i].Item? then {params[i].item.name} else {})
  {
    var a, b := params[..i + 1], params[..i];
    forall x ensures x in DeclaredNames(a) <==> x in DeclaredNames(b) + (if params[i].Item? then {params[i].item.name} else {}) {
      if x in DeclaredNames(a) {
        var j :| 0 <= j < |a| && a[j].Item? && a[j].item.name == x;
        if j < i {
          assert b[j] == a[j];
        }
      }
      if x in DeclaredNames(b) {
        var j :| 0 <= j < |b| && b[j].Item? && b[j].item.name == x;
        assert a[j] == b[j];
      }
      if params[i].Item? && x == params[i].item.name {
        assert a[i] == params[i];
      }
    }
  }

  /**
   * The parameter loop of `execute_tool`: every inline parameter's name goes
   * into `used`, and each query parameter with an argument adds a pair.
   */
  method CollectQuery(params: seq<RefOr<Parameter>>, args: seq<(string, Json)>)
    returns (used: set<string>, query: seq<(string, string)>)
    ensures used == DeclaredNames(params)
    ensures query == QueryPairs(params, args)
  {
    used, query := {}, [];
    for i := 0 to |params|
      invariant used == DeclaredNames(params[..i])
      invariant query == QueryPairs(params[..i], args)
    {
      DeclaredNamesStep(params, i);
      assert params[..i + 1][..i] == params[..i];
      match params[i]
      case Item(p) =>
        used := used + {p.name};
        if p.location == Query {
          match ValueOf(args, p.name)
          case Some(value) =>
            query := query + [(p.name, Render(value))];
          case None =>
        }
      case Reference(_) =>
    }
    assert params[..|params|] == params;
  }

  /** The body map: the arguments whose keys are not in `used`, collected in order. */
  function BodyOf(args: seq<(string, Json)>, used: set<string>): map<string, Json> {
    if args == [] then map[]
    else
      var body := BodyOf(args[..|args| - 1], used);
      var (k, v) := args[|args| - 1];
      if k in used then body else body[k := v]
  }

  /**
   * The partition: a key goes into the body exactly when the arguments hold
   * it and no declared parameter of any location names it, with its value.
   */
  lemma {:induction false} BodySpec(args: seq<(string, Json)>, used: set<string>, k: string)
    ensures k in BodyOf(args, used) <==> ValueOf(args, k).Some? && k !in used
    ensures k in BodyOf(args, used) ==> BodyOf(args, used)[k] == ValueOf(args, k).value
  {
    if args != [] {
      BodySpec(args[..|args| - 1], used, k);
    }
  }

  /* ---------- the request and its outcome ---------- */

  /** The request `execute_tool` sends: method, URL, query pairs and JSON body, if any. */
  datatype HttpRequest = HttpRequest(
    verb: string,
    url: string,
    query: seq<(string, string)>,
    body: Option<map<string, Json>>)

  /** What sending the request yields: no response, an unreadable body, or a status and text. */
  datatype HttpOutcome = SendError | ReadError | Response(status: nat, text: string)

  /** The body is sent only when it is not empty. */
  function BodyOrNone(body: map<string, Json>): (r: Option<map<string, Json>>)
    ensures r.Some? <==> body != map[]
    ensures r.Some? ==> r.value == body
  {
    if body == map[] then None else Some(body)
  }

  /** The request for a resolved operation at `path` with object arguments `args`. */
  function RequestFor(baseUrl: string, verb: string, path: string, op: Operation, args: seq<(string, Json)>): HttpRequest {
    HttpRequest(
      verb,
      Substituted(TrimEnd(baseUrl, '/') + path, path, args),
      QueryPairs(op.parameters, args),
      BodyOrNone(BodyOf(args, DeclaredNames(op.parameters))))
  }

  /** The request `execute_tool` would send for a tool call, or the error that stops it first. */
  function Plan(doc: Document, baseUrl: string, name: string, arguments: Arguments): Result<HttpRequest, ToolError> {
    match SplitToolName(name)
    case Err(e) => Err(e)
    case Ok((verb, pattern)) =>
      match FindResult(doc, verb, pattern)
      case Err(e) => Err(e)
      case Ok((path, op)) =>
        match arguments
        case NonObject(_) => Err(ArgumentsNotObject)
        case Object(args) => Ok(RequestFor(baseUrl, verb, path, op, args))
  }

  /** `status.is_success()`: a 2xx status gives the text, any other the status and text as an error. */
  function Classify(outcome: HttpOutcome): (r: Result<string, ToolError>)
    ensures r.Ok? <==> outcome.Response? && 200 <= outcome.status <= 299
    ensures r.Ok? ==> r.value == outcome.text
    ensures outcome.Response? && r.Err? ==> r.error == ApiFailure(outcome.status, outcome.text)
  {
    match outcome
    case SendError => Err(SendFailed)
    case ReadError => Err(ReadFailed)
    case Response(status, text) =>
      if 200 <= status <= 299 then Ok(text) else Err(ApiFailure(status, text))
  }

  /** The result of `execute_tool`, with `respond` standing for the HTTP exchange. */
  function Execute(doc: Document, baseUrl: string, name: string, arguments: Arguments,
                   respond: HttpRequest -> HttpOutcome): Result<string, ToolError> {
    match Plan(doc, baseUrl, name, arguments)
    case Err(e) => Err(e)
    case Ok(request) => Classify(respond(request))
  }

  /** `execute_tool`: split the name, find the operation, build the request, send it, check the status. */
  method ExecuteTool(doc: Document, baseUrl: string, name: string, arguments: Arguments,
                     respond: HttpRequest -> HttpOutcome) returns (r: Result<string, ToolError>)
    ensures r == Execute(doc, baseUrl, name, arguments, respond)
  {
    var split := SplitToolName(name);
    if split.Err? {
      return Err(split.error);
    }
    var (verb, pattern) := split.value;
    var found := FindOperation(doc, verb, pattern);
    if found.Err? {
      return Err(found.error);
    }
    var (path, op) := found.value;
    var url := TrimEnd(baseUrl, '/') + path;
    if arguments.NonObject? {
      return Err(ArgumentsNotObject);
    }
    var args := arguments.entries;
    url := SubstitutePath(url, path, args);
    var used, query := CollectQuery(op.parameters, args);
    var body := BodyOf(args, used);
    var request := HttpRequest(verb, url, query, BodyOrNone(body));
    assert request == RequestFor(baseUrl, verb, path, op, args);
    r := Classify(respond(request));
  }

  /**
   * Round trip: calling the tool built for a visited operation, when no two
   * paths defining its method normalise alike, sends the request for that
   * operation with its method and path.
   */
  lemma PlanRoundTrip(doc: Document, baseUrl: string, e: OpEntry, args: seq<(string, Json)>)
    requires e in AllOperations(doc) && Unambiguous(doc, e.verb)
    ensures Plan(doc, baseUrl, ToolName(e.verb, e.path), Object(args))
            == Ok(RequestFor(baseUrl, e.verb.Name(), e.path, e.op, args))
  {
    ResolveRoundTrip(doc, e);
    ResolveToolName(doc, e.verb, e.path);
    ToolNameSplit(e.verb, e.path);
    UpperLowerName(e.verb);
  }

  /** A tool call fails before any request exactly when `Plan` fails, and then with `Plan`'s error. */
  lemma ExecuteErrors(doc: Document, baseUrl: string, name: string, arguments: Arguments,
                      respond: HttpRequest -> HttpOutcome)
    ensures Plan(doc, baseUrl, name, arguments).Err? ==> Execute(doc, baseUrl, name, arguments, respond) == Err(Plan(doc, baseUrl, name, arguments).error)
    ensures Execute(doc, baseUrl, name, arguments, respond).Ok?
            <==> Plan(doc, baseUrl, name, arguments).Ok?
                 && respond(Plan(doc, baseUrl, name, arguments).value).Response?
                 && 200 <= respond(Plan(doc, baseUrl, name, arguments).value).status <= 299
  {
  }

  /* ---------- the MCP result ---------- */

  /** `CallToolResult`: one text content and the `is_error` flag. */
  datatype CallResult = CallResult(text: string, isError: bool)

  function Digits(n: nat): string
    decreases n
  {
    (if n < 10 then "" else Digits(n / 10)) + [('0' as int + n % 10) as char]
  }

  /** The error's display text, as `anyhow` prints the outermost message. */
  function Message(e: ToolError): string {
    match e
    case InvalidToolName(name) => "Invalid tool name format: " + name
    case OperationNotFound(verb, pattern) => "Operation not found for " + verb + " " + pattern
    case ArgumentsNotObject => "Arguments must be an object"
    case SendFailed => "Failed to send HTTP request"
    case ReadFailed => "Failed to read response body"
    case ApiFailure(status, text) => "API request failed with status " + Digits(status) + ": " + text
  }

  /** `call_tool`'s mapping: success carries the text, failure `"Error: "` and the message, flagged. */
  function ToCallResult(r: Result<string, ToolError>): (c: CallResult)
    ensures c.isError <==> r.Err?
    ensures r.Ok? ==> c.text == r.value
    ensures r.Err? ==> c.text == "Error: " + Message(r.error)
  {
    match r
    case Ok(text) => CallResult(text, false)
    case Err(e) => CallResult("Error: " + Message(e), true)
  }

  /** Missing arguments are the empty object. */
  function ArgumentsOf(arguments: Option<seq<(string, Json)>>): (a: Arguments)
    ensures a.Object?
    ensures arguments.None? ==> a == Object([])
    ensures arguments.Some? ==> a == Object(arguments.value)
  {
    match arguments
    case Some(entries) => Object(entries)
    case None => Object([])
  }

  /**
   * `call_tool`: the call's arguments (an object, or none) are passed to
   * `execute_tool`, and its result becomes a tool result that is an error
   * exactly when the call failed; the arguments are never rejected as a
   * non-object.
   */
  method CallTool(doc: Document, baseUrl: string, name: string, arguments: Option<seq<(string, Json)>>,
                  respond: HttpRequest -> HttpOutcome) returns (c: CallResult)
    ensures c == ToCallResult(Execute(doc, baseUrl, name, ArgumentsOf(arguments), respond))
    ensures c.isError <==> Execute(doc, baseUrl, name, ArgumentsOf(arguments), respond).Err?
    ensures Execute(doc, baseUrl, name, ArgumentsOf(arguments), respond) != Err(ArgumentsNotObject)
  {
    var r := ExecuteTool(doc, baseUrl, name, ArgumentsOf(arguments), respond);
    c := ToCallResult(r);
  }
}
