/**
 * Turning a tool name back into an operation: `execute_tool` splits the name
 * at its first `_`, upper-cases the prefix as the HTTP method, and
 * `find_operation` returns the first path whose normalised form equals the
 * rest and that defines that method.
 */
module Lookup {
  import opened Wrappers
  import opened OpenApi
  import opened Text
  import opened Catalog

  /** The ways a tool call fails, one per `bail!` or `context` in `execute_tool`. */
  datatype ToolError =
    | InvalidToolName(name: string)
    | OperationNotFound(verb: string, pattern: string)
    | ArgumentsNotObject
    | SendFailed
    | ReadFailed
    | ApiFailure(status: nat, text: string)

  /** `find_operation`'s normal form of a path: braces deleted, `/` made `_`, outer `_` trimmed. */
  function NormalizePath(path: string): string {
    TrimMatches(ReplaceChar(DeleteChar(DeleteChar(path, '{'), '}'), '/', "_"), '_')
  }

  /** The lookup normalises a path exactly as the catalog built the tool name's suffix. */
  lemma NormalizeIsSuffix(path: string)
    ensures NormalizePath(path) == PathSuffix(path)
  {
    ReplaceCharCommute(path, '/', "_", '{', "");
    ReplaceCharCommute(DeleteChar(path, '{'), '/', "_", '}', "");
  }

  /**
   * `tool_name.splitn(2, '_')`: the method (the prefix, upper-cased) and the
   * rest; a name without `_` is rejected.
   */
  function SplitToolName(name: string): (r: Result<(string, string), ToolError>)
    ensures r.Err? <==> '_' !in name
    ensures r.Err? ==> r.error == InvalidToolName(name)
    ensures r.Ok? ==> exists pre :: '_' !in pre && name == pre + "_" + r.value.1 && r.value.0 == Upper(pre)
  {
    match SplitOnce(name, '_')
    case None => Err(InvalidToolName(name))
    case Some((pre, rest)) => Ok((Upper(pre), rest))
  }

  /** The operation path item `pi` defines for the method string `method`, if any. */
  function OperationNamed(pi: PathItem, verb: string): (o: Option<Operation>)
    ensures o.Some? <==> exists m: Method :: m.Name() == verb && pi.OperationFor(m).Some?
    ensures o.Some? ==> ParseMethod(verb).Some? && o == pi.OperationFor(ParseMethod(verb).value)
  {
    match ParseMethod(verb)
    case None => None
    case Some(m) => pi.OperationFor(m)
  }

  /** Path entry `i` matches: its normal form is `pattern` and it is an inline item defining `method`. */
  predicate MatchesAt(doc: Document, verb: string, pattern: string, i: int) {
    0 <= i < |doc.paths| && NormalizePath(doc.paths[i].0) == pattern
    && doc.paths[i].1.Item? && OperationNamed(doc.paths[i].1.item, verb).Some?
  }

  /** The first matching path entry from position `i` on. */
  function FirstMatchFrom(doc: Document, verb: string, pattern: string, i: nat): Option<nat>
    decreases |doc.paths| - i
  {
    if i >= |doc.paths| then None
    else if MatchesAt(doc, verb, pattern, i) then Some(i)
    else FirstMatchFrom(doc, verb, pattern, i + 1)
  }

  /** What `find_operation` returns: the first match's path and operation, or an error. */
  function FindResult(doc: Document, verb: string, pattern: string): Result<(string, Operation), ToolError> {
    match FirstMatchFrom(doc, verb, pattern, 0)
    case None => Err(OperationNotFound(verb, pattern))
    case Some(i) =>
      if MatchesAt(doc, verb, pattern, i) then
        Ok((doc.paths[i].0, OperationNamed(doc.paths[i].1.item, verb).value))
      else Err(OperationNotFound(verb, pattern))
  }

  /** `FirstMatchFrom` finds the least matching position at or after `i`, and only it. */
  lemma {:induction false} FirstMatchFromSpec(doc: Document, verb: string, pattern: string, i: nat, j: nat)
    ensures FirstMatchFrom(doc, verb, pattern, i) == Some(j)
            <==> i <= j && MatchesAt(doc, verb, pattern, j)
                 && forall k :: i <= k < j ==> !MatchesAt(doc, verb, pattern, k)
    decreases |doc.paths| - i
  {
    if i < |doc.paths| && !MatchesAt(doc, verb, pattern, i) {
      FirstMatchFromSpec(doc, verb, pattern, i + 1, j);
    }
  }

  /** Without a match from `i` on there is no result. */
  lemma {:induction false} FirstMatchFromNone(doc: Document, verb: string, pattern: string, i: nat)
    ensures FirstMatchFrom(doc, verb, pattern, i).None?
            <==> forall k :: i <= k ==> !MatchesAt(doc, verb, pattern, k)
    decreases |doc.paths| - i
  {
    if i < |doc.paths| && !MatchesAt(doc, verb, pattern, i) {
      FirstMatchFromNone(doc, verb, pattern, i + 1);
    }
  }

  /**
   * `find_operation` fails exactly when no path entry matches, and otherwise
   * returns the path and operation of the first one that does.
   */
  lemma LookupSpec(doc: Document, verb: string, pattern: string)
    ensures var r := FindResult(doc, verb, pattern);
            && (r.Err? <==> forall k :: !MatchesAt(doc, verb, pattern, k))
            && (r.Err? ==> r.error == OperationNotFound(verb, pattern))
            && (r.Ok? ==> exists i :: MatchesAt(doc, verb, pattern, i)
                                      && (forall k :: 0 <= k < i ==> !MatchesAt(doc, verb, pattern, k))
                                      && r.value == (doc.paths[i].0, OperationNamed(doc.paths[i].1.item, verb).value))
  {
    FirstMatchFromNone(doc, verb, pattern, 0);
    match FirstMatchFrom(doc, verb, pattern, 0)
    case None =>
    case Some(i) =>
      FirstMatchFromSpec(doc, verb, pattern, 0, i);
  }

  /** `find_operation`: the search loop over the paths, returning at the first match. */
  method FindOperation(doc: Document, verb: string, pattern: string) returns (r: Result<(string, Operation), ToolError>)
    ensures r == FindResult(doc, verb, pattern)
  {
    var i := 0;
    while i < |doc.paths|
      invariant 0 <= i <= |doc.paths|
      invariant FirstMatchFrom(doc, verb, pattern, 0) == FirstMatchFrom(doc, verb, pattern, i)
    {
      var (path, entry) := doc.paths[i];
      if NormalizePath(path) == pattern {
        if entry.Item? {
          var operation := OperationNamed(entry.item, verb);
          if operation.Some? {
            return Ok((path, operation.value));
          }
        }
      }
      i := i + 1;
    }
    return Err(OperationNotFound(verb, pattern));
  }

  /** What `execute_tool` looks up for a tool name: split, then `find_operation`. */
  function Resolve(doc: Document, name: string): Result<(string, Operation), ToolError> {
    match SplitToolName(name)
    case Err(e) => Err(e)
    case Ok((verb, pattern)) => FindResult(doc, verb, pattern)
  }

  lemma NameIsUpper(m: Method)
    ensures forall i :: 0 <= i < |m.Name()| ==> 'A' <= m.Name()[i] <= 'Z'
  {
  }

  /** Upper-casing the tool name's lower-case prefix gives back the method's name. */
  lemma UpperLowerName(m: Method)
    ensures Upper(Lower(m.Name())) == m.Name()
  {
    NameIsUpper(m);
    var n := m.Name();
    var u := Upper(Lower(n));
    assert |u| == |n|;
    forall i | 0 <= i < |n| ensures u[i] == n[i] {
      assert Lower(n)[i] == LowerChar(n[i]);
    }
  }

  lemma ParseName(m: Method)
    ensures ParseMethod(m.Name()) == Some(m)
  {
  }

  /** Path entries `i` and `j` both define `m` and produce the same tool name. */
  predicate Twins(doc: Document, m: Method, i: int, j: int) {
    Defines(doc, i, m) && Defines(doc, j, m) && PathSuffix(doc.paths[i].0) == PathSuffix(doc.paths[j].0)
  }

  /** No two path entries defining `m` produce the same tool name. */
  predicate Unambiguous(doc: Document, m: Method) {
    forall i, j :: 0 <= i < |doc.paths| && 0 <= j < |doc.paths| && Twins(doc, m, i, j) ==> i == j
  }

  /** Resolving the tool name of `m` at `path` is looking up `m`'s name and the path's suffix. */
  lemma ResolveToolName(doc: Document, m: Method, path: string)
    ensures Resolve(doc, ToolName(m, path)) == FindResult(doc, m.Name(), PathSuffix(path))
  {
    ToolNameSplit(m, path);
    UpperLowerName(m);
  }

  /** For the tool of method `m` at path entry `i`, the lookup matches exactly the twins of `i`. */
  lemma MatchesTwins(doc: Document, m: Method, i: nat, k: int)
    requires Defines(doc, i, m)
    ensures MatchesAt(doc, m.Name(), PathSuffix(doc.paths[i].0), k) <==> Twins(doc, m, i, k)
  {
    ParseName(m);
    if 0 <= k < |doc.paths| {
      NormalizeIsSuffix(doc.paths[k].0);
    }
  }

  /**
   * The tool for method `m` at path entry `i` resolves to the first path entry
   * that defines `m` and yields the same tool name: `i` itself, or an earlier
   * entry that shadows it.
   */
  lemma ResolveFirstTwin(doc: Document, m: Method, i: nat)
    requires Defines(doc, i, m)
    ensures exists j :: j <= i && Twins(doc, m, i, j)
                        && (forall k :: 0 <= k < j ==> !Twins(doc, m, i, k))
                        && Resolve(doc, ToolName(m, doc.paths[i].0))
                           == Ok((doc.paths[j].0, doc.paths[j].1.item.OperationFor(m).value))
  {
    var verb, pattern := m.Name(), PathSuffix(doc.paths[i].0);
    ResolveToolName(doc, m, doc.paths[i].0);
    forall k ensures MatchesAt(doc, verb, pattern, k) <==> Twins(doc, m, i, k) {
      MatchesTwins(doc, m, i, k);
    }
    LookupSpec(doc, verb, pattern);
    var j :| MatchesAt(doc, verb, pattern, j)
             && (forall k :: 0 <= k < j ==> !MatchesAt(doc, verb, pattern, k))
             && FindResult(doc, verb, pattern).value == (doc.paths[j].0, OperationNamed(doc.paths[j].1.item, verb).value);
    assert Twins(doc, m, i, i);
    assert j <= i;
    ParseName(m);
    assert OperationNamed(doc.paths[j].1.item, verb) == doc.paths[j].1.item.OperationFor(m);
    assert Twins(doc, m, i, j);
  }

  /**
   * Round trip: when no two paths defining the method normalise alike, the
   * tool built for a visited operation resolves back to that operation.
   */
  lemma ResolveRoundTrip(doc: Document, e: OpEntry)
    requires e in AllOperations(doc) && Unambiguous(doc, e.verb)
    ensures Resolve(doc, ToolName(e.verb, e.path)) == Ok((e.path, e.op))
  {
    OperationsSound(doc, |doc.paths|, e);
    ResolveFirstTwin(doc, e.verb, e.index);
  }

  /**
   * Shadowing: if an earlier path entry defines the same method and yields
   * the same tool name, the later entry's tool resolves to the earlier one.
   */
  lemma ResolveShadowed(doc: Document, m: Method, i: nat, j: nat)
    requires j < i && Twins(doc, m, i, j)
    ensures exists f :: f <= j && Twins(doc, m, i, f)
                        && Resolve(doc, ToolName(m, doc.paths[i].0))
                           == Ok((doc.paths[f].0, doc.paths[f].1.item.OperationFor(m).value))
  {
    ResolveFirstTwin(doc, m, i);
  }

  /** `GET /a_b` and `GET /a/b` both become the tool `get_a_b`. */
  lemma CollidingNames()
    ensures ToolName(Get, "/a_b") == ToolName(Get, "/a/b") == "get_a_b"
  {
    assert Lower("GET") == "get";
    assert ReplaceChar("/a_b", '/', "_") == "_a_b";
    assert ReplaceChar("/a/b", '/', "_") == "_a_b";
    assert DeleteChar("_a_b", '{') == "_a_b";
    assert DeleteChar("_a_b", '}') == "_a_b";
    assert TrimEnd("_a_b", '_') == "_a_b";
    assert TrimStart("_a_b", '_') == "a_b";
  }
}
