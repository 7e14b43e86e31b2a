# A verified model of the mcp_openapi_bridge translation core

The bridge is an MCP server that exposes the operations of an OpenAPI 3.0
document as MCP tools. This project models, in Dafny, the pure translation
logic of `src/main.rs`, in four parts:

- **The catalog walk** (`Catalog`). `generate_tools_from_spec` visits the
  paths in document order. It skips `$ref` path items. For each inline item
  it visits GET, POST, PUT, DELETE and PATCH, and `process_operation_static`
  pushes one tool per present operation. A tool has a name,
  `lower(method) + "_" + suffix`. The suffix is the path with `/` made `_`,
  braces deleted and outer `_` trimmed. The description is the summary, else
  the description, else `"<METHOD> <path>"`. The input schema is flat:
  - a `properties` map. Every inline parameter gives a `"string"` entry, with
    its description only when its schema is inline. The top-level properties
    of an `application/json` object body are inserted after the parameters,
    so a body property replaces a parameter of the same name;
  - a duplicate-free `required` list: path parameters, parameters marked
    required, then the body schema's required names.

  A body `$ref` is resolved one level only, and only in the form
  `#/components/schemas/<Name>`, naming an inline schema (Components Object,
  OpenAPI 3.0.3).
- **The name lookup** (`Lookup`). `execute_tool` splits the tool name at its
  first `_`. The upper-cased prefix is the HTTP method. `find_operation`
  returns the first path whose normalised form equals the rest and whose
  item defines that method.
- **The argument partition** (`Invocation`). The call arguments become:
  - `{key}` substitutions in the URL;
  - a query pair for each declared query parameter with an argument, in
    declaration order;
  - a JSON body of every argument not named by a declared parameter of any
    location, sent only when it is not empty.
- **The outcome** (`Invocation`). A 2xx status gives the response text; any
  other status gives an error with the status and text. `call_tool` turns
  the result into a text content with an `is_error` flag.

The modules are:
- `Wrappers`: `Option`, `Result`.
- `OpenApi`: the document as datatypes: ordered paths, `$ref`-or-item,
  parameters tagged Query/Path/Header/Cookie, request bodies and the
  `components.schemas` map.
- `Text`: the Rust string operations used, over `seq<char>`.
- `Catalog`, `Lookup`, `Invocation`: the four parts above.

The source's loops, and the functions that contain them or push results,
are Dafny methods (the loops with loop invariants). Each method is proved equal to a specification function, and the properties are proved as
lemmas about those functions:
- `GenerateTools`, `ProcessOperation` and the three flattening loops;
- `FindOperation`, an early-return search;
- `SubstitutePath` and `CollectQuery`;
- `ExecuteTool` and `CallTool`.

No class is used: the server's fields are never updated after construction.

The model follows the code as written; in particular:
- a body property overwrites a same-named parameter entry;
- `$ref`s are resolved one level, with no recursion and no cycle detection;
- colliding tool names are not suffixed, and the lookup returns the first
  path that matches (`Lookup.ResolveShadowed`, `Lookup.CollidingNames`);
- path-item-level parameters are ignored;
- a body that does not resolve to an object adds nothing, and the tool is
  still emitted;
- missing required arguments are not checked before the request is sent;
- parameter `$ref`s are skipped, so arguments named by them go to the body.

## Model

| member | source | states |
|---|---|---|
| OpenApi.MethodOfRank | src/main.rs:75-79 | the method at position `r` of the visiting order GET, POST, PUT, DELETE, PATCH has rank `r` |
| OpenApi.RankInverse | src/main.rs:75-79 | the visiting order lists each of the five methods exactly once |
| OpenApi.ParseMethod | src/main.rs:390-397 | a method string selects an operation field exactly when it is one of the five upper-case names, and then the method with that name |
| Text.ReplaceCharSpec | src/main.rs:97-99 | after `replace(c, with)` every character is either one of the input's other than `c` or one of `with` |
| Text.ReplaceCharCommute | src/main.rs:378-380 | replacing two different characters, neither of which the other's replacement inserts, gives the same text in either order |
| Text.TrimEndSpec | src/main.rs:274 | `trim_end_matches(c)` leaves a prefix that does not end in `c`, and everything cut off is `c` |
| Text.TrimStartSpec | src/main.rs:100 | `trim_start_matches(c)` leaves a suffix that does not start with `c`, and everything cut off is `c` |
| Text.TrimMatchesSpec | src/main.rs:100 | `trim_matches(c)` leaves a middle slice that neither starts nor ends with `c`, and everything cut off on either side is `c` |
| Text.StripPrefix | src/main.rs:163 | `strip_prefix` succeeds exactly when the prefix is a prefix, and the prefix plus the rest is the input |
| Text.SplitOnce | src/main.rs:262 | `splitn(2, c)` gives one part exactly when `c` is absent; otherwise the head is free of `c` and head + `c` + tail is the input |
| Text.SplitOnceAt | src/main.rs:262 | for a head without `c`, splitting `head + c + tail` gives back exactly `head` and `tail` |
| Text.ContainsAt | src/main.rs:283 | `contains(pat)` holds exactly when `pat` occurs at some index |
| Text.Replace | src/main.rs:284-287 | `replace(pat, rep)` changes nothing when `pat` does not occur |
| Text.ReplaceSkips | src/main.rs:284-287 | a prefix without the pattern's first character passes through `replace` unchanged |
| Text.ContainsSkips | src/main.rs:283 | a prefix without the pattern's first character adds no occurrence of the pattern |
| Text.LowerKeepsUnderscore | src/main.rs:96 | lower-casing creates no `_` |
| Catalog.PathSuffixSpec | src/main.rs:97-100 | the tool-name suffix holds no `/`, `{` or `}` and neither starts nor ends with `_` |
| Catalog.ToolNameSplit | src/main.rs:94-101 | splitting a tool name at its first `_` gives the lower-case method and the path suffix |
| Catalog.Description | src/main.rs:103-108 | the summary if present, else the description, else `"<METHOD> <path>"` |
| Catalog.TypeName | src/main.rs:186-208 | a body property's type is one of the six JSON-Schema names, and `"string"` exactly for string and non-typed kinds |
| Catalog.ResolveNamedSchema | src/main.rs:159-174 | `#/components/schemas/<Name>` resolves exactly when the components hold an inline schema under that name, to that schema |
| Catalog.UnresolvedBody | src/main.rs:155-178 | a `$ref` without `#/components/schemas/` resolves to nothing; the body is flattened exactly when the JSON schema is present, resolves and is an object; otherwise the tool's properties and required names are the parameters' alone |
| Catalog.AddMissingSpec | src/main.rs:225-230 | pushing names unless present keeps the old list as a prefix, adds exactly the new names, and keeps the list duplicate-free |
| Catalog.ParamRequiredSpec | src/main.rs:123-128 | the parameter loop's `required` is duplicate-free and holds exactly the inline path parameters and the parameters marked required |
| Catalog.ParamPropertiesSpec | src/main.rs:114-149 | the parameter loop's `properties` has exactly the inline parameters' names as keys, each holding the entry of the last parameter of that name |
| Catalog.InsertPropertiesSpec | src/main.rs:179-223 | inserting body properties adds exactly their names; the last property of a name decides its entry; other keys keep theirs |
| Catalog.ToolRequired | src/main.rs:123-230 | a tool's `required` is duplicate-free and holds exactly the path parameters, the required parameters and the resolved object body's required names |
| Catalog.ToolProperties | src/main.rs:114-223 | a tool's `properties` keys are the parameter names and the body property names; a body property's entry wins; a parameter-only key holds a `"string"` parameter entry |
| Catalog.CollectParameters | src/main.rs:111-150 | the parameter loop computes the specified `properties` map and `required` list |
| Catalog.AddBodyProperties | src/main.rs:179-223 | the body-property loop inserts every property in order |
| Catalog.AddBodyRequired | src/main.rs:226-230 | the body-required loop pushes each name not yet present |
| Catalog.ProcessOperation | src/main.rs:86-255 | pushes exactly the tool for the visited operation if present, and nothing otherwise |
| Catalog.GenerateTools | src/main.rs:65-83 | the tools are exactly those built for the visited operations, one per operation, in visiting order |
| Catalog.PresentTool | src/main.rs:93-253 | a present operation yields the single tool built from its path, method and operation; an absent one yields none |
| Catalog.FirstMethodsSound | src/main.rs:75-79 | every entry for the first `k` methods of an item is a present operation of one of those methods, at that path |
| Catalog.FirstMethodsComplete | src/main.rs:75-79 | every present operation among the first `k` methods has its entry |
| Catalog.FirstMethodsRanks | src/main.rs:75-79 | an item's entries come in increasing method rank |
| Catalog.ItemOperationsSound | src/main.rs:68-79 | every entry of a path entry is a real operation of it |
| Catalog.ItemOperationsComplete | src/main.rs:68-79 | every operation an inline path item defines has an entry |
| Catalog.ItemRanks | src/main.rs:68-79 | within one path entry the methods come in increasing rank |
| Catalog.ItemTools | src/main.rs:74-79 | the tools after a path entry are those before it followed by those of its five methods in order |
| Catalog.OperationsIndex | src/main.rs:68-80 | every visited entry comes from an earlier path entry, the one it records |
| Catalog.OperationsInclude | src/main.rs:68-80 | the entries of a path entry are among those visited up to any later point |
| Catalog.OperationsSound | src/main.rs:68-80 | every visited entry is a real operation of an inline path item; `$ref` path items contribute nothing |
| Catalog.OperationsComplete | src/main.rs:68-80 | every operation of an inline path item is visited |
| Catalog.OperationsOrdered | src/main.rs:68-80 | visiting order is path order, then method order, so no operation is visited twice |
| Lookup.NormalizeIsSuffix | src/main.rs:377-382 | `find_operation`'s normal form of a path equals the tool-name suffix the catalog built from it |
| Lookup.SplitToolName | src/main.rs:262-268 | a name without `_` is an invalid tool name; otherwise the method is the upper-cased text before the first `_` and the pattern is the rest |
| Lookup.OperationNamed | src/main.rs:390-397 | an operation is selected exactly when the method string names a method the item defines |
| Lookup.FirstMatchFromSpec | src/main.rs:375-405 | the search from a position finds exactly the least matching position at or after it |
| Lookup.FirstMatchFromNone | src/main.rs:375-405 | the search finds nothing exactly when no position at or after it matches |
| Lookup.LookupSpec | src/main.rs:374-406 | the lookup fails, with the not-found error, exactly when no path matches; otherwise it returns the path and operation of the first match |
| Lookup.FindOperation | src/main.rs:374-406 | the search loop with early return gives the specified lookup result |
| Lookup.UpperLowerName | src/main.rs:267 | upper-casing the lower-case method name gives back the method name |
| Lookup.ResolveToolName | src/main.rs:262-271 | resolving a tool name is looking up its method's name with its path suffix |
| Lookup.MatchesTwins | src/main.rs:377-397 | a path entry matches a tool's name exactly when it defines the method and yields the same tool name |
| Lookup.ResolveFirstTwin | src/main.rs:262-271 | a tool resolves to the first path entry that defines its method and yields the same name |
| Lookup.ResolveRoundTrip | src/main.rs:262-271 | when no two paths defining a method normalise alike, the tool of a visited operation resolves back to that path and operation |
| Lookup.ResolveShadowed | src/main.rs:375-405 | when an earlier path entry yields the same tool name, a later entry's tool resolves to an entry no later than the earlier one |
| Lookup.CollidingNames | src/main.rs:94-101 | `GET /a_b` and `GET /a/b` both get the name `get_a_b` |
| Invocation.RenderQuoted | src/main.rs:286 | a JSON string renders as its contents when they neither start nor end with a quote |
| Invocation.ValueOfAbsent | src/main.rs:318 | a key no argument carries has no value |
| Invocation.ValueOfPresent | src/main.rs:318 | in an object with distinct keys, each key's value is its entry's value |
| Invocation.SubstitutePath | src/main.rs:282-289 | the substitution loop rewrites the URL once per argument, as specified |
| Invocation.ReplaceHole | src/main.rs:284-287 | replacing `{k}` in a template's text fills exactly its holes named `k` |
| Invocation.ContainsHole | src/main.rs:283 | a template's text contains `{k}` exactly when the template has a hole named `k` |
| Invocation.SubstituteTemplate | src/main.rs:274-289 | for any base URL without `{`, the URL is that base followed by the path, with each `{k}` for an argument key `k` replaced by that argument's rendered value and other holes kept |
| Invocation.QueryPairsSpec | src/main.rs:295-326 | a query pair is sent for a name exactly when an inline query parameter declares it and the arguments hold it, with the rendered value |
| Invocation.CollectQuery | src/main.rs:292-326 | the parameter loop records every inline parameter's name, of any location, and builds the specified query pairs |
| Invocation.BodySpec | src/main.rs:337-341 | a key is in the body exactly when the arguments hold it and no declared parameter names it, with the argument's value |
| Invocation.BodyOrNone | src/main.rs:343-346 | the body is sent exactly when it is not empty |
| Invocation.Classify | src/main.rs:349-370 | success exactly for a response with a 2xx status, carrying its text; another status gives the status and text as the error |
| Invocation.ExecuteTool | src/main.rs:258-371 | the invocation gives the specified result: split, lookup, object check, URL, query, body, exchange, status check |
| Invocation.PlanRoundTrip | src/main.rs:258-346 | calling the tool of a visited operation, when names are unambiguous, sends that operation's method with its substituted URL, query pairs and body |
| Invocation.ExecuteErrors | src/main.rs:258-371 | an invocation fails before sending exactly with the planning error, and succeeds exactly when the request is planned and answered with a 2xx status |
| Invocation.ToCallResult | src/main.rs:467-483 | the tool result is an error exactly when the invocation failed; it carries the text on success and `"Error: "` with the message on failure |
| Invocation.ArgumentsOf | src/main.rs:462-465 | the call's arguments are always an object: the given entries when present, the empty object when absent |
| Invocation.CallTool | src/main.rs:457-484 | the tool result is an error exactly when the invocation failed, and the arguments are never rejected as a non-object |

## Left out

- Fetching and parsing the document (src/main.rs:30-62): network I/O and JSON deserialisation (serde_json). The model starts from a parsed `Document`.
- The HTTP exchange (src/main.rs:329-358): building and sending the reqwest request is the function parameter `respond`, which maps the planned `HttpRequest` to an outcome (no response, unreadable body, or status and text).
- `Method::from_bytes` (src/main.rs:329): it cannot fail after a successful lookup, since the method string is then one of the five names. The request carries that string.
- The MCP `ServerHandler` plumbing (src/main.rs:409-455), `main` (src/main.rs:487-522) and all logging: protocol info, tool listing, environment, tracing and the async runtime.
- Header and cookie values: the code never sends them; the model only keeps them out of the body.
- The tool's constant fields (annotations, icons, meta, title, output schema) and the constant `"type": "object"` of the input schema.
- The key order of `serde_json::Map`: `properties` and the body are maps. The arguments are a sequence in the map's iteration order, because the substitution loop runs in that order. `Arguments.Object` does not itself enforce that keys are distinct, as a `serde_json::Map` does. Where they repeat, `Substituted` uses the first entry for a key, because its `replace` removes `{k}`, while `ValueOf` and `BodyOf` use the last. The lemmas that read a value back (`ValueOfPresent`, `SubstituteTemplate`) assume distinct keys (`DistinctKeys`).
- JSON values are abstract: a value is its `to_string()` text, and rendering trims `"` from both ends. String escapes are not modelled.
- Case mapping is ASCII only; the Unicode case mapping of `to_lowercase`/`to_uppercase` on other characters is not modelled. So a tool name whose method prefix only upper-cases to a method name under Unicode rules (`poſt_pets`, where `ſ` upper-cases to `S`) resolves to POST /pets in the bridge but gives `OperationNotFound` in the model.
- HTTP status codes are unbounded naturals; the range 100-999 of `StatusCode` is not enforced.
- Invocation.Message: an API failure's message shows the numeric status only, not the canonical reason phrase that `StatusCode`'s display adds.
- Invocation.SubstituteTemplate: states the URL only when the path is a well-formed template (`Template(segs)`: literal text holds no `{` and hole names hold no braces, so an unbalanced path is excluded), the argument keys are distinct (`DistinctKeys(args)`), the base URL and the rendered values of the arguments that a hole names hold no `{`, and the keys hold no `}`. Otherwise a substituted value, or the base URL, can itself be rewritten by a later substitution, because each `replace` acts on the whole URL built so far.
- Lookup.ResolveRoundTrip: holds only when names are unambiguous, because colliding names make the lookup return the first matching path (`Lookup.ResolveShadowed`).
- The end-to-end scripts test.py and test_flattening.py: they spawn the server and talk JSON-RPC to live APIs.
