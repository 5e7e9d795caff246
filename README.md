# Placeholder resolution in an MCP server configuration

This project models `resolve_env_vars` (config.py:9-27). The function walks
the configuration of an agent's MCP (Model Context Protocol) tool servers and
replaces `${NAME}` placeholders with environment variable values. The
configuration is a JSON object that maps server names to server objects. For
each server, in dictionary order, the function:

- rewrites every string value of the server's `"env"` object that starts
  with `${`, key by key;
- then rewrites every string entry of its `"args"` array that starts with
  `${`, index by index.

The variable's name is the placeholder without its first two characters and
its last character (Python's `value[2:-1]`). The closing `}` is never checked.
The value is stored exactly as the environment holds it and is never
re-examined. The first unset variable raises
`ValueError("Environment variable NAME not set")`. Substitutions made before
that point stay in the dictionary, which is mutated in place. On success the
same dictionary object is returned.

## How the model is organised

- `data.dfy`, module `McpData`: the JSON shapes involved.
  - `Value` is a string or any other JSON value.
  - `Env` is an insertion-ordered object, stored as keys and values.
  - `Server` holds the optional `"env"` and `"args"` and all other fields.
  - `Error` is the unset-variable error, and `Message` gives its text.
- `traversal.dfy`, module `Traversal`: `Traverse(xs, step)` applies a step to
  each element in order and stops at the first failing step. The failing
  element keeps whatever its step left, and the later elements are untouched.
  The resolver walks its three nested loops this way: over servers, over
  `"env"` values, and over `"args"` entries. This module proves the walk's
  laws: element by element (`TraverseAt`), over concatenation
  (`TraverseAppend`), and one loop iteration at a time (`TraverseExtend`,
  `TraverseStop`).
- `resolve.dfy`, module `Resolve`: the reference definition, written as
  functions, with the properties of resolution.
  - `ResolveValue` handles one value, `ResolveEnv` and `ResolveArgs` handle
    one server's two loops, `ResolveServer` handles `"env"` then `"args"`,
    and `ResolveServers` handles the whole configuration.
  - A "slot" is a value that resolution may rewrite. `AllSlots` lists every
    slot in the order the resolver visits them: server by server, the
    `"env"` values and then the `"args"` entries.
  - The main theorem (`ResolveBySlot`) says the following. Every slot before
    the first placeholder whose variable is unset is resolved. That slot and
    every later one are unchanged. The error names that slot's variable.
    Nothing except slot values changes.
- `config.dfy`, module `McpConfig`: class `Config` is the mutable
  configuration object. Its `ResolveEnvVars` method has the source's nested
  loops and overwrites entries in place. It is proved to leave exactly the
  state `ResolveServers` describes and to return the same object or the
  error.

The environment (`os.environ`, after `.env` is loaded) is a parameter:
`environ: map<string, string>`.

The function resolves only strings that start with `${`. It takes the name
by slicing and never checks for `}`, so `"${FOO"` looks up `FO`. It leaves
the substitutions it made before the failure in place.

## Model

| member | source | states |
|---|---|---|
| `McpConfig.Config.ResolveEnvVars` | config.py:9-27 | Mutates the configuration in place so that it equals the reference resolution of the original servers. Server names and well-formedness are kept. Returns `Ok(this)`, the same object, exactly when no referenced variable is unset. Otherwise returns the reference's error, with the earlier substitutions left applied. |
| `McpConfig.Config.ResolveServerAt` | config.py:11-26 | One server's body of the outer loop: only server i changes, and it becomes the reference `ResolveServer` result (`"env"` values first, then `"args"` entries only if no `"env"` value raised). The error it returns is the reference's. |
| `McpConfig.Config.ResolveEnvOf` | config.py:11-18 | The `"env"` loop of server i: only server i changes, and it becomes the reference `ResolveEnv` result. The error it returns is the reference's. A server without `"env"` is untouched. |
| `McpConfig.Config.ResolveArgsOf` | config.py:19-26 | The `"args"` loop of server i: only server i changes, and it becomes the reference `ResolveArgs` result. The error it returns is the reference's. A server without `"args"` is untouched. |
| `Traversal.Traverse` | config.py:10-26 | Walking the servers, the values or the args in order never changes how many there are. |
| `Traversal.FirstFailure` | config.py:10-26 | The index of the first element whose step raises. Every element before it succeeds, and the element at it fails. |
| `Traversal.TraverseAt` | config.py:10-26 | Element by element: elements up to the first failure are stepped, later ones are untouched. The reported error is that of the first failing element. |
| `Traversal.TraverseSucceedsIff` | config.py:10-26 | A walk completes without error exactly when every step succeeds. |
| `Traversal.TraverseAppend` | config.py:10-26 | Walking `xs + ys` is walking `xs` and then, if `xs` did not fail, `ys`. |
| `Traversal.TraverseExtend` | config.py:12-18 | One loop iteration after an error-free prefix appends that element's result. |
| `Traversal.TraverseStop` | config.py:15-17 | A raise at index j leaves the prefix and element j processed and everything after j unchanged. |
| `Resolve.PlaceholderName` | config.py:14 | `value[2:-1]`: the name has three characters fewer than the string (empty if the string is too short), and character i of the name is character i+2 of the string. |
| `Resolve.BracedName` | config.py:13-14 | `"${" + n + "}"` is a placeholder, and its name is exactly `n`. |
| `Resolve.UncheckedClosingBrace` | config.py:14 | The last character is dropped unchecked: `"${FOO"` names `FO`, `"${FOO}x"` names `FOO}`, and `"${"` and `"${}"` name the empty string. |
| `Resolve.ServerWalksSlots` | config.py:11-26 | Resolving one server keeps its shape, rewrites its `"env"` values and then its `"args"` entries as one in-order walk, and reports that walk's error. |
| `Resolve.ServersWalkSlots` | config.py:10-26 | The nested walk over servers, `"env"` values and `"args"` entries equals one walk over all slots in visiting order, with the same rewritten values and the same error. |
| `Resolve.ResolveKeepsShape` | config.py:10-26 | Nothing but slot values changes. The number of servers, the other fields, the presence of `"env"` and `"args"`, the `"env"` keys in order, and the value and entry counts are all preserved. |
| `Resolve.ShapeAndSlotsDetermine` | config.py:10-26 | Two configurations with the same shape and the same slots are equal, so shape and slots together describe resolution completely. |
| `Resolve.ResolveBySlot` | config.py:10-26 | Let k be the first slot holding a placeholder whose variable is unset. Slots before k are resolved: a placeholder becomes `Str(environ[name])` and anything else is unchanged. Slots from k on are unchanged. If k exists, the error is `Unset(name of slot k)`; otherwise there is no error. The shape is kept. |
| `Resolve.ResolveSucceedsIff` | config.py:13-17 | Resolution succeeds exactly when every placeholder in any slot names a variable that is set. |
| `Resolve.ResolvedInPlace` | config.py:12-26 | On success, for every key position j of its `"env"` object and, separately, every index j of its `"args"` array, the entry there is the resolved value of the original entry at that same position. |
| `Resolve.SinglePass` | config.py:23-26 | With `A = "${B}"` and `B = "b"`, `"${A}"` becomes `"${B}"`, not `"b"`. The substituted value is not re-examined, so resolving twice differs from resolving once. |
| `Resolve.EnvBeforeArgs` | config.py:11-26 | When both the `"env"` value `${X}` and the `"args"` entry `${Y}` are unset, the error names `X`: all `"env"` values are visited before any `"args"` entry. |
| `McpData.MessageNamesVariable` | config.py:17 | The error text is `Environment variable ` + name + ` not set`, and the name can be read back from it. |
| `McpData.MessageInjective` | config.py:17 | Different unset variables produce different messages. |

## Left out

- Loading `.env` and reading the process environment (config.py:7 and the `os.environ.get` calls at config.py:15 and 23). The `environ` map parameter stands for the lookup `os.environ.get` performs: a name is set exactly when it is a key of the map. The model leaves out Windows' case-insensitive lookup (`os.environ` upper-cases its keys there), the `UnicodeEncodeError` that POSIX lookups raise for a name the filesystem encoding cannot encode, and names that are not strings of Unicode scalar values (a lone surrogate from a JSON `"\ud800"` escape, which a Dafny `char` cannot hold).
- Locating `mcp_config.json`, checking that it exists, and parsing it as JSON (config.py:29-36). This is file I/O. The model starts from the parsed dictionary.
- Configurations of an unexpected shape. For example, a server entry that is not an object, `"env"` that is not an object or is `null`, or `"args"` that is not an array. Python then raises `TypeError`, `AttributeError` or `RuntimeError`, or silently skips or iterates: a list or string server entry is skipped unless `"env"`/`"args"` is among its elements or a substring of it, a string `"args"` is iterated character by character, and an object `"args"` is iterated by its keys (a placeholder key whose variable is set adds a new key and the next iteration step raises `RuntimeError`). The model's types admit only the shapes the function is written for.
- Non-string JSON values are kept opaque, as `Other(raw)`. Resolution never looks inside them, so nested arrays or objects are not modelled.
- The Python exception is modelled as the `Err` result of `ResolveEnvVars`. Unwinding through callers is not modelled.
- Dictionary writes by key (`config[server_name]["env"][key] = ...`) are modelled as writes at the key's position. The two agree because keys are distinct, which `Valid()` keeps.
- graph.py (the LangGraph agent loop and routing), client.py (the interactive async client) and mcp_servers/text_server.py (tools that each make one OpenAI call) are not part of this model. Their behaviour lives in library code or external services.
