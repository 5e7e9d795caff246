/** The shape of the MCP server configuration that placeholder resolution
    walks: a JSON object mapping server names to server objects, each of
    which may carry an "env" object and an "args" array. */
module McpData {

  datatype Option<+T> = None | Some(value: T)

  /** A JSON value as far as resolution is concerned: a string, or any other
      JSON value (number, boolean, null, array, object), kept by its JSON
      text so that "left unchanged" has something to compare. */
  datatype Value = Str(s: string) | Other(raw: string)

  /** A JSON object with insertion-ordered keys, as Python's dict iterates
      them: keys[i] is bound to values[i]. */
  datatype Env = Env(keys: seq<string>, values: seq<Value>)

  /** One server's configuration: the optional "env" object, the optional
      "args" array, and every other field of the server object. */
  datatype Server = Server(env: Option<Env>, args: Option<seq<Value>>, fields: seq<(string, Value)>)

  /** The ValueError raised when a referenced environment variable is unset. */
  datatype Error = Unset(name: string)

  /** Outcome of the whole resolution: the (mutated) configuration, or the error. */
  datatype Result<+T> = Ok(value: T) | Err(error: Error)

  const MessagePrefix := "Environment variable "
  const MessageSuffix := " not set"

  /** The text the ValueError carries. */
  function Message(e: Error): string
  {
    MessagePrefix + e.name + MessageSuffix
  }

  /** The message names the variable: it can be read back out of the text,
      so two different errors never produce the same message. */
  lemma MessageNamesVariable(e: Error)
    ensures var m := Message(e);
      && |m| == |MessagePrefix| + |e.name| + |MessageSuffix|
      && m[..|MessagePrefix|] == MessagePrefix
      && m[|MessagePrefix|..|m| - |MessageSuffix|] == e.name
      && m[|m| - |MessageSuffix|..] == MessageSuffix
  {
    var m := Message(e);
    assert m == (MessagePrefix + e.name) + MessageSuffix;
    assert m[..|MessagePrefix| + |e.name|] == MessagePrefix + e.name;
  }

  lemma MessageInjective(e1: Error, e2: Error)
    requires Message(e1) == Message(e2)
    ensures e1 == e2
  {
    MessageNamesVariable(e1);
    MessageNamesVariable(e2);
  }

  /** No two keys of an object are equal. */
  predicate Distinct<T(==)>(xs: seq<T>)
  {
    forall i, j :: 0 <= i < j < |xs| ==> xs[i] != xs[j]
  }

  /** The names of a server's other fields. */
  function FieldNames(fields: seq<(string, Value)>): seq<string>
  {
    if fields == [] then [] else [fields[0].0] + FieldNames(fields[1..])
  }

  /** What a parsed JSON server object always satisfies: its "env" object has
      one value per key and no repeated key, and its other fields repeat no
      name and are neither "env" nor "args". */
  predicate WellFormedServer(s: Server)
  {
    && (s.env.Some? ==> |s.env.value.keys| == |s.env.value.values| && Distinct(s.env.value.keys))
    && Distinct(FieldNames(s.fields))
    && "env" !in FieldNames(s.fields) && "args" !in FieldNames(s.fields)
  }
}
