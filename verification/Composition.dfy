/** Catalogues of flows and bridges, and resolved graphs (rust/crates/zf-flows/src/composition.rs and
    the records of rust/crates/zf-compiler/src/resolve.rs). An instance alias is a pair of bridge and
    local name, or the root: the source writes it `bridge/name`, which names without a slash make
    unambiguous. */
module Composition {
  import opened Base
  import opened Types

  datatype Alias = Root | Local(bridge: string, name: string)

  datatype Permissions = Permissions(read: bool, write: bool) {
    predicate Contains(other: Permissions) { (other.read ==> read) && (other.write ==> write) }

    /** Some access, and none that is write-only. */
    predicate Supported() { read }
  }

  datatype Contract = Contract(input: DataType, output: Option<DataType>)
  datatype Branch = Branch(contract: Contract, invocations: set<Invocation>, requesters: set<string>)
  datatype Exposure = Exposure(dataType: DataType, permissions: Permissions)
  datatype Requirement = Requirement(dataType: DataType, permissions: Permissions, optional: bool)
  datatype Invocation = Tool | Context | Step | Condition
  datatype Mode = CallAwait | Launch | Handoff
  datatype Inference = Inference(fixedModel: Option<(string, string)>, strategy: Option<string>, resources: set<string>, capabilities: set<string>)

  datatype Flow = Flow(
    entries: map<string, Contract>,
    branches: map<string, Branch>,
    data: map<string, Exposure>,
    needs: map<string, Requirement>,
    inferences: map<string, Inference>)

  datatype Import = Import(flow: string, reuse: Option<string>)
  datatype Endpoint = Endpoint(instance: string, port: string)

  datatype Connection = Connection(from: Endpoint, to: Endpoint, mode: Mode, invocation: Invocation,
    toolName: Option<string>, condition: Option<Json>)

  datatype Binding = Binding(from: Endpoint, to: Endpoint, permissions: Permissions)

  datatype Bridge = Bridge(
    required: set<string>,
    imports: map<string, Import>,
    connections: map<string, Connection>,
    bindings: map<string, Binding>)

  datatype Catalog = Catalog(types: Registry, flows: map<string, Flow>, bridges: map<string, Bridge>)

  datatype Request = Request(flow: string, entry: string, bridges: set<string>)

  /** The ascending orders in which the source's ordered collections are walked. */
  datatype Order = Order(names: set<string> -> seq<string>, aliases: set<Alias> -> seq<Alias>)

  ghost predicate Lists(ord: Order) {
    && (forall s: set<string>, x :: x in ord.names(s) <==> x in s)
    && (forall s: set<Alias>, x :: x in ord.aliases(s) <==> x in s)
  }

  predicate IsControl(c: char) {
    var x := c as int;
    x < 0x20 || 0x7F <= x < 0xA0
  }

  /** A path segment of at most 160 bytes. */
  predicate ValidName(s: string) {
    && s != "" && Utf8Len(s) <= 160 && '/' !in s
    && (forall i | 0 <= i < |s| :: !IsControl(s[i]))
    && !IsSpace(s[0]) && !IsSpace(s[|s| - 1])
  }

  /** The text before and after the first slash. */
  function SplitOnce(s: string): (r: Option<(string, string)>)
    ensures r.Some? <==> '/' in s
    ensures r.Some? ==> '/' !in r.value.0 && s == r.value.0 + "/" + r.value.1
  {
    if s == "" then None
    else if s[0] == '/' then Some(("", s[1..]))
    else
      var r := SplitOnce(s[1..]);
      if r.None? then None else Some(([s[0]] + r.value.0, r.value.1))
  }

  /** The alias that a reuse target names. */
  function ParseAlias(s: string): Option<Alias> {
    if s == "root" then Some(Root)
    else
      var r := SplitOnce(s);
      if r.None? then None else Some(Local(r.value.0, r.value.1))
  }
}
