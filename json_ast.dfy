/**
 * The syntax tree of a JSON document as the json-to-ast parser hands it to the
 * validator, together with the two tree helpers the validator calls: the node
 * locator (getASTNode) and the range resolver (getRangeFromASTNode).
 */
module JsonAst {
  import opened Wrappers

  /** A source span. The model only carries positions from node to diagnostic. */
  datatype Range = Range(startLine: nat, startColumn: nat, endLine: nat, endColumn: nat)

  /** The span diagnostics fall back to when no node is available. */
  const DocumentStart := Range(0, 0, 0, 0)

  /** The value of a literal node. */
  datatype Scalar = Str(text: string) | Num(number: int) | Bool(truth: bool) | Null

  /** A key of an object; json-to-ast calls it an Identifier node. */
  datatype Identifier = Identifier(name: string, loc: Range)

  /** A key-value member of an object (a Property node). */
  datatype Property = Property(key: Identifier, value: Node, loc: Range)

  datatype Node =
    | Object(properties: seq<Property>, loc: Range)
    | Array(items: seq<Node>, loc: Range)
    | Literal(scalar: Scalar, loc: Range)

  /** Some member of `props` has the key `name`. */
  predicate Declares(props: seq<Property>, name: string)
  {
    exists p | p in props :: p.key.name == name
  }

  /**
   * The node locator: the first member whose key is exactly `name`, or nothing.
   * Keys are compared case-sensitively.
   */
  function FindProperty(props: seq<Property>, name: string): (r: Option<Property>)
    ensures r.None? <==> !Declares(props, name)
    ensures r.Some? ==> r.value in props && r.value.key.name == name
  {
    if props == [] then None
    else if props[0].key.name == name then Some(props[0])
    else FindProperty(props[1..], name)
  }

  /** A repeated key resolves to its first occurrence: every member before the one found has another key. */
  lemma {:induction false} FindPropertyFirstMatch(props: seq<Property>, name: string)
    requires Declares(props, name)
    ensures exists i | 0 <= i < |props| ::
              props[i] == FindProperty(props, name).value && forall j | 0 <= j < i :: props[j].key.name != name
  {
    if props[0].key.name != name {
      assert Declares(props[1..], name) by {
        var p :| p in props && p.key.name == name;
        assert p != props[0];
        assert p in props[1..];
      }
      FindPropertyFirstMatch(props[1..], name);
      var i :| 0 <= i < |props[1..]| && props[1..][i] == FindProperty(props[1..], name).value
               && forall j | 0 <= j < i :: props[1..][j].key.name != name;
      assert props[i + 1] == FindProperty(props, name).value;
      forall j | 0 <= j < i + 1 ensures props[j].key.name != name {
        if j > 0 { assert props[j] == props[1..][j - 1]; }
      }
    } else {
      assert props[0] == FindProperty(props, name).value;
    }
  }

  /** The range resolver: the span a node was parsed from. */
  function RangeOf(n: Node): Range
  {
    n.loc
  }

  /** `children.length`: objects and arrays have children, a literal node has none to count. */
  function ChildCount(n: Node): Option<nat>
  {
    match n
    case Object(props, _) => Some(|props|)
    case Array(items, _) => Some(|items|)
    case Literal(_, _) => None
  }

  /** `node.value` when it is a string: the only kind of value a key comparison can match. */
  function StringValue(n: Node): Option<string>
  {
    match n
    case Literal(Str(s), _) => Some(s)
    case _ => None
  }

  /**
   * `String(node.value)`, the text a template literal or a property lookup makes of a
   * node's value. Object and array nodes have no `value` field, which prints as "undefined".
   */
  function ValueText(n: Node): string
  {
    match n
    case Literal(Str(s), _) => s
    case Literal(Num(k), _) => DecimalText(k)
    case Literal(Bool(b), _) => if b then "true" else "false"
    case Literal(Null, _) => "null"
    case _ => "undefined"
  }

  /** Whether `node.value` is truthy: only a literal can be, and then as JavaScript decides. */
  predicate ValueTruthy(n: Node)
  {
    match n
    case Literal(Str(s), _) => s != ""
    case Literal(Num(k), _) => k != 0
    case Literal(Bool(b), _) => b
    case _ => false
  }

  function DecimalText(k: int): string
  {
    if k < 0 then "-" + NaturalText(-k) else NaturalText(k)
  }

  function NaturalText(n: nat): string
    decreases n
  {
    if n < 10 then ["0123456789"[n]] else NaturalText(n / 10) + ["0123456789"[n % 10]]
  }
}
