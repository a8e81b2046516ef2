/** Tokens and syntax trees of CLT: blackline/clt/tokens.py and ast.py. Source locations are left out. */
module CltSyntax {
  datatype Kind =
    | IDENTIFIER | NUMBER | STRING | IP_ADDRESS | ARROW | EQUALS | LBRACKET | RBRACKET | COMMA | NEWLINE | INDENT | DEDENT | EOF

  datatype Token = Token(kind: Kind, value: string)

  /** A literal or named-value reference as written in source. */
  datatype ValueNode = ValueNode(value: string, quoted: bool)

  /** A positional argument, or a named one when the name is not empty. */
  datatype ArgumentNode = ArgumentNode(value: ValueNode, name: string)

  datatype Node =
    | Assignment(name: string, value: ValueNode)
    | Operation(name: string, arguments: seq<ArgumentNode>, body: seq<Node>)
    | Flow(phrase: seq<ValueNode>)
    | Conditional(phrase: seq<ValueNode>, body: seq<Node>, elseBody: seq<Node>)

  function Size(n: Node): (size: nat)
    ensures size >= 1
  {
    match n
    case Operation(_, _, body) => 1 + BlockSize(body)
    case Conditional(_, body, elseBody) => 1 + BlockSize(body) + BlockSize(elseBody)
    case _ => 1
  }

  /** A measure for recursion over blocks: the nodes of a block and one for the block itself. */
  function BlockSize(block: seq<Node>): (size: nat)
    ensures size >= 1
  {
    if block == [] then 1 else Size(block[0]) + BlockSize(block[1..])
  }
}
