/** The normalised form of CLT workflows: blackline/clt/ir.py. */
module CltIR {
  datatype ActionIntent = ActionIntent(verb: string, subject: string)

  /** A normalised condition such as port 22 open. It is also the key that conditions are indexed under. */
  datatype Condition = Condition(entity: string, value: string, state: string)

  datatype Statement =
    | Assignment(name: string, value: string)
    | Operation(intent: ActionIntent, inputs: seq<string>, options: seq<(string, string)>, body: seq<Statement>)
    | Flow(intent: ActionIntent)
    | Rule(condition: Condition, body: seq<Statement>, elseBody: seq<Statement>)
}
