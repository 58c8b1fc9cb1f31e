/**
 * The shared tool vocabulary: categories, results, definitions and the
 * function-calling descriptor handed to the model.
 */
module ToolTypes {
  import opened Wrappers
  import opened JsValues

  datatype ToolCategory = Read | Write | Edit | Execute | Search | Network

  /** The string value each category carries on the wire. */
  function CategoryName(c: ToolCategory): string {
    match c
    case Read => "read"
    case Write => "write"
    case Edit => "edit"
    case Execute => "execute"
    case Search => "search"
    case Network => "network"
  }

  /** Distinct categories carry distinct wire names. */
  lemma CategoryNamesDistinct(c: ToolCategory, d: ToolCategory)
    ensures CategoryName(c) == CategoryName(d) <==> c == d
  {
  }

  /** What a tool's `execute` resolves to. */
  datatype ToolResult = ToolResult(
    success: bool,
    data: Option<JsValue>,
    error: Option<string>,
    metadata: Option<seq<(string, JsValue)>>)

  function Failure(message: string): ToolResult {
    ToolResult(false, None, Some(message), None)
  }

  function Success(data: JsValue): ToolResult {
    ToolResult(true, Some(data), None, None)
  }

  /** An asynchronous call settles either by returning a value or by
      throwing an `Error` with a message. */
  datatype Outcome = Returned(result: ToolResult) | Thrown(message: string)

  /**
   * A tool. `needsApproval` is the flag the permission gate reads; the
   * declared interface names it `needPermission`, and the tools themselves
   * set `needPermission`, `needsApproval` or `requiresApproval`. A tool that
   * does not set `needsApproval` itself reaches the gate with the flag false.
   * `parameters` is the JSON schema its zod schema converts to, and `execute`
   * is left uninterpreted.
   */
  datatype ToolDefinition = ToolDefinition(
    name: string,
    description: string,
    category: ToolCategory,
    needsApproval: bool,
    parameters: JsValue,
    execute: JsValue -> Outcome)

  /** The function-calling descriptor `{type: 'function', function: {...}}`. */
  datatype AITool = AITool(kind: string, name: string, description: string, parameters: JsValue)

  const FUNCTION_KIND: string := "function"

  function Describe(t: ToolDefinition): AITool {
    AITool(FUNCTION_KIND, t.name, t.description, t.parameters)
  }
}
