/**
  The call dispatcher: resolve a tool name to one of the handler cases, run it
  inside the failure boundary, and turn whatever the handler threw into an
  error response. The dispatcher itself never throws.
 */
module Dispatcher {

  import opened Wrappers
  import opened JsValues
  import opened Registry
  import opened Handlers

  /** The cases of the outer `switch (name)`. */
  datatype Tool = CalculateTool | GenerateIdTool | ReverseTextTool

  /** The switch on the tool name; `None` is the `default` case. */
  function Resolve(name: string): (tool: Option<Tool>)
    ensures tool.Some? <==> name in Names(ListTools().tools)
  {
    if name == "calculate" then Some(CalculateTool)
    else if name == "generate_id" then Some(GenerateIdTool)
    else if name == "reverse_text" then Some(ReverseTextTool)
    else None
  }

  /** The body of the `try` block. Everything it throws is an Error object,
      so the catch clause always reads a message. */
  function Run(name: string, args: Option<Args>, host: Host, freshId: string): (c: Completion)
    ensures c.Abrupt? ==> c.thrown.ErrorObject?
    ensures Resolve(name).None? ==> c == Abrupt(ErrorObject("Unknown tool: " + name))
  {
    match Resolve(name)
    case Some(CalculateTool) => Calculate(args, host)
    case Some(GenerateIdTool) => GenerateId(args, host, freshId)
    case Some(ReverseTextTool) => ReverseText(args, host)
    case None => Abrupt(ErrorObject("Unknown tool: " + name))
  }

  /** A thrown value the catch clause can render: an Error object, or a value
      that converts to text. Rendering any other value would itself throw. */
  predicate Renderable(thrown: Thrown)
  {
    thrown.ErrorObject? || HasPrimitive(thrown.value)
  }

  /** `error instanceof Error ? error.message : String(error)`. */
  function ErrorMessage(thrown: Thrown, host: Host): string
    requires Renderable(thrown)
  {
    match thrown
    case ErrorObject(message) => message
    case NonError(v) => Show(v, host)
  }

  /** The `catch` clause: a returned response passes through, a thrown value
      becomes one text block "Error: <message>" with `isError` set. */
  function Boundary(c: Completion, host: Host): (r: CallToolResult)
    requires c.Abrupt? ==> Renderable(c.thrown)
    ensures c.Normal? ==> r == c.result
    ensures c.Abrupt? ==>
      && |r.content| == 1
      && r.isError == Some(true)
      && StartsWith(r.content[0].text, "Error: ")
      && r.content[0].text[|"Error: "|..] == ErrorMessage(c.thrown, host)
  {
    match c
    case Normal(result) => result
    case Abrupt(thrown) => CallToolResult([TextBlock("Error: " + ErrorMessage(thrown, host))], Some(true))
  }

  /** The call-tool request handler. `freshId` is the random token drawn for
      `generate_id`; the other tools ignore it. */
  function Dispatch(name: string, args: Option<Args>, host: Host, freshId: string): (r: CallToolResult)
    ensures |r.content| == 1
    ensures r.isError == None || r.isError == Some(true)
    ensures name !in Names(ListTools().tools) ==>
              r == CallToolResult([TextBlock("Error: Unknown tool: " + name)], Some(true))
  {
    assert "Error: " + ("Unknown tool: " + name) == "Error: Unknown tool: " + name;
    Boundary(Run(name, args, host, freshId), host)
  }

  // ---------------------------------------------------------------- properties

  /** Each discovered descriptor names the dispatcher case of the same position,
      so no listed tool falls to `Unknown tool`. */
  lemma DiscoveryMatchesDispatch()
    ensures Resolve(ListTools().tools[0].name) == Some(CalculateTool)
    ensures Resolve(ListTools().tools[1].name) == Some(GenerateIdTool)
    ensures Resolve(ListTools().tools[2].name) == Some(ReverseTextTool)
    ensures forall d <- ListTools().tools :: Resolve(d.name).Some?
  {
  }

  /** Every operation the `calculate` schema enumerates is a case of its handler:
      on numbers (with a non-zero divisor) it never throws. */
  lemma DeclaredOperationsAreHandled(m: Args, host: Host, op: string, x: real, y: real)
    requires op in Allowed(ListTools().tools[0].inputSchema, "operation").value
    requires Property(m, "operation") == Str(op) && Property(m, "a") == Num(x) && Property(m, "b") == Num(y)
    requires op == "divide" ==> y != 0.0
    ensures Run(ListTools().tools[0].name, Some(m), host, "").Normal?
  {
  }

  /** A response is flagged as an error exactly when its text starts with "Error: ";
      responses that are not flagged leave `isError` unset. */
  lemma ErrorFlagMatchesText(name: string, args: Option<Args>, host: Host, freshId: string)
    ensures var r := Dispatch(name, args, host, freshId);
      r.isError == Some(true) <==> StartsWith(r.content[0].text, "Error: ")
  {
    var c := Run(name, args, host, freshId);
    if c.Normal? {
      NoSuccessTextLooksLikeError(name, args, host, freshId);
    }
  }

  /** Success texts start with "Result: ", "Generated ID: " or "Original: ",
      never with "Error: ". */
  lemma NoSuccessTextLooksLikeError(name: string, args: Option<Args>, host: Host, freshId: string)
    requires Run(name, args, host, freshId).Normal?
    ensures var r := Run(name, args, host, freshId).result;
      && |r.content| == 1
      && r.isError == None
      && !StartsWith(r.content[0].text, "Error: ")
  {
    var text := Run(name, args, host, freshId).result.content[0].text;
    assert text[0] in {'R', 'G', 'O'};
  }

  // ---------------------------------------------------------------- scenarios

  /** `calculate` with add, 2 and 3 answers "Result: 2 add 3 = 5" on a host that
      prints those integers in decimal. */
  lemma AddTwoAndThree(host: Host, freshId: string)
    requires host.numberText(2.0) == "2" && host.numberText(3.0) == "3" && host.numberText(5.0) == "5"
    ensures Dispatch("calculate", Some(map["operation" := Str("add"), "a" := Num(2.0), "b" := Num(3.0)]), host, freshId)
         == CallToolResult([TextBlock("Result: 2 add 3 = 5")], None)
  {
    var m := map["operation" := Str("add"), "a" := Num(2.0), "b" := Num(3.0)];
    CalculateOnNumbers(m, host, "add", 2.0, 3.0);
    assert "Result: " + "2" + " " + "add" + " " + "3" + " = " + "5" == "Result: 2 add 3 = 5";
  }

  /** Dividing by zero is an error response, not a crash. */
  lemma DivideByZeroResponse(x: real, host: Host, freshId: string)
    ensures Dispatch("calculate", Some(map["operation" := Str("divide"), "a" := Num(x), "b" := Num(0.0)]), host, freshId)
         == CallToolResult([TextBlock("Error: Cannot divide by zero")], Some(true))
  {
    var m := map["operation" := Str("divide"), "a" := Num(x), "b" := Num(0.0)];
    CalculateDivideByZero(m, host);
    assert "Error: " + "Cannot divide by zero" == "Error: Cannot divide by zero";
  }

  /** An operation outside the enumeration is an error response naming it. */
  lemma BogusOperationResponse(host: Host, freshId: string)
    ensures Dispatch("calculate", Some(map["operation" := Str("bogus"), "a" := Num(1.0), "b" := Num(1.0)]), host, freshId)
         == CallToolResult([TextBlock("Error: Unknown operation: bogus")], Some(true))
  {
    var m := map["operation" := Str("bogus"), "a" := Num(1.0), "b" := Num(1.0)];
    CalculateUnknownOperation(m, host);
    assert "Unknown operation: " + "bogus" == "Unknown operation: bogus";
    assert "Error: " + "Unknown operation: bogus" == "Error: Unknown operation: bogus";
  }

  /** "abc" reverses to "cba"; the empty text reverses to the empty text. */
  lemma ReverseResponses(host: Host, freshId: string)
    ensures Dispatch("reverse_text", Some(map["text" := Str("abc")]), host, freshId)
         == CallToolResult([TextBlock("Original: abc\nReversed: cba")], None)
    ensures Dispatch("reverse_text", Some(map["text" := Str("")]), host, freshId)
         == CallToolResult([TextBlock("Original: \nReversed: ")], None)
  {
    var abc, empty := map["text" := Str("abc")], map["text" := Str("")];
    ReverseTextOutcome(abc, host);
    ReverseTextOutcome(empty, host);
    assert Reverse("abc") == "cba";
    assert "Original: " + "abc" + "\nReversed: " + "cba" == "Original: abc\nReversed: cba";
    assert "Original: " + "" + "\nReversed: " + "" == "Original: \nReversed: ";
  }

  /** The generated id starts with "x-" for the prefix "x", and is the bare
      token for an empty arguments object; with no arguments object at all the
      call is an error response. */
  lemma GenerateIdResponses(host: Host, freshId: string)
    ensures Dispatch("generate_id", Some(map["prefix" := Str("x")]), host, freshId)
         == CallToolResult([TextBlock("Generated ID: x-" + freshId)], None)
    ensures Dispatch("generate_id", Some(map[]), host, freshId)
         == CallToolResult([TextBlock("Generated ID: " + freshId)], None)
    ensures Dispatch("generate_id", None, host, freshId).isError == Some(true)
  {
    var x := map["prefix" := Str("x")];
    GenerateIdWithPrefix(x, host, freshId, "x");
    GenerateIdWithoutPrefix(map[], host, freshId);
    assert "Generated ID: " + "x" + "-" + freshId == "Generated ID: x-" + freshId;
  }

  /** An object with an own `toString` key cannot be converted to text: as a
      `generate_id` prefix or as a `calculate` operand it makes the call an
      error response carrying the engine's TypeError. */
  lemma ToStringKeyResponses(host: Host, freshId: string)
    ensures var bad := Obj(map["toString" := Num(1.0)]);
      Dispatch("generate_id", Some(map["prefix" := bad]), host, freshId)
      == CallToolResult([TextBlock("Error: " + host.typeErrorMessage(NoPrimitive(bad)))], Some(true))
    ensures var bad := Obj(map["toString" := Num(1.0)]);
      Dispatch("calculate", Some(map["operation" := Str("add"), "a" := bad, "b" := Num(1.0)]), host, freshId)
      == CallToolResult([TextBlock("Error: " + host.typeErrorMessage(NoPrimitive(bad)))], Some(true))
  {
  }
}
