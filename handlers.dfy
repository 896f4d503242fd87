/**
  The three leaf handlers of the call dispatcher (`calculate`, `generate_id`,
  `reverse_text`), each run inside the dispatcher's `try` block. A handler
  either returns a call result or throws; both are values here.
 */
module Handlers {

  import opened Wrappers
  import opened JsValues
  import opened Registry

  /** A content block `{ type: "text", text }`, the only kind this server produces. */
  datatype ContentBlock = TextBlock(text: string)

  /** The call-tool response; `isError` is `None` when the field is not set. */
  datatype CallToolResult = CallToolResult(content: seq<ContentBlock>, isError: Option<bool>)

  /** A thrown value: an Error object carries a message, anything else is a plain value. */
  datatype Thrown = ErrorObject(message: string) | NonError(value: Value)

  /** How the `try` block ends: by returning a response or by throwing. */
  datatype Completion = Normal(result: CallToolResult) | Abrupt(thrown: Thrown)

  /** A success response: one text block, `isError` not set. */
  function TextResult(text: string): CallToolResult
  {
    CallToolResult([TextBlock(text)], None)
  }

  predicate StartsWith(s: string, prefix: string)
  {
    |prefix| <= |s| && s[..|prefix|] == prefix
  }

  /** A success response whose one text block starts with `lead`. */
  predicate TextStartingWith(r: CallToolResult, lead: string)
  {
    |r.content| == 1 && r.isError == None && StartsWith(r.content[0].text, lead)
  }

  function TypeError(fault: TypeFault, host: Host): Completion
  {
    Abrupt(ErrorObject(host.typeErrorMessage(fault)))
  }

  // ---------------------------------------------------------------- calculate

  datatype Operation = Add | Subtract | Multiply | Divide

  /** The cases of the inner `switch (operation)`: strict equality with a string literal. */
  function ParseOperation(v: Value): (op: Option<Operation>)
    ensures op.Some? <==> v.Str? && v.s in Operations()
    ensures op.Some? ==> v == Str(OperationName(op.value))
  {
    match v
    case Str(s) =>
      if s == "add" then Some(Add)
      else if s == "subtract" then Some(Subtract)
      else if s == "multiply" then Some(Multiply)
      else if s == "divide" then Some(Divide)
      else None
    case _ => None
  }

  function OperationName(op: Operation): string
  {
    match op
    case Add => "add"
    case Subtract => "subtract"
    case Multiply => "multiply"
    case Divide => "divide"
  }

  /** Exact arithmetic on two numbers; division is reached only with a non-zero divisor. */
  function Arithmetic(op: Operation, x: real, y: real): (r: real)
    requires op == Divide ==> y != 0.0
    ensures op == Add ==> r - y == x
    ensures op == Subtract ==> r + y == x
    ensures op == Multiply && y != 0.0 ==> r / y == x
    ensures op == Multiply && y == 0.0 ==> r == 0.0
    ensures op == Divide ==> r * y == x
  {
    match op
    case Add => x + y
    case Subtract => x - y
    case Multiply => x * y
    case Divide => x / y
  }

  /** The text of `${result}`: exact when both operands are numbers, the host's
      implicit coercion otherwise. */
  function ResultText(op: Operation, a: Value, b: Value, host: Host): string
    requires op == Divide ==> b != Num(0.0)
  {
    if a.Num? && b.Num? then host.numberText(Arithmetic(op, a.n, b.n))
    else host.looseArithmetic(OperationName(op), a, b)
  }

  /** The `calculate` case. The order of the checks is the source's: the
      destructuring, the operation switch, the zero-divisor test on `b` alone, then
      the conversion of `a` and of `b` by the arithmetic operator. */
  function Calculate(args: Option<Args>, host: Host): (c: Completion)
    ensures c.Abrupt? ==> c.thrown.ErrorObject?
    ensures c.Normal? <==>
      && args.Some?
      && ParseOperation(Property(args.value, "operation")).Some?
      && !(Property(args.value, "operation") == Str("divide") && Property(args.value, "b") == Num(0.0))
      && HasPrimitive(Property(args.value, "a"))
      && HasPrimitive(Property(args.value, "b"))
    ensures c.Normal? ==> TextStartingWith(c.result, "Result: ")
  {
    match args
    case None => TypeError(CannotDestructure("operation"), host)
    case Some(m) =>
      var operation, a, b := Property(m, "operation"), Property(m, "a"), Property(m, "b");
      match ParseOperation(operation)
      case None =>
        if HasPrimitive(operation) then Abrupt(ErrorObject("Unknown operation: " + Show(operation, host)))
        else TypeError(NoPrimitive(operation), host)
      case Some(op) =>
        if op == Divide && b == Num(0.0) then Abrupt(ErrorObject("Cannot divide by zero"))
        else if !HasPrimitive(a) then TypeError(NoPrimitive(a), host)
        else if !HasPrimitive(b) then TypeError(NoPrimitive(b), host)
        else
          var text := "Result: " + Show(a, host) + " " + OperationName(op) + " " + Show(b, host)
                      + " = " + ResultText(op, a, b, host);
          assert text == "Result: " + (Show(a, host) + " " + OperationName(op) + " " + Show(b, host)
                                       + " = " + ResultText(op, a, b, host));
          Normal(TextResult(text))
  }

  // -------------------------------------------------------------- generate_id

  /** `prefix ? `${prefix}-${id}` : id`. */
  function FullId(prefix: Value, id: string, host: Host): string
    requires Truthy(prefix) ==> HasPrimitive(prefix)
  {
    if Truthy(prefix) then Show(prefix, host) + "-" + id else id
  }

  /** The `generate_id` case. `id` stands for the random token the source draws;
      it is an input here. The id always ends the response text. */
  function GenerateId(args: Option<Args>, host: Host, id: string): (c: Completion)
    ensures c.Abrupt? ==> c.thrown.ErrorObject?
    ensures c.Normal? <==>
      args.Some? && (Truthy(Property(args.value, "prefix")) ==> HasPrimitive(Property(args.value, "prefix")))
    ensures c.Normal? ==>
      && TextStartingWith(c.result, "Generated ID: ")
      && var text := c.result.content[0].text;
         |id| <= |text| && text[|text| - |id|..] == id
  {
    match args
    case None => TypeError(CannotDestructure("prefix"), host)
    case Some(m) =>
      var prefix := Property(m, "prefix");
      if Truthy(prefix) && !HasPrimitive(prefix) then TypeError(NoPrimitive(prefix), host)
      else
        var fullId := FullId(prefix, id, host);
        assert fullId[|fullId| - |id|..] == id;
        assert ("Generated ID: " + fullId)[..|"Generated ID: "|] == "Generated ID: ";
        Normal(TextResult("Generated ID: " + fullId))
  }

  // ------------------------------------------------------------- reverse_text

  /** `text.split("").reverse().join("")`: the characters in reverse order. */
  function Reverse(s: string): (r: string)
    ensures |r| == |s|
    ensures forall k :: 0 <= k < |s| ==> r[k] == s[|s| - 1 - k]
  {
    if s == [] then [] else Reverse(s[1..]) + [s[0]]
  }

  /** The `reverse_text` case: it succeeds exactly when `text` is a string. */
  function ReverseText(args: Option<Args>, host: Host): (c: Completion)
    ensures c.Abrupt? ==> c.thrown.ErrorObject?
    ensures c.Normal? <==> args.Some? && Property(args.value, "text").Str?
    ensures c.Normal? ==> TextStartingWith(c.result, "Original: ")
  {
    match args
    case None => TypeError(CannotDestructure("text"), host)
    case Some(m) =>
      match Property(m, "text")
      case Str(text) => Normal(TextResult("Original: " + text + "\nReversed: " + Reverse(text)))
      case other => TypeError(NotSplittable(other), host)
  }

  // ---------------------------------------------------------------- properties

  /** Reversing twice gives back the original text. */
  lemma ReverseInvolutive(s: string)
    ensures Reverse(Reverse(s)) == s
  {
  }

  /** With the operation `divide` and a divisor equal to zero, `calculate` throws
      "Cannot divide by zero", whatever the first operand is. */
  lemma CalculateDivideByZero(m: Args, host: Host)
    requires Property(m, "operation") == Str("divide") && Property(m, "b") == Num(0.0)
    ensures Calculate(Some(m), host) == Abrupt(ErrorObject("Cannot divide by zero"))
  {
  }

  /** An operation outside the four enumerated strings throws "Unknown operation: "
      followed by the operation as text, and nothing else is consulted; an
      operation that cannot be converted to text throws a TypeError instead. */
  lemma CalculateUnknownOperation(m: Args, host: Host)
    requires !(Property(m, "operation").Str? && Property(m, "operation").s in Operations())
    ensures var operation := Property(m, "operation");
      HasPrimitive(operation) ==>
        Calculate(Some(m), host) == Abrupt(ErrorObject("Unknown operation: " + Show(operation, host)))
    ensures !HasPrimitive(Property(m, "operation")) ==>
      Calculate(Some(m), host) == TypeError(NoPrimitive(Property(m, "operation")), host)
  {
  }

  /** On two numbers an enumerated operation (a divide with a non-zero divisor)
      succeeds with "Result: a op b = result", where result is the sum,
      difference, product or quotient. */
  lemma CalculateOnNumbers(m: Args, host: Host, op: string, x: real, y: real)
    requires op in Operations()
    requires Property(m, "operation") == Str(op) && Property(m, "a") == Num(x) && Property(m, "b") == Num(y)
    requires op == "divide" ==> y != 0.0
    ensures
      var result :=
        if op == "add" then x + y
        else if op == "subtract" then x - y
        else if op == "multiply" then x * y
        else x / y;
      Calculate(Some(m), host)
      == Normal(TextResult("Result: " + host.numberText(x) + " " + op + " " + host.numberText(y)
                           + " = " + host.numberText(result)))
  {
  }

  /** The handler does not enforce the schema's required operands: with an
      enumerated operation and a missing `a` it still succeeds, as long as `b`
      converts and is not a zero divisor. */
  lemma CalculateMissingOperandSucceeds(m: Args, host: Host, op: string)
    requires op in Operations()
    requires Property(m, "operation") == Str(op) && "a" !in m
    requires op == "divide" ==> Property(m, "b") != Num(0.0)
    requires HasPrimitive(Property(m, "b"))
    ensures Calculate(Some(m), host)
         == Normal(TextResult("Result: undefined " + op + " " + Show(Property(m, "b"), host)
                              + " = " + host.looseArithmetic(op, Undefined, Property(m, "b"))))
  {
    assert "Result: " + Show(Undefined, host) + " " == "Result: undefined ";
  }

  /** An operand that cannot be converted to a primitive makes the arithmetic
      throw a TypeError; `a` is converted before `b`. */
  lemma CalculateOperandWithoutPrimitive(m: Args, host: Host, op: string)
    requires op in Operations()
    requires Property(m, "operation") == Str(op)
    requires !(op == "divide" && Property(m, "b") == Num(0.0))
    requires !HasPrimitive(Property(m, "a")) || !HasPrimitive(Property(m, "b"))
    ensures var a, b := Property(m, "a"), Property(m, "b");
      Calculate(Some(m), host) == TypeError(NoPrimitive(if HasPrimitive(a) then b else a), host)
  {
  }

  /** A non-empty string prefix is joined to the id with "-". */
  lemma GenerateIdWithPrefix(m: Args, host: Host, id: string, prefix: string)
    requires Property(m, "prefix") == Str(prefix) && prefix != ""
    ensures GenerateId(Some(m), host, id) == Normal(TextResult("Generated ID: " + prefix + "-" + id))
  {
    assert FullId(Str(prefix), id, host) == prefix + "-" + id;
    assert "Generated ID: " + (prefix + "-" + id) == "Generated ID: " + prefix + "-" + id;
  }

  /** A falsy prefix (absent, null, false, 0 or empty) leaves the id unchanged. */
  lemma GenerateIdWithoutPrefix(m: Args, host: Host, id: string)
    requires !Truthy(Property(m, "prefix"))
    ensures GenerateId(Some(m), host, id) == Normal(TextResult("Generated ID: " + id))
  {
  }

  /** A prefix that cannot be converted to text makes the template literal
      throw a TypeError. */
  lemma GenerateIdPrefixWithoutPrimitive(m: Args, host: Host, id: string)
    requires !HasPrimitive(Property(m, "prefix"))
    ensures GenerateId(Some(m), host, id) == TypeError(NoPrimitive(Property(m, "prefix")), host)
  {
  }

  /** With a string `text` (the empty one included) `reverse_text` succeeds with the
      original and its reversal; any other `text` is a TypeError. */
  lemma ReverseTextOutcome(m: Args, host: Host)
    ensures Property(m, "text").Str? ==>
      (var text := Property(m, "text").s;
       ReverseText(Some(m), host) == Normal(TextResult("Original: " + text + "\nReversed: " + Reverse(text))))
    ensures !Property(m, "text").Str? ==>
              ReverseText(Some(m), host) == TypeError(NotSplittable(Property(m, "text")), host)
  {
  }

  /** Without an arguments object every handler fails while destructuring it. */
  lemma HandlersNeedArguments(host: Host, id: string)
    ensures Calculate(None, host) == TypeError(CannotDestructure("operation"), host)
    ensures GenerateId(None, host, id) == TypeError(CannotDestructure("prefix"), host)
    ensures ReverseText(None, host) == TypeError(CannotDestructure("text"), host)
  {
  }
}
