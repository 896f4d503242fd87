# Tool dispatch engine of `my-mcp-server`, modelled in Dafny

`my-mcp-server` is a Model Context Protocol server with three tools. It answers
two requests:

- **list tools** (discovery). It returns a fixed, ordered list of three tool
  descriptors: `calculate`, `generate_id` and `reverse_text`. Each descriptor
  carries a JSON input schema.
- **call tool**. It switches on the tool name and runs that tool's handler
  inside one `try`/`catch`. Anything the handler throws, and any unknown tool
  name, comes back as a single text block `"Error: <message>"` with
  `isError: true`. A successful call comes back as a single text block with
  `isError` not set.

The model is pure, like the source: datatypes, functions and lemmas.

- `wrappers.dfy`: `Option`.
- `js_values.dfy`: the JavaScript values a handler can receive. It also holds
  the bits of JavaScript semantics the handlers use: property access that gives
  `undefined` for a missing key, template-literal interpolation (`Show`,
  `Join`) and truthiness. Behaviour that belongs to the JavaScript engine rather
  than to this program comes in through a `Host` record of functions:
  - `numberText` stands for `Number.prototype.toString`.
  - `looseArithmetic` gives the text of `a op b` when an operand is not a
    number (implicit coercion).
  - `typeErrorMessage` gives the engine's wording of a TypeError.
- `registry.dfy`: the descriptors, their schemas and `ListTools`.
- `handlers.dfy`: the three handlers. Each returns a `Completion`, which is
  either a returned response or a thrown value.
- `dispatcher.dfy`: the name switch (`Resolve`), the `try` body (`Run`), the
  `catch` clause (`Boundary`) and `Dispatch`.

The model follows what the code does with arguments. The handlers only cast
`args`; they do not validate it.

- `calculate` with an enumerated operation but a missing or non-number operand
  still succeeds, provided both operands convert to a primitive and, for
  `divide`, `b` is not 0. Its result text
  then comes from JavaScript coercion. The schema lists `a` and `b` as required,
  but `CalculateMissingOperandSucceeds` shows that the handler does not enforce
  this.
- Converting a value to a string or to a number can itself throw. `HasPrimitive`
  says when it does not. An object from JSON with an own `toString` key has a
  `toString` that cannot be called, and its `valueOf` gives back the object, so
  the conversion throws a TypeError. An array converts exactly when each of its
  elements does. Such a value used as a `calculate` operand, as an unknown
  `operation`, or as a `generate_id` prefix makes the call an error response.
- The divide-by-zero check `b === 0` runs before `a` is looked at.
- `reverse_text` with a `text` that is not a string fails with a TypeError from
  `text.split`.
- A call with no `arguments` object makes every handler fail while
  destructuring it. That includes `generate_id`, even though it has no required
  field.

## Model

| member | source | states |
|---|---|---|
| `Registry.ListTools` | src/index.ts:22-77 | Exactly three descriptors, named `calculate`, `generate_id`, `reverse_text` in that order. The names are pairwise distinct. Every input schema is an object whose field names are distinct and whose required fields are all declared. The schemas declare exactly the fields `operation`, `a`, `b`; `prefix`; and `text`, in that order. `calculate` requires `operation`, `a`, `b` and limits `operation` to add, subtract, multiply, divide. `generate_id` has no `required` list. `reverse_text` requires `text`. |
| `Registry.Names` | src/index.ts:24-75 | The discovery names are the descriptors' names, position by position. |
| `Dispatcher.Resolve` | src/index.ts:84-149 | A name reaches a handler case exactly when it is one of the discovered tool names. Any other name falls to `default`. |
| `Dispatcher.Run` | src/index.ts:84-150 | The `try` body throws only Error objects. A name outside the switch throws `Unknown tool: <name>`. |
| `Dispatcher.Dispatch` | src/index.ts:80-163 | Every call returns exactly one response with exactly one text block. `isError` is either unset or `true`. A name outside the registry gives `"Error: Unknown tool: " + name` with `isError: true`. |
| `Dispatcher.DiscoveryMatchesDispatch` | src/index.ts:22-150 | The i-th discovered descriptor resolves to the i-th switch case, so no listed tool ends in `Unknown tool`. |
| `Dispatcher.DeclaredOperationsAreHandled` | src/index.ts:31-107 | Every operation in the `calculate` schema's enum is a case of the handler. On numbers, with a non-zero divisor for divide, the handler returns normally. |
| `Dispatcher.Boundary` | src/index.ts:151-162 | The catch clause passes a returned response through unchanged. A thrown value becomes exactly one text block, starting with `"Error: "` and followed by the message, with `isError: true`. `ErrorMessage` gives `error.message` for an Error object and `String(error)` for anything else (src/index.ts:152). |
| `Dispatcher.ErrorFlagMatchesText` | src/index.ts:109-161 | A dispatched response has `isError: true` if and only if its text starts with `"Error: "`. |
| `Dispatcher.NoSuccessTextLooksLikeError` | src/index.ts:109-145 | A normal return from a handler has one text block, leaves `isError` unset, and its text does not start with `"Error: "`. |
| `Dispatcher.AddTwoAndThree` | src/index.ts:89-116 | With a host that prints 2, 3 and 5 in decimal, `calculate` with add, 2, 3 answers `Result: 2 add 3 = 5`. |
| `Dispatcher.DivideByZeroResponse` | src/index.ts:99-161 | Dividing by zero gives the response `Error: Cannot divide by zero` with `isError: true`. |
| `Dispatcher.BogusOperationResponse` | src/index.ts:105-161 | The operation `bogus` gives `Error: Unknown operation: bogus` with `isError: true`. |
| `Dispatcher.ReverseResponses` | src/index.ts:134-146 | `abc` is answered with its reversal `cba`. The empty text succeeds with an empty reversal. |
| `Dispatcher.GenerateIdResponses` | src/index.ts:119-161 | With prefix `x` the id is `x-` followed by the token. With `{}` it is the bare token. With no arguments object the response is an error. |
| `Dispatcher.ToStringKeyResponses` | src/index.ts:91-161 | Take `{toString: 1}`. As a `generate_id` prefix, or as the `a` of an add, it yields `Error: ` followed by the engine's TypeError text, with `isError: true`. |
| `Handlers.Reverse` | src/index.ts:136 | The reversal has the length of the text, and its k-th character is the text's (n-1-k)-th. |
| `Handlers.ReverseInvolutive` | src/index.ts:136 | Reversing twice gives back the original text. |
| `Handlers.Calculate` | src/index.ts:85-116 | The call returns normally exactly when all of these hold: the arguments object exists, the operation is one of the four strings, it is not divide with `b` equal to 0, and both `a` and `b` convert to primitives. Otherwise it throws an Error object. A normal return is one unflagged text block starting `Result: `. |
| `Handlers.ParseOperation` | src/index.ts:89-107 | The inner switch matches exactly the four strings add, subtract, multiply and divide, each by strict equality with its own case label. |
| `Handlers.Arithmetic` | src/index.ts:90-104 | The result of each operation is characterized by its inverse: sum minus `b` is `a`, difference plus `b` is `a`, quotient times `b` is `a`, and product divided by a non-zero `b` is `a`. A product with `b` equal to 0 is 0. |
| `Handlers.ResultText` | src/index.ts:90-113 | The `${result}` text. On two numbers it renders the exact arithmetic result. Otherwise it is the host's implicit coercion. Its contract is stated by `Handlers.CalculateOnNumbers` and `Handlers.CalculateMissingOperandSucceeds`. |
| `Handlers.GenerateId` | src/index.ts:119-131 | The call returns normally exactly when the arguments object exists and a truthy prefix converts to text. Otherwise it throws an Error object. The text starts `Generated ID: ` and ends with the id. |
| `Handlers.FullId` | src/index.ts:122 | The prefix join. Its contract is stated by `Handlers.GenerateIdWithPrefix` and `Handlers.GenerateIdWithoutPrefix`. |
| `Handlers.ReverseText` | src/index.ts:134-146 | The call returns normally exactly when the arguments object exists and `text` is a string. Otherwise it throws an Error object. The text starts `Original: `. |
| `Handlers.CalculateOperandWithoutPrimitive` | src/index.ts:90-104 | An operand that does not convert to a primitive makes the arithmetic throw a TypeError, with `a` converted before `b`. The zero-divisor test comes first. |
| `Handlers.GenerateIdPrefixWithoutPrimitive` | src/index.ts:122 | A prefix that does not convert to text makes the template literal throw a TypeError. |
| `Handlers.CalculateDivideByZero` | src/index.ts:99-102 | `divide` with `b` equal to 0 throws `Cannot divide by zero`, whatever `a` is. |
| `Handlers.CalculateUnknownOperation` | src/index.ts:105-106 | An operation other than the four strings throws `Unknown operation: ` followed by the operation as text. This covers non-string operations and a missing one (`undefined`). An operation that does not convert to text throws a TypeError instead. |
| `Handlers.CalculateOnNumbers` | src/index.ts:86-116 | With numeric `a`, `b` and an enumerated operation (a non-zero divisor for divide), the handler returns `Result: a op b = result`. The result is `a+b`, `a-b`, `a*b` or `a/b`. |
| `Handlers.CalculateMissingOperandSucceeds` | src/index.ts:86-116 | With an enumerated operation and `a` missing, the handler still succeeds, with a text that starts `Result: undefined op b =`. This holds whenever `b` converts and is not a zero divisor for divide. |
| `Handlers.GenerateIdWithPrefix` | src/index.ts:119-131 | A non-empty string prefix gives `Generated ID: prefix-id`. |
| `Handlers.GenerateIdWithoutPrefix` | src/index.ts:120-131 | A falsy prefix (absent, `null`, `false`, `0` or `""`) gives `Generated ID: id`. |
| `Handlers.ReverseTextOutcome` | src/index.ts:134-146 | A string `text` gives `Original: text\nReversed: reversal`. Any other `text` throws the TypeError of `text.split`. |
| `Handlers.HandlersNeedArguments` | src/index.ts:86-135 | With no arguments object, each handler throws the TypeError for destructuring its first field. |
| `JsValues.StringTruthiness` | src/index.ts:122 | A string prefix is truthy exactly when it is non-empty. |
| `JsValues.FalsyHasPrimitive` | src/index.ts:122 | Only arrays and objects can fail to convert, and both are truthy, so a falsy prefix never reaches the conversion. |
| `JsValues.HasPrimitive` | src/index.ts:91-122 | When converting a value to a primitive succeeds: always, except for an object with an own `toString` key, or an array containing such an object at any depth. |
| `JsValues.Show` | src/index.ts:113 | Template-literal interpolation, as used at src/index.ts:106, 113, 122, 128 and 142. It is defined only where `HasPrimitive` holds. It gives `undefined`, `null`, `true`/`false`, the host's number text, the string itself, the comma-joined elements (`Join`), or `[object Object]`. |
| `JsValues.Truthy` | src/index.ts:122 | JavaScript truthiness, as used by the prefix test. Its contract is stated by `JsValues.StringTruthiness`. |
| `JsValues.Property` | src/index.ts:86 | Destructuring reads a missing field as `undefined`, as also happens at src/index.ts:120 and 135. |

## Left out

- SDK wiring and process lifetime are not modelled. That covers the `Server` construction, handler registration, the stdio transport, `main`, logging and `process.exit(1)` (src/index.ts:1-19, 166-175). They are transport plumbing and calls into a library that is not part of this model.
- The MCP SDK's validation of the request envelope is not part of this model. The model assumes what that validation guarantees: `arguments` is either absent or an object. No JSON-schema validation of arguments is assumed, because the handler only casts them.
- The random id is not drawn here. The source takes up to 13 base-36 digits of a `Math.random()` float (src/index.ts:121). `Dispatch` takes it as the opaque string `freshId`. Nothing is said about its alphabet, its length or its uniqueness.
- Numbers are exact rationals (`real`). IEEE-754 rounding, overflow to `Infinity` and `NaN` are not modelled.
- Number-to-text rendering (`Number.prototype.toString`) is an input: `Host.numberText`.
- JavaScript's implicit coercion when a `calculate` operand is not a number (string concatenation, `NaN`) is an input: `Host.looseArithmetic`. The response shape and the operands' own text are still modelled.
- The engine's TypeError wording is an input: `Host.typeErrorMessage`, keyed by which fault occurred.
- `Handlers.Reverse`: reverses the characters of a Dafny string. `split("")` works on UTF-16 code units, so for text outside the Basic Multilingual Plane the source splits surrogate pairs, and the model does not.
- `Dispatcher.Boundary`: requires a thrown value it can render. In JavaScript, `String(error)` inside the catch clause would itself throw for a non-Error value that does not convert to text, and that failure would escape the boundary. The model does not capture that escape. `Dispatcher.Run` is proved to throw only Error objects, so no call from this server reaches it.
- `async`/Promise semantics are not modelled. Each handler runs to completion with no suspension inside it.
- Discovery being stable across calls is not stated as a lemma. It holds because `ListTools` is a function with no inputs.
