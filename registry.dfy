/**
  The static tool registry served by discovery: three descriptors, each with a
  name, a description and an object-shaped input schema.
 */
module Registry {

  import opened Wrappers

  /** A JSON-schema node as the descriptors declare it. */
  datatype SchemaNode =
    | ObjectNode(properties: seq<Field>, required: Option<seq<string>>)
    | StringNode(allowed: Option<seq<string>>, description: string)
    | NumberNode(description: string)

  /** One entry of an object schema's `properties`, in declaration order. */
  datatype Field = Field(name: string, schema: SchemaNode)

  datatype ToolDescriptor = ToolDescriptor(name: string, description: string, inputSchema: SchemaNode)

  /** The discovery response `{ tools: [...] }`. */
  datatype ListToolsResult = ListToolsResult(tools: seq<ToolDescriptor>)

  /** The operations the `calculate` schema enumerates, in declaration order. */
  function Operations(): seq<string>
  {
    ["add", "subtract", "multiply", "divide"]
  }

  const CalculateDescriptor: ToolDescriptor :=
    ToolDescriptor(
      "calculate",
      "Performs basic math calculations (add, subtract, multiply, divide)",
      ObjectNode(
        [ Field("operation", StringNode(Some(Operations()), "The math operation to perform")),
          Field("a", NumberNode("First number")),
          Field("b", NumberNode("Second number")) ],
        Some(["operation", "a", "b"])))

  const GenerateIdDescriptor: ToolDescriptor :=
    ToolDescriptor(
      "generate_id",
      "Generates a random unique ID",
      ObjectNode([ Field("prefix", StringNode(None, "Optional prefix for the ID")) ], None))

  const ReverseTextDescriptor: ToolDescriptor :=
    ToolDescriptor(
      "reverse_text",
      "Reverses the given text string",
      ObjectNode([ Field("text", StringNode(None, "The text to reverse")) ], Some(["text"])))

  /** The names of a descriptor list, position by position. */
  function Names(tools: seq<ToolDescriptor>): (names: seq<string>)
    ensures |names| == |tools|
    ensures forall i :: 0 <= i < |tools| ==> names[i] == tools[i].name
  {
    if tools == [] then [] else [tools[0].name] + Names(tools[1..])
  }

  /** The names of an object schema's fields, in declaration order. */
  function FieldNames(fields: seq<Field>): seq<string>
  {
    seq(|fields|, i requires 0 <= i < |fields| => fields[i].name)
  }

  predicate Distinct(xs: seq<string>)
  {
    forall i, j :: 0 <= i < j < |xs| ==> xs[i] != xs[j]
  }

  /** The required field names of a schema; an absent `required` list requires nothing. */
  function Required(schema: SchemaNode): seq<string>
  {
    if schema.ObjectNode? && schema.required.Some? then schema.required.value else []
  }

  /** The `enum` of the string field `name` of an object schema, if it declares one. */
  function Allowed(schema: SchemaNode, name: string): Option<seq<string>>
  {
    if schema.ObjectNode? then FieldEnum(schema.properties, name) else None
  }

  function FieldEnum(fields: seq<Field>, name: string): Option<seq<string>>
  {
    if fields == [] then None
    else if fields[0].name == name then
      (if fields[0].schema.StringNode? then fields[0].schema.allowed else None)
    else FieldEnum(fields[1..], name)
  }

  /** An input schema describes an object whose field names are distinct and
      whose required fields are all declared. */
  predicate WellFormedSchema(schema: SchemaNode)
  {
    && schema.ObjectNode?
    && Distinct(FieldNames(schema.properties))
    && forall r <- Required(schema) :: r in FieldNames(schema.properties)
  }

  /** The discovery responder: the fixed, ordered descriptor list. */
  function ListTools(): (r: ListToolsResult)
    ensures |r.tools| == 3
    ensures Names(r.tools) == ["calculate", "generate_id", "reverse_text"]
    ensures Distinct(Names(r.tools))
    ensures forall d <- r.tools :: WellFormedSchema(d.inputSchema)
    ensures r.tools[0].inputSchema.ObjectNode? && FieldNames(r.tools[0].inputSchema.properties) == ["operation", "a", "b"]
    ensures Required(r.tools[0].inputSchema) == ["operation", "a", "b"]
    ensures Allowed(r.tools[0].inputSchema, "operation") == Some(Operations())
    ensures r.tools[1].inputSchema.ObjectNode? && r.tools[1].inputSchema.required == None && Required(r.tools[1].inputSchema) == []
    ensures r.tools[1].inputSchema.ObjectNode? && FieldNames(r.tools[1].inputSchema.properties) == ["prefix"]
    ensures r.tools[2].inputSchema.ObjectNode? && FieldNames(r.tools[2].inputSchema.properties) == ["text"]
    ensures Required(r.tools[2].inputSchema) == ["text"]
  {
    assert FieldNames(CalculateDescriptor.inputSchema.properties) == ["operation", "a", "b"];
    assert FieldNames(GenerateIdDescriptor.inputSchema.properties) == ["prefix"];
    assert FieldNames(ReverseTextDescriptor.inputSchema.properties) == ["text"];
    ListToolsResult([CalculateDescriptor, GenerateIdDescriptor, ReverseTextDescriptor])
  }
}
