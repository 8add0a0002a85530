/** The renderer's `POST /render` handler: validate the data against the
    template's schema when there is one, turn the first validation error into
    a `precondition-failed` message, and compile only data that passed. The
    schema validator and the template engine are oracles. */
module Renderer {
  import opened Common

  /** The one engine and the one output format the request schema admits. */
  datatype Engine = Ejs
  datatype OutputFormat = Htm

  datatype Template = Template(template: string, renderer: Engine, schema: Option<Record>)

  datatype RenderDto = RenderDto(template: Template, data: Record, output: OutputFormat)

  /** One error of the schema validator: its message and, for an enumerated
      member, the allowed values (`params.allowedValues`). */
  datatype ValidationError = ValidationError(message: string, allowedValues: Option<seq<string>>)

  /** The foreign collaborators: `validate(schema, data)` lists the errors
      (none when the data is valid) and `compile` runs the template engine,
      yielding `None` when the engine throws (a template syntax error, or an
      error raised while evaluating the template against the data). */
  datatype Collaborators = Collaborators(
    validate: (Record, Record) -> seq<ValidationError>,
    compile: (string, Record, Engine, OutputFormat) -> Option<string>)

  /** The success envelope `{meta: {status}, data}`. */
  datatype Reply = Reply(status: nat, data: string)

  const Insufficient: string :=
    "The data provided was " + "insufficient" +
    " to render the presentation using the specified template: the 'data' field "

  /** `values.join(sep)`. */
  function Join(values: seq<string>, sep: string): (r: string)
    ensures |values| == 0 ==> r == ""
    ensures |values| == 1 ==> r == values[0]
    ensures |values| > 0 ==> OccursAt(values[0], r, 0)
  {
    if |values| == 0 then ""
    else if |values| == 1 then values[0]
    else values[0] + sep + Join(values[1..], sep)
  }

  /** Joining one more value appends the separator and that value. */
  lemma {:induction false} JoinSnoc(values: seq<string>, v: string, sep: string)
    requires |values| > 0
    ensures Join(values + [v], sep) == Join(values, sep) + sep + v
  {
    if |values| == 1 {
      assert (values + [v])[1..] == [v];
    } else {
      assert (values + [v])[1..] == values[1..] + [v];
      JoinSnoc(values[1..], v, sep);
    }
  }

  /** The list of allowed values appended to the message, when there is one. */
  function Addendum(values: Option<seq<string>>): (r: string)
    ensures values.None? <==> r == ""
    ensures values.Some? ==> |r| == |Join(values.value, ", ")| + 3
    ensures values.Some? ==>
              OccursAt(" (", r, 0) && OccursAt(Join(values.value, ", "), r, 2) && r[|r| - 1] == ')'
  {
    if values.None? then "" else " (" + Join(values.value, ", ") + ")"
  }

  /** The message of the `precondition-failed` error for a validation error. */
  function FailureMessage(e: ValidationError): (m: string)
    ensures OccursAt(Insufficient, m, 0)
    ensures OccursAt(e.message, m, |Insufficient|)
    ensures e.allowedValues.None? ==> |m| == |Insufficient| + |e.message|
    ensures e.allowedValues.Some? ==> OccursAt(Addendum(e.allowedValues), m, |Insufficient| + |e.message|)
    ensures |m| == |Insufficient| + |e.message| + |Addendum(e.allowedValues)|
  {
    var m := Insufficient + e.message + Addendum(e.allowedValues);
    assert m[..|Insufficient|] == Insufficient;
    assert m[|Insufficient|..|Insufficient| + |e.message|] == e.message;
    assert m[|Insufficient| + |e.message|..] == Addendum(e.allowedValues);
    m
  }

  /** Every such message says the data was insufficient. */
  lemma FailureMessageSaysInsufficient(e: ValidationError)
    ensures OccursAt("insufficient", FailureMessage(e), 22)
  {
    var m := FailureMessage(e);
    assert m[..|Insufficient|] == Insufficient;
    assert m[22..34] == Insufficient[22..34] == "insufficient";
  }

  /** The template has a schema and the data does not satisfy it. */
  predicate Rejected(dto: RenderDto, validate: (Record, Record) -> seq<ValidationError>)
  {
    dto.template.schema.Some? && |validate(dto.template.schema.value, dto.data)| > 0
  }

  /** What the engine makes of the request. */
  function Compiled(dto: RenderDto, services: Collaborators): Option<string>
  {
    services.compile(dto.template.template, dto.data, dto.template.renderer, dto.output)
  }

  /** `render`. */
  function Render(dto: RenderDto, services: Collaborators): (r: Result<Reply>)
    ensures r.Err? <==> Rejected(dto, services.validate) || Compiled(dto, services).None?
    ensures Rejected(dto, services.validate) ==>
              r == Err(ServerError(PreconditionFailed,
                                   FailureMessage(services.validate(dto.template.schema.value, dto.data)[0])))
    ensures !Rejected(dto, services.validate) && Compiled(dto, services).None? ==> r == Err(Uncaught)
    ensures r.Ok? ==> r.value.status == 200 && Some(r.value.data) == Compiled(dto, services)
  {
    if Rejected(dto, services.validate) then
      var errors := services.validate(dto.template.schema.value, dto.data);
      Err(ServerError(PreconditionFailed, FailureMessage(errors[0])))
    else
      match Compiled(dto, services)
      case None => Err(Uncaught)
      case Some(output) => Ok(Reply(200, output))
  }

  /** Data that fails validation never reaches the engine: the outcome does
      not depend on `compile`. */
  lemma RejectedDataIsNotCompiled(dto: RenderDto, validate: (Record, Record) -> seq<ValidationError>,
                                  compile1: (string, Record, Engine, OutputFormat) -> Option<string>,
                                  compile2: (string, Record, Engine, OutputFormat) -> Option<string>)
    requires Rejected(dto, validate)
    ensures Render(dto, Collaborators(validate, compile1)) == Render(dto, Collaborators(validate, compile2))
  {
  }

  /** Without a schema the validator is never consulted: rendering succeeds
      exactly when the engine does not throw. */
  lemma NoSchemaNoValidation(dto: RenderDto, validate1: (Record, Record) -> seq<ValidationError>,
                             validate2: (Record, Record) -> seq<ValidationError>,
                             compile: (string, Record, Engine, OutputFormat) -> Option<string>)
    requires dto.template.schema.None?
    ensures Render(dto, Collaborators(validate1, compile)) == Render(dto, Collaborators(validate2, compile))
    ensures Render(dto, Collaborators(validate1, compile)).Ok? <==> Compiled(dto, Collaborators(validate1, compile)).Some?
  {
  }
}
