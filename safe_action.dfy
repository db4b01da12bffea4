/** The safe-action envelope: validate the raw input against a schema, and only
    when it parses run the business handler on the parsed value. */
module SafeAction {
  import opened Common

  /** Field name to the list of messages reported for that field. */
  type FieldErrors = map<string, seq<string>>

  /** The result shape every action returns: at most the three optional parts
      `fieldErrors`, `error` and `data`. */
  datatype ActionState<+O> = ActionState(fieldErrors: Option<FieldErrors>, error: Option<string>, data: Option<O>)

  /** What a schema's `safeParse` answers: the flattened field errors, or the
      parsed value. */
  datatype Validation<+I> = ParseFailure(fieldErrors: FieldErrors) | ParseSuccess(data: I)

  /** `{ fieldErrors }` */
  function Rejected<O>(fe: FieldErrors): (r: ActionState<O>)
    ensures r.fieldErrors == Some(fe) && r.error.None? && r.data.None?
  {
    ActionState(Some(fe), None, None)
  }

  /** `{ error: msg }` */
  function Failed<O>(msg: string): (r: ActionState<O>)
    ensures r.error == Some(msg) && r.fieldErrors.None? && r.data.None?
  {
    ActionState(None, Some(msg), None)
  }

  /** `{ data: d }` */
  function Succeeded<O>(d: O): (r: ActionState<O>)
    ensures r.data == Some(d) && r.fieldErrors.None? && r.error.None?
  {
    ActionState(None, None, Some(d))
  }

  /** The action `createSafeAction(schema, handler)` applied to `input`. */
  function Run<I, O>(schema: I -> Validation<I>, handler: I -> ActionState<O>, input: I): (r: ActionState<O>)
    ensures schema(input).ParseFailure? ==>
              r.fieldErrors == Some(schema(input).fieldErrors) && r.error.None? && r.data.None?
    ensures schema(input).ParseSuccess? ==> r == handler(schema(input).data)
  {
    match schema(input)
    case ParseFailure(fe) => Rejected(fe)
    case ParseSuccess(d) => handler(d)
  }

  /** A rejected input never reaches the handler: whatever the handler would
      do, the answer is the same. */
  lemma HandlerNotInvokedOnInvalid<I, O>(schema: I -> Validation<I>, h1: I -> ActionState<O>, h2: I -> ActionState<O>, input: I)
    requires schema(input).ParseFailure?
    ensures Run(schema, h1, input) == Run(schema, h2, input)
  {
  }

  /** The handler sees the parsed value only: two raw inputs that parse to the
      same value get the same answer, and the answer depends on the handler
      only at that parsed value. */
  lemma HandlerSeesParsedDataOnly<I, O>(schema: I -> Validation<I>, h1: I -> ActionState<O>, h2: I -> ActionState<O>, x1: I, x2: I)
    requires schema(x1) == schema(x2)
    requires schema(x1).ParseSuccess? ==> h1(schema(x1).data) == h2(schema(x1).data)
    ensures Run(schema, h1, x1) == Run(schema, h2, x2)
  {
  }
}
