/**
 * The request and response shapes of the API and their validation
 * (backend/models/schemas.py): which fields a payload must carry, which it may
 * omit and what an omitted field defaults to.
 */
module Schemas {
  import opened Wrappers
  import opened Database

  /** A field of a JSON payload: left out, sent as null, or sent with a value. */
  datatype Field<+T> = Absent | Null | Value(v: T)
  {
    /** The value a nullable attribute has after this field is written over
        `current`: an absent field leaves it, null clears it. */
    function Over(current: Option<T>): Option<T>
    {
      match this
      case Absent => current
      case Null => None
      case Value(v) => Some(v)
    }
  }

  /** A create payload as received; categories are still raw strings. */
  datatype CreatePayload = CreatePayload(titolo: Field<string>, categoria: Field<string>, dettagli: Field<string>)

  /** A patch payload as received; categories are still raw strings. */
  datatype UpdatePayload = UpdatePayload(
    titolo: Field<string>, categoria: Field<string>, dettagli: Field<string>, outcome: Field<string>)

  /** `TaskCreate`, which has exactly the fields of `TaskBase`. */
  datatype TaskCreate = TaskCreate(titolo: string, categoria: Categoria, dettagli: Option<string>)

  /** `TaskUpdate`: every field optional and nullable; the patchable fields are
      exactly these four. */
  datatype TaskUpdate = TaskUpdate(
    titolo: Field<string>, categoria: Field<Categoria>, dettagli: Field<string>, outcome: Field<string>)

  /** The response shape `Task`. It always carries an id and a creation time. */
  datatype Task = Task(
    id: int,
    titolo: string,
    categoria: Categoria,
    dettagli: Option<string>,
    outcome: Option<string>,
    stato: Stato,
    createdAt: Timestamp,
    completedAt: Option<Timestamp>)

  /** A validation failure, naming the offending field. */
  datatype ValidationError = ValidationError(field: string)

  /** Validates a create payload: `titolo` is required and not nullable,
      `categoria` must be one of the enumeration's values and defaults to INU,
      `dettagli` is nullable and defaults to null. */
  function ValidateCreate(p: CreatePayload): (r: Result<TaskCreate, ValidationError>)
    ensures r.Ok? <==> p.titolo.Value? && (p.categoria.Absent? || (p.categoria.Value? && ParseCategoria(p.categoria.v).Some?))
    ensures r.Ok? ==> p.titolo == Value(r.value.titolo)
    ensures r.Ok? ==> Some(r.value.categoria) == (if p.categoria.Absent? then Some(DefaultCategoria) else ParseCategoria(p.categoria.v))
    ensures r.Ok? ==> r.value.dettagli == p.dettagli.Over(None)
  {
    if !p.titolo.Value? then Err(ValidationError("titolo"))
    else
      var categoria :=
        match p.categoria
        case Absent => Some(DefaultCategoria)
        case Null => None
        case Value(s) => ParseCategoria(s);
      if categoria.None? then Err(ValidationError("categoria"))
      else Ok(TaskCreate(p.titolo.v, categoria.value, p.dettagli.Over(None)))
  }

  /** Validates a patch payload: every field may be left out or sent as null,
      and a category that is sent must be one of the enumeration's values. */
  function ValidateUpdate(p: UpdatePayload): (r: Result<TaskUpdate, ValidationError>)
    ensures r.Ok? <==> !p.categoria.Value? || ParseCategoria(p.categoria.v).Some?
    ensures r.Ok? ==> r.value.titolo == p.titolo && r.value.dettagli == p.dettagli && r.value.outcome == p.outcome
    ensures r.Ok? ==> (r.value.categoria.Absent? <==> p.categoria.Absent?) && (r.value.categoria.Null? <==> p.categoria.Null?)
    ensures r.Ok? && p.categoria.Value? ==> r.value.categoria == Value(ParseCategoria(p.categoria.v).value)
  {
    match p.categoria
    case Absent => Ok(TaskUpdate(p.titolo, Absent, p.dettagli, p.outcome))
    case Null => Ok(TaskUpdate(p.titolo, Null, p.dettagli, p.outcome))
    case Value(s) =>
      match ParseCategoria(s)
      case None => Err(ValidationError("categoria"))
      case Some(c) => Ok(TaskUpdate(p.titolo, Value(c), p.dettagli, p.outcome))
  }

  /** The fully explicit payload a client sends for `c`. */
  function CreatePayloadOf(c: TaskCreate): CreatePayload
  {
    CreatePayload(Value(c.titolo), Value(CategoriaValue(c.categoria)),
                  match c.dettagli case None => Null case Some(d) => Value(d))
  }

  /** The payload a client sends for the patch `u`. */
  function UpdatePayloadOf(u: TaskUpdate): UpdatePayload
  {
    UpdatePayload(u.titolo,
                  match u.categoria case Absent => Absent case Null => Null case Value(c) => Value(CategoriaValue(c)),
                  u.dettagli, u.outcome)
  }

  /** Every create input is accepted when sent explicitly, and validates back to itself. */
  lemma ValidateCreateRoundTrip(c: TaskCreate)
    ensures ValidateCreate(CreatePayloadOf(c)) == Ok(c)
  {
  }

  /** Every patch is accepted when sent, and validates back to itself. */
  lemma ValidateUpdateRoundTrip(u: TaskUpdate)
    ensures ValidateUpdate(UpdatePayloadOf(u)) == Ok(u)
  {
  }

  /** A payload with only a title takes the defaults: category INU, no details. */
  lemma CreateDefaults(t: string)
    ensures ValidateCreate(CreatePayload(Value(t), Absent, Absent)) == Ok(TaskCreate(t, DefaultCategoria, None))
  {
  }

  /** The response schema can be built from a row exactly when the row has a
      title and a category: those are the two fields `Task` requires
      that the table allows to be null. */
  predicate Representable(row: TaskDB)
  {
    row.titolo.Some? && row.categoria.Some?
  }

  /** The row whose attributes a response reads. */
  function ToRow(t: Task): TaskDB
  {
    TaskDB(t.id, Some(t.titolo), Some(t.categoria), t.dettagli, t.outcome, t.stato, t.createdAt, t.completedAt)
  }

  /** Builds the response from a row's attributes (`from_attributes`); every
      attribute is present on a row, so none of the schema defaults applies.
      The response carries the row's values unchanged. */
  function FromRow(row: TaskDB): (r: Option<Task>)
    ensures r.Some? <==> Representable(row)
    ensures r.Some? ==> ToRow(r.value) == row
  {
    if Representable(row) then
      Some(Task(row.id, row.titolo.value, row.categoria.value, row.dettagli, row.outcome,
                row.stato, row.createdAt, row.completedAt))
    else None
  }

  /** Responses and representable rows are in one-to-one correspondence. */
  lemma FromRowToRow(t: Task)
    ensures FromRow(ToRow(t)) == Some(t)
  {
  }
}
