/** The custom technology stack editor: four text inputs, one per field of
    the record, and a change handler that rebuilds the record with one field
    replaced. */
module CustomTechStackForm {
  import opened Types

  /** The keys of `CustomTechStack`. */
  datatype StackField = FrontendField | BackendField | DatabaseField | DeploymentField

  /** The input list, in display order. */
  const StackFields: seq<StackField> := [FrontendField, BackendField, DatabaseField, DeploymentField]

  /** The key, used as the `name` of the input element. */
  function FieldKey(f: StackField): string {
    match f
    case FrontendField => "frontend"
    case BackendField => "backend"
    case DatabaseField => "database"
    case DeploymentField => "deployment"
  }

  /** The visible label of the input. */
  function FieldLabel(f: StackField): string {
    match f
    case FrontendField => "Frontend"
    case BackendField => "Backend"
    case DatabaseField => "Database"
    case DeploymentField => "Deployment"
  }

  /** The value of the field in the record, which its input shows. */
  function FieldValue(stack: CustomTechStack, f: StackField): string {
    match f
    case FrontendField => stack.frontend
    case BackendField => stack.backend
    case DatabaseField => stack.database
    case DeploymentField => stack.deployment
  }

  /** The field whose input element carries the given `name`; only the four
      keys of the list name a field. */
  function FieldNamed(name: string): (r: Option<StackField>)
    ensures r.Some? ==> FieldKey(r.value) == name
  {
    if name == "frontend" then Some(FrontendField)
    else if name == "backend" then Some(BackendField)
    else if name == "database" then Some(DatabaseField)
    else if name == "deployment" then Some(DeploymentField)
    else None
  }

  /** Every field is listed exactly once, its key names it back, and the keys
      are the four record keys in the order frontend, backend, database,
      deployment. */
  lemma StackFieldsAreTheKeys()
    ensures |StackFields| == 4
    ensures forall f :: f in StackFields
    ensures forall i, j :: 0 <= i < j < |StackFields| ==> FieldKey(StackFields[i]) != FieldKey(StackFields[j])
    ensures forall f :: FieldNamed(FieldKey(f)) == Some(f)
    ensures [FieldKey(StackFields[0]), FieldKey(StackFields[1]), FieldKey(StackFields[2]), FieldKey(StackFields[3])]
            == ["frontend", "backend", "database", "deployment"]
  {
    forall f ensures FieldNamed(FieldKey(f)) == Some(f) && f in StackFields {
      match f
      case FrontendField =>
      case BackendField =>
        assert "backend"[0] != "frontend"[0];
      case DatabaseField =>
        assert "database"[0] != "frontend"[0] && "database"[0] != "backend"[0];
      case DeploymentField =>
        assert "deployment"[0] != "frontend"[0] && "deployment"[0] != "backend"[0];
        assert "deployment"[1] != "database"[1];
    }
  }

  /** `handleChange`: a copy of the record in which the edited field holds
      the typed value. */
  function HandleChange(stack: CustomTechStack, f: StackField, value: string): (r: CustomTechStack)
    ensures FieldValue(r, f) == value
    ensures forall g :: g != f ==> FieldValue(r, g) == FieldValue(stack, g)
  {
    match f
    case FrontendField => stack.(frontend := value)
    case BackendField => stack.(backend := value)
    case DatabaseField => stack.(database := value)
    case DeploymentField => stack.(deployment := value)
  }

  /** A record is determined by the values of its four fields. */
  lemma FieldsDetermineStack(a: CustomTechStack, b: CustomTechStack)
    requires forall f :: FieldValue(a, f) == FieldValue(b, f)
    ensures a == b
  {
    assert FieldValue(a, FrontendField) == FieldValue(b, FrontendField);
    assert FieldValue(a, BackendField) == FieldValue(b, BackendField);
    assert FieldValue(a, DatabaseField) == FieldValue(b, DatabaseField);
    assert FieldValue(a, DeploymentField) == FieldValue(b, DeploymentField);
  }

  /** Typing the same value into the same input twice gives the same record
      as typing it once. */
  lemma HandleChangeIdempotent(stack: CustomTechStack, f: StackField, value: string)
    ensures HandleChange(HandleChange(stack, f, value), f, value) == HandleChange(stack, f, value)
  {
    FieldsDetermineStack(HandleChange(HandleChange(stack, f, value), f, value), HandleChange(stack, f, value));
  }

  /** Writing back the value an input already shows leaves the record as it was. */
  lemma HandleChangeSameValue(stack: CustomTechStack, f: StackField)
    ensures HandleChange(stack, f, FieldValue(stack, f)) == stack
  {
    FieldsDetermineStack(HandleChange(stack, f, FieldValue(stack, f)), stack);
  }

  /** Edits of two different inputs commute. */
  lemma HandleChangeCommutes(stack: CustomTechStack, f: StackField, x: string, g: StackField, y: string)
    requires f != g
    ensures HandleChange(HandleChange(stack, f, x), g, y) == HandleChange(HandleChange(stack, g, y), f, x)
  {
    FieldsDetermineStack(HandleChange(HandleChange(stack, f, x), g, y), HandleChange(HandleChange(stack, g, y), f, x));
  }
}
