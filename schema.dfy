/** The schema checks that guard form creation (`CreateFormHandler` in
    backend/api/handlers.go) and the unguarded overwrite done by
    `UpdateFormHandler`. */
module Schema {
  import opened Models

  /** Reasons a form is refused at creation, in the order they are tested. */
  datatype SchemaViolation =
    | TitleRequired
    | NoFields
    | NoRequiredField
    | ImproperLabel
    | PIINotRequired
    | NoOptions
    | EmptyOption

  /** The text of the 400 response for each refusal. */
  function Message(v: SchemaViolation): (m: string)
    ensures |m| > 0
  {
    match v
    case TitleRequired => "Form title is required"
    case NoFields => "At least one field is required"
    case NoRequiredField => "At least one field must be required"
    case ImproperLabel => "All fields must have proper labels"
    case PIINotRequired => "PII fields must be required"
    case NoOptions => "Choice fields must have at least one option"
    case EmptyOption => "All options must have text"
  }

  /** Different refusals are reported with different texts. */
  lemma MessagesDistinct(v: SchemaViolation, w: SchemaViolation)
    requires v != w
    ensures Message(v) != Message(w)
  {
  }

  predicate IsChoice(kind: string) {
    kind == "single_choice" || kind == "multi_select"
  }

  /** The per-field checks in their order: label, PII, options. */
  function FieldProblem(field: Field): (r: Option<SchemaViolation>)
    ensures r == None <==>
      field.caption != "" && field.caption != "Question" &&
      (field.isPII ==> field.required) &&
      (IsChoice(field.kind) ==> |field.options| > 0 && forall o :: o in field.options ==> o != "")
    ensures r.Some? ==> r.value in {ImproperLabel, PIINotRequired, NoOptions, EmptyOption}
    ensures field.caption == "" || field.caption == "Question" ==> r == Some(ImproperLabel)
    ensures (&& field.caption != "" && field.caption != "Question"
             && field.isPII && !field.required)
            ==> r == Some(PIINotRequired)
    ensures (&& field.caption != "" && field.caption != "Question" && (field.isPII ==> field.required)
             && IsChoice(field.kind) && |field.options| == 0)
            ==> r == Some(NoOptions)
    ensures (&& field.caption != "" && field.caption != "Question" && (field.isPII ==> field.required)
             && IsChoice(field.kind) && exists i :: 0 <= i < |field.options| && field.options[i] == "")
            ==> r == Some(EmptyOption)
  {
    if field.caption == "" || field.caption == "Question" then Some(ImproperLabel)
    else if field.isPII && !field.required then Some(PIINotRequired)
    else if IsChoice(field.kind) && |field.options| == 0 then Some(NoOptions)
    else if IsChoice(field.kind) && "" in field.options then Some(EmptyOption)
    else None
  }

  /** The first field problem in schema order. */
  function FirstFieldProblem(fields: seq<Field>): (r: Option<SchemaViolation>)
    ensures r == None <==> forall i :: 0 <= i < |fields| ==> FieldProblem(fields[i]) == None
    ensures r.Some? ==> exists i :: 0 <= i < |fields| && FieldProblem(fields[i]) == r &&
                                   (forall j :: 0 <= j < i ==> FieldProblem(fields[j]) == None)
  {
    if fields == [] then None
    else if FieldProblem(fields[0]).Some? then FieldProblem(fields[0])
    else
      var rest := FirstFieldProblem(fields[1..]);
      assert forall i :: 1 <= i < |fields| ==> fields[i] == fields[1..][i - 1];
      rest
  }

  /** The verdict of the creation checks: the first failing check, or None. */
  function CreateCheck(form: Form): (r: Option<SchemaViolation>)
    ensures form.title == "" || form.title == "Untitled Form" ==> r == Some(TitleRequired)
    ensures r == Some(NoFields) <==> form.title != "" && form.title != "Untitled Form" && form.fields == []
    ensures (&& form.title != "" && form.title != "Untitled Form" && form.fields != []
             && forall i :: 0 <= i < |form.fields| ==> !form.fields[i].required)
            ==> r == Some(NoRequiredField)
    ensures (&& form.title != "" && form.title != "Untitled Form"
             && exists i :: 0 <= i < |form.fields| && form.fields[i].required)
            ==> r == FirstFieldProblem(form.fields)
  {
    if form.title == "" || form.title == "Untitled Form" then Some(TitleRequired)
    else if |form.fields| == 0 then Some(NoFields)
    else if !exists i :: 0 <= i < |form.fields| && form.fields[i].required then Some(NoRequiredField)
    else FirstFieldProblem(form.fields)
  }

  /** What a form accepted at creation satisfies, stated without the check order. */
  predicate Publishable(form: Form) {
    && form.title != "" && form.title != "Untitled Form"
    && |form.fields| > 0
    && (exists i :: 0 <= i < |form.fields| && form.fields[i].required)
    && forall i :: 0 <= i < |form.fields| ==>
         var f := form.fields[i];
         && f.caption != "" && f.caption != "Question"
         && (f.isPII ==> f.required)
         && (IsChoice(f.kind) ==> |f.options| > 0 && forall o :: o in f.options ==> o != "")
  }

  lemma {:induction false} CreateCheckIff(form: Form)
    ensures CreateCheck(form) == None <==> Publishable(form)
  {
    if CreateCheck(form) == None {
      forall i | 0 <= i < |form.fields|
        ensures FieldProblem(form.fields[i]) == None
      {
      }
    }
    if Publishable(form) {
      forall i | 0 <= i < |form.fields|
        ensures FieldProblem(form.fields[i]) == None
      {
      }
    }
  }

  /** The creation checks as the handler runs them: a loop with a
      `hasRequiredField` flag, then a loop over the fields with an inner loop
      over the options. */
  method ValidateNewForm(form: Form) returns (err: Option<SchemaViolation>)
    ensures err == CreateCheck(form)
  {
    if form.title == "" || form.title == "Untitled Form" {
      return Some(TitleRequired);
    }
    if |form.fields| == 0 {
      return Some(NoFields);
    }
    var hasRequiredField := false;
    var k := 0;
    while k < |form.fields|
      invariant 0 <= k <= |form.fields|
      invariant hasRequiredField <==> exists i :: 0 <= i < k && form.fields[i].required
    {
      if form.fields[k].required {
        hasRequiredField := true;
        break;
      }
      k := k + 1;
    }
    if !hasRequiredField {
      return Some(NoRequiredField);
    }
    k := 0;
    while k < |form.fields|
      invariant 0 <= k <= |form.fields|
      invariant forall i :: 0 <= i < k ==> FieldProblem(form.fields[i]) == None
    {
      var field := form.fields[k];
      if field.caption == "" || field.caption == "Question" {
        return Some(ImproperLabel);
      }
      if field.isPII && !field.required {
        return Some(PIINotRequired);
      }
      if field.kind == "single_choice" || field.kind == "multi_select" {
        if |field.options| == 0 {
          return Some(NoOptions);
        }
        var n := 0;
        while n < |field.options|
          invariant 0 <= n <= |field.options|
          invariant "" !in field.options[..n]
        {
          if field.options[n] == "" {
            return Some(EmptyOption);
          }
          n := n + 1;
        }
        assert field.options[..n] == field.options;
      }
      k := k + 1;
    }
    return None;
  }

  /** `CreateFormHandler` after body parsing: refuse, or stamp the form with
      its new id and owner and default an empty status to "draft". */
  method CreateForm(form: Form, freshId: string, owner: string) returns (r: Result<Form, SchemaViolation>)
    ensures r.Failure? <==> CreateCheck(form) != None
    ensures r.Failure? ==> r.error == CreateCheck(form).value
    ensures r.Success? ==> Publishable(r.value)
    ensures r.Success? ==> r.value.id == freshId && r.value.ownerId == owner
    ensures r.Success? ==> r.value.title == form.title && r.value.fields == form.fields
    ensures r.Success? ==> r.value.status == (if form.status == "" then "draft" else form.status)
  {
    var err := ValidateNewForm(form);
    if err.Some? {
      return Failure(err.value);
    }
    var f := form;
    if f.status == "" {
      f := f.(status := "draft");
    }
    f := f.(id := freshId, ownerId := owner);
    CreateCheckIff(form);
    CreateCheckIff(f);
    return Success(f);
  }

  /** `UpdateFormHandler`: the stored form takes the incoming title, status
      and fields as they are (no checks, no published lock); the owner is
      replaced only by a non-empty one, and the id never changes. */
  function UpdateForm(stored: Form, incoming: Form): (r: Form)
    ensures r.id == stored.id
    ensures r.title == incoming.title && r.status == incoming.status && r.fields == incoming.fields
    ensures r.ownerId == (if incoming.ownerId == "" then stored.ownerId else incoming.ownerId)
  {
    Form(stored.id, incoming.title, incoming.status, incoming.fields,
         if incoming.ownerId == "" then stored.ownerId else incoming.ownerId)
  }

  /** Nothing protects a published form: an update can empty it, unpublish
      it, and leave a schema that creation would have refused. */
  lemma PublishedFormIsNotLocked(stored: Form, incoming: Form)
    requires stored.status == "published"
    requires incoming.fields == [] && incoming.status == "draft"
    ensures UpdateForm(stored, incoming).status == "draft"
    ensures UpdateForm(stored, incoming).fields == []
    ensures CreateCheck(UpdateForm(stored, incoming)) != None
  {
  }
}
