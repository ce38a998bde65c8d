/** The editor pages as stateful objects (frontend/app/page.tsx,
    page-improved.tsx, page-original.tsx): the page state the hooks hold,
    the drag-and-drop handlers, the field edits, and `save`, which on the
    builder page first runs its own schema checks. The request to the
    backend is recorded as a sent payload; its outcome is a parameter. */
module Editor {
  import opened Models
  import opened Text
  import opened FieldList
  import Schema

  // ---- The builder's save checks (page.tsx) ----

  /** Why the builder refuses to save, in the order it checks. */
  datatype SaveProblem =
    | NoTitle
    | NoFields
    | NoRequiredField
    | ImproperQuestion
    | NoOptions(caption: string)
    | BlankOption(caption: string)

  /** The alert shown for each refusal; the option alerts quote the field's label. */
  function Alert(p: SaveProblem): (a: string)
    ensures |a| > 0
    ensures (p.NoOptions? || p.BlankOption?) ==>
      |a| > |p.caption| + 1 && a[|a| - |p.caption| - 2] == '"' && a[|a| - |p.caption| - 1..] == p.caption + "\""
  {
    match p
    case NoTitle => "Please enter a form title"
    case NoFields => "Please add at least one field to your form"
    case NoRequiredField => "Please make at least one field required"
    case ImproperQuestion => "Please provide a proper question for all fields"
    case NoOptions(c) => "Please add at least one option for \"" + c + "\""
    case BlankOption(c) => "Please fill in all option texts for \"" + c + "\""
  }

  /** `options.filter(opt => opt.trim() !== "").length`. */
  function CountNonBlank(options: seq<string>): (r: nat)
    ensures r <= |options|
    ensures r == |options| <==> forall i :: 0 <= i < |options| ==> !IsBlank(options[i])
    ensures r == 0 <==> forall i :: 0 <= i < |options| ==> IsBlank(options[i])
  {
    if options == [] then 0
    else
      var n := |options| - 1;
      var c := CountNonBlank(options[..n]);
      assert forall i :: 0 <= i < n ==> options[..n][i] == options[i];
      c + (if IsBlank(options[n]) then 0 else 1)
  }

  /** What the builder demands of one field before saving. */
  predicate SavableField(f: Field) {
    && !IsBlank(f.caption) && f.caption != "Question"
    && (Schema.IsChoice(f.kind) ==>
          |f.options| > 0 && forall i :: 0 <= i < |f.options| ==> !IsBlank(f.options[i]))
  }

  /** The checks inside the builder's field loop, in order. */
  function FieldSaveProblem(f: Field): (r: Option<SaveProblem>)
    ensures r == None <==> SavableField(f)
    ensures IsBlank(f.caption) || f.caption == "Question" ==> r == Some(ImproperQuestion)
    ensures (&& !IsBlank(f.caption) && f.caption != "Question" && Schema.IsChoice(f.kind)
             && forall i :: 0 <= i < |f.options| ==> IsBlank(f.options[i]))
            ==> r == Some(NoOptions(f.caption))
    ensures (&& !IsBlank(f.caption) && f.caption != "Question" && Schema.IsChoice(f.kind)
             && (exists i :: 0 <= i < |f.options| && !IsBlank(f.options[i]))
             && (exists j :: 0 <= j < |f.options| && IsBlank(f.options[j])))
            ==> r == Some(BlankOption(f.caption))
  {
    if IsBlank(f.caption) || f.caption == "Question" then Some(ImproperQuestion)
    else if Schema.IsChoice(f.kind) && CountNonBlank(f.options) == 0 then Some(NoOptions(f.caption))
    else if Schema.IsChoice(f.kind) && CountNonBlank(f.options) != |f.options| then Some(BlankOption(f.caption))
    else None
  }

  /** The first field the builder's loop refuses, in schema order. */
  function FirstSaveProblem(fields: seq<Field>): (r: Option<SaveProblem>)
    ensures r == None <==> forall i :: 0 <= i < |fields| ==> SavableField(fields[i])
    ensures r.Some? ==> exists i :: 0 <= i < |fields| && FieldSaveProblem(fields[i]) == r &&
                                   (forall j :: 0 <= j < i ==> SavableField(fields[j]))
  {
    if fields == [] then None
    else if FieldSaveProblem(fields[0]).Some? then FieldSaveProblem(fields[0])
    else
      assert forall i :: 1 <= i < |fields| ==> fields[i] == fields[1..][i - 1];
      FirstSaveProblem(fields[1..])
  }

  /** The verdict of the builder's checks: the first failing one, or None. */
  function SaveCheck(title: string, fields: seq<Field>): (r: Option<SaveProblem>)
    ensures IsBlank(title) || title == "Untitled Form" ==> r == Some(NoTitle)
    ensures r == Some(NoFields) <==> !IsBlank(title) && title != "Untitled Form" && fields == []
    ensures (&& !IsBlank(title) && title != "Untitled Form" && fields != []
             && forall i :: 0 <= i < |fields| ==> !fields[i].required)
            ==> r == Some(NoRequiredField)
    ensures (&& !IsBlank(title) && title != "Untitled Form"
             && exists i :: 0 <= i < |fields| && fields[i].required)
            ==> r == FirstSaveProblem(fields)
  {
    if IsBlank(title) || title == "Untitled Form" then Some(NoTitle)
    else if |fields| == 0 then Some(NoFields)
    else if !exists i :: 0 <= i < |fields| && fields[i].required then Some(NoRequiredField)
    else FirstSaveProblem(fields)
  }

  /** What a form the builder agrees to save satisfies, without the check order. */
  predicate Savable(title: string, fields: seq<Field>) {
    && !IsBlank(title) && title != "Untitled Form"
    && |fields| > 0
    && (exists i :: 0 <= i < |fields| && fields[i].required)
    && forall i :: 0 <= i < |fields| ==> SavableField(fields[i])
  }

  lemma SaveCheckIff(title: string, fields: seq<Field>)
    ensures SaveCheck(title, fields) == None <==> Savable(title, fields)
  {
  }

  /** The length of `options.filter(opt => opt.trim() !== "")`, counted by a loop. */
  method CountValidOptions(options: seq<string>) returns (validOptions: nat)
    ensures validOptions == CountNonBlank(options)
  {
    validOptions := 0;
    var n := 0;
    while n < |options|
      invariant 0 <= n <= |options|
      invariant validOptions == CountNonBlank(options[..n])
    {
      assert options[..n + 1][..n] == options[..n];
      if !IsBlank(options[n]) {
        validOptions := validOptions + 1;
      }
      n := n + 1;
    }
    assert options[..n] == options;
  }

  /** The builder's `save` checks as it runs them: `fields.some` for the
      required flag, then a loop over the fields that counts the non-blank
      options of each choice field. */
  method FindSaveProblem(title: string, fields: seq<Field>) returns (p: Option<SaveProblem>)
    ensures p == SaveCheck(title, fields)
  {
    if IsBlank(title) || title == "Untitled Form" {
      return Some(NoTitle);
    }
    if |fields| == 0 {
      return Some(NoFields);
    }
    var hasRequiredField := exists i :: 0 <= i < |fields| && fields[i].required;
    if !hasRequiredField {
      return Some(NoRequiredField);
    }
    var k := 0;
    while k < |fields|
      invariant 0 <= k <= |fields|
      invariant FirstSaveProblem(fields) == FirstSaveProblem(fields[k..])
    {
      assert fields[k..][0] == fields[k] && fields[k..][1..] == fields[k + 1..];
      var field := fields[k];
      if IsBlank(field.caption) || field.caption == "Question" {
        return Some(ImproperQuestion);
      }
      if field.kind == "single_choice" || field.kind == "multi_select" {
        var validOptions := CountValidOptions(field.options);
        if validOptions == 0 {
          return Some(NoOptions(field.caption));
        }
        if validOptions != |field.options| {
          return Some(BlankOption(field.caption));
        }
      }
      k := k + 1;
    }
    return None;
  }

  /** The builder's checks imply the backend's creation checks once every
      PII field is required (which the PII toggle guarantees): a form the
      builder sends is never refused by the backend. */
  lemma SavableIsCreatable(title: string, status: string, fields: seq<Field>, id: string, owner: string)
    requires SaveCheck(title, fields) == None
    requires AllPIIRequired(fields)
    ensures Schema.CreateCheck(Form(id, title, status, fields, owner)) == None
  {
    var form := Form(id, title, status, fields, owner);
    SaveCheckIff(title, fields);
    NotBlankNotEmpty(title);
    forall i | 0 <= i < |fields|
      ensures Schema.FieldProblem(fields[i]) == None
    {
      var f := fields[i];
      NotBlankNotEmpty(f.caption);
      if Schema.IsChoice(f.kind) {
        forall o | o in f.options
          ensures o != ""
        {
          var j :| 0 <= j < |f.options| && f.options[j] == o;
          NotBlankNotEmpty(f.options[j]);
        }
      }
    }
    Schema.CreateCheckIff(form);
  }

  /** The converse fails: the builder trims before testing for an empty
      title, the backend does not, so a title of spaces is refused only by
      the builder. */
  lemma SpacesTitleRefusedOnlyByEditor(fields: seq<Field>, status: string, id: string, owner: string)
    ensures SaveCheck("  ", fields) == Some(NoTitle)
    ensures Schema.CreateCheck(Form(id, "  ", status, fields, owner)) != Some(Schema.TitleRequired)
  {
    assert IsSpace(' ');
  }

  /** A field just added on the builder has an empty label, so the form
      cannot be saved until it is edited. */
  lemma NewFieldBlocksSave(title: string, fields: seq<Field>, kind: string, id: string)
    ensures SaveCheck(title, AddField(fields, Builder, kind, id)) != None
  {
    var r := AddField(fields, Builder, kind, id);
    assert !SavableField(r[|fields|]);
    SaveCheckIff(title, r);
  }

  // ---- The page state ----

  /** The body sent to `createForm`. */
  datatype Payload = Payload(title: string, status: string, fields: seq<Field>)

  /** The form the backend builds from a payload before its creation checks. */
  function AsForm(p: Payload): Form {
    Form("", p.title, p.status, p.fields, "")
  }

  /** One editor page: the state its hooks hold, and the requests it has sent. */
  class Editor {
    const page: Page
    var title: string
    var fields: seq<Field>
    var dragIndex: Option<nat>
    var saving: bool
    var formId: Option<string>
    var showSuccess: bool
    var sent: seq<Payload>

    /** PII fields are always required, only the builder has PII fields, and
        every form the builder has sent passes the backend's creation checks. */
    ghost predicate Valid()
      reads this
    {
      && AllPIIRequired(fields)
      && (page != Builder ==> NoPII(fields))
      && (page == Builder ==> forall i :: 0 <= i < |sent| ==> Schema.CreateCheck(AsForm(sent[i])) == None)
    }

    constructor(page: Page)
      ensures Valid()
      ensures this.page == page
      ensures title == (if page == Builder then "" else "Untitled Form")
      ensures fields == [] && dragIndex == None && !saving && formId == None && !showSuccess && sent == []
    {
      this.page := page;
      title := if page == Builder then "" else "Untitled Form";
      fields := [];
      dragIndex := None;
      saving := false;
      formId := None;
      showSuccess := false;
      sent := [];
    }

    method SetTitle(t: string)
      requires Valid()
      modifies this
      ensures Valid()
      ensures title == t
      ensures fields == old(fields) && dragIndex == old(dragIndex) && saving == old(saving)
      ensures formId == old(formId) && showSuccess == old(showSuccess) && sent == old(sent)
    {
      title := t;
    }

    /** `addField`: one new field at the end. */
    method AddField(kind: string, freshId: string)
      requires Valid()
      modifies this
      ensures Valid()
      ensures fields == FieldList.AddField(old(fields), page, kind, freshId)
      ensures title == old(title) && dragIndex == old(dragIndex) && saving == old(saving)
      ensures formId == old(formId) && showSuccess == old(showSuccess) && sent == old(sent)
    {
      fields := fields + [NewField(page, kind, freshId)];
    }

    method OnDragStart(idx: nat)
      modifies this
      ensures dragIndex == Some(idx)
      ensures title == old(title) && fields == old(fields) && saving == old(saving)
      ensures formId == old(formId) && showSuccess == old(showSuccess) && sent == old(sent)
    {
      dragIndex := Some(idx);
    }

    /** `onDrop`: nothing without a drag source or onto the source itself;
        otherwise the dragged field moves to the drop index and the drag ends. */
    method OnDrop(idx: nat)
      requires Valid()
      requires idx < |fields|
      requires dragIndex.Some? ==> dragIndex.value < |fields|
      modifies this
      ensures Valid()
      ensures old(dragIndex) == None || old(dragIndex) == Some(idx) ==>
        fields == old(fields) && dragIndex == old(dragIndex)
      ensures old(dragIndex).Some? && old(dragIndex) != Some(idx) ==>
        fields == Moved(old(fields), old(dragIndex).value, idx) && dragIndex == None
      ensures multiset(fields) == multiset(old(fields))
      ensures title == old(title) && saving == old(saving)
      ensures formId == old(formId) && showSuccess == old(showSuccess) && sent == old(sent)
    {
      if dragIndex == None || dragIndex == Some(idx) {
        return;
      }
      var from := dragIndex.value;
      var arr := fields;
      var it := arr[from];
      arr := arr[..from] + arr[from + 1..];
      arr := arr[..idx] + [it] + arr[idx..];
      MovedPermutes(fields, from, idx);
      MovedAt(fields, from, idx);
      fields := arr;
      dragIndex := None;
    }

    /** `removeField`, which the original page does not offer. */
    method RemoveField(id: string)
      requires Valid()
      requires page != Original
      modifies this
      ensures Valid()
      ensures fields == Without(old(fields), id)
      ensures title == old(title) && dragIndex == old(dragIndex) && saving == old(saving)
      ensures formId == old(formId) && showSuccess == old(showSuccess) && sent == old(sent)
    {
      var kept := Without(fields, id);
      WithoutMembers(fields, id);
      assert forall i :: 0 <= i < |kept| ==> kept[i] in fields;
      fields := kept;
    }

    /** `duplicateField`, which the original page does not offer. */
    method DuplicateField(id: string, freshId: string)
      requires Valid()
      requires page != Original
      modifies this
      ensures Valid()
      ensures fields == Duplicate(old(fields), id, freshId)
      ensures title == old(title) && dragIndex == old(dragIndex) && saving == old(saving)
      ensures formId == old(formId) && showSuccess == old(showSuccess) && sent == old(sent)
    {
      fields := Duplicate(fields, id, freshId);
    }

    /** A control of the field editor; the PII toggle and the condition
        editors exist only on the builder. */
    method EditField(id: string, e: Edit)
      requires Valid()
      requires page != Builder ==> !e.SetPII? && !ConditionEdit(e)
      modifies this
      ensures Valid()
      ensures fields == UpdateById(page, old(fields), id, e)
      ensures title == old(title) && dragIndex == old(dragIndex) && saving == old(saving)
      ensures formId == old(formId) && showSuccess == old(showSuccess) && sent == old(sent)
    {
      UpdateKeepsPIIRequired(page, fields, id, e);
      fields := UpdateById(page, fields, id, e);
    }

    /** The rating input of the builder's condition editor for the field at
        index `i`, whose condition names a rating field: the value is stored
        only when it passes the range guard. */
    method SetRatingCondition(i: nat, parsed: Option<int>)
      requires Valid()
      requires page == Builder && i < |fields| && fields[i].showIf.Some?
      requires FindById(fields, fields[i].showIf.value.fieldId).Some?
      requires FindById(fields, fields[i].showIf.value.fieldId).value.kind == "rating"
      modifies this
      ensures Valid()
      ensures var dependency := FindById(old(fields), old(fields)[i].showIf.value.fieldId).value;
        fields == match RatingCondition(dependency, parsed)
                  case None => old(fields)
                  case Some(v) => UpdateById(page, old(fields), old(fields)[i].id, SetConditionValue(v))
      ensures title == old(title) && dragIndex == old(dragIndex) && saving == old(saving)
      ensures formId == old(formId) && showSuccess == old(showSuccess) && sent == old(sent)
    {
      var dependency := FindById(fields, fields[i].showIf.value.fieldId).value;
      var value := RatingCondition(dependency, parsed);
      if value.Some? {
        UpdateKeepsPIIRequired(page, fields, fields[i].id, SetConditionValue(value.value));
        fields := UpdateById(page, fields, fields[i].id, SetConditionValue(value.value));
      }
    }

    /** `save(status)`. `reply` is the id `createForm` resolves with, or None
        when the request throws. The builder first runs its checks and, on
        a failure, only alerts; the improved page resets `saving` in a
        `finally`; the builder and the original page leave it set when the
        request throws. */
    method Save(status: string, reply: Option<string>) returns (alert: Option<string>)
      requires Valid()
      requires !saving
      modifies this
      ensures Valid()
      ensures title == old(title) && fields == old(fields) && dragIndex == old(dragIndex)
      ensures page == Builder && SaveCheck(old(title), old(fields)).Some? ==>
        && alert == Some(Alert(SaveCheck(old(title), old(fields)).value))
        && saving == old(saving) && formId == old(formId) && showSuccess == old(showSuccess)
        && sent == old(sent)
      ensures page != Builder || SaveCheck(old(title), old(fields)) == None ==>
        && alert == None
        && sent == old(sent) + [Payload(old(title), status, old(fields))]
        && formId == (if reply.Some? then reply else old(formId))
        && saving == (reply.None? && page != Improved)
        && showSuccess == (if page == Builder && reply.Some? then true else old(showSuccess))
    {
      alert := None;
      if page == Builder {
        var problem := FindSaveProblem(title, fields);
        if problem.Some? {
          return Some(Alert(problem.value));
        }
        SavableIsCreatable(title, status, fields, "", "");
      }
      saving := true;
      sent := sent + [Payload(title, status, fields)];
      if reply.None? {
        if page == Improved {
          saving := false;
        }
        return;
      }
      formId := reply;
      if page == Builder {
        showSuccess := true;
      }
      saving := false;
    }
  }
}
