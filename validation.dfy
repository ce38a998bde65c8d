/** Response validation against a form schema (`validateSubmission` in
    backend/api/handlers.go) and the published-only gate in front of it
    (`SubmitResponseHandler`). */
module Validation {
  import opened Models

  /** What went wrong with one field; every violation names the field's label. */
  datatype ViolationKind =
    | MissingRequired
    | InvalidText
    | InvalidChoice
    | ChoiceNotInOptions
    | InvalidSelections
    | InvalidSelectionValue
    | SelectionNotAllowed
    | InvalidRating
    | RatingOutOfRange

  datatype Violation = Violation(kind: ViolationKind, caption: string)

  /** The error text the handler returns; it always ends with the label. */
  function Message(v: Violation): (m: string)
    ensures |m| > |v.caption| && m[|m| - |v.caption|..] == v.caption
  {
    var prefix := match v.kind
      case MissingRequired => "missing required field: "
      case InvalidText => "invalid text for: "
      case InvalidChoice => "invalid choice for: "
      case ChoiceNotInOptions => "choice not in options for: "
      case InvalidSelections => "invalid selections for: "
      case InvalidSelectionValue => "invalid selection value for: "
      case SelectionNotAllowed => "selection value not allowed for: "
      case InvalidRating => "invalid rating for: "
      case RatingOutOfRange => "rating out of range for: ";
    prefix + v.caption
  }

  /** `val != field.ShowIf.Equals` on two `interface{}` values, negated. The
      answer was decoded from the request's JSON and the condition from the
      database, so a list (`[]interface{}` against `primitive.A`) or an object
      (a map against `primitive.D`) has a different dynamic type on each side
      and never compares equal; strings, numbers, booleans and null compare
      by value. */
  predicate Matches(answer: Value, equals: Value): (r: bool)
    ensures answer.List? || answer.Other? ==> !r
    ensures (answer.Str? || answer.Num? || answer.Bool? || answer.Null?) ==> (r <==> answer == equals)
  {
    answer == equals && !answer.List? && !answer.Other?
  }

  /** Single-level visibility: only the stored answer to the dependency is
      consulted, never whether the dependency is itself visible. */
  predicate Visible(field: Field, answers: map<string, Value>): (r: bool)
    ensures field.showIf.None? ==> r
    ensures field.showIf.Some? ==>
      (r <==> field.showIf.value.fieldId in answers &&
              Matches(answers[field.showIf.value.fieldId], field.showIf.value.equals))
  {
    match field.showIf
    case None => true
    case Some(cond) => cond.fieldId in answers && Matches(answers[cond.fieldId], cond.equals)
  }

  /** The rating bounds after substituting the defaults for an unset (zero) bound. */
  function RatingMin(field: Field): (lo: int)
    ensures field.min != 0 ==> lo == field.min
    ensures field.min == 0 ==> lo == 1
  {
    if field.min == 0 then 1 else field.min
  }

  function RatingMax(field: Field): (hi: int)
    ensures field.max != 0 ==> hi == field.max
    ensures field.max == 0 ==> hi == 5
  {
    if field.max == 0 then 5 else field.max
  }

  /** The first element of a multi_select answer that is not a string, or is a
      string outside the options. */
  function SelectionViolation(field: Field, items: seq<Value>): (r: Option<Violation>)
    ensures r == None <==> forall i :: 0 <= i < |items| ==> items[i].Str? && items[i].s in field.options
    ensures r.Some? ==> r.value.caption == field.caption
    ensures r.Some? ==> r.value.kind in {InvalidSelectionValue, SelectionNotAllowed}
  {
    if items == [] then None
    else if !items[0].Str? then Some(Violation(InvalidSelectionValue, field.caption))
    else if items[0].s !in field.options then Some(Violation(SelectionNotAllowed, field.caption))
    else
      var rest := SelectionViolation(field, items[1..]);
      assert forall i :: 1 <= i < |items| ==> items[i] == items[1..][i - 1];
      rest
  }

  /** The per-type rule applied to a present answer. */
  function TypeViolation(field: Field, v: Value): (r: Option<Violation>)
    ensures r.Some? ==> r.value.caption == field.caption
    ensures field.kind == "text" ==> (r == None <==> v.Str? && v.s != "")
    ensures field.kind == "single_choice" ==> (r == None <==> v.Str? && v.s != "" && v.s in field.options)
    ensures field.kind == "multi_select" ==>
      (r == None <==> v.List? && forall i :: 0 <= i < |v.items| ==> v.items[i].Str? && v.items[i].s in field.options)
    ensures field.kind == "rating" ==>
      (r == None <==> v.Num? && RatingMin(field) as real <= v.n <= RatingMax(field) as real)
    ensures field.kind !in {"text", "single_choice", "multi_select", "rating"} ==> r == None
  {
    match field.kind
    case "text" =>
      if !v.Str? || |v.s| == 0 then Some(Violation(InvalidText, field.caption)) else None
    case "single_choice" =>
      if !v.Str? || v.s == "" then Some(Violation(InvalidChoice, field.caption))
      else if v.s !in field.options then Some(Violation(ChoiceNotInOptions, field.caption))
      else None
    case "multi_select" =>
      if !v.List? then Some(Violation(InvalidSelections, field.caption))
      else SelectionViolation(field, v.items)
    case "rating" =>
      if !v.Num? then Some(Violation(InvalidRating, field.caption))
      else if v.n < RatingMin(field) as real || v.n > RatingMax(field) as real then
        Some(Violation(RatingOutOfRange, field.caption))
      else None
    case _ => None
  }

  /** The verdict on one field: hidden fields are skipped entirely; a visible
      required field must be a key of the answers; a present answer must pass
      the rule for the field's type. */
  function CheckField(field: Field, answers: map<string, Value>): (r: Option<Violation>)
    ensures !Visible(field, answers) ==> r == None
    ensures field.id !in answers ==> (r.Some? <==> Visible(field, answers) && field.required)
    ensures field.id !in answers && r.Some? ==> r.value == Violation(MissingRequired, field.caption)
    ensures field.id in answers && Visible(field, answers) ==> r == TypeViolation(field, answers[field.id])
    ensures r.Some? ==> r.value.caption == field.caption
  {
    if !Visible(field, answers) then None
    else if field.required && field.id !in answers then Some(Violation(MissingRequired, field.caption))
    else if field.id in answers then TypeViolation(field, answers[field.id])
    else None
  }

  /** The first violation in schema order, or None. */
  function FirstViolation(fields: seq<Field>, answers: map<string, Value>): (r: Option<Violation>)
    ensures r == None <==> forall i :: 0 <= i < |fields| ==> CheckField(fields[i], answers) == None
    ensures r.Some? ==> exists i :: 0 <= i < |fields| && CheckField(fields[i], answers) == r &&
                                   (forall j :: 0 <= j < i ==> CheckField(fields[j], answers) == None)
  {
    if fields == [] then None
    else
      var here := CheckField(fields[0], answers);
      if here.Some? then here
      else
        var rest := FirstViolation(fields[1..], answers);
        assert forall i :: 1 <= i < |fields| ==> fields[i] == fields[1..][i - 1];
        rest
  }

  /** The `allowed` scan over a field's options. */
  method InOptions(options: seq<string>, s: string) returns (allowed: bool)
    ensures allowed <==> s in options
  {
    allowed := false;
    var k := 0;
    while k < |options|
      invariant 0 <= k <= |options|
      invariant !allowed
      invariant s !in options[..k]
    {
      if options[k] == s {
        allowed := true;
        break;
      }
      k := k + 1;
    }
  }

  /** The multi_select element loop. */
  method CheckSelections(field: Field, items: seq<Value>) returns (err: Option<Violation>)
    ensures err == SelectionViolation(field, items)
  {
    var k := 0;
    while k < |items|
      invariant 0 <= k <= |items|
      invariant SelectionViolation(field, items) == SelectionViolation(field, items[k..])
    {
      assert items[k..][1..] == items[k + 1..];
      if !items[k].Str? {
        return Some(Violation(InvalidSelectionValue, field.caption));
      }
      var allowed := InOptions(field.options, items[k].s);
      if !allowed {
        return Some(Violation(SelectionNotAllowed, field.caption));
      }
      k := k + 1;
    }
    return None;
  }

  /** The type switch for a present answer. */
  method CheckAnswer(field: Field, v: Value) returns (err: Option<Violation>)
    ensures err == TypeViolation(field, v)
  {
    err := None;
    if field.kind == "text" {
      if !v.Str? || |v.s| == 0 {
        err := Some(Violation(InvalidText, field.caption));
      }
    } else if field.kind == "single_choice" {
      if !v.Str? || v.s == "" {
        err := Some(Violation(InvalidChoice, field.caption));
      } else {
        var allowed := InOptions(field.options, v.s);
        if !allowed {
          err := Some(Violation(ChoiceNotInOptions, field.caption));
        }
      }
    } else if field.kind == "multi_select" {
      if !v.List? {
        err := Some(Violation(InvalidSelections, field.caption));
      } else {
        err := CheckSelections(field, v.items);
      }
    } else if field.kind == "rating" {
      if !v.Num? {
        err := Some(Violation(InvalidRating, field.caption));
      } else {
        var lo := field.min;
        var hi := field.max;
        if lo == 0 { lo := 1; }
        if hi == 0 { hi := 5; }
        if v.n < lo as real || v.n > hi as real {
          err := Some(Violation(RatingOutOfRange, field.caption));
        }
      }
    }
  }

  /** `validateSubmission`: walk the fields in order and return the first violation. */
  method ValidateSubmission(form: Form, answers: map<string, Value>) returns (err: Option<Violation>)
    ensures err == FirstViolation(form.fields, answers)
  {
    var fields := form.fields;
    var k := 0;
    while k < |fields|
      invariant 0 <= k <= |fields|
      invariant FirstViolation(fields, answers) == FirstViolation(fields[k..], answers)
    {
      assert fields[k..][1..] == fields[k + 1..];
      var field := fields[k];
      k := k + 1;
      if field.showIf.Some? {
        var cond := field.showIf.value;
        if cond.fieldId in answers {
          if !Matches(answers[cond.fieldId], cond.equals) {
            continue;
          }
        } else {
          continue;
        }
      }
      if field.required && field.id !in answers {
        return Some(Violation(MissingRequired, field.caption));
      }
      if field.id in answers {
        var e := CheckAnswer(field, answers[field.id]);
        if e.Some? {
          return e;
        }
      }
    }
    return None;
  }

  /** A submission is accepted when no visible field is in violation. */
  lemma {:induction false} AcceptedIff(fields: seq<Field>, answers: map<string, Value>)
    ensures FirstViolation(fields, answers) == None <==>
      forall i :: 0 <= i < |fields| && Visible(fields[i], answers) ==>
        (fields[i].required ==> fields[i].id in answers) &&
        (fields[i].id in answers ==> TypeViolation(fields[i], answers[fields[i].id]) == None)
  {
    if FirstViolation(fields, answers) == None {
      forall i | 0 <= i < |fields| && Visible(fields[i], answers)
        ensures fields[i].required ==> fields[i].id in answers
        ensures fields[i].id in answers ==> TypeViolation(fields[i], answers[fields[i].id]) == None
      {
        assert CheckField(fields[i], answers) == None;
      }
    } else {
      var i :| 0 <= i < |fields| && CheckField(fields[i], answers).Some?;
      assert Visible(fields[i], answers);
    }
  }

  /** Errors of the submission endpoint that the model covers. */
  datatype SubmitError = NotPublished | Invalid(violation: Violation)

  /** The published gate, then validation; the answers are stored as given. */
  function Submit(form: Form, answers: map<string, Value>): (r: Result<Response, SubmitError>)
    ensures form.status != "published" ==> r == Failure(NotPublished)
    ensures form.status == "published" ==> (r.Success? <==> FirstViolation(form.fields, answers) == None)
    ensures form.status == "published" && r.Failure? ==> r.error == Invalid(FirstViolation(form.fields, answers).value)
    ensures r.Success? ==> r.value.answers == answers
  {
    if form.status != "published" then Failure(NotPublished)
    else match FirstViolation(form.fields, answers)
      case Some(v) => Failure(Invalid(v))
      case None => Success(Response(answers))
  }

  /** A form that is not published rejects every answer map, before any
      answer is looked at. */
  lemma UnpublishedRejectsAll(form: Form, a1: map<string, Value>, a2: map<string, Value>)
    requires form.status != "published"
    ensures Submit(form, a1) == Submit(form, a2) == Failure(NotPublished)
  {
  }

  /** Visibility looks one level deep: a field whose dependency is itself
      hidden is still shown when the stored answer matches. */
  lemma HiddenDependencyStillCounts()
    ensures
      var a := Field("A", "A", "single_choice", false, ["Yes", "No"], 0, 0, None, false);
      var b := Field("B", "B", "text", false, [], 0, 0, Some(ShowIf("A", Str("Yes"))), false);
      var c := Field("C", "C", "text", true, [], 0, 0, Some(ShowIf("B", Str("x"))), false);
      var answers := map["A" := Str("No"), "B" := Str("x")];
      !Visible(b, answers) && Visible(c, answers) &&
      FirstViolation([a, b, c], answers) == Some(Violation(MissingRequired, "C"))
  {
    var a := Field("A", "A", "single_choice", false, ["Yes", "No"], 0, 0, None, false);
    var b := Field("B", "B", "text", false, [], 0, 0, Some(ShowIf("A", Str("Yes"))), false);
    var c := Field("C", "C", "text", true, [], 0, 0, Some(ShowIf("B", Str("x"))), false);
    var answers := map["A" := Str("No"), "B" := Str("x")];
    assert CheckField(a, answers) == None;
    assert CheckField(b, answers) == None;
    assert CheckField(c, answers) == Some(Violation(MissingRequired, "C"));
    assert [a, b, c][1..] == [b, c] && [b, c][1..] == [c] && [c][1..] == [];
    assert FirstViolation([c], answers) == Some(Violation(MissingRequired, "C"));
    assert FirstViolation([b, c], answers) == Some(Violation(MissingRequired, "C"));
  }

  /** The conditional example: B (required, shown if A is "Yes") is skipped
      for A = "No" and reported missing for A = "Yes". */
  lemma ConditionalRequiredExample()
    ensures
      var a := Field("A", "A", "single_choice", false, ["Yes", "No"], 0, 0, None, false);
      var b := Field("B", "B", "text", true, [], 0, 0, Some(ShowIf("A", Str("Yes"))), false);
      FirstViolation([a, b], map["A" := Str("No")]) == None &&
      FirstViolation([a, b], map["A" := Str("Yes")]) == Some(Violation(MissingRequired, "B"))
  {
  }

  /** A required multi_select answered with an empty list passes: the
      element loop never runs. */
  lemma EmptySelectionPasses(field: Field, answers: map<string, Value>)
    requires field.kind == "multi_select" && field.required && Visible(field, answers)
    requires field.id in answers && answers[field.id] == List([])
    ensures CheckField(field, answers) == None
  {
  }

  /** A null answer is present as a key, so it passes the required check, but
      it fails every known type's rule. */
  lemma NullFailsKnownTypes(field: Field, answers: map<string, Value>)
    requires Visible(field, answers) && field.id in answers && answers[field.id] == Null
    ensures CheckField(field, answers) == None <==> field.kind !in {"text", "single_choice", "multi_select", "rating"}
  {
  }
}
