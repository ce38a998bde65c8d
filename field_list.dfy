/** The editor's operations on the ordered field list, shared by the three
    editor pages (frontend/app/page.tsx, page-improved.tsx and
    page-original.tsx): adding, reordering, removing and duplicating fields,
    and the per-field edits each page applies to every field whose id
    matches. Every operation here is an array expression in the source
    (`map`, `filter`, spread), so each is a function on sequences. */
module FieldList {
  import opened Models
  import Validation
  import Schema
  import Text

  /** The three editor pages: the PII-aware builder (page.tsx), the improved
      page (page-improved.tsx) and the original page (page-original.tsx). */
  datatype Page = Builder | Improved | Original

  // ---- Adding a field ----

  /** The field `addField(kind)` appends, with the fresh id passed in. */
  function NewField(page: Page, kind: string, id: string): (f: Field)
    ensures f.id == id && f.kind == kind
    ensures !f.required && !f.isPII && f.showIf == None
    ensures f.caption == (if page == Builder then "" else "Question")
    ensures page == Builder ==> f.options == (if Schema.IsChoice(kind) then [""] else [])
    ensures page != Builder ==> f.options == (if kind != "text" then ["Option 1"] else [])
    ensures kind == "rating" ==> Validation.RatingMin(f) == 1 && Validation.RatingMax(f) == 5
    ensures kind != "rating" ==> f.min == 0 && f.max == 0
  {
    Field(
      id,
      if page == Builder then "" else "Question",
      kind,
      false,
      if page == Builder then (if Schema.IsChoice(kind) then [""] else [])
      else (if kind != "text" then ["Option 1"] else []),
      if kind == "rating" then 1 else 0,
      if kind == "rating" then 5 else 0,
      None,
      false)
  }

  /** A fresh field still carries the placeholder label ("" on the builder,
      "Question" elsewhere), which the backend refuses at creation. */
  lemma NewFieldNeedsLabel(page: Page, kind: string, id: string)
    ensures Schema.FieldProblem(NewField(page, kind, id)) == Some(Schema.ImproperLabel)
  {
  }

  function AddField(fields: seq<Field>, page: Page, kind: string, id: string): (r: seq<Field>)
    ensures |r| == |fields| + 1
    ensures r[..|fields|] == fields
    ensures r[|fields|] == NewField(page, kind, id)
  {
    fields + [NewField(page, kind, id)]
  }

  // ---- Drag and drop ----

  /** `splice(from, 1)` followed by `splice(to, 0, it)`. */
  function Moved<T>(s: seq<T>, from: nat, to: nat): (r: seq<T>)
    requires from < |s| && to < |s|
    ensures |r| == |s| && r[to] == s[from]
  {
    var rest := s[..from] + s[from + 1..];
    rest[..to] + [s[from]] + rest[to..]
  }

  /** The moved element lands at the drop index; the elements between the
      two indices shift by one towards the vacated slot; the rest stay put. */
  lemma MovedAt<T>(s: seq<T>, from: nat, to: nat)
    requires from < |s| && to < |s|
    ensures |Moved(s, from, to)| == |s|
    ensures Moved(s, from, to)[to] == s[from]
    ensures forall i :: 0 <= i < |s| && i < from && i < to ==> Moved(s, from, to)[i] == s[i]
    ensures forall i :: 0 <= i < |s| && i > from && i > to ==> Moved(s, from, to)[i] == s[i]
    ensures forall i :: from <= i < to ==> Moved(s, from, to)[i] == s[i + 1]
    ensures forall i :: to < i <= from ==> Moved(s, from, to)[i] == s[i - 1]
  {
  }

  /** Reordering is a permutation. */
  lemma MovedPermutes<T>(s: seq<T>, from: nat, to: nat)
    requires from < |s| && to < |s|
    ensures multiset(Moved(s, from, to)) == multiset(s)
  {
    var rest := s[..from] + s[from + 1..];
    assert s == s[..from] + [s[from]] + s[from + 1..];
    assert multiset(s) == multiset(s[..from]) + multiset([s[from]]) + multiset(s[from + 1..]);
    assert multiset(rest) == multiset(s[..from]) + multiset(s[from + 1..]);
    assert rest == rest[..to] + rest[to..];
    assert multiset(rest) == multiset(rest[..to]) + multiset(rest[to..]);
    assert multiset(Moved(s, from, to)) == multiset(rest[..to]) + multiset([s[from]]) + multiset(rest[to..]);
    assert multiset(Moved(s, from, to)) == multiset(rest) + multiset([s[from]]);
    assert multiset(s) == multiset(rest) + multiset([s[from]]);
  }

  /** Dropping an element back where it came from changes nothing. */
  lemma MovedSame<T>(s: seq<T>, i: nat)
    requires i < |s|
    ensures Moved(s, i, i) == s
  {
    assert s == s[..i] + [s[i]] + s[i + 1..];
  }

  /** Dragging the moved element back to its old place undoes the move. */
  lemma MovedBack<T>(s: seq<T>, from: nat, to: nat)
    requires from < |s| && to < |s|
    ensures Moved(Moved(s, from, to), to, from) == s
  {
    var m := Moved(s, from, to);
    MovedAt(s, from, to);
    MovedAt(m, to, from);
    var r := Moved(m, to, from);
    forall i | 0 <= i < |s|
      ensures r[i] == s[i]
    {
      if i == from {
      } else if i < from && i < to {
      } else if i > from && i > to {
      } else if from < i <= to {
        assert r[i] == m[i - 1];
      } else {
        assert r[i] == m[i + 1];
      }
    }
  }

  // ---- Removing a field ----

  /** `fields.filter(field => field.id !== id)`. */
  function Without(fields: seq<Field>, id: string): (r: seq<Field>)
    ensures |r| <= |fields|
    ensures forall i :: 0 <= i < |r| ==> r[i].id != id
  {
    if fields == [] then []
    else
      var last := fields[|fields| - 1];
      var init := Without(fields[..|fields| - 1], id);
      if last.id == id then init else init + [last]
  }

  /** The survivors are exactly the fields without the id. */
  lemma {:induction false} WithoutMembers(fields: seq<Field>, id: string)
    ensures forall f :: f in Without(fields, id) <==> f in fields && f.id != id
  {
    if fields != [] {
      var init := fields[..|fields| - 1];
      WithoutMembers(init, id);
      assert forall f :: f in fields <==> f in init || f == fields[|fields| - 1];
    }
  }

  /** Removal keeps the survivors in order: it distributes over concatenation. */
  lemma {:induction false} WithoutConcat(a: seq<Field>, b: seq<Field>, id: string)
    ensures Without(a + b, id) == Without(a, id) + Without(b, id)
  {
    if b == [] {
      assert a + b == a;
    } else {
      assert (a + b)[..|a + b| - 1] == a + b[..|b| - 1];
      WithoutConcat(a, b[..|b| - 1], id);
    }
  }

  /** Removing an id nobody carries changes nothing. */
  lemma {:induction false} WithoutAbsent(fields: seq<Field>, id: string)
    requires forall i :: 0 <= i < |fields| ==> fields[i].id != id
    ensures Without(fields, id) == fields
  {
    if fields != [] {
      var n := |fields| - 1;
      WithoutAbsent(fields[..n], id);
      assert fields[n].id != id;
      assert Without(fields, id) == Without(fields[..n], id) + [fields[n]];
      assert fields[..n] + [fields[n]] == fields;
    }
  }

  /** Removing twice is removing once. */
  lemma WithoutIdempotent(fields: seq<Field>, id: string)
    ensures Without(Without(fields, id), id) == Without(fields, id)
  {
    WithoutAbsent(Without(fields, id), id);
  }

  // ---- Duplicating a field ----

  /** `fields.find(f => f.id === id)`: the first field carrying the id. */
  function FindById(fields: seq<Field>, id: string): (r: Option<Field>)
    ensures r == None <==> forall i :: 0 <= i < |fields| ==> fields[i].id != id
    ensures r.Some? ==> exists i :: 0 <= i < |fields| && fields[i] == r.value && fields[i].id == id &&
                                   (forall j :: 0 <= j < i ==> fields[j].id != id)
  {
    if fields == [] then None
    else if fields[0].id == id then Some(fields[0])
    else
      assert forall i :: 1 <= i < |fields| ==> fields[i] == fields[1..][i - 1];
      FindById(fields[1..], id)
  }

  /** The copy `duplicateField` appends: everything but the id and the label
      is the original's. */
  function Copy(f: Field, freshId: string): (c: Field)
    ensures c.id == freshId && c.caption == f.caption + " (Copy)"
    ensures c.(id := f.id, caption := f.caption) == f
  {
    f.(id := freshId, caption := f.caption + " (Copy)")
  }

  /** `duplicateField`: append a copy of the first field with the id, under a
      fresh id and with " (Copy)" after its label; nothing when no field has the id. */
  function Duplicate(fields: seq<Field>, id: string, freshId: string): (r: seq<Field>)
    ensures FindById(fields, id) == None ==> r == fields
    ensures FindById(fields, id).Some? ==>
      && |r| == |fields| + 1
      && r[..|fields|] == fields
      && r[|fields|].id == freshId
      && r[|fields|].caption == FindById(fields, id).value.caption + " (Copy)"
      && r[|fields|].(id := id, caption := FindById(fields, id).value.caption) == FindById(fields, id).value
  {
    match FindById(fields, id)
    case None => fields
    case Some(f) => fields + [Copy(f, freshId)]
  }

  /** Deleting the copy right after duplicating restores the list, as long as
      the fresh id was not in use. */
  lemma DuplicateThenRemove(fields: seq<Field>, id: string, freshId: string)
    requires forall i :: 0 <= i < |fields| ==> fields[i].id != freshId
    ensures Without(Duplicate(fields, id, freshId), freshId) == fields
  {
    WithoutAbsent(fields, freshId);
    if FindById(fields, id).Some? {
      var c := Copy(FindById(fields, id).value, freshId);
      WithoutConcat(fields, [c], freshId);
      assert [c][..0] == [];
    }
  }

  // ---- Option lists ----

  /** `options.map((o, i) => i === oi ? text : o)`. */
  function ReplaceAt(options: seq<string>, oi: int, text: string): (r: seq<string>)
    ensures |r| == |options|
    ensures forall i :: 0 <= i < |r| ==> r[i] == if i == oi then text else options[i]
  {
    if options == [] then []
    else
      var n := |options| - 1;
      ReplaceAt(options[..n], oi, text) + [if n == oi then text else options[n]]
  }

  /** `options.filter((_, i) => i !== oi)`. */
  function RemoveAt(options: seq<string>, oi: int): (r: seq<string>)
    ensures r == if 0 <= oi < |options| then options[..oi] + options[oi + 1..] else options
  {
    if options == [] then []
    else
      var n := |options| - 1;
      var init := RemoveAt(options[..n], oi);
      if n == oi then
        assert options[..n][..oi] == options[..oi];
        init
      else
        assert options[..n] + [options[n]] == options;
        if 0 <= oi < n then
          assert options[..n][..oi] == options[..oi];
          assert options[..n][oi + 1..] + [options[n]] == options[oi + 1..];
          init + [options[n]]
        else
          init + [options[n]]
  }

  /** The option text "+ Add Option" appends: a blank option on the builder,
      "Option N+1" on the other pages, where N is the current option count. */
  function OptionText(page: Page, count: nat): (s: string)
    ensures page == Builder ==> s == ""
    ensures page != Builder ==> s == "Option " + Text.Decimal(count + 1)
  {
    if page == Builder then "" else "Option " + Text.Decimal(count + 1)
  }

  /** Generated option texts for different counts never coincide. */
  lemma OptionTextsDistinct(page: Page, m: nat, n: nat)
    requires page != Builder && m != n
    ensures OptionText(page, m) != OptionText(page, n)
  {
    if OptionText(page, m) == OptionText(page, n) {
      var p := "Option ";
      assert OptionText(page, m)[|p|..] == Text.Decimal(m + 1);
      assert OptionText(page, n)[|p|..] == Text.Decimal(n + 1);
      Text.DecimalInjective(m + 1, n + 1);
    }
  }

  // ---- Per-field edits ----

  /** The edits the pages offer on one field. The PII toggle and the
      condition editors exist only on the builder. */
  datatype Edit =
    | SetCaption(caption: string)
    | SetRequired(required: bool)
    | SetPII(on: bool)
    | EditOption(index: int, text: string)
    | RemoveOption(index: int)
    | AddOption
    | ChooseDependency(dependency: string)
    | SetConditionValue(equals: Value)
    | SetMin(min: int)
    | SetMax(max: int)

  predicate OptionEdit(e: Edit) {
    e.EditOption? || e.RemoveOption? || e.AddOption?
  }

  predicate ConditionEdit(e: Edit) {
    e.ChooseDependency? || e.SetConditionValue?
  }

  /** One edit applied to one field. The required checkbox is disabled on a
      PII field, so `SetRequired` leaves such a field alone. */
  function Apply(page: Page, f: Field, e: Edit): (r: Field)
    ensures r.id == f.id && r.kind == f.kind
    ensures (f.isPII ==> f.required) ==> (r.isPII ==> r.required)
    ensures !e.SetPII? ==> r.isPII == f.isPII
    ensures e.SetCaption? ==> r == f.(caption := e.caption)
    ensures e.SetPII? ==> r == f.(isPII := e.on, required := e.on || f.required)
    ensures e.SetRequired? ==> r == (if f.isPII then f else f.(required := e.required))
    ensures OptionEdit(e) ==> r.(options := f.options) == f
    ensures ConditionEdit(e) ==> r.(showIf := f.showIf) == f
    ensures e.EditOption? ==> r.options == ReplaceAt(f.options, e.index, e.text)
    ensures e.RemoveOption? ==> r.options == RemoveAt(f.options, e.index)
    ensures e.AddOption? ==> r.options == f.options + [OptionText(page, |f.options|)]
    ensures e.ChooseDependency? ==>
      r.showIf == (if e.dependency == "" then None else Some(ShowIf(e.dependency, Str(""))))
    ensures e.SetConditionValue? ==>
      r.showIf == Some(ShowIf(if f.showIf.Some? then f.showIf.value.fieldId else "", e.equals))
    ensures e.SetMin? ==> r == f.(min := e.min)
    ensures e.SetMax? ==> r == f.(max := e.max)
  {
    match e
    case SetCaption(c) => f.(caption := c)
    case SetRequired(b) => if f.isPII then f else f.(required := b)
    case SetPII(on) => f.(isPII := on, required := if on then true else f.required)
    case EditOption(oi, text) => f.(options := ReplaceAt(f.options, oi, text))
    case RemoveOption(oi) => f.(options := RemoveAt(f.options, oi))
    case AddOption => f.(options := f.options + [OptionText(page, |f.options|)])
    case ChooseDependency(dep) =>
      f.(showIf := if dep == "" then None else Some(ShowIf(dep, Str(""))))
    case SetConditionValue(v) =>
      f.(showIf := Some(ShowIf(if f.showIf.Some? then f.showIf.value.fieldId else "", v)))
    case SetMin(n) => f.(min := n)
    case SetMax(n) => f.(max := n)
  }

  /** `fields.map(y => y.id === id ? edit(y) : y)`. */
  function UpdateById(page: Page, fields: seq<Field>, id: string, e: Edit): (r: seq<Field>)
    ensures |r| == |fields|
    ensures forall i :: 0 <= i < |r| ==> r[i] == if fields[i].id == id then Apply(page, fields[i], e) else fields[i]
  {
    if fields == [] then []
    else
      var n := |fields| - 1;
      UpdateById(page, fields[..n], id, e) + [if fields[n].id == id then Apply(page, fields[n], e) else fields[n]]
  }

  predicate AllPIIRequired(fields: seq<Field>) {
    forall i :: 0 <= i < |fields| ==> fields[i].isPII ==> fields[i].required
  }

  predicate NoPII(fields: seq<Field>) {
    forall i :: 0 <= i < |fields| ==> !fields[i].isPII
  }

  /** No edit can leave a PII field optional. */
  lemma UpdateKeepsPIIRequired(page: Page, fields: seq<Field>, id: string, e: Edit)
    requires AllPIIRequired(fields)
    ensures AllPIIRequired(UpdateById(page, fields, id, e))
  {
  }

  /** Edits keep every field's id, so the list's ids and their order never change. */
  lemma UpdateKeepsIds(page: Page, fields: seq<Field>, id: string, e: Edit)
    ensures forall i :: 0 <= i < |fields| ==> UpdateById(page, fields, id, e)[i].id == fields[i].id
  {
  }

  /** An edit aimed at an id nobody carries changes nothing. */
  lemma UpdateAbsent(page: Page, fields: seq<Field>, id: string, e: Edit)
    requires forall i :: 0 <= i < |fields| ==> fields[i].id != id
    ensures UpdateById(page, fields, id, e) == fields
  {
  }

  // ---- Conditions ----

  /** The rating guard on a condition value: the parsed number is stored only
      when it lies within the dependency's bounds, which default to 1 and 5
      when unset. `None` stands for an input that does not parse. */
  function RatingCondition(dependency: Field, parsed: Option<int>): (r: Option<Value>)
    ensures r.Some? <==>
      parsed.Some? && Validation.RatingMin(dependency) <= parsed.value <= Validation.RatingMax(dependency)
    ensures r.Some? ==> r.value == Num(parsed.value as real)
  {
    match parsed
    case None => None
    case Some(n) =>
      if Validation.RatingMin(dependency) <= n && n <= Validation.RatingMax(dependency) then Some(Num(n as real))
      else None
  }

  /** A stored rating condition is itself an answer the validator accepts
      for the dependency, so the condition can be met. */
  lemma RatingConditionAcceptable(dependency: Field, parsed: Option<int>, answers: map<string, Value>)
    requires dependency.kind == "rating"
    requires RatingCondition(dependency, parsed).Some?
    ensures Validation.TypeViolation(dependency, RatingCondition(dependency, parsed).value) == None
  {
  }

  /** Just after a dependency is chosen, the condition asks for the empty
      string; a single-choice dependency never accepts that answer, so until
      a value is picked the field stays hidden for every submission that
      passes validation of the dependency. */
  lemma FreshConditionHides(page: Page, f: Field, dependency: Field, answers: map<string, Value>)
    requires dependency.id != "" && dependency.kind == "single_choice"
    requires dependency.id in answers ==> Validation.TypeViolation(dependency, answers[dependency.id]) == None
    ensures !Validation.Visible(Apply(page, f, ChooseDependency(dependency.id)), answers)
  {
  }

  /** The improved and original pages create choice fields with kinds the
      validator does not know ("multiple_choice", "checkboxes"), so any answer
      to them is accepted. */
  lemma UnknownKindsUnchecked(page: Page, id: string, v: Value)
    requires page != Builder
    ensures Validation.TypeViolation(NewField(page, "multiple_choice", id), v) == None
    ensures Validation.TypeViolation(NewField(page, "checkboxes", id), v) == None
  {
  }
}
