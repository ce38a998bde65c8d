/** The analytics computed over the stored responses of a form
    (`computeAnalytics` in backend/api/analytics.go): per-field bucket counts,
    numeric sums and answered-counts, skip counts, averages, most-common
    answers and the skipped-fields list. The scan over responses is a left
    fold of one step function; the per-key totals it reaches are also given
    directly, as sums over the responses. */
module Analytics {
  import opened Models

  /** The accumulators of the scan, named after the handler's local maps:
      `fieldCounts` counts the non-PII fields visited, `counts` the numeric
      answers, `fieldSkips` the absent, null or empty answers. */
  datatype Tally = Tally(
    count: nat,
    breakdown: map<string, Distribution>,
    sums: map<string, real>,
    counts: map<string, nat>,
    fieldCounts: map<string, nat>,
    fieldSkips: map<string, nat>)

  const Empty := Tally(0, map[], map[], map[], map[], map[])

  function BucketsOf(breakdown: map<string, Distribution>, k: string): map<string, nat> {
    if k in breakdown then breakdown[k].buckets else map[]
  }

  /** Bucket `b` of field `k`, zero when absent. */
  function Bucket(t: Tally, k: string, b: string): nat {
    Get(BucketsOf(t.breakdown, k), b)
  }

  /** A present, non-null answer that still counts as a skip. */
  predicate CountsAsSkip(v: Value) {
    v == Str("") || v == List([])
  }

  /** One increment per string element of a list answer; other elements are ignored. */
  function AddStrings(d: map<string, nat>, items: seq<Value>): map<string, nat> {
    if items == [] then d
    else
      var d' := AddStrings(d, items[..|items| - 1]);
      var last := items[|items| - 1];
      if last.Str? then Inc(d', last.s) else d'
  }

  /** The bucket update for a present, non-null answer. */
  function Tallied(d: map<string, nat>, v: Value): (r: map<string, nat>)
    ensures v == Str("") || v == List([]) || v == Null ==> r == d
  {
    match v
    case Str(s) => if s != "" then Inc(d, s) else d
    case Num(_) => Inc(d, "value")
    case Bool(b) => Inc(d, if b then "true" else "false")
    case List(items) => AddStrings(d, items)
    case Null => d
    case Other => Inc(d, "other")
  }

  /** The body of the inner loop for one field of one response. */
  function FieldStep(t: Tally, field: Field, answers: map<string, Value>): (u: Tally)
    ensures u.count == t.count
    ensures field.isPII ==> u == t
    ensures !field.isPII ==>
      && Get(u.fieldCounts, field.id) == Get(t.fieldCounts, field.id) + 1
      && Get(u.fieldSkips, field.id) <= Get(t.fieldSkips, field.id) + 1
  {
    if field.isPII then t
    else if field.id in answers && answers[field.id] != Null then
      var v := answers[field.id];
      Tally(
        t.count,
        t.breakdown[field.id := Distribution(Tallied(BucketsOf(t.breakdown, field.id), v))],
        if v.Num? then t.sums[field.id := GetReal(t.sums, field.id) + v.n] else t.sums,
        if v.Num? then Inc(t.counts, field.id) else t.counts,
        Inc(t.fieldCounts, field.id),
        if CountsAsSkip(v) then Inc(t.fieldSkips, field.id) else t.fieldSkips)
    else
      t.(fieldCounts := Inc(t.fieldCounts, field.id), fieldSkips := Inc(t.fieldSkips, field.id))
  }

  /** The inner loop: every field of the form, in order. */
  function StepFields(fields: seq<Field>, t: Tally, answers: map<string, Value>): (u: Tally)
    ensures u.count == t.count
    ensures (forall i :: 0 <= i < |fields| ==> fields[i].isPII) ==> u == t
  {
    if fields == [] then t
    else FieldStep(StepFields(fields[..|fields| - 1], t, answers), fields[|fields| - 1], answers)
  }

  /** One response: count it, then visit every field. */
  function Step(form: Form, t: Tally, r: Response): (u: Tally)
    ensures u.count == t.count + 1
  {
    StepFields(form.fields, t.(count := t.count + 1), r.answers)
  }

  /** The outer loop from state `t` over `rs`. */
  function FoldFrom(form: Form, t: Tally, rs: seq<Response>): (u: Tally)
    ensures u.count == t.count + |rs|
  {
    if rs == [] then t
    else Step(form, FoldFrom(form, t, rs[..|rs| - 1]), rs[|rs| - 1])
  }

  function Fold(form: Form, rs: seq<Response>): (u: Tally)
    ensures u.count == |rs|
    ensures rs == [] ==> u == Empty
  {
    FoldFrom(form, Empty, rs)
  }

  // ---- Answers as the database driver decodes them ----

  /** How `cur.Decode` hands a stored answer to the type switch. The driver's
      default decoding of a BSON array held in an `interface{}` is
      `primitive.A`, a named type that the `[]interface{}` case does not
      match, so a stored list reaches the `default` branch, as a document does. */
  function ReadBack(v: Value): (w: Value)
    ensures v.List? ==> w == Other
    ensures !v.List? ==> w == v
  {
    if v.List? then Other else v
  }

  function ReadBackResponse(r: Response): (w: Response)
    ensures w.answers.Keys == r.answers.Keys
    ensures forall k :: k in r.answers ==> w.answers[k] == ReadBack(r.answers[k])
  {
    Response(map k | k in r.answers :: ReadBack(r.answers[k]))
  }

  /** The scan as written, over the responses as the driver decodes them. */
  function FoldAsDeployed(form: Form, rs: seq<Response>): (u: Tally)
    ensures u.count == |rs|
    ensures (forall i :: 0 <= i < |rs| ==> forall k :: k in rs[i].answers ==> !rs[i].answers[k].List?) ==>
      u == Fold(form, rs)
  {
    ReadBackKeepsScalars(rs);
    Fold(form, ReadBackAll(rs))
  }

  function ReadBackAll(rs: seq<Response>): (ws: seq<Response>)
    ensures |ws| == |rs| && forall i :: 0 <= i < |rs| ==> ws[i] == ReadBackResponse(rs[i])
  {
    seq(|rs|, i requires 0 <= i < |rs| => ReadBackResponse(rs[i]))
  }

  lemma ReadBackKeepsScalars(rs: seq<Response>)
    ensures (forall i :: 0 <= i < |rs| ==> forall k :: k in rs[i].answers ==> !rs[i].answers[k].List?) ==>
      ReadBackAll(rs) == rs
  {
    if forall i :: 0 <= i < |rs| ==> forall k :: k in rs[i].answers ==> !rs[i].answers[k].List? {
      forall i | 0 <= i < |rs|
        ensures ReadBackAll(rs)[i] == rs[i]
      {
        assert ReadBackResponse(rs[i]).answers == rs[i].answers;
      }
    }
  }

  /** A poll with one multi_select question, answered once with ["a"] and
      once with an empty selection. */
  const PollField := Field("q", "Pick", "multi_select", true, ["a"], 0, 0, None, false)
  const PollForm := Form("f", "Poll", "published", [PollField], "o")
  const PollResponses := [Response(map["q" := List([Str("a")])]), Response(map["q" := List([])])]

  lemma PollStep(t: Tally, r: Response)
    ensures Step(PollForm, t, r) == FieldStep(t.(count := t.count + 1), PollField, r.answers)
  {
    assert PollForm.fields[..0] == [];
  }

  lemma FoldPair(form: Form, a: Response, b: Response)
    ensures Fold(form, [a, b]) == Step(form, Step(form, Empty, a), b)
  {
    assert [a, b][..1] == [a] && [a][..0] == [];
    assert FoldFrom(form, Empty, [a]) == Step(form, FoldFrom(form, Empty, []), a);
    assert FoldFrom(form, Empty, [a, b]) == Step(form, FoldFrom(form, Empty, [a]), b);
  }

  /** As deployed, the selection ["a"] is counted under "other" rather than
      "a", and the empty selection is not counted as a skip. */
  lemma ListAnswersMiscounted()
    ensures Bucket(FoldAsDeployed(PollForm, PollResponses), "q", "a") == 0
    ensures Bucket(FoldAsDeployed(PollForm, PollResponses), "q", "other") == 2
    ensures Get(FoldAsDeployed(PollForm, PollResponses).fieldSkips, "q") == 0
  {
    var o := Response(map["q" := Other]);
    assert ReadBackResponse(PollResponses[0]).answers == o.answers;
    assert ReadBackResponse(PollResponses[1]).answers == o.answers;
    assert ReadBackAll(PollResponses) == [o, o];
    FoldPair(PollForm, o, o);
    PollStep(Empty, o);
    var d1 := Step(PollForm, Empty, o);
    assert Bucket(d1, "q", "other") == 1 && Bucket(d1, "q", "a") == 0 && Get(d1.fieldSkips, "q") == 0;
    PollStep(d1, o);
  }

  /** The scan as intended counts the selection ["a"] under "a" and the
      empty selection as a skip. */
  lemma ListAnswersCounted()
    ensures Bucket(Fold(PollForm, PollResponses), "q", "a") == 1
    ensures Get(Fold(PollForm, PollResponses).fieldSkips, "q") == 1
  {
    var r1, r2 := PollResponses[0], PollResponses[1];
    FoldPair(PollForm, r1, r2);
    PollStep(Empty, r1);
    var e1 := Step(PollForm, Empty, r1);
    assert AddStrings(map[], [Str("a")]) == Inc(map[], "a") by {
      assert [Str("a")][..0] == [];
    }
    assert Bucket(e1, "q", "a") == 1 && Get(e1.fieldSkips, "q") == 0;
    PollStep(e1, r2);
  }

  /** Processing a batch equals processing its two halves one after the
      other: recomputing from scratch and applying responses incrementally
      give the same state. */
  lemma {:induction false} FoldSplit(form: Form, t: Tally, a: seq<Response>, b: seq<Response>)
    ensures FoldFrom(form, t, a + b) == FoldFrom(form, FoldFrom(form, t, a), b)
  {
    if b == [] {
      assert a + b == a;
    } else {
      assert (a + b)[..|a + b| - 1] == a + b[..|b| - 1];
      assert (a + b)[|a + b| - 1] == b[|b| - 1];
      FoldSplit(form, t, a, b[..|b| - 1]);
    }
  }

  // ---- The per-key totals, stated directly over the responses ----

  /** How many non-PII fields carry id `k` (each visit adds to `k`'s totals). */
  function Multiplicity(fields: seq<Field>, k: string): nat {
    if fields == [] then 0
    else
      var last := fields[|fields| - 1];
      Multiplicity(fields[..|fields| - 1], k) + (if !last.isPII && last.id == k then 1 else 0)
  }

  predicate Present(answers: map<string, Value>, k: string) {
    k in answers && answers[k] != Null
  }

  function SkipOf(answers: map<string, Value>, k: string): nat {
    if !Present(answers, k) || CountsAsSkip(answers[k]) then 1 else 0
  }

  function NumOf(answers: map<string, Value>, k: string): nat {
    if Present(answers, k) && answers[k].Num? then 1 else 0
  }

  function NumValueOf(answers: map<string, Value>, k: string): real {
    if Present(answers, k) && answers[k].Num? then answers[k].n else 0.0
  }

  /** Occurrences of the string `b` in a list answer. */
  function CountStr(items: seq<Value>, b: string): nat {
    if items == [] then 0
    else CountStr(items[..|items| - 1], b) + (if items[|items| - 1] == Str(b) then 1 else 0)
  }

  /** How many times one answer increments bucket `b`. */
  function HitsOf(v: Value, b: string): nat {
    match v
    case Str(s) => if s != "" && s == b then 1 else 0
    case Num(_) => if b == "value" then 1 else 0
    case Bool(x) => if b == (if x then "true" else "false") then 1 else 0
    case List(items) => CountStr(items, b)
    case Null => 0
    case Other => if b == "other" then 1 else 0
  }

  function HitsAt(answers: map<string, Value>, k: string, b: string): nat {
    if Present(answers, k) then HitsOf(answers[k], b) else 0
  }

  function Skipped(rs: seq<Response>, k: string): nat {
    if rs == [] then 0 else Skipped(rs[..|rs| - 1], k) + SkipOf(rs[|rs| - 1].answers, k)
  }

  function Hits(rs: seq<Response>, k: string, b: string): nat {
    if rs == [] then 0 else Hits(rs[..|rs| - 1], k, b) + HitsAt(rs[|rs| - 1].answers, k, b)
  }

  /** The numeric answers to `k`, in response order. */
  function NumericAnswers(rs: seq<Response>, k: string): seq<real> {
    if rs == [] then []
    else
      var a := rs[|rs| - 1].answers;
      NumericAnswers(rs[..|rs| - 1], k) + (if Present(a, k) && a[k].Num? then [a[k].n] else [])
  }

  /** How many responses hold a present, non-null answer to `k`. */
  function AnsweredCount(rs: seq<Response>, k: string): nat {
    if rs == [] then 0
    else AnsweredCount(rs[..|rs| - 1], k) + (if Present(rs[|rs| - 1].answers, k) then 1 else 0)
  }

  function Sum(xs: seq<real>): real {
    if xs == [] then 0.0 else Sum(xs[..|xs| - 1]) + xs[|xs| - 1]
  }

  lemma {:induction false} SkippedAtMost(rs: seq<Response>, k: string)
    ensures Skipped(rs, k) <= |rs|
  {
    if rs != [] {
      SkippedAtMost(rs[..|rs| - 1], k);
    }
  }

  lemma {:induction false} AddStringsAt(d: map<string, nat>, items: seq<Value>, b: string)
    ensures Get(AddStrings(d, items), b) == Get(d, b) + CountStr(items, b)
    ensures AddStrings(d, items).Keys >= d.Keys
  {
    if items != [] {
      AddStringsAt(d, items[..|items| - 1], b);
    }
  }

  lemma TalliedAt(d: map<string, nat>, v: Value, b: string)
    requires v != Null
    ensures Get(Tallied(d, v), b) == Get(d, b) + HitsOf(v, b)
  {
    if v.List? {
      AddStringsAt(d, v.items, b);
    }
  }

  /** Everything the state says about field key `k` and bucket `b`. */
  datatype KeyView = KeyView(
    visits: nat, skips: nat, numeric: nat, sum: real, hits: nat,
    inBreakdown: bool, inSums: bool, inCounts: bool, inVisits: bool, inSkips: bool)

  function View(t: Tally, k: string, b: string): KeyView {
    KeyView(
      Get(t.fieldCounts, k), Get(t.fieldSkips, k), Get(t.counts, k), GetReal(t.sums, k), Bucket(t, k, b),
      k in t.breakdown, k in t.sums, k in t.counts, k in t.fieldCounts, k in t.fieldSkips)
  }

  /** What one visit of a non-PII field with id `k` adds to that view. */
  function Visit(v: KeyView, answers: map<string, Value>, k: string, b: string): KeyView {
    KeyView(
      v.visits + 1, v.skips + SkipOf(answers, k), v.numeric + NumOf(answers, k),
      v.sum + NumValueOf(answers, k), v.hits + HitsAt(answers, k, b),
      v.inBreakdown || Present(answers, k), v.inSums || NumOf(answers, k) == 1,
      v.inCounts || NumOf(answers, k) == 1, true, v.inSkips || SkipOf(answers, k) == 1)
  }

  function Visits(v: KeyView, n: nat, answers: map<string, Value>, k: string, b: string): KeyView {
    if n == 0 then v else Visit(Visits(v, n - 1, answers, k, b), answers, k, b)
  }

  /** `n` visits add `n` times what one visit adds. */
  lemma VisitsClosed(v: KeyView, n: nat, answers: map<string, Value>, k: string, b: string)
    ensures Visits(v, n, answers, k, b) == KeyView(
      v.visits + n, v.skips + n * SkipOf(answers, k), v.numeric + n * NumOf(answers, k),
      v.sum + Scaled(n, NumValueOf(answers, k)), v.hits + n * HitsAt(answers, k, b),
      v.inBreakdown || (n > 0 && Present(answers, k)), v.inSums || (n > 0 && NumOf(answers, k) == 1),
      v.inCounts || (n > 0 && NumOf(answers, k) == 1), v.inVisits || n > 0,
      v.inSkips || (n > 0 && SkipOf(answers, k) == 1))
  {
    VisitsCounts(v, n, answers, k, b);
    VisitsSum(v, n, answers, k, b);
    VisitsFlags(v, n, answers, k, b);
  }

  lemma {:induction false} VisitsCounts(v: KeyView, n: nat, answers: map<string, Value>, k: string, b: string)
    ensures var w := Visits(v, n, answers, k, b);
      && w.visits == v.visits + n
      && w.skips == v.skips + n * SkipOf(answers, k)
      && w.numeric == v.numeric + n * NumOf(answers, k)
      && w.hits == v.hits + n * HitsAt(answers, k, b)
  {
    if n > 0 {
      VisitsCounts(v, n - 1, answers, k, b);
      Distrib(n - 1, 1, SkipOf(answers, k));
      Distrib(n - 1, 1, NumOf(answers, k));
      Distrib(n - 1, 1, HitsAt(answers, k, b));
    }
  }

  lemma {:induction false} VisitsSum(v: KeyView, n: nat, answers: map<string, Value>, k: string, b: string)
    ensures Visits(v, n, answers, k, b).sum == v.sum + Scaled(n, NumValueOf(answers, k))
  {
    if n > 0 {
      VisitsSum(v, n - 1, answers, k, b);
    }
  }

  lemma {:induction false} VisitsFlags(v: KeyView, n: nat, answers: map<string, Value>, k: string, b: string)
    ensures var w := Visits(v, n, answers, k, b);
      && w.inBreakdown == (v.inBreakdown || (n > 0 && Present(answers, k)))
      && w.inSums == (v.inSums || (n > 0 && NumOf(answers, k) == 1))
      && w.inCounts == (v.inCounts || (n > 0 && NumOf(answers, k) == 1))
      && w.inVisits == (v.inVisits || n > 0)
      && w.inSkips == (v.inSkips || (n > 0 && SkipOf(answers, k) == 1))
  {
    if n > 0 {
      VisitsFlags(v, n - 1, answers, k, b);
    }
  }

  lemma Distrib(a: nat, b: nat, c: nat)
    ensures (a + b) * c == a * c + b * c
    ensures c * (a + b) == c * a + c * b
  {
  }

  /** `m` copies of `x` added up: what `m` visits add to a sum. */
  function Scaled(m: nat, x: real): real {
    if m == 0 then 0.0 else Scaled(m - 1, x) + x
  }

  lemma {:induction false} ScaledIsProduct(m: nat, x: real)
    ensures Scaled(m, x) == (m as real) * x
  {
    if m > 0 {
      ScaledIsProduct(m - 1, x);
    }
  }

  lemma {:induction false} ScaledAdd(m: nat, s: real, x: real)
    ensures Scaled(m, s + x) == Scaled(m, s) + Scaled(m, x)
  {
    if m > 0 {
      ScaledAdd(m - 1, s, x);
    }
  }

  /** One field visit changes key `k` only when the field is a non-PII field with id `k`. */
  lemma FieldStepAt(t: Tally, field: Field, answers: map<string, Value>, k: string, b: string)
    ensures FieldStep(t, field, answers).count == t.count
    ensures View(FieldStep(t, field, answers), k, b) ==
      if !field.isPII && field.id == k then Visit(View(t, k, b), answers, k, b) else View(t, k, b)
  {
    if field.isPII || field.id != k {
      FieldStepElsewhere(t, field, answers, k, b);
    } else if Present(answers, k) {
      FieldStepAnswered(t, field, answers, b);
    } else {
      FieldStepMissing(t, field, answers, b);
    }
  }

  lemma FieldStepElsewhere(t: Tally, field: Field, answers: map<string, Value>, k: string, b: string)
    requires field.isPII || field.id != k
    ensures FieldStep(t, field, answers).count == t.count
    ensures View(FieldStep(t, field, answers), k, b) == View(t, k, b)
  {
    var s := FieldStep(t, field, answers);
    if !field.isPII {
      assert BucketsOf(s.breakdown, k) == BucketsOf(t.breakdown, k);
    }
  }

  lemma FieldStepAnswered(t: Tally, field: Field, answers: map<string, Value>, b: string)
    requires !field.isPII && Present(answers, field.id)
    ensures FieldStep(t, field, answers).count == t.count
    ensures View(FieldStep(t, field, answers), field.id, b) == Visit(View(t, field.id, b), answers, field.id, b)
  {
    var k := field.id;
    var v := answers[k];
    TalliedAt(BucketsOf(t.breakdown, k), v, b);
  }

  lemma FieldStepMissing(t: Tally, field: Field, answers: map<string, Value>, b: string)
    requires !field.isPII && !Present(answers, field.id)
    ensures FieldStep(t, field, answers).count == t.count
    ensures View(FieldStep(t, field, answers), field.id, b) == Visit(View(t, field.id, b), answers, field.id, b)
  {
  }

  /** Visiting all fields of a form visits key `k` once per non-PII field with that id. */
  lemma {:induction false} StepFieldsAt(fields: seq<Field>, t: Tally, answers: map<string, Value>, k: string, b: string)
    ensures StepFields(fields, t, answers).count == t.count
    ensures View(StepFields(fields, t, answers), k, b) == Visits(View(t, k, b), Multiplicity(fields, k), answers, k, b)
  {
    if fields != [] {
      var init := fields[..|fields| - 1];
      var last := fields[|fields| - 1];
      StepFieldsAt(init, t, answers, k, b);
      StepFieldsLast(fields, t, answers, k, b);
      VisitsNext(View(t, k, b), Multiplicity(init, k), Multiplicity(fields, k), View(StepFields(init, t, answers), k, b),
        View(StepFields(fields, t, answers), k, b), !last.isPII && last.id == k, answers, k, b);
    }
  }

  /** The last field of the inner loop visits key `k` when it is a non-PII field with that id. */
  lemma StepFieldsLast(fields: seq<Field>, t: Tally, answers: map<string, Value>, k: string, b: string)
    requires fields != []
    ensures var init := fields[..|fields| - 1]; var last := fields[|fields| - 1];
      var w := View(StepFields(init, t, answers), k, b);
      View(StepFields(fields, t, answers), k, b) == if !last.isPII && last.id == k then Visit(w, answers, k, b) else w
  {
    FieldStepAt(StepFields(fields[..|fields| - 1], t, answers), fields[|fields| - 1], answers, k, b);
  }

  lemma VisitsNext(v0: KeyView, n: nat, n': nat, w: KeyView, w': KeyView, hit: bool, answers: map<string, Value>, k: string, b: string)
    requires n' == if hit then n + 1 else n
    requires w == Visits(v0, n, answers, k, b)
    requires w' == if hit then Visit(w, answers, k, b) else w
    ensures w' == Visits(v0, n', answers, k, b)
  {
  }

  /** The view of key `k` after replaying `rs`, each response visiting the key `m` times. */
  function Replay(rs: seq<Response>, m: nat, k: string, b: string): KeyView {
    if rs == [] then View(Empty, k, b)
    else Visits(Replay(rs[..|rs| - 1], m, k, b), m, rs[|rs| - 1].answers, k, b)
  }

  lemma {:induction false} FoldReplays(form: Form, rs: seq<Response>, k: string, b: string)
    ensures Fold(form, rs).count == |rs|
    ensures View(Fold(form, rs), k, b) == Replay(rs, Multiplicity(form.fields, k), k, b)
  {
    if rs != [] {
      var init := rs[..|rs| - 1];
      FoldReplays(form, init, k, b);
      var t0 := Fold(form, init);
      assert View(t0.(count := t0.count + 1), k, b) == View(t0, k, b);
      StepFieldsAt(form.fields, t0.(count := t0.count + 1), rs[|rs| - 1].answers, k, b);
    }
  }

  lemma {:induction false} ReplayCounts(rs: seq<Response>, m: nat, k: string, b: string)
    ensures var w := Replay(rs, m, k, b);
      && w.visits == m * |rs|
      && w.skips == m * Skipped(rs, k)
      && w.numeric == m * |NumericAnswers(rs, k)|
      && w.hits == m * Hits(rs, k, b)
  {
    if rs != [] {
      var init := rs[..|rs| - 1];
      var a := rs[|rs| - 1].answers;
      ReplayCounts(init, m, k, b);
      VisitsCounts(Replay(init, m, k, b), m, a, k, b);
      assert |NumericAnswers(rs, k)| == |NumericAnswers(init, k)| + NumOf(a, k);
      Distrib(|init|, 1, m);
      Distrib(Skipped(init, k), SkipOf(a, k), m);
      Distrib(|NumericAnswers(init, k)|, NumOf(a, k), m);
      Distrib(Hits(init, k, b), HitsAt(a, k, b), m);
    }
  }

  lemma {:induction false} ReplaySum(rs: seq<Response>, m: nat, k: string, b: string)
    ensures Replay(rs, m, k, b).sum == Scaled(m, Sum(NumericAnswers(rs, k)))
  {
    if rs != [] {
      var init := rs[..|rs| - 1];
      var a := rs[|rs| - 1].answers;
      ReplaySum(init, m, k, b);
      VisitsSum(Replay(init, m, k, b), m, a, k, b);
      NumericSumStep(rs, k);
      ScaledAdd(m, Sum(NumericAnswers(init, k)), NumValueOf(a, k));
    } else {
      ScaledIsProduct(m, 0.0);
    }
  }

  /** The last response adds its numeric value (or nothing) to the sum of the numeric answers. */
  lemma NumericSumStep(rs: seq<Response>, k: string)
    requires rs != []
    ensures Sum(NumericAnswers(rs, k)) == Sum(NumericAnswers(rs[..|rs| - 1], k)) + NumValueOf(rs[|rs| - 1].answers, k)
  {
    var a := rs[|rs| - 1].answers;
    var xs := NumericAnswers(rs[..|rs| - 1], k);
    if Present(a, k) && a[k].Num? {
      SumSnoc(xs, a[k].n);
    } else {
      assert NumericAnswers(rs, k) == xs + [];
      assert xs + [] == xs;
    }
  }

  lemma SumSnoc(xs: seq<real>, x: real)
    ensures Sum(xs + [x]) == Sum(xs) + x
  {
    assert (xs + [x])[..|xs|] == xs;
  }

  lemma {:induction false} ReplayFlags(rs: seq<Response>, m: nat, k: string, b: string)
    ensures var w := Replay(rs, m, k, b);
      && w.inBreakdown == (m > 0 && AnsweredCount(rs, k) > 0)
      && w.inSums == (m > 0 && |NumericAnswers(rs, k)| > 0)
      && w.inCounts == (m > 0 && |NumericAnswers(rs, k)| > 0)
      && w.inVisits == (m > 0 && |rs| > 0)
      && w.inSkips == (m > 0 && Skipped(rs, k) > 0)
  {
    if rs != [] {
      var init := rs[..|rs| - 1];
      var a := rs[|rs| - 1].answers;
      ReplayFlags(init, m, k, b);
      VisitsFlags(Replay(init, m, k, b), m, a, k, b);
      assert |NumericAnswers(rs, k)| == |NumericAnswers(init, k)| + NumOf(a, k);
    }
  }

  /** The totals for key `k` after all responses: `m` copies of the direct
      sums over the responses, where `m` is the number of non-PII fields with id `k`. */
  function Expected(rs: seq<Response>, m: nat, k: string, b: string): KeyView {
    KeyView(
      m * |rs|, m * Skipped(rs, k), m * |NumericAnswers(rs, k)|,
      Scaled(m, Sum(NumericAnswers(rs, k))), m * Hits(rs, k, b),
      m > 0 && AnsweredCount(rs, k) > 0, m > 0 && |NumericAnswers(rs, k)| > 0,
      m > 0 && |NumericAnswers(rs, k)| > 0, m > 0 && |rs| > 0, m > 0 && Skipped(rs, k) > 0)
  }

  /** The scan's totals for any key and bucket, stated directly over the responses. */
  lemma FoldAt(form: Form, rs: seq<Response>, k: string, b: string)
    ensures Fold(form, rs).count == |rs|
    ensures View(Fold(form, rs), k, b) == Expected(rs, Multiplicity(form.fields, k), k, b)
  {
    FoldReplays(form, rs, k, b);
    ReplayExpected(rs, Multiplicity(form.fields, k), k, b);
  }

  lemma ReplayExpected(rs: seq<Response>, m: nat, k: string, b: string)
    ensures Replay(rs, m, k, b) == Expected(rs, m, k, b)
  {
    ReplayCounts(rs, m, k, b);
    ReplaySum(rs, m, k, b);
    ReplayFlags(rs, m, k, b);
  }

  /** PII fields never receive a bucket, a sum, a numeric count, a visit count
      or a skip count, however many responses answer them. */
  lemma PIINeverAggregated(form: Form, rs: seq<Response>, k: string)
    requires forall i :: 0 <= i < |form.fields| && form.fields[i].id == k ==> form.fields[i].isPII
    ensures var t := Fold(form, rs);
      k !in t.breakdown && k !in t.sums && k !in t.counts && k !in t.fieldSkips && Get(t.fieldCounts, k) == 0
  {
    NoNonPIIMeansZero(form.fields, k);
    FoldAt(form, rs, k, "");
  }

  lemma {:induction false} NoNonPIIMeansZero(fields: seq<Field>, k: string)
    requires forall i :: 0 <= i < |fields| && fields[i].id == k ==> fields[i].isPII
    ensures Multiplicity(fields, k) == 0
  {
    if fields != [] {
      NoNonPIIMeansZero(fields[..|fields| - 1], k);
    }
  }

  /** Each response adds one skip per visit of the field at most, so a
      field's skip count never exceeds its visit count, and never exceeds the
      response count when at most one non-PII field carries the id. */
  lemma SkipsBounded(form: Form, rs: seq<Response>, k: string)
    ensures Get(Fold(form, rs).fieldSkips, k) <= Get(Fold(form, rs).fieldCounts, k)
    ensures Multiplicity(form.fields, k) <= 1 ==> Get(Fold(form, rs).fieldSkips, k) <= |rs|
  {
    var m := Multiplicity(form.fields, k);
    FoldAt(form, rs, k, "");
    SkippedAtMost(rs, k);
    MulMono(m, Skipped(rs, k), |rs|);
  }

  lemma MulMono(m: nat, a: nat, b: nat)
    requires a <= b
    ensures m * a <= m * b
    ensures m <= 1 ==> m * a <= b
  {
    if m == 1 {
      assert m * a == a;
    }
  }

  /** Every field with id `k` adds the same answers, so the quotient the
      averages loop takes is the mean of the numeric answers to `k`, however
      many non-PII fields carry that id. */
  lemma MeanOfNumericAnswers(form: Form, rs: seq<Response>, k: string)
    ensures var t := Fold(form, rs);
      k in t.sums ==>
        && |NumericAnswers(rs, k)| > 0 && Get(t.counts, k) > 0
        && GetReal(t.sums, k) / (Get(t.counts, k) as real) == Sum(NumericAnswers(rs, k)) / (|NumericAnswers(rs, k)| as real)
  {
    var v := View(Fold(form, rs), k, "");
    FoldAt(form, rs, k, "");
    if v.inSums {
      MeanOfTotals(v.sum, v.numeric, Multiplicity(form.fields, k), Sum(NumericAnswers(rs, k)), |NumericAnswers(rs, k)|);
    }
  }

  /** Totals `m` times a sum `s` and `m` times a count `n` have the mean `s / n`. */
  lemma MeanOfTotals(sum: real, count: nat, m: nat, s: real, n: nat)
    requires m > 0 && n > 0
    requires sum == Scaled(m, s) && count == m * n
    ensures count > 0 && sum / (count as real) == s / (n as real)
  {
    ScaledIsProduct(m, s);
    var x := s / (n as real);
    DivTimes(s, n as real);
    assert count as real == (m as real) * (n as real);
    MulAssoc(m as real, x, n as real);
    assert sum == x * (count as real);
    TimesDiv(x, count as real);
  }

  lemma DivTimes(a: real, c: real)
    requires c != 0.0
    ensures (a / c) * c == a
  {
  }

  lemma TimesDiv(x: real, c: real)
    requires c != 0.0
    ensures (x * c) / c == x
  {
  }

  lemma MulAssoc(m: real, x: real, n: real)
    ensures m * (x * n) == x * (m * n)
  {
  }

  // ---- The imperative scan and the post-processing ----

  /** The type switch on one present, non-null answer: the bucket update,
      and whether the answer is an empty string or an empty list. */
  method TallyAnswer(d0: map<string, nat>, answer: Value) returns (d: map<string, nat>, skip: bool)
    requires answer != Null
    ensures d == Tallied(d0, answer)
    ensures skip == CountsAsSkip(answer)
  {
    d, skip := d0, false;
    match answer {
      case Str(v) =>
        if v != "" {
          d := d[v := Get(d, v) + 1];
        } else {
          skip := true;
        }
      case Num(_) =>
        d := d["value" := Get(d, "value") + 1];
      case Bool(v) =>
        if v {
          d := d["true" := Get(d, "true") + 1];
        } else {
          d := d["false" := Get(d, "false") + 1];
        }
      case List(v) =>
        if |v| > 0 {
          var n := 0;
          while n < |v|
            invariant 0 <= n <= |v|
            invariant d == AddStrings(d0, v[..n])
          {
            assert v[..n + 1][..n] == v[..n];
            if v[n].Str? {
              d := d[v[n].s := Get(d, v[n].s) + 1];
            }
            n := n + 1;
          }
          assert v[..n] == v;
        } else {
          skip := true;
        }
      case Other =>
        d := d["other" := Get(d, "other") + 1];
    }
  }

  /** The body of the field loop for one field of one response, updating
      the handler's maps in place. */
  method VisitField(t: Tally, field: Field, answers: map<string, Value>) returns (u: Tally)
    ensures u == FieldStep(t, field, answers)
  {
    if field.isPII {
      return t;
    }
    var breakdown, sums, counts, fieldCounts, fieldSkips := t.breakdown, t.sums, t.counts, t.fieldCounts, t.fieldSkips;
    fieldCounts := Inc(fieldCounts, field.id);
    if field.id in answers && answers[field.id] != Null {
      var answer := answers[field.id];
      var d, skip := TallyAnswer(BucketsOf(breakdown, field.id), answer);
      if skip {
        fieldSkips := Inc(fieldSkips, field.id);
      }
      if answer.Num? {
        sums := sums[field.id := GetReal(sums, field.id) + answer.n];
        counts := Inc(counts, field.id);
      }
      breakdown := breakdown[field.id := Distribution(d)];
      u := Tally(t.count, breakdown, sums, counts, fieldCounts, fieldSkips);
      assert u.fieldSkips == if CountsAsSkip(answer) then Inc(t.fieldSkips, field.id) else t.fieldSkips;
      assert u.counts == if answer.Num? then Inc(t.counts, field.id) else t.counts;
    } else {
      fieldSkips := Inc(fieldSkips, field.id);
      u := Tally(t.count, breakdown, sums, counts, fieldCounts, fieldSkips);
    }
  }

  /** The response loop with its nested field loop; the accumulator record
      holds the handler's local count and maps. */
  method Aggregate(form: Form, responses: seq<Response>) returns (t: Tally)
    ensures t == Fold(form, responses)
  {
    t := Empty;
    var i := 0;
    while i < |responses|
      invariant 0 <= i <= |responses|
      invariant t == Fold(form, responses[..i])
    {
      var r := responses[i];
      t := t.(count := t.count + 1);
      ghost var start := t;
      var j := 0;
      while j < |form.fields|
        invariant 0 <= j <= |form.fields|
        invariant t == StepFields(form.fields[..j], start, r.answers)
      {
        assert form.fields[..j + 1][..j] == form.fields[..j];
        t := VisitField(t, form.fields[j], r.answers);
        j := j + 1;
      }
      assert form.fields[..j] == form.fields;
      assert responses[..i + 1][..i] == responses[..i];
      assert Fold(form, responses[..i + 1]) == Step(form, Fold(form, responses[..i]), r);
      i := i + 1;
    }
    assert responses[..i] == responses;
  }

  /** The average loop over the keys of `sums` (in any order). */
  method Averages(sums: map<string, real>, counts: map<string, nat>) returns (avg: map<string, real>)
    ensures forall k :: k in avg <==> k in sums && Get(counts, k) > 0
    ensures forall k :: k in avg ==> avg[k] == sums[k] / (Get(counts, k) as real)
  {
    avg := map[];
    var pending := sums.Keys;
    while pending != {}
      invariant pending <= sums.Keys
      invariant forall k :: k in avg <==> k in sums && k !in pending && Get(counts, k) > 0
      invariant forall k :: k in avg ==> avg[k] == sums[k] / (Get(counts, k) as real)
      decreases pending
    {
      var k :| k in pending;
      if Get(counts, k) > 0 {
        avg := avg[k := sums[k] / (counts[k] as real)];
      }
      pending := pending - {k};
    }
  }

  /** The most-common scan over one field's buckets. Go visits the keys of a
      map in no fixed order, so the key is picked nondeterministically; a
      strict `>` keeps the first maximum met. */
  method MostCommon(buckets: map<string, nat>) returns (mostCommon: string, maxCount: nat)
    ensures forall b :: b in buckets ==> buckets[b] <= maxCount
    ensures maxCount > 0 ==> mostCommon in buckets && buckets[mostCommon] == maxCount
    ensures maxCount == 0 ==> mostCommon == ""
  {
    maxCount := 0;
    mostCommon := "";
    var pending := buckets.Keys;
    while pending != {}
      invariant pending <= buckets.Keys
      invariant forall b :: b in buckets && b !in pending ==> buckets[b] <= maxCount
      invariant maxCount > 0 ==> mostCommon in buckets && buckets[mostCommon] == maxCount
      invariant maxCount == 0 ==> mostCommon == ""
      decreases pending
    {
      var answer :| answer in pending;
      if buckets[answer] > maxCount {
        maxCount := buckets[answer];
        mostCommon := answer;
      }
      pending := pending - {answer};
    }
  }

  /** A maximal non-empty bucket key of the field's distribution. */
  ghost predicate IsMostCommon(buckets: map<string, nat>, key: string) {
    key != "" && key in buckets && buckets[key] > 0 &&
    forall b :: b in buckets ==> buckets[b] <= buckets[key]
  }

  /** Most-common answers of every field in the breakdown; a field is left
      out only when no bucket is positive or the chosen maximum is the empty key. */
  method MostCommonAnswers(breakdown: map<string, Distribution>) returns (mc: map<string, string>)
    ensures mc.Keys <= breakdown.Keys
    ensures forall k :: k in mc ==> IsMostCommon(breakdown[k].buckets, mc[k])
    ensures forall k :: k in breakdown && k !in mc ==>
      forall b :: b in breakdown[k].buckets && breakdown[k].buckets[b] > 0 ==>
        "" in breakdown[k].buckets && breakdown[k].buckets[b] <= breakdown[k].buckets[""]
  {
    mc := map[];
    var pending := breakdown.Keys;
    while pending != {}
      invariant pending <= breakdown.Keys
      invariant mc.Keys <= breakdown.Keys - pending
      invariant forall k :: k in mc ==> IsMostCommon(breakdown[k].buckets, mc[k])
      invariant forall k :: k in breakdown && k !in pending && k !in mc ==>
        forall b :: b in breakdown[k].buckets && breakdown[k].buckets[b] > 0 ==>
          "" in breakdown[k].buckets && breakdown[k].buckets[b] <= breakdown[k].buckets[""]
      decreases pending
    {
      var fieldId :| fieldId in pending;
      var mostCommon, maxCount := MostCommon(breakdown[fieldId].buckets);
      if mostCommon != "" {
        mc := mc[fieldId := mostCommon];
      }
      pending := pending - {fieldId};
    }
  }

  datatype SkippedField = SkippedField(fieldId: string, fieldName: string, skipCount: nat)

  /** The non-PII fields, in schema order. */
  function NonPII(fields: seq<Field>): (r: seq<Field>)
    ensures |r| <= |fields|
    ensures forall i :: 0 <= i < |r| ==> !r[i].isPII
  {
    if fields == [] then []
    else
      var last := fields[|fields| - 1];
      var init := NonPII(fields[..|fields| - 1]);
      if last.isPII then init else init + [last]
  }

  /** The filter keeps exactly the non-PII fields. */
  lemma {:induction false} NonPIIMembers(fields: seq<Field>)
    ensures forall f :: f in NonPII(fields) <==> f in fields && !f.isPII
  {
    if fields != [] {
      var init := fields[..|fields| - 1];
      NonPIIMembers(init);
      assert forall f :: f in fields <==> f in init || f == fields[|fields| - 1];
    }
  }

  /** The filter keeps schema order: filtering a concatenation filters each part. */
  lemma {:induction false} NonPIIConcat(a: seq<Field>, b: seq<Field>)
    ensures NonPII(a + b) == NonPII(a) + NonPII(b)
    decreases |b|
  {
    if b == [] {
      assert a + b == a;
    } else {
      var n := |b| - 1;
      var ab := a + b;
      assert ab[..|ab| - 1] == a + b[..n];
      assert ab[|ab| - 1] == b[n];
      NonPIIConcat(a, b[..n]);
      if b[n].isPII {
        assert NonPII(ab) == NonPII(a + b[..n]);
        assert NonPII(b) == NonPII(b[..n]);
      } else {
        assert NonPII(ab) == NonPII(a + b[..n]) + [b[n]];
        assert NonPII(b) == NonPII(b[..n]) + [b[n]];
      }
    }
  }

  function SkipEntry(field: Field, fieldSkips: map<string, nat>): SkippedField {
    SkippedField(field.id, field.caption, Get(fieldSkips, field.id))
  }

  /** The skipped-fields loop: one entry per non-PII field, in schema order. */
  method SkippedFields(fields: seq<Field>, fieldSkips: map<string, nat>) returns (list: seq<SkippedField>)
    ensures |list| == |NonPII(fields)|
    ensures forall i :: 0 <= i < |list| ==> list[i] == SkipEntry(NonPII(fields)[i], fieldSkips)
  {
    list := [];
    var j := 0;
    while j < |fields|
      invariant 0 <= j <= |fields|
      invariant |list| == |NonPII(fields[..j])|
      invariant forall i :: 0 <= i < |list| ==> list[i] == SkipEntry(NonPII(fields[..j])[i], fieldSkips)
    {
      var field := fields[j];
      assert fields[..j + 1][..j] == fields[..j];
      j := j + 1;
      if field.isPII {
        continue;
      }
      list := list + [SkipEntry(field, fieldSkips)];
    }
    assert fields[..j] == fields;
  }

  datatype EnhancedAnalytics = EnhancedAnalytics(
    count: nat,
    fieldBreakdown: map<string, Distribution>,
    averageRating: map<string, real>,
    mostCommonAnswers: map<string, string>,
    skippedFields: seq<SkippedField>)

  /** `computeAnalytics` without the trends, skip rates and completion rate. */
  method ComputeAnalytics(form: Form, responses: seq<Response>) returns (an: EnhancedAnalytics)
    ensures an.count == |responses|
    ensures an.fieldBreakdown == Fold(form, responses).breakdown
    ensures forall k :: k in an.averageRating <==> k in Fold(form, responses).sums && Get(Fold(form, responses).counts, k) > 0
    ensures forall k :: k in an.averageRating ==>
      |NumericAnswers(responses, k)| > 0 &&
      an.averageRating[k] == Sum(NumericAnswers(responses, k)) / (|NumericAnswers(responses, k)| as real)
    ensures forall k :: k in an.mostCommonAnswers ==>
      k in an.fieldBreakdown && IsMostCommon(an.fieldBreakdown[k].buckets, an.mostCommonAnswers[k])
    ensures forall k :: k in an.fieldBreakdown && k !in an.mostCommonAnswers ==>
      forall b :: b in an.fieldBreakdown[k].buckets && an.fieldBreakdown[k].buckets[b] > 0 ==>
        "" in an.fieldBreakdown[k].buckets && an.fieldBreakdown[k].buckets[b] <= an.fieldBreakdown[k].buckets[""]
    ensures |an.skippedFields| == |NonPII(form.fields)|
    ensures forall i :: 0 <= i < |an.skippedFields| ==>
      an.skippedFields[i] == SkipEntry(NonPII(form.fields)[i], Fold(form, responses).fieldSkips)
  {
    var t := Aggregate(form, responses);
    FoldAt(form, responses, "", "");
    var avg := Averages(t.sums, t.counts);
    forall k | k in avg
      ensures |NumericAnswers(responses, k)| > 0 &&
        avg[k] == Sum(NumericAnswers(responses, k)) / (|NumericAnswers(responses, k)| as real)
    {
      MeanOfNumericAnswers(form, responses, k);
    }
    var mc := MostCommonAnswers(t.breakdown);
    var skipped := SkippedFields(form.fields, t.fieldSkips);
    an := EnhancedAnalytics(t.count, t.breakdown, avg, mc, skipped);
  }
}
