/** The data model of the form builder: forms, fields, conditional-visibility
    rules, responses and bucket distributions (backend/api/models.go), plus the
    small map helpers the handlers use when they read a missing key as zero. */
module Models {

  datatype Option<+T> = None | Some(value: T)

  datatype Result<+R, +E> = Success(value: R) | Failure(error: E)

  /** An untyped JSON answer or `equals` value, as Go's `interface{}` holds it
      after decoding: strings, numbers (float64), booleans, arrays, null, and
      anything else (objects) as `Other`. */
  datatype Value =
    | Str(s: string)
    | Num(n: real)
    | Bool(b: bool)
    | List(items: seq<Value>)
    | Null
    | Other

  /** `showIf`: the field is shown only when the answer to `fieldId` equals `equals`. */
  datatype ShowIf = ShowIf(fieldId: string, equals: Value)

  /** One question. `kind` is the type tag ("text", "single_choice",
      "multi_select", "rating", or anything else); `min` and `max` use 0 for
      "unset"; an absent option list is the empty sequence. */
  datatype Field = Field(
    id: string,
    caption: string,
    kind: string,
    required: bool,
    options: seq<string>,
    min: int,
    max: int,
    showIf: Option<ShowIf>,
    isPII: bool)

  /** A form: its status is meant to be "draft" or "published"; the order of
      `fields` is display order and validation order. */
  datatype Form = Form(id: string, title: string, status: string, fields: seq<Field>, ownerId: string)

  /** A submitted response: answers keyed by field id. */
  datatype Response = Response(answers: map<string, Value>)

  /** Counts per bucket key for one field. */
  datatype Distribution = Distribution(buckets: map<string, nat>)

  /** A Go map read: a missing key reads as zero. */
  function Get(m: map<string, nat>, k: string): nat {
    if k in m then m[k] else 0
  }

  function GetReal(m: map<string, real>, k: string): real {
    if k in m then m[k] else 0.0
  }

  /** `m[k]++` on a Go map. */
  function Inc(m: map<string, nat>, k: string): (r: map<string, nat>)
    ensures r.Keys == m.Keys + {k}
    ensures Get(r, k) == Get(m, k) + 1
    ensures forall j :: j != k ==> Get(r, j) == Get(m, j)
  {
    m[k := Get(m, k) + 1]
  }
}
