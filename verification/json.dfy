/**
 * The JavaScript values the stores hold. Only what the bot's code observes is kept:
 * `undefined`, `null`, booleans, integral numbers, strings and plain objects.
 * Truthiness, `??`, `||`, property access and object spread follow JavaScript.
 */
module JsonValues {
  import opened Wrappers
  import opened Strings

  datatype Json =
    | Undefined
    | Null
    | Bool(b: bool)
    | Num(n: int)
    | Str(s: string)
    | Obj(fields: map<string, Json>)

  /** JavaScript truthiness: `undefined`, `null`, `false`, `0` and `""` are falsy. */
  predicate Truthy(v: Json)
  {
    match v
    case Undefined => false
    case Null => false
    case Bool(b) => b
    case Num(n) => n != 0
    case Str(s) => s != ""
    case Obj(_) => true
  }

  /**
   * An optional string kept only when truthy: `s || undefined` on a string option. A
   * missing or empty string gives none, and a kept one is unchanged.
   */
  function NonEmpty(s: Option<string>): (r: Option<string>)
    ensures r.Some? <==> s.Some? && Truthy(Str(s.value))
    ensures r.Some? ==> r == s
  {
    if s.Some? && s.value != "" then s else None
  }

  /** `v == null` (loose equality): `null` or `undefined`. */
  predicate Nullish(v: Json)
  {
    v.Undefined? || v.Null?
  }

  /** `v ?? d`. */
  function Coalesce(v: Json, d: Json): (r: Json)
    ensures Nullish(v) ==> r == d
    ensures !Nullish(v) ==> r == v
  {
    if Nullish(v) then d else v
  }

  /** `v || d`. */
  function Or(v: Json, d: Json): (r: Json)
    ensures Truthy(v) ==> r == v
    ensures !Truthy(v) ==> r == d
  {
    if Truthy(v) then v else d
  }

  /** `v?.[k]`: a property of an object; `undefined` for a missing key or a non-object. */
  function Prop(v: Json, k: string): Json
  {
    if v.Obj? && k in v.fields then v.fields[k] else Undefined
  }

  /** The own properties `{...v}` copies: those of an object, none for anything else. */
  function Spread(v: Json): map<string, Json>
  {
    if v.Obj? then v.fields else map[]
  }

  /** `{ ...base, ...updates }`: a shallow merge where the updates win. */
  function Merge(base: Json, updates: map<string, Json>): (r: Json)
    ensures r.Obj?
    ensures forall k :: k in updates ==> Prop(r, k) == updates[k]
    ensures forall k :: k !in updates ==> Prop(r, k) == Prop(base, k)
  {
    Obj(Spread(base) + updates)
  }

  /** Merging the same updates twice is the same as merging them once. */
  lemma MergeIdempotent(base: Json, updates: map<string, Json>)
    ensures Merge(Merge(base, updates), updates) == Merge(base, updates)
  {
    assert Spread(Merge(base, updates)) + updates == Spread(base) + updates;
  }

  /**
   * The number a relational comparison (`>`, `<`) sees: `null` is 0, booleans are 0 or 1,
   * and `undefined`, objects and strings are treated as NaN (`None`), which makes every
   * comparison false. Numeric strings are not converted (see README).
   */
  function ToNumber(v: Json): (r: Option<int>)
    ensures v.Num? ==> r == Some(v.n)
    ensures v.Undefined? || v.Obj? ==> r.None?
  {
    match v
    case Undefined => None
    case Null => Some(0)
    case Bool(b) => Some(if b then 1 else 0)
    case Num(n) => Some(n)
    case Str(_) => None
    case Obj(_) => None
  }

  /** `v > t` for a number `t`. */
  predicate GreaterThan(v: Json, t: int)
  {
    ToNumber(v).Some? && ToNumber(v).value > t
  }

  /** `v < t` for a number `t`. */
  predicate LessThan(v: Json, t: int)
  {
    ToNumber(v).Some? && ToNumber(v).value < t
  }

  /** How `Array.prototype.join` prints one element (`null` and `undefined` print as ""). */
  function ToKeyPart(v: Json): string
  {
    match v
    case Undefined => ""
    case Null => ""
    case Bool(b) => if b then "true" else "false"
    case Num(n) => IntToString(n)
    case Str(s) => s
    case Obj(_) => "[object Object]"
  }
}
