/**
 * The parts of a JSON request body the handlers look at, and how Python and
 * the sqlite3 driver treat those values: `data.get(key)`, truthiness
 * (`if not value`), `value.strip()`, `(value or "").strip()`, and binding a
 * value as the parameter of `WHERE id = ?`.
 */
module Request {
  import opened Strings

  datatype Option<T> = None | Some(value: T)

  /** A JSON value as the handlers see it after decoding. Arrays and objects
      matter only through their truthiness (empty or not), so they are kept
      abstract. */
  datatype Json =
    | Null
    | Boolean(b: bool)
    | Number(n: int)
    | Text(s: string)
    | Container(empty: bool)

  /** The keys of a request body that some handler reads. */
  /** The keys a handler reads: `client_name`, `pickup_code`, `pvz`,
      `expires` and `order_id`. */
  datatype Field = ClientName | PickupCode | Pvz | Expires | OrderId

  /** A decoded JSON object body, restricted to the keys the handlers read
      (no handler looks at any other key). `request.json or {}` turns an
      absent body, and one that decodes to a falsy value (`null`, `false`,
      `0`, `""`, `[]`), into `{}`, the empty map. */
  type Body = map<Field, Json>

  const MinInt64: int := -0x8000_0000_0000_0000
  const MaxInt64: int := 0x7FFF_FFFF_FFFF_FFFF

  /** `data.get(key)`: a missing key reads as `None`, which is JSON `null`. */
  function Get(data: Body, key: Field): (v: Json)
    ensures key !in data ==> v == Null
    ensures key in data ==> v == data[key]
  {
    if key in data then data[key] else Null
  }

  /** Python truthiness of a decoded JSON value. */
  predicate Truthy(v: Json) {
    match v
    case Null => false
    case Boolean(b) => b
    case Number(n) => n != 0
    case Text(s) => s != ""
    case Container(empty) => !empty
  }

  /** The fields `create_order` demands, in the order it checks them. */
  const RequiredFields: seq<Field> := [ClientName, PickupCode, Pvz]

  /** The first of `fields` whose value in `data` is falsy, if any: the
      loop over the required fields with its early return. */
  function FirstFalsy(data: Body, fields: seq<Field>): Option<Field> {
    if fields == [] then None
    else if !Truthy(Get(data, fields[0])) then Some(fields[0])
    else FirstFalsy(data, fields[1..])
  }

  /** `FirstFalsy` finds nothing exactly when every field is truthy, and
      otherwise names a falsy field all of whose predecessors are truthy. */
  lemma {:induction false} FirstFalsyIsFirst(data: Body, fields: seq<Field>)
    ensures FirstFalsy(data, fields).None? <==>
            forall i :: 0 <= i < |fields| ==> Truthy(Get(data, fields[i]))
    ensures FirstFalsy(data, fields).Some? ==>
            exists k :: 0 <= k < |fields| && fields[k] == FirstFalsy(data, fields).value
                        && !Truthy(Get(data, fields[k]))
                        && forall i :: 0 <= i < k ==> Truthy(Get(data, fields[i]))
  {
    if fields != [] && Truthy(Get(data, fields[0])) {
      var tail := fields[1..];
      FirstFalsyIsFirst(data, tail);
      assert forall i :: 0 < i < |fields| ==> fields[i] == tail[i - 1];
      if FirstFalsy(data, tail).Some? {
        var k :| 0 <= k < |tail| && tail[k] == FirstFalsy(data, tail).value
                 && !Truthy(Get(data, tail[k]))
                 && forall i :: 0 <= i < k ==> Truthy(Get(data, tail[i]));
        assert fields[k + 1] == tail[k];
        assert forall i :: 0 <= i < k + 1 ==> Truthy(Get(data, fields[i]));
      }
    } else if fields != [] {
      assert fields[0] == FirstFalsy(data, fields).value;
    }
  }

  /** `value.strip()`: defined only on text; on any other JSON value the
      attribute lookup raises, which is `None` here. */
  function StrippedText(v: Json): (r: Option<string>)
    ensures r.Some? <==> v.Text?
    ensures r.Some? ==> r.value == Strip(v.s)
  {
    match v
    case Text(s) => Some(Strip(s))
    case _ => None
  }

  /** `(value or "").strip()`, as used for `expires`: a falsy value becomes "";
      a truthy value must be text. */
  function StrippedOrEmpty(v: Json): (r: Option<string>)
    ensures !Truthy(v) ==> r == Some("")
    ensures Truthy(v) ==> r == StrippedText(v)
  {
    if Truthy(v) then StrippedText(v) else Some("")
  }

  /** What binding a JSON value as the parameter of `WHERE id = ?` selects. */
  datatype Binding =
    | RowId(id: int)     // compares equal to the row with this rowid, if any
    | NoRow              // compares equal to no rowid
    | Unbindable         // the driver refuses the value and the statement raises

  predicate IsDigit(c: char) { '0' <= c <= '9' }

  predicate AllDigits(s: string) {
    forall i :: 0 <= i < |s| ==> IsDigit(s[i])
  }

  /** The value of a string of decimal digits. */
  function DecimalValue(s: string): nat
    requires AllDigits(s)
  {
    if s == [] then 0
    else DecimalValue(s[..|s| - 1]) * 10 + (s[|s| - 1] as int - '0' as int)
  }

  /** A Python `bool` binds as the integer 0 or 1; an `int` binds when it
      fits in 64 bits and raises otherwise; text meets the INTEGER affinity
      of the `id` column, so a string of digits compares as its number;
      arrays and objects cannot be bound; `None` binds as NULL, which equals
      nothing. */
  function Bind(v: Json): (r: Binding)
    ensures v.Number? ==> (r.Unbindable? <==> !(MinInt64 <= v.n <= MaxInt64))
    ensures v.Number? && !r.Unbindable? ==> r == RowId(v.n)
    ensures v.Boolean? ==> r == RowId(if v.b then 1 else 0)
    ensures r.Unbindable? ==> v.Container? || v.Number?
  {
    match v
    case Null => NoRow
    case Boolean(b) => RowId(if b then 1 else 0)
    case Number(n) => if MinInt64 <= n <= MaxInt64 then RowId(n) else Unbindable
    case Text(s) => if s != "" && AllDigits(s) then RowId(DecimalValue(s)) else NoRow
    case Container(_) => Unbindable
  }

  /** A decimal digit character. */
  function Digit(d: int): (c: char)
    requires 0 <= d < 10
    ensures IsDigit(c) && c as int - '0' as int == d
  {
    ('0' as int + d) as char
  }

  /** How a client writes `n` as JSON text: its decimal digits, no sign and
      no leading zero. */
  function DecimalText(n: nat): string
    decreases n
  {
    if n < 10 then [Digit(n)] else DecimalText(n / 10) + [Digit(n % 10)]
  }

  /** Reading back the digits of `n` gives `n`. */
  lemma {:induction false} DecimalTextValue(n: nat)
    ensures DecimalText(n) != "" && AllDigits(DecimalText(n))
    ensures DecimalValue(DecimalText(n)) == n
    decreases n
  {
    if n >= 10 {
      DecimalTextValue(n / 10);
      var s := DecimalText(n);
      assert s[..|s| - 1] == DecimalText(n / 10);
    }
  }

  /** An `order_id` sent as the text of a number selects the same row as the
      number itself. */
  lemma BindDecimalText(n: nat)
    requires n <= MaxInt64
    ensures Bind(Text(DecimalText(n))) == Bind(Number(n)) == RowId(n)
  {
    DecimalTextValue(n);
  }

  /** A leading zero does not change a string of digits as a number. */
  lemma {:induction false} LeadingZeroValue(s: string)
    requires AllDigits(s)
    ensures AllDigits("0" + s) && DecimalValue("0" + s) == DecimalValue(s)
    decreases |s|
  {
    if s != [] {
      var p := s[..|s| - 1];
      LeadingZeroValue(p);
      assert ("0" + s)[..|s|] == "0" + p;
    }
  }

  /** Text with leading zeros, such as "007", selects the row its number
      names, as numeric affinity reads it. */
  lemma BindLeadingZero(s: string)
    requires s != "" && AllDigits(s)
    ensures Bind(Text("0" + s)) == Bind(Text(s)) == RowId(DecimalValue(s))
  {
    LeadingZeroValue(s);
  }

  /** The required-field check is on the raw value: a whitespace-only text
      passes it, and stripping then turns it into the empty string. */
  lemma WhitespaceOnlyPassesCheck(s: string)
    requires s != "" && AllSpace(s)
    ensures Truthy(Text(s))
    ensures StrippedText(Text(s)) == Some("")
  {
    StripEmptyIff(s);
  }
}
