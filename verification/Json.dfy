/**
  JSON values as the source holds them after decoding. An integer and a float with the same value are different
  values of the decoder but one JSON number.
*/
module Json {
  datatype Json =
    | Null
    | Bool(flag: bool)
    | Int(whole: int)
    | Float(decimal: real)
    | Str(text: string)
    | Arr(items: seq<Json>)
    | Obj(fields: map<string, Json>)
  {
    predicate Number() { Int? || Float? }

    function Value(): real
      requires Number()
    {
      if Int? then whole as real else decimal
    }
  }

  /** `_json_equal`: numbers by value, and no other two kinds ever equal. */
  predicate JsonEqual(a: Json, b: Json)
    decreases a
  {
    if a.Number() && b.Number() then a.Value() == b.Value()
    else if a.Arr? && b.Arr? then
      |a.items| == |b.items| && forall i :: 0 <= i < |a.items| ==> JsonEqual(a.items[i], b.items[i])
    else if a.Obj? && b.Obj? then
      a.fields.Keys == b.fields.Keys && forall k :: k in a.fields ==> JsonEqual(a.fields[k], b.fields[k])
    else a == b
  }

  predicate JsonIn(value: Json, items: seq<Json>)
  {
    exists i :: 0 <= i < |items| && JsonEqual(value, items[i])
  }

  lemma {:induction false} JsonEqualReflexive(a: Json)
    ensures JsonEqual(a, a)
    decreases a
  {
    if a.Arr? {
      forall i | 0 <= i < |a.items| ensures JsonEqual(a.items[i], a.items[i]) { JsonEqualReflexive(a.items[i]); }
    } else if a.Obj? {
      forall k | k in a.fields ensures JsonEqual(a.fields[k], a.fields[k]) { JsonEqualReflexive(a.fields[k]); }
    }
  }

  lemma {:induction false} JsonEqualSymmetric(a: Json, b: Json)
    requires JsonEqual(a, b)
    ensures JsonEqual(b, a)
    decreases a
  {
    if a.Arr? && b.Arr? {
      forall i | 0 <= i < |a.items| ensures JsonEqual(b.items[i], a.items[i]) {
        JsonEqualSymmetric(a.items[i], b.items[i]);
      }
    } else if a.Obj? && b.Obj? {
      forall k | k in b.fields ensures JsonEqual(b.fields[k], a.fields[k]) {
        JsonEqualSymmetric(a.fields[k], b.fields[k]);
      }
    }
  }

  lemma {:induction false} JsonEqualTransitive(a: Json, b: Json, c: Json)
    requires JsonEqual(a, b) && JsonEqual(b, c)
    ensures JsonEqual(a, c)
    decreases a
  {
    if a.Arr? && b.Arr? {
      forall i | 0 <= i < |a.items| ensures JsonEqual(a.items[i], c.items[i]) {
        JsonEqualTransitive(a.items[i], b.items[i], c.items[i]);
      }
    } else if a.Obj? && b.Obj? {
      forall k | k in a.fields ensures JsonEqual(a.fields[k], c.fields[k]) {
        JsonEqualTransitive(a.fields[k], b.fields[k], c.fields[k]);
      }
    }
  }
}
