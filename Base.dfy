/** Small value types shared by every module of the model. */
module Base {

  datatype Option<+T> = None | Some(value: T)

  /** A JavaScript number as the engine meets it: a finite value or NaN.
      IEEE-754 rounding, infinities and signed zero are not modelled. */
  datatype Num = Finite(value: real) | NaN {

    /** `x || 0`: NaN (and 0) are falsy, so both read back as 0. */
    function OrZero(): (r: real)
      ensures Finite? ==> r == value
      ensures NaN? ==> r == 0.0
    {
      if Finite? then value else 0.0
    }

    /** Unary minus; NaN stays NaN. */
    function Negated(): (r: Num)
      ensures r.NaN? <==> NaN?
      ensures Finite? ==> r.value + value == 0.0
    {
      if Finite? then Finite(-value) else NaN
    }

    /** Multiplication by a finite factor; NaN stays NaN. */
    function Times(k: real): (r: Num)
      ensures r.NaN? <==> NaN?
      ensures Finite? ==> r.value == value * k
    {
      if Finite? then Finite(value * k) else NaN
    }
  }

  function Abs(x: real): (r: real)
    ensures r >= 0.0 && (r == x || r == -x)
  {
    if x < 0.0 then -x else x
  }

  ghost predicate Distinct<T>(s: seq<T>) {
    forall i, j :: 0 <= i < j < |s| ==> s[i] != s[j]
  }

  /** A plain JavaScript object used as a dictionary with string keys:
      `keys` lists the keys in insertion order, `vals` holds the values.
      `Object.entries` reports string keys in that order; keys that read as
      array indices ("0", "17") would come first, in ascending numeric
      order, and that reordering is not modelled. */
  datatype Dict<V> = Dict(keys: seq<string>, vals: map<string, V>) {

    ghost predicate Valid() {
      Distinct(keys) && forall k :: k in vals <==> k in keys
    }

    /** `obj[k] = v`: a new key goes to the end, an existing key keeps its place. */
    function Put(k: string, v: V): (r: Dict<V>)
      ensures Valid() ==> r.Valid()
      ensures k in r.vals && r.vals[k] == v
      ensures forall j :: j != k ==> (j in r.vals <==> j in vals)
      ensures forall j :: j != k && j in vals ==> r.vals[j] == vals[j]
      ensures |keys| <= |r.keys| && r.keys[..|keys|] == keys
    {
      Dict(if k in vals then keys else keys + [k], vals[k := v])
    }

    /** `Object.entries(obj)`. */
    function Entries(): (r: seq<(string, V)>)
      requires Valid()
      ensures |r| == |keys|
      ensures forall i :: 0 <= i < |r| ==> r[i].0 == keys[i] && r[i].0 in vals && r[i].1 == vals[r[i].0]
    {
      seq(|keys|, i requires 0 <= i < |keys| => (keys[i], vals[keys[i]]))
    }
  }

  function EmptyDict<V>(): (d: Dict<V>)
    ensures d.Valid() && d.keys == [] && d.vals == map[]
  {
    Dict([], map[])
  }
}
