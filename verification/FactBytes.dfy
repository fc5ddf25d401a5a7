// The canonical byte form of a fact, from which member digests are taken.

module FactBytes {
  import opened Options

  newtype byte = x: int | 0 <= x < 256

  const TWO_63: int := 0x8000_0000_0000_0000

  const TWO_64: int := 0x1_0000_0000_0000_0000

  /** The shape of a fact as reflection sees it. */
  datatype Shape = TimeShape | BigShape | DecimalShape | TextShape | BoolShape | UnsignedShape | SignedShape
                 | Pointer(target: Shape) | ListOf(element: Shape) | Struct(name: seq<byte>, fields: seq<Field>)
                 | Unsupported

  datatype Field = Field(name: seq<byte>, shape: Shape)

  datatype Value =
    | Time(nanos: int) | Big(integer: int) | Decimal(coefficient: int, exponent: int) | Text(text: seq<byte>)
    | Flag(on: bool) | Number(number: int) | Nil | Ref(target: Value) | NilList | List(items: seq<Value>)
    | Record(parts: seq<Value>) | Other

  function Items(v: Value): seq<Value> { if v.List? then v.items else [] }

  /** Seconds and nanoseconds come as one count; microseconds round down. */
  function Micros(v: Value): int
    requires v.Time?
  {
    v.nanos / 1000
  }

  ghost predicate HasShape(v: Value, t: Shape)
    decreases t, 0
  {
    match t
    case TimeShape => v.Time? && -TWO_63 <= Micros(v) < TWO_63
    case BigShape => v.Big?
    case DecimalShape => v.Decimal?
    case TextShape => v.Text? && |v.text| < TWO_64
    case BoolShape => v.Flag?
    case UnsignedShape => v.Number? && 0 <= v.number < TWO_64
    case SignedShape => v.Number? && -TWO_63 <= v.number < TWO_63
    case Pointer(target) => v.Nil? || (v.Ref? && HasShape(v.target, target))
    case ListOf(element) =>
      (v.List? || v.NilList?) && |Items(v)| < TWO_64 && AreItems(Items(v), element)
    case Struct(_, fields) =>
      v.Record? && AreParts(v.parts, fields)
    case Unsupported => true
  }

  ghost predicate AreItems(vs: seq<Value>, t: Shape)
    decreases t, 1
  {
    forall i :: 0 <= i < |vs| ==> HasShape(vs[i], t)
  }

  ghost predicate AreParts(vs: seq<Value>, fields: seq<Field>)
    decreases fields, 1
  {
    |vs| == |fields| && forall i :: 0 <= i < |fields| ==> HasShape(vs[i], fields[i].shape)
  }

  // -------------------------------------------------------------------- decimals

  function Pow10(n: nat): (p: nat)
    ensures p > 0
  {
    if n == 0 then 1 else 10 * Pow10(n - 1)
  }

  /** Two decimals are one number. */
  predicate IsSameNumber(v: Value, w: Value)
    requires v.Decimal? && w.Decimal?
  {
    var low := if v.exponent < w.exponent then v.exponent else w.exponent;
    v.coefficient * Pow10(v.exponent - low) == w.coefficient * Pow10(w.exponent - low)
  }

  /** The integer quotient that drops the rest, whatever the sign. */
  function Truncated(a: int, b: nat): int
    requires b > 0
  {
    if a >= 0 then a / b else -(-a / b)
  }

  /** The decimal in units of ten to the minus eighteen, what is finer being dropped. */
  function Shifted(v: Value): int
    requires v.Decimal?
  {
    if v.exponent >= -18 then v.coefficient * Pow10(v.exponent + 18)
    else Truncated(v.coefficient, Pow10(-18 - v.exponent))
  }

  predicate IsPrecise(v: Value)
    requires v.Decimal?
  {
    IsSameNumber(Decimal(Shifted(v), -18), v)
  }

  lemma {:induction false} PowAdds(a: nat, b: nat)
    ensures Pow10(a + b) == Pow10(a) * Pow10(b)
    decreases a
  {
    if a > 0 {
      PowAdds(a - 1, b);
      assert Pow10(a + b) == 10 * Pow10(a - 1 + b);
      assert 10 * (Pow10(a - 1) * Pow10(b)) == (10 * Pow10(a - 1)) * Pow10(b);
    }
  }

  lemma Cancel(a: int, b: int, p: nat)
    requires p > 0
    ensures a * p == b * p ==> a == b
  {
    assert a * p - b * p == (a - b) * p;
    if a > b {
      assert (a - b) * p > 0;
    } else if a < b {
      assert (b - a) * p > 0;
      assert (b - a) * p == -((a - b) * p);
    }
  }

  /** Being one number does not depend on the unit in which it is checked. */
  lemma SameInAnyUnit(v: Value, w: Value, low: int)
    requires v.Decimal? && w.Decimal? && low <= v.exponent && low <= w.exponent
    ensures IsSameNumber(v, w) <==> v.coefficient * Pow10(v.exponent - low) == w.coefficient * Pow10(w.exponent - low)
  {
    var least := if v.exponent < w.exponent then v.exponent else w.exponent;
    var d := least - low;
    PowAdds(v.exponent - least, d);
    PowAdds(w.exponent - least, d);
    var a, b := v.coefficient * Pow10(v.exponent - least), w.coefficient * Pow10(w.exponent - least);
    assert a * Pow10(d) == v.coefficient * Pow10(v.exponent - low) by {
      Reassociate(v.coefficient, Pow10(v.exponent - least), Pow10(d));
    }
    assert b * Pow10(d) == w.coefficient * Pow10(w.exponent - low) by {
      Reassociate(w.coefficient, Pow10(w.exponent - least), Pow10(d));
    }
    if a * Pow10(d) == b * Pow10(d) {
      Cancel(a, b, Pow10(d));
    }
  }

  lemma Reassociate(a: int, b: int, c: int)
    ensures (a * b) * c == a * (b * c)
  {
  }

  /** Among precise decimals the shifted integer stands for the number. */
  lemma ShiftedStandsForNumber(v: Value, w: Value)
    requires v.Decimal? && w.Decimal? && IsPrecise(v) && IsPrecise(w)
    ensures IsSameNumber(v, w) <==> Shifted(v) == Shifted(w)
  {
    var low := if v.exponent < w.exponent then v.exponent else w.exponent;
    low := if low < -18 then low else -18;
    var a, b := Decimal(Shifted(v), -18), Decimal(Shifted(w), -18);
    SameInAnyUnit(a, v, low);
    SameInAnyUnit(b, w, low);
    SameInAnyUnit(v, w, low);
    if IsSameNumber(v, w) {
      Cancel(Shifted(v), Shifted(w), Pow10(-18 - low));
    }
  }

  // ----------------------------------------------------------------- the pieces

  function Varint(n: nat): seq<byte> {
    if n < 128 then [n as byte] else [(n % 128 + 128) as byte] + Varint(n / 128)
  }

  function Framed(text: seq<byte>): seq<byte> { Varint(|text|) + text }

  function Magnitude(n: nat): seq<byte> { if n == 0 then [] else Magnitude(n / 256) + [(n % 256) as byte] }

  function Fixed(n: nat, size: nat): (b: seq<byte>)
    ensures |b| == size
    decreases size
  {
    if size == 0 then [] else Fixed(n / 256, size - 1) + [(n % 256) as byte]
  }

  function Abs(n: int): nat { if n < 0 then -n else n }

  function SignByte(n: int): byte { if n < 0 then 1 else 0 }

  function SignedBytes(n: int): seq<byte> { [SignByte(n)] + Framed(Magnitude(Abs(n))) }

  function Word(n: int): seq<byte>
    requires -TWO_63 <= n < TWO_64
  {
    Fixed(if n < 0 then n + TWO_64 else n, 8)
  }

  lemma Split(a: seq<byte>, b: seq<byte>, x: seq<byte>, y: seq<byte>)
    requires a + x == b + y && |a| == |b|
    ensures a == b && x == y
  {
    assert a == (a + x)[..|a|] && b == (b + y)[..|a|];
    assert x == (a + x)[|a|..] && y == (b + y)[|a|..];
  }

  lemma {:induction false} VarintPrefix(n: nat, m: nat, x: seq<byte>, y: seq<byte>)
    requires Varint(n) + x == Varint(m) + y
    ensures n == m && x == y
    decreases n
  {
    assert (Varint(n) + x)[0] == Varint(n)[0] && (Varint(m) + y)[0] == Varint(m)[0];
    if n < 128 {
      Split(Varint(n), Varint(m), x, y);
    } else {
      var h := [(n % 128 + 128) as byte];
      assert Varint(n) + x == h + (Varint(n / 128) + x);
      assert Varint(m) + y == [(m % 128 + 128) as byte] + (Varint(m / 128) + y);
      Split(h, [(m % 128 + 128) as byte], Varint(n / 128) + x, Varint(m / 128) + y);
      VarintPrefix(n / 128, m / 128, x, y);
    }
  }

  lemma FramedPrefix(a: seq<byte>, b: seq<byte>, x: seq<byte>, y: seq<byte>)
    requires Framed(a) + x == Framed(b) + y
    ensures a == b && x == y
  {
    assert Framed(a) + x == Varint(|a|) + (a + x) && Framed(b) + y == Varint(|b|) + (b + y);
    VarintPrefix(|a|, |b|, a + x, b + y);
    Split(a, b, x, y);
  }

  lemma {:induction false} MagnitudeInjects(n: nat, m: nat)
    requires Magnitude(n) == Magnitude(m)
    ensures n == m
    decreases n
  {
    if n > 0 {
      assert m > 0;
      var a, b := Magnitude(n), Magnitude(m);
      assert a[..|a| - 1] == Magnitude(n / 256) && b[..|b| - 1] == Magnitude(m / 256);
      assert a[|a| - 1] == (n % 256) as byte && b[|b| - 1] == (m % 256) as byte;
      MagnitudeInjects(n / 256, m / 256);
    }
  }

  function Pow256(n: nat): nat { if n == 0 then 1 else 256 * Pow256(n - 1) }

  lemma {:induction false} FixedInjects(n: nat, m: nat, size: nat)
    requires Fixed(n, size) == Fixed(m, size) && n < Pow256(size) && m < Pow256(size)
    ensures n == m
    decreases size
  {
    if size > 0 {
      var a, b := Fixed(n, size), Fixed(m, size);
      assert a[..size - 1] == Fixed(n / 256, size - 1) && b[..size - 1] == Fixed(m / 256, size - 1);
      assert a[size - 1] == (n % 256) as byte && b[size - 1] == (m % 256) as byte;
      FixedInjects(n / 256, m / 256, size - 1);
    }
  }

  lemma WordInjects(n: int, m: int)
    requires (0 <= n < TWO_64 && 0 <= m < TWO_64) || (-TWO_63 <= n < TWO_63 && -TWO_63 <= m < TWO_63)
    requires Word(n) == Word(m)
    ensures n == m
  {
    assert Pow256(8) == TWO_64 by {
      assert Pow256(4) == 0x1_0000_0000;
      assert Pow256(8) == 256 * (256 * (256 * (256 * Pow256(4))));
    }
    FixedInjects(if n < 0 then n + TWO_64 else n, if m < 0 then m + TWO_64 else m, 8);
  }

  lemma SignedPrefix(n: int, m: int, x: seq<byte>, y: seq<byte>)
    requires SignedBytes(n) + x == SignedBytes(m) + y
    ensures n == m && x == y
  {
    var a, b := Magnitude(Abs(n)), Magnitude(Abs(m));
    assert SignedBytes(n) + x == [SignByte(n)] + (Framed(a) + x)
        && SignedBytes(m) + y == [SignByte(m)] + (Framed(b) + y);
    Split([SignByte(n)], [SignByte(m)], Framed(a) + x, Framed(b) + y);
    FramedPrefix(a, b, x, y);
    MagnitudeInjects(Abs(n), Abs(m));
    assert SignByte(n) == [SignByte(n)][0] == [SignByte(m)][0];
  }

  // ----------------------------------------------------------------- the encoding

  function Joined(a: Option<seq<byte>>, b: Option<seq<byte>>): Option<seq<byte>> {
    if a.Some? && b.Some? then Some(a.value + b.value) else None
  }

  function Encode(v: Value, t: Shape): Option<seq<byte>>
    requires HasShape(v, t)
    decreases t, 0
  {
    match t
    case TimeShape => Some(Word(Micros(v)))
    case BigShape => Some(SignedBytes(v.integer))
    case DecimalShape => if IsPrecise(v) then Some(SignedBytes(Shifted(v))) else None
    case TextShape => Some(Framed(v.text))
    case BoolShape => Some(if v.on then [1] else [0])
    case UnsignedShape => Some(Word(v.number))
    case SignedShape => Some(Word(v.number))
    case Pointer(target) => if v.Nil? then Some([0]) else Joined(Some([1]), Encode(v.target, target))
    case ListOf(element) => Joined(Some(Word(|Items(v)|)), EncodeItems(Items(v), element))
    case Struct(name, fields) => Joined(Some(Framed(name)), EncodeFields(v.parts, fields))
    case Unsupported => None
  }

  function EncodeItems(vs: seq<Value>, t: Shape): Option<seq<byte>>
    requires AreItems(vs, t)
    decreases t, |vs| + 1
  {
    if vs == [] then Some([])
    else Joined(EncodeItems(vs[..|vs| - 1], t), Encode(vs[|vs| - 1], t))
  }

  function EncodeFields(vs: seq<Value>, fields: seq<Field>): Option<seq<byte>>
    requires AreParts(vs, fields)
    decreases fields, |vs| + 1
  {
    if fields == [] then Some([])
    else
      var n := |fields| - 1;
      Joined(Joined(EncodeFields(vs[..n], fields[..n]), Some(Framed(fields[n].name))), Encode(vs[n], fields[n].shape))
  }

  /** The two values state the same fact: times to the microsecond, decimals as numbers,
      an absent list like an empty one. */
  ghost predicate IsSameFact(v: Value, w: Value, t: Shape)
    requires HasShape(v, t) && HasShape(w, t)
    decreases t, 0
  {
    match t
    case TimeShape => Micros(v) == Micros(w)
    case BigShape => v.integer == w.integer
    case DecimalShape => IsSameNumber(v, w)
    case TextShape => v.text == w.text
    case BoolShape => v.on == w.on
    case UnsignedShape => v.number == w.number
    case SignedShape => v.number == w.number
    case Pointer(target) => v.Nil? == w.Nil? && (v.Ref? ==> IsSameFact(v.target, w.target, target))
    case ListOf(element) => AreSameItems(Items(v), Items(w), element)
    case Struct(_, fields) => AreSameParts(v.parts, w.parts, fields)
    case Unsupported => true
  }

  ghost predicate AreSameItems(vs: seq<Value>, ws: seq<Value>, t: Shape)
    requires AreItems(vs, t) && AreItems(ws, t)
    decreases t, 1
  {
    |vs| == |ws| && forall i :: 0 <= i < |vs| ==> IsSameFact(vs[i], ws[i], t)
  }

  ghost predicate AreSameParts(vs: seq<Value>, ws: seq<Value>, fields: seq<Field>)
    requires AreParts(vs, fields) && AreParts(ws, fields)
    decreases fields, 1
  {
    forall i :: 0 <= i < |fields| ==> IsSameFact(vs[i], ws[i], fields[i].shape)
  }

  lemma Regroup(a: seq<byte>, b: seq<byte>, x: seq<byte>)
    ensures (a + b) + x == a + (b + x)
  {
  }

  lemma WordPrefix(n: int, m: int, x: seq<byte>, y: seq<byte>)
    requires (0 <= n < TWO_64 && 0 <= m < TWO_64) || (-TWO_63 <= n < TWO_63 && -TWO_63 <= m < TWO_63)
    requires Word(n) + x == Word(m) + y
    ensures n == m && x == y
  {
    Split(Word(n), Word(m), x, y);
    WordInjects(n, m);
  }

  lemma FlagPrefix(p: bool, q: bool, x: seq<byte>, y: seq<byte>)
    requires (if p then [1 as byte] else [0]) + x == (if q then [1 as byte] else [0]) + y
    ensures p == q && x == y
  {
    var a, b := if p then [1 as byte] else [0], if q then [1 as byte] else [0];
    Split(a, b, x, y);
    assert a[0] == b[0];
  }

  /** No encoding is a prefix of another one of the same shape, and an encoding stands
      for exactly one fact. */
  lemma {:induction false} EncodingIsPrefixFree(v: Value, w: Value, t: Shape, x: seq<byte>, y: seq<byte>)
    requires HasShape(v, t) && HasShape(w, t) && Encode(v, t).Some? && Encode(w, t).Some?
    requires Encode(v, t).value + x == Encode(w, t).value + y
    ensures IsSameFact(v, w, t) && x == y
    decreases t, 0
  {
    hide Word, SignedBytes, Framed, Shifted, IsPrecise, IsSameNumber, Micros, EncodeItems, EncodeFields, AreSameItems,
      Items;
    match t
    case TimeShape => WordPrefix(Micros(v), Micros(w), x, y);
    case BigShape => SignedPrefix(v.integer, w.integer, x, y);
    case DecimalShape =>
      SignedPrefix(Shifted(v), Shifted(w), x, y);
      ShiftedStandsForNumber(v, w);
    case TextShape => FramedPrefix(v.text, w.text, x, y);
    case BoolShape => FlagPrefix(v.on, w.on, x, y);
    case UnsignedShape => WordPrefix(v.number, w.number, x, y);
    case SignedShape => WordPrefix(v.number, w.number, x, y);
    case Pointer(target) => PointerPrefix(v, w, target, x, y);
    case ListOf(element) => ListPrefix(Items(v), Items(w), element, x, y);
    case Struct(name, fields) =>
      var a, b := EncodeFields(v.parts, fields).value, EncodeFields(w.parts, fields).value;
      Regroup(Framed(name), a, x);
      Regroup(Framed(name), b, y);
      Split(Framed(name), Framed(name), a + x, b + y);
      FieldsPrefix(v.parts, w.parts, fields, x, y);
    case Unsupported =>
  }

  lemma {:induction false} PointerPrefix(v: Value, w: Value, target: Shape, x: seq<byte>, y: seq<byte>)
    requires HasShape(v, Pointer(target)) && HasShape(w, Pointer(target))
    requires Encode(v, Pointer(target)).Some? && Encode(w, Pointer(target)).Some?
    requires Encode(v, Pointer(target)).value + x == Encode(w, Pointer(target)).value + y
    ensures IsSameFact(v, w, Pointer(target)) && x == y
    decreases target, 1
  {
    var c := if v.Nil? then [] else Encode(v.target, target).value;
    var d := if w.Nil? then [] else Encode(w.target, target).value;
    assert Encode(v, Pointer(target)).value == (if v.Ref? then [1] else [0]) + c;
    assert Encode(w, Pointer(target)).value == (if w.Ref? then [1] else [0]) + d;
    hide Encode;
    Regroup(if v.Ref? then [1] else [0], c, x);
    Regroup(if w.Ref? then [1] else [0], d, y);
    FlagPrefix(v.Ref?, w.Ref?, c + x, d + y);
    if v.Ref? {
      EncodingIsPrefixFree(v.target, w.target, target, x, y);
    } else {
      assert c + x == x && d + y == y;
    }
  }

  lemma {:induction false} ListPrefix(vs: seq<Value>, ws: seq<Value>, t: Shape, x: seq<byte>, y: seq<byte>)
    requires |vs| < TWO_64 && |ws| < TWO_64
    requires AreItems(vs, t) && AreItems(ws, t)
    requires EncodeItems(vs, t).Some? && EncodeItems(ws, t).Some?
    requires (Word(|vs|) + EncodeItems(vs, t).value) + x == (Word(|ws|) + EncodeItems(ws, t).value) + y
    ensures AreSameItems(vs, ws, t) && x == y
    decreases t, |vs| + 2
  {
    hide Word, EncodeItems, AreSameItems;
    Regroup(Word(|vs|), EncodeItems(vs, t).value, x);
    Regroup(Word(|ws|), EncodeItems(ws, t).value, y);
    WordPrefix(|vs|, |ws|, EncodeItems(vs, t).value + x, EncodeItems(ws, t).value + y);
    ItemsPrefix(vs, ws, t, x, y);
  }

  lemma {:induction false} ItemsPrefix(vs: seq<Value>, ws: seq<Value>, t: Shape, x: seq<byte>, y: seq<byte>)
    requires |vs| == |ws| && AreItems(vs, t) && AreItems(ws, t)
    requires EncodeItems(vs, t).Some? && EncodeItems(ws, t).Some?
    requires EncodeItems(vs, t).value + x == EncodeItems(ws, t).value + y
    ensures AreSameItems(vs, ws, t) && x == y
    decreases t, |vs| + 1
  {
    if vs == [] {
      assert [] + x == x && [] + y == y;
    } else {
      var n := |vs| - 1;
      LastItem(vs, t);
      LastItem(ws, t);
      hide EncodeItems, AreSameItems, Encode, HasShape, IsSameFact, AreItems;
      var c, d := Encode(vs[n], t).value, Encode(ws[n], t).value;
      Regroup(EncodeItems(vs[..n], t).value, c, x);
      Regroup(EncodeItems(ws[..n], t).value, d, y);
      ItemsPrefix(vs[..n], ws[..n], t, c + x, d + y);
      EncodingIsPrefixFree(vs[n], ws[n], t, x, y);
      OneMoreSame(vs, ws, t);
    }
  }

  lemma LastItem(vs: seq<Value>, t: Shape)
    requires vs != [] && AreItems(vs, t)
    ensures AreItems(vs[..|vs| - 1], t) && HasShape(vs[|vs| - 1], t)
    ensures EncodeItems(vs, t) == Joined(EncodeItems(vs[..|vs| - 1], t), Encode(vs[|vs| - 1], t))
  {
  }

  lemma OneMoreSame(vs: seq<Value>, ws: seq<Value>, t: Shape)
    requires |vs| == |ws| > 0 && AreItems(vs, t) && AreItems(ws, t)
    requires AreItems(vs[..|vs| - 1], t) && AreItems(ws[..|ws| - 1], t)
    ensures
      AreSameItems(vs, ws, t) <==>
      AreSameItems(vs[..|vs| - 1], ws[..|vs| - 1], t) && IsSameFact(vs[|vs| - 1], ws[|vs| - 1], t)
  {
    hide HasShape, IsSameFact;
    var n := |vs| - 1;
    assert forall i :: 0 <= i < n ==> vs[i] == vs[..n][i] && ws[i] == ws[..n][i];
  }

  lemma {:induction false} FieldsPrefix(vs: seq<Value>, ws: seq<Value>, fields: seq<Field>, x: seq<byte>, y: seq<byte>)
    requires AreParts(vs, fields) && AreParts(ws, fields)
    requires EncodeFields(vs, fields).Some? && EncodeFields(ws, fields).Some?
    requires EncodeFields(vs, fields).value + x == EncodeFields(ws, fields).value + y
    ensures AreSameParts(vs, ws, fields) && x == y
    decreases fields, |vs| + 1
  {
    if fields == [] {
      assert [] + x == x && [] + y == y;
    } else {
      var n := |fields| - 1;
      var name := Framed(fields[n].name);
      LastField(vs, fields);
      LastField(ws, fields);
      hide EncodeFields, AreSameParts, Encode, HasShape, IsSameFact, Framed;
      var a, b := EncodeFields(vs[..n], fields[..n]).value, EncodeFields(ws[..n], fields[..n]).value;
      var c, d := Encode(vs[n], fields[n].shape).value, Encode(ws[n], fields[n].shape).value;
      Regroup(a + name, c, x);
      Regroup(b + name, d, y);
      Regroup(a, name, c + x);
      Regroup(b, name, d + y);
      FieldsPrefix(vs[..n], ws[..n], fields[..n], name + (c + x), name + (d + y));
      Split(name, name, c + x, d + y);
      EncodingIsPrefixFree(vs[n], ws[n], fields[n].shape, x, y);
      OneMorePart(vs, ws, fields);
    }
  }

  lemma LastField(vs: seq<Value>, fields: seq<Field>)
    requires fields != [] && AreParts(vs, fields)
    ensures var n := |fields| - 1;
      && AreParts(vs[..n], fields[..n]) && HasShape(vs[n], fields[n].shape)
      && EncodeFields(vs, fields) ==
        Joined(Joined(EncodeFields(vs[..n], fields[..n]), Some(Framed(fields[n].name))), Encode(vs[n], fields[n].shape))
  {
  }

  lemma OneMorePart(vs: seq<Value>, ws: seq<Value>, fields: seq<Field>)
    requires fields != [] && AreParts(vs, fields) && AreParts(ws, fields)
    ensures var n := |fields| - 1;
      && AreParts(vs[..n], fields[..n]) && AreParts(ws[..n], fields[..n])
      && (AreSameParts(vs, ws, fields) <==>
          AreSameParts(vs[..n], ws[..n], fields[..n]) && IsSameFact(vs[n], ws[n], fields[n].shape))
  {
    var n := |fields| - 1;
    assert forall i :: 0 <= i < n ==> vs[i] == vs[..n][i] && ws[i] == ws[..n][i] && fields[i] == fields[..n][i];
  }

  /** What is encoded: no decimal finer than eighteen places, nothing of an unknown kind. */
  ghost predicate IsEncodable(v: Value, t: Shape)
    requires HasShape(v, t)
    decreases t, 0
  {
    match t
    case DecimalShape => exists n: int :: IsSameNumber(Decimal(n, -18), v)
    case Pointer(target) => v.Ref? ==> IsEncodable(v.target, target)
    case ListOf(element) => AreEncodable(Items(v), element)
    case Struct(_, fields) => AreEncodableParts(v.parts, fields)
    case Unsupported => false
    case _ => true
  }

  ghost predicate AreEncodable(vs: seq<Value>, t: Shape)
    requires AreItems(vs, t)
    decreases t, 1
  {
    forall i :: 0 <= i < |vs| ==> IsEncodable(vs[i], t)
  }

  ghost predicate AreEncodableParts(vs: seq<Value>, fields: seq<Field>)
    requires AreParts(vs, fields)
    decreases fields, 1
  {
    forall i :: 0 <= i < |fields| ==> IsEncodable(vs[i], fields[i].shape)
  }

  /** Dropping what is finer loses nothing exactly where eighteen places are enough. */
  lemma PreciseMeansEighteenPlaces(v: Value, n: int)
    requires v.Decimal? && IsSameNumber(Decimal(n, -18), v)
    ensures Shifted(v) == n
  {
    if v.exponent >= -18 {
      assert Pow10(0) == 1;
      assert n * 1 == v.coefficient * Pow10(v.exponent + 18);
    } else {
      var p := Pow10(-18 - v.exponent);
      assert Pow10(0) == 1;
      assert n * p == v.coefficient;
      ExactQuotient(n, p);
    }
  }

  lemma ExactQuotient(n: int, p: nat)
    requires p > 0
    ensures Truncated(n * p, p) == n
  {
  }

  lemma JoinedBoth(a: Option<seq<byte>>, b: Option<seq<byte>>)
    ensures Joined(a, b).Some? <==> a.Some? && b.Some?
  {
  }

  lemma {:induction false} EncodesWhatIsEncodable(v: Value, t: Shape)
    requires HasShape(v, t)
    ensures Encode(v, t).Some? <==> IsEncodable(v, t)
    decreases t, 0
  {
    match t
    case DecimalShape =>
      if n: int :| IsSameNumber(Decimal(n, -18), v) {
        PreciseMeansEighteenPlaces(v, n);
      }
    case Pointer(target) =>
      if v.Ref? {
        EncodesWhatIsEncodable(v.target, target);
      }
    case ListOf(element) => ItemsEncode(Items(v), element);
    case Struct(_, fields) => FieldsEncode(v.parts, fields);
    case _ =>
  }

  lemma {:induction false} ItemsEncode(vs: seq<Value>, t: Shape)
    requires AreItems(vs, t)
    ensures EncodeItems(vs, t).Some? <==> AreEncodable(vs, t)
    decreases t, |vs| + 1
  {
    if vs == [] {
      assert AreEncodable(vs, t);
    } else {
      var n := |vs| - 1;
      LastItem(vs, t);
      ItemsEncode(vs[..n], t);
      EncodesWhatIsEncodable(vs[n], t);
      OneMoreEncodable(vs, t);
      JoinedBoth(EncodeItems(vs[..n], t), Encode(vs[n], t));
      hide *;
    }
  }

  lemma OneMoreEncodable(vs: seq<Value>, t: Shape)
    requires vs != [] && AreItems(vs, t) && AreItems(vs[..|vs| - 1], t)
    ensures AreEncodable(vs, t) <==> AreEncodable(vs[..|vs| - 1], t) && IsEncodable(vs[|vs| - 1], t)
  {
    hide HasShape, IsEncodable;
    var n := |vs| - 1;
    assert forall i :: 0 <= i < n ==> vs[i] == vs[..n][i];
  }

  lemma {:induction false} FieldsEncode(vs: seq<Value>, fields: seq<Field>)
    requires AreParts(vs, fields)
    ensures EncodeFields(vs, fields).Some? <==> AreEncodableParts(vs, fields)
    decreases fields, |vs| + 1
  {
    if fields == [] {
      assert AreEncodableParts(vs, fields);
    } else {
      var n := |fields| - 1;
      LastField(vs, fields);
      FieldsEncode(vs[..n], fields[..n]);
      EncodesWhatIsEncodable(vs[n], fields[n].shape);
      OneMoreEncodablePart(vs, fields);
      JoinedBoth(EncodeFields(vs[..n], fields[..n]), Some(Framed(fields[n].name)));
      JoinedBoth(Joined(EncodeFields(vs[..n], fields[..n]), Some(Framed(fields[n].name))),
                 Encode(vs[n], fields[n].shape));
      hide *;
    }
  }

  lemma OneMoreEncodablePart(vs: seq<Value>, fields: seq<Field>)
    requires fields != [] && AreParts(vs, fields)
    ensures var n := |fields| - 1;
      && AreParts(vs[..n], fields[..n])
      && (AreEncodableParts(vs, fields) <==>
          AreEncodableParts(vs[..n], fields[..n]) && IsEncodable(vs[n], fields[n].shape))
  {
    hide HasShape, IsEncodable;
    var n := |fields| - 1;
    assert forall i :: 0 <= i < n ==> vs[i] == vs[..n][i] && fields[i] == fields[..n][i];
  }

  /** The same fact has the same bytes. */
  lemma {:induction false} SameFactSameBytes(v: Value, w: Value, t: Shape)
    requires HasShape(v, t) && HasShape(w, t) && Encode(v, t).Some? && Encode(w, t).Some? && IsSameFact(v, w, t)
    ensures Encode(v, t) == Encode(w, t)
    decreases t, 0
  {
    match t
    case DecimalShape => ShiftedStandsForNumber(v, w);
    case Pointer(target) =>
      if v.Ref? {
        SameFactSameBytes(v.target, w.target, target);
      }
    case ListOf(element) => SameItemsSameBytes(Items(v), Items(w), element);
    case Struct(_, fields) => SamePartsSameBytes(v.parts, w.parts, fields);
    case _ =>
  }

  lemma {:induction false} SameItemsSameBytes(vs: seq<Value>, ws: seq<Value>, t: Shape)
    requires AreItems(vs, t) && AreItems(ws, t) && AreSameItems(vs, ws, t)
    requires EncodeItems(vs, t).Some? && EncodeItems(ws, t).Some?
    ensures EncodeItems(vs, t) == EncodeItems(ws, t)
    decreases t, |vs| + 1
  {
    if vs != [] {
      var n := |vs| - 1;
      LastItem(vs, t);
      LastItem(ws, t);
      OneMoreSame(vs, ws, t);
      hide *;
      JoinedBoth(EncodeItems(vs[..n], t), Encode(vs[n], t));
      JoinedBoth(EncodeItems(ws[..n], t), Encode(ws[n], t));
      SameItemsSameBytes(vs[..n], ws[..n], t);
      SameFactSameBytes(vs[n], ws[n], t);
    }
  }

  lemma {:induction false} SamePartsSameBytes(vs: seq<Value>, ws: seq<Value>, fields: seq<Field>)
    requires AreParts(vs, fields) && AreParts(ws, fields) && AreSameParts(vs, ws, fields)
    requires EncodeFields(vs, fields).Some? && EncodeFields(ws, fields).Some?
    ensures EncodeFields(vs, fields) == EncodeFields(ws, fields)
    decreases fields, |vs| + 1
  {
    if fields != [] {
      var n := |fields| - 1;
      LastField(vs, fields);
      LastField(ws, fields);
      OneMorePart(vs, ws, fields);
      hide HasShape, IsSameFact, EncodeFields, Encode, AreParts, AreSameParts, Framed;
      SamePartsSameBytes(vs[..n], ws[..n], fields[..n]);
      SameFactSameBytes(vs[n], ws[n], fields[n].shape);
    }
  }

  /** Two facts have one byte form exactly if they state the same. */
  lemma BytesStandForFacts(v: Value, w: Value, t: Shape)
    requires HasShape(v, t) && HasShape(w, t) && IsEncodable(v, t) && IsEncodable(w, t)
    ensures Encode(v, t).Some? && Encode(w, t).Some?
    ensures Encode(v, t) == Encode(w, t) <==> IsSameFact(v, w, t)
  {
    hide Encode, HasShape, IsEncodable, IsSameFact;
    EncodesWhatIsEncodable(v, t);
    EncodesWhatIsEncodable(w, t);
    if Encode(v, t) == Encode(w, t) {
      EncodingIsPrefixFree(v, w, t, [], []);
    } else if IsSameFact(v, w, t) {
      SameFactSameBytes(v, w, t);
    }
  }

  // ------------------------------------------------------------------ the writing

  class Buffer {
    var bytes: seq<byte>

    constructor ()
      ensures bytes == []
    {
      bytes := [];
    }

    method WriteByte(b: byte)
      modifies this
      ensures bytes == old(bytes) + [b]
    {
      bytes := bytes + [b];
    }

    method Write(bs: seq<byte>)
      modifies this
      ensures bytes == old(bytes) + bs
    {
      bytes := bytes + bs;
    }

    /** A length, seven bits to a byte, lowest first. */
    method WriteVarint(length: nat)
      modifies this
      ensures bytes == old(bytes) + Varint(length)
    {
      var x := length;
      while x >= 128
        invariant bytes + Varint(x) == old(bytes) + Varint(length)
      {
        ghost var was, y := bytes, x;
        WriteByte((x % 128 + 128) as byte);
        x := x / 128;
        assert was + Varint(y) == was + ([(y % 128 + 128) as byte] + Varint(x));
        Regroup(was, [(y % 128 + 128) as byte], Varint(x));
      }
      WriteByte(x as byte);
    }

    method WriteText(text: seq<byte>)
      modifies this
      ensures bytes == old(bytes) + Framed(text)
    {
      WriteVarint(|text|);
      Write(text);
      Regroup(old(bytes), Varint(|text|), text);
    }

    method WriteWord(n: int)
      requires -TWO_63 <= n < TWO_64
      modifies this
      ensures bytes == old(bytes) + Word(n)
    {
      var rest: nat := if n < 0 then n + TWO_64 else n;
      var word: seq<byte> := [];
      ghost var all := Word(n);
      assert Fixed(rest, 8) + word == all;
      hide Word;
      for k := 0 to 8
        invariant Fixed(rest, 8 - k) + word == all && bytes == old(bytes)
      {
        Regroup(Fixed(rest / 256, 8 - k - 1), [(rest % 256) as byte], word);
        word := [(rest % 256) as byte] + word;
        rest := rest / 256;
      }
      assert Fixed(rest, 0) + word == word;
      Write(word);
    }

    method WriteSigned(n: int)
      modifies this
      ensures bytes == old(bytes) + SignedBytes(n)
    {
      WriteByte(SignByte(n));
      WriteText(Magnitude(Abs(n)));
      Regroup(old(bytes), [SignByte(n)], Framed(Magnitude(Abs(n))));
    }
  }

  /** What a fact adds to the buffer; a failure may leave a part of it behind. */
  ghost predicate IsWritten(before: seq<byte>, after: seq<byte>, ok: bool, code: Option<seq<byte>>) {
    && before <= after
    && (ok <==> code.Some?)
    && (ok ==> after == before + code.value)
  }

  lemma WrittenJoins(before: seq<byte>, middle: seq<byte>, after: seq<byte>, ok: bool, a: Option<seq<byte>>,
                     b: Option<seq<byte>>)
    requires IsWritten(before, middle, true, a) && IsWritten(middle, after, ok, b)
    ensures IsWritten(before, after, ok, Joined(a, b))
  {
  }

  method EncodeFact(out: Buffer, v: Value, t: Shape) returns (ok: bool)
    requires HasShape(v, t)
    modifies out
    ensures IsWritten(old(out.bytes), out.bytes, ok, Encode(v, t))
    decreases t, 0
  {
    ok := true;
    match t {
      case TimeShape => out.WriteWord(Micros(v));
      case BigShape => out.WriteSigned(v.integer);
      case DecimalShape =>
        ok := IsPrecise(v);
        if ok {
          out.WriteSigned(Shifted(v));
        }
      case TextShape => out.WriteText(v.text);
      case BoolShape => out.WriteByte(if v.on then 1 else 0);
      case UnsignedShape => out.WriteWord(v.number);
      case SignedShape => out.WriteWord(v.number);
      case Pointer(target) =>
        if v.Nil? {
          out.WriteByte(0);
        } else {
          out.WriteByte(1);
          ghost var middle := out.bytes;
          ok := EncodeFact(out, v.target, target);
          WrittenJoins(old(out.bytes), middle, out.bytes, ok, Some([1]), Encode(v.target, target));
        }
      case ListOf(element) =>
        out.WriteWord(|Items(v)|);
        ghost var middle := out.bytes;
        ok := EncodeElements(out, Items(v), element);
        WrittenJoins(old(out.bytes), middle, out.bytes, ok, Some(Word(|Items(v)|)), EncodeItems(Items(v), element));
      case Struct(name, fields) =>
        out.WriteText(name);
        ghost var middle := out.bytes;
        ok := EncodeParts(out, v.parts, fields);
        WrittenJoins(old(out.bytes), middle, out.bytes, ok, Some(Framed(name)), EncodeFields(v.parts, fields));
      case Unsupported => ok := false;
    }
  }

  lemma ItemsFailTogether(vs: seq<Value>, t: Shape, n: nat)
    requires AreItems(vs, t) && n <= |vs| && AreItems(vs[..n], t)
    ensures EncodeItems(vs[..n], t).None? ==> EncodeItems(vs, t).None?
    decreases |vs|
  {
    if n == |vs| {
      assert vs[..n] == vs;
    } else {
      LastItem(vs, t);
      assert vs[..|vs| - 1][..n] == vs[..n];
      ItemsFailTogether(vs[..|vs| - 1], t, n);
    }
  }

  lemma ItemStep(vs: seq<Value>, t: Shape, i: nat)
    requires AreItems(vs, t) && i < |vs|
    ensures AreItems(vs[..i], t) && AreItems(vs[..i + 1], t) && HasShape(vs[i], t)
    ensures EncodeItems(vs[..i + 1], t) == Joined(EncodeItems(vs[..i], t), Encode(vs[i], t))
  {
    assert vs[..i + 1][..i] == vs[..i];
    LastItem(vs[..i + 1], t);
  }

  lemma NothingWritten(before: seq<byte>, vs: seq<Value>, t: Shape, fields: seq<Field>)
    ensures AreItems(vs[..0], t) && IsWritten(before, before, true, EncodeItems(vs[..0], t))
    ensures vs[..0] == [] && fields[..0] == [] && AreParts([], [])
    ensures IsWritten(before, before, true, EncodeFields([], []))
  {
  }

  method EncodeElements(out: Buffer, vs: seq<Value>, t: Shape) returns (ok: bool)
    requires AreItems(vs, t)
    modifies out
    ensures IsWritten(old(out.bytes), out.bytes, ok, EncodeItems(vs, t))
    decreases t, 1
  {
    hide *;
    NothingWritten(out.bytes, vs, t, []);
    ok := true;
    var i := 0;
    while ok && i < |vs|
      invariant 0 <= i <= |vs| && AreItems(vs[..i], t)
      invariant IsWritten(old(out.bytes), out.bytes, ok, EncodeItems(vs[..i], t))
      decreases |vs| - i
    {
      ItemStep(vs, t, i);
      ghost var middle := out.bytes;
      ok := EncodeFact(out, vs[i], t);
      WrittenJoins(old(out.bytes), middle, out.bytes, ok, EncodeItems(vs[..i], t), Encode(vs[i], t));
      i := i + 1;
    }
    if ok {
      assert vs[..i] == vs;
    } else {
      ItemsFail(old(out.bytes), out.bytes, vs, t, i);
    }
  }

  lemma ItemsFail(before: seq<byte>, after: seq<byte>, vs: seq<Value>, t: Shape, n: nat)
    requires AreItems(vs, t) && n <= |vs| && AreItems(vs[..n], t)
    requires IsWritten(before, after, false, EncodeItems(vs[..n], t))
    ensures IsWritten(before, after, false, EncodeItems(vs, t))
  {
    ItemsFailTogether(vs, t, n);
  }

  lemma FieldsFailTogether(vs: seq<Value>, fields: seq<Field>, n: nat)
    requires AreParts(vs, fields) && n <= |fields| == |vs| && AreParts(vs[..n], fields[..n])
    ensures EncodeFields(vs[..n], fields[..n]).None? ==> EncodeFields(vs, fields).None?
    decreases |vs|
  {
    if n == |vs| {
      assert vs[..n] == vs && fields[..n] == fields;
    } else {
      LastField(vs, fields);
      assert vs[..|vs| - 1][..n] == vs[..n] && fields[..|vs| - 1][..n] == fields[..n];
      FieldsFailTogether(vs[..|vs| - 1], fields[..|vs| - 1], n);
    }
  }

  lemma FieldStep(vs: seq<Value>, fields: seq<Field>, i: nat)
    requires AreParts(vs, fields) && i < |vs|
    ensures |vs| == |fields|
    ensures AreParts(vs[..i], fields[..i]) && AreParts(vs[..i + 1], fields[..i + 1]) && HasShape(vs[i], fields[i].shape)
    ensures EncodeFields(vs[..i + 1], fields[..i + 1]) ==
            Joined(Joined(EncodeFields(vs[..i], fields[..i]), Some(Framed(fields[i].name))),
                   Encode(vs[i], fields[i].shape))
  {
  }

  method EncodeParts(out: Buffer, vs: seq<Value>, fields: seq<Field>) returns (ok: bool)
    requires AreParts(vs, fields)
    modifies out
    ensures IsWritten(old(out.bytes), out.bytes, ok, EncodeFields(vs, fields))
    decreases fields, 1
  {
    hide *;
    NothingWritten(out.bytes, vs, BoolShape, fields);
    SameLength(vs, fields);
    ok := true;
    var i := 0;
    while ok && i < |fields|
      invariant 0 <= i <= |fields| && AreParts(vs[..i], fields[..i])
      invariant IsWritten(old(out.bytes), out.bytes, ok, EncodeFields(vs[..i], fields[..i]))
      decreases |fields| - i
    {
      FieldStep(vs, fields, i);
      ghost var before := out.bytes;
      ghost var front := EncodeFields(vs[..i], fields[..i]);
      out.WriteText(fields[i].name);
      ghost var middle := out.bytes;
      TextIsWritten(before, Framed(fields[i].name));
      WrittenJoins(old(out.bytes), before, middle, true, front, Some(Framed(fields[i].name)));
      ok := EncodeFact(out, vs[i], fields[i].shape);
      WrittenJoins(old(out.bytes), middle, out.bytes, ok, Joined(front, Some(Framed(fields[i].name))),
                   Encode(vs[i], fields[i].shape));
      i := i + 1;
    }
    if ok {
      assert vs[..i] == vs && fields[..i] == fields;
    } else {
      FieldsFail(old(out.bytes), out.bytes, vs, fields, i);
    }
  }

  lemma SameLength(vs: seq<Value>, fields: seq<Field>)
    requires AreParts(vs, fields)
    ensures |vs| == |fields|
  {
  }

  lemma TextIsWritten(before: seq<byte>, text: seq<byte>)
    ensures IsWritten(before, before + text, true, Some(text))
  {
  }

  lemma FieldsFail(before: seq<byte>, after: seq<byte>, vs: seq<Value>, fields: seq<Field>, n: nat)
    requires AreParts(vs, fields) && n <= |fields| == |vs| && AreParts(vs[..n], fields[..n])
    requires IsWritten(before, after, false, EncodeFields(vs[..n], fields[..n]))
    ensures IsWritten(before, after, false, EncodeFields(vs, fields))
  {
    FieldsFailTogether(vs, fields, n);
  }

  /** The version tag in front of every encoding. */
  const VERSION: seq<byte> := [106, 108, 45, 107, 101, 101, 112, 101, 114, 45, 102, 97, 99, 116, 45, 118, 49, 0]

  method Bytes(v: Value, t: Shape) returns (bytes: seq<byte>, ok: bool)
    requires HasShape(v, t)
    ensures ok <==> IsEncodable(v, t)
    ensures ok ==> Encode(v, t).Some? && bytes == VERSION + Encode(v, t).value
  {
    var out := new Buffer();
    out.Write(VERSION);
    ok := EncodeFact(out, v, t);
    EncodesWhatIsEncodable(v, t);
    bytes := out.bytes;
  }
}
