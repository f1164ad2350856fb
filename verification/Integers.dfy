/** Large integers as strings and back (src/a2a/utils/proto_utils.py):
    `normalize_large_integers_to_strings` and `parse_string_integers_in_dict`. */
module Integers {
  import opened Json
  import opened Types

  // ---- Decimal notation ----

  function Pow10(d: nat): (p: nat)
    ensures p > 0
  {
    if d == 0 then 1 else 10 * Pow10(d - 1)
  }

  const DIGITS := "0123456789"

  predicate IsDigit(c: char) {
    '0' <= c <= '9'
  }

  predicate AllDigits(s: string) {
    forall i :: 0 <= i < |s| ==> IsDigit(s[i])
  }

  function Decimal(n: nat): (s: string)
    ensures |s| > 0 && AllDigits(s)
  {
    if n < 10 then [DIGITS[n]] else Decimal(n / 10) + [DIGITS[n % 10]]
  }

  function NatValue(s: string): nat
    requires AllDigits(s)
  {
    if s == [] then 0 else 10 * NatValue(s[..|s| - 1]) + (s[|s| - 1] as int - '0' as int)
  }

  lemma {:induction false} DecimalValue(n: nat)
    ensures NatValue(Decimal(n)) == n
  {
    var s := Decimal(n);
    if n >= 10 {
      DecimalValue(n / 10);
      assert s[..|s| - 1] == Decimal(n / 10);
    } else {
      assert s[..|s| - 1] == [];
    }
  }

  /** More than d digits exactly when the number exceeds the largest d-digit number. */
  lemma {:induction false} DecimalLength(n: nat, d: nat)
    requires d >= 1
    ensures |Decimal(n)| > d <==> n > Pow10(d) - 1
  {
    if d == 1 {
      assert Pow10(1) == 10 * Pow10(0) == 10;
    } else if n < 10 {
      assert Pow10(d) == 10 * Pow10(d - 1);
    } else {
      DecimalLength(n / 10, d - 1);
      assert Pow10(d) == 10 * Pow10(d - 1);
    }
  }

  /** Python's `str` of an integer. */
  function Text(n: int): string {
    if n < 0 then "-" + Decimal(-n) else Decimal(n)
  }

  /** `lstrip('-')`. */
  function StripDashes(s: string): (t: string)
    ensures |t| <= |s|
  {
    if s != [] && s[0] == '-' then StripDashes(s[1..]) else s
  }

  /** Dashes followed by more than d digits: the strings that parsing takes for integers. */
  predicate LooksLikeInteger(s: string, d: nat) {
    var t := StripDashes(s);
    t != [] && AllDigits(t) && |t| > d
  }

  /** Python's `int` of dashes followed by digits: more than one dash is a ValueError. */
  function IntValue(s: string): Option<int>
    requires AllDigits(StripDashes(s))
  {
    var t := StripDashes(s);
    if |s| - |t| == 0 then Some(NatValue(t))
    else if |s| - |t| == 1 then Some(0 - NatValue(t) as int)
    else None
  }

  // ---- The two functions ----

  function Normalize(v: Json, d: nat): Json
    decreases v, 1
  {
    match v
    case Int(n) => if (if n < 0 then -n else n) > Pow10(d) - 1 then Str(Text(n)) else v
    case Bool(b) => if (if b then 1 else 0) > Pow10(d) - 1 then Str(if b then "True" else "False") else v
    case Arr(items) => Arr(NormalizeItems(items, d))
    case Obj(fields) => Obj(NormalizeFields(fields, d))
    case _ => v
  }

  function NormalizeItems(items: seq<Json>, d: nat): seq<Json>
    decreases items, 0
  {
    seq(|items|, i requires 0 <= i < |items| => Normalize(items[i], d))
  }

  function NormalizeFields(fields: seq<Field>, d: nat): seq<Field>
    decreases fields, 0
  {
    seq(|fields|, i requires 0 <= i < |fields| => Field(fields[i].key, Normalize(fields[i].value, d)))
  }

  /** Nothing when some string makes `int` raise. */
  function Parse(v: Json, d: nat): Option<Json>
    decreases v, 1
  {
    match v
    case Str(s) =>
      if LooksLikeInteger(s, d) then
        var n := IntValue(s);
        if n.None? then None else Some(Int(n.value))
      else Some(v)
    case Arr(items) =>
      var r := ParseItems(items, d);
      if r.None? then None else Some(Arr(r.value))
    case Obj(fields) =>
      var r := ParseFields(fields, d);
      if r.None? then None else Some(Obj(r.value))
    case _ => Some(v)
  }

  function ParseItems(items: seq<Json>, d: nat): Option<seq<Json>>
    decreases items, 0
  {
    if items == [] then Some([])
    else
      var first, rest := Parse(items[0], d), ParseItems(items[1..], d);
      if first.None? || rest.None? then None else Some([first.value] + rest.value)
  }

  function ParseFields(fields: seq<Field>, d: nat): Option<seq<Field>>
    decreases fields, 0
  {
    if fields == [] then Some([])
    else
      var first, rest := Parse(fields[0].value, d), ParseFields(fields[1..], d);
      if first.None? || rest.None? then None else Some([Field(fields[0].key, first.value)] + rest.value)
  }

  // ---- The round trip ----

  /** No string that parsing would take for an integer. A Python bool is an int, so with
      d = 0 the value True would be turned into text as well. */
  predicate Restorable(v: Json, d: nat) {
    match v
    case Str(s) => !LooksLikeInteger(s, d)
    case Bool(b) => d >= 1 || !b
    case Arr(items) => forall i :: 0 <= i < |items| ==> Restorable(items[i], d)
    case Obj(fields) => forall i :: 0 <= i < |fields| ==> Restorable(fields[i].value, d)
    case _ => true
  }

  lemma TextParses(n: int, d: nat)
    requires (if n < 0 then -n else n) > Pow10(d) - 1
    ensures LooksLikeInteger(Text(n), d) && IntValue(Text(n)) == Some(n)
  {
    var m: nat := if n < 0 then -n else n;
    var digits := Decimal(m);
    DecimalValue(m);
    NoDashes(digits);
    if d >= 1 {
      DecimalLength(m, d);
    }
    if n < 0 {
      assert Text(n)[1..] == digits;
    }
  }

  lemma NoDashes(s: string)
    requires s != [] && IsDigit(s[0])
    ensures StripDashes(s) == s && StripDashes("-" + s) == s
  {
    assert ("-" + s)[1..] == s;
  }

  lemma {:induction false} RoundTripLeaf(v: Json, d: nat)
    requires !v.Arr? && !v.Obj?
    ensures Parse(Normalize(v, d), d) == Some(v) <==> Restorable(v, d)
  {
    if v.Int? {
      if Normalize(v, d).Str? {
        TextParses(v.n, d);
      }
    } else if v.Bool? {
      if d >= 1 {
        assert Pow10(d) == 10 * Pow10(d - 1);
      } else if v.b {
        assert Normalize(v, d) == Str("True");
        assert "True"[0] != '-' && StripDashes("True") == "True" && !IsDigit("True"[0]);
      }
    }
  }

  /** Parsing the normalised tree gives back the original exactly when no string in it
      looks like a large integer: for every tree and every number of digits. */
  lemma {:induction false} RoundTrip(v: Json, d: nat)
    ensures Parse(Normalize(v, d), d) == Some(v) <==> Restorable(v, d)
    decreases v, 1
  {
    match v
    case Arr(items) =>
      RoundTripItems(items, d);
    case Obj(fields) =>
      RoundTripFields(fields, d);
    case _ =>
      RoundTripLeaf(v, d);
  }

  lemma {:induction false} RoundTripItems(items: seq<Json>, d: nat)
    ensures ParseItems(NormalizeItems(items, d), d) == Some(items) <==>
            forall i :: 0 <= i < |items| ==> Restorable(items[i], d)
    decreases items, 0
  {
    if items != [] {
      RoundTrip(items[0], d);
      RoundTripItems(items[1..], d);
      assert NormalizeItems(items, d)[1..] == NormalizeItems(items[1..], d);
      assert items == [items[0]] + items[1..];
      Heads(items[0], items[1..], ParseItems(NormalizeItems(items[1..], d), d), Parse(Normalize(items[0], d), d));
      assert forall i :: 0 <= i < |items[1..]| ==> items[1..][i] == items[i + 1];
      assert (forall i :: 0 <= i < |items| ==> Restorable(items[i], d))
        <==> Restorable(items[0], d) && forall i :: 0 <= i < |items[1..]| ==> Restorable(items[1..][i], d);
    }
  }

  lemma {:induction false} RoundTripFields(fields: seq<Field>, d: nat)
    ensures ParseFields(NormalizeFields(fields, d), d) == Some(fields) <==>
            forall i :: 0 <= i < |fields| ==> Restorable(fields[i].value, d)
    decreases fields, 0
  {
    if fields != [] {
      RoundTrip(fields[0].value, d);
      RoundTripFields(fields[1..], d);
      assert NormalizeFields(fields, d)[1..] == NormalizeFields(fields[1..], d);
      assert fields == [fields[0]] + fields[1..];
      var first := Parse(Normalize(fields[0].value, d), d);
      Heads(fields[0], fields[1..], ParseFields(NormalizeFields(fields[1..], d), d),
            if first.None? then None else Some(Field(fields[0].key, first.value)));
      assert forall i :: 0 <= i < |fields[1..]| ==> fields[1..][i] == fields[i + 1];
      assert (forall i :: 0 <= i < |fields| ==> Restorable(fields[i].value, d))
        <==> Restorable(fields[0].value, d) && forall i :: 0 <= i < |fields[1..]| ==> Restorable(fields[1..][i].value, d);
    }
  }

  lemma Heads<T>(x: T, xs: seq<T>, rest: Option<seq<T>>, first: Option<T>)
    ensures (first.Some? && rest.Some? && [first.value] + rest.value == [x] + xs) <==> first == Some(x) && rest == Some(xs)
  {
    if first.Some? && rest.Some? && [first.value] + rest.value == [x] + xs {
      assert ([first.value] + rest.value)[0] == x;
      assert ([first.value] + rest.value)[1..] == rest.value && ([x] + xs)[1..] == xs;
    }
  }

  // ---- What normalising and parsing do, place by place ----

  /** A place in a tree: positions in lists and dictionaries on the way down. */
  type Place = seq<nat>

  function Width(v: Json): nat {
    match v
    case Arr(items) => |items|
    case Obj(fields) => |fields|
    case _ => 0
  }

  function Child(v: Json, i: nat): Json
    requires i < Width(v)
  {
    if v.Arr? then v.items[i] else v.fields[i].value
  }

  predicate HasPlace(v: Json, place: Place)
    decreases |place|
  {
    place == [] || (place[0] < Width(v) && HasPlace(Child(v, place[0]), place[1..]))
  }

  function At(v: Json, place: Place): Json
    requires HasPlace(v, place)
    decreases |place|
  {
    if place == [] then v else At(Child(v, place[0]), place[1..])
  }

  /** The same scalar, or containers of the same kind and width, with the same keys. */
  predicate SameHead(a: Json, b: Json) {
    match a
    case Arr(items) => b.Arr? && |b.items| == |items|
    case Obj(fields) => b.Obj? && |b.fields| == |fields| && forall i :: 0 <= i < |fields| ==> b.fields[i].key == fields[i].key
    case _ => b == a
  }

  function Magnitude(n: int): nat {
    if n < 0 then -n else n
  }

  /** More than `d` digits, zero having none. */
  predicate IsLong(v: Json, d: nat) {
    v.Int? && v.n != 0 && |Decimal(Magnitude(v.n))| > d
  }

  /** Normalising keeps every place, and changes what is there only where an integer has more
      than `d` digits: to its decimal text, with a minus sign if it is negative. With no digit
      allowed True, which is the integer 1, becomes its name. */
  lemma {:induction false} NormalizedPlace(v: Json, d: nat, place: Place)
    ensures HasPlace(Normalize(v, d), place) <==> HasPlace(v, place)
    ensures HasPlace(v, place) ==>
              var before, after := At(v, place), At(Normalize(v, d), place);
              if IsLong(before, d) then after == Str((if before.n < 0 then "-" else "") + Decimal(Magnitude(before.n)))
              else if before == Bool(true) && d == 0 then after == Str("True")
              else SameHead(before, after)
    decreases |place|
  {
    if place == [] {
      NormalizedHead(v, d);
    } else if place[0] < Width(v) {
      NormalizedPlace(Child(v, place[0]), d, place[1..]);
    }
  }

  lemma NormalizedHead(v: Json, d: nat)
    ensures if IsLong(v, d) then Normalize(v, d) == Str((if v.n < 0 then "-" else "") + Decimal(Magnitude(v.n)))
            else if v == Bool(true) && d == 0 then Normalize(v, d) == Str("True")
            else SameHead(v, Normalize(v, d))
  {
    if v.Int? {
      LongIff(v, d);
      assert [] + Decimal(Magnitude(v.n)) == Decimal(Magnitude(v.n));
    } else if v.Bool? && d > 0 {
      assert Pow10(d) == 10 * Pow10(d - 1);
    }
  }

  lemma LongIff(v: Json, d: nat)
    requires v.Int?
    ensures IsLong(v, d) <==> Magnitude(v.n) > Pow10(d) - 1
  {
    if d >= 1 {
      DecimalLength(Magnitude(v.n), d);
    }
  }

  /** So no integer that is left anywhere exceeds the largest safe one. */
  lemma NoLargeIntegerIsLeft(v: Json, d: nat, place: Place)
    requires HasPlace(Normalize(v, d), place) && At(Normalize(v, d), place).Int?
    ensures Magnitude(At(Normalize(v, d), place).n) <= Pow10(d) - 1
    ensures HasPlace(v, place) && At(v, place) == At(Normalize(v, d), place)
  {
    NormalizedPlace(v, d, place);
    LongIff(At(v, place), d);
  }

  predicate DashesThenDigits(s: string, k: nat) {
    k <= |s| && (forall i :: 0 <= i < k ==> s[i] == '-') && (forall i :: k <= i < |s| ==> '0' <= s[i] <= '9')
  }

  /** Which strings parsing takes for integers: any number of dashes, then digits and nothing
      else, at least one and more than `d` of them. */
  lemma {:induction false} LooksLikeIntegerIff(s: string, d: nat)
    ensures LooksLikeInteger(s, d) <==> exists k: nat :: DashesThenDigits(s, k) && |s| - k > d
    decreases |s|
  {
    if s != [] && s[0] == '-' {
      var t := s[1..];
      assert forall i :: 0 <= i < |t| ==> t[i] == s[i + 1];
      assert forall i :: 0 < i < |s| ==> s[i] == t[i - 1];
      LooksLikeIntegerIff(t, d);
      if k: nat :| DashesThenDigits(t, k) && |t| - k > d {
        assert DashesThenDigits(s, k + 1);
      }
      if k: nat :| DashesThenDigits(s, k) && |s| - k > d {
        assert k > 0 && DashesThenDigits(t, k - 1);
      }
    } else if LooksLikeInteger(s, d) {
      assert DashesThenDigits(s, 0);
    }
  }

  /** And what they stand for: no dash is a plain number, one a negative number, and more make
      parsing fail. */
  lemma IntegersRead(t: string)
    requires t != [] && AllDigits(t)
    ensures IntValue(t) == Some(NatValue(t)) && IntValue("-" + t) == Some(-(NatValue(t) as int)) && IntValue("--" + t) == None
  {
    NoDashes(t);
    assert ("--" + t)[1..] == "-" + t;
  }

  /** Some string in the tree is two dashes or more, followed by more than `d` digits. */
  predicate Unreadable(v: Json, d: nat) {
    match v
    case Str(s) => |s| > 1 && s[0] == '-' && s[1] == '-' && LooksLikeInteger(s, d)
    case Arr(items) => exists i :: 0 <= i < |items| && Unreadable(items[i], d)
    case Obj(fields) => exists i :: 0 <= i < |fields| && Unreadable(fields[i].value, d)
    case _ => false
  }

  lemma StripTwo(s: string)
    requires StripDashes(s) != []
    ensures |s| - |StripDashes(s)| >= 2 <==> |s| > 1 && s[0] == '-' && s[1] == '-'
  {
  }

  /** Parsing fails if and only if there is such a string. */
  lemma {:induction false} ParseFailsIff(v: Json, d: nat)
    ensures Parse(v, d).None? <==> Unreadable(v, d)
    decreases v, 1
  {
    match v
    case Str(s) =>
      if LooksLikeInteger(s, d) {
        StripTwo(s);
      }
    case Arr(items) =>
      ParseItemsFailsIff(items, d);
    case Obj(fields) =>
      ParseFieldsFailsIff(fields, d);
    case _ =>
  }

  lemma {:induction false} ParseItemsFailsIff(items: seq<Json>, d: nat)
    ensures ParseItems(items, d).None? <==> exists i :: 0 <= i < |items| && Unreadable(items[i], d)
    decreases items, 0
  {
    if items != [] {
      ParseFailsIff(items[0], d);
      ParseItemsFailsIff(items[1..], d);
      assert forall i :: 0 < i < |items| ==> items[i] == items[1..][i - 1];
      assert forall i :: 0 <= i < |items[1..]| ==> items[1..][i] == items[i + 1];
    }
  }

  lemma {:induction false} ParseFieldsFailsIff(fields: seq<Field>, d: nat)
    ensures ParseFields(fields, d).None? <==> exists i :: 0 <= i < |fields| && Unreadable(fields[i].value, d)
    decreases fields, 0
  {
    if fields != [] {
      ParseFailsIff(fields[0].value, d);
      ParseFieldsFailsIff(fields[1..], d);
      assert forall i :: 0 < i < |fields| ==> fields[i] == fields[1..][i - 1];
      assert forall i :: 0 <= i < |fields[1..]| ==> fields[1..][i] == fields[i + 1];
    }
  }

  /** Otherwise it too keeps every place, and changes only the strings that look like large
      integers, to those integers. */
  lemma {:induction false} ParsedPlace(v: Json, d: nat, place: Place)
    requires Parse(v, d).Some?
    ensures HasPlace(Parse(v, d).value, place) <==> HasPlace(v, place)
    ensures HasPlace(v, place) ==>
              var before, after := At(v, place), At(Parse(v, d).value, place);
              if before.Str? && LooksLikeInteger(before.s, d)
              then after.Int? && IntValue(before.s) == Some(after.n)
              else SameHead(before, after)
    decreases |place|
  {
    if v.Arr? {
      ParsedItems(v.items, d);
    } else if v.Obj? {
      ParsedFields(v.fields, d);
    }
    if place != [] && place[0] < Width(v) {
      ParsedPlace(Child(v, place[0]), d, place[1..]);
    }
  }

  lemma {:induction false} ParsedItems(items: seq<Json>, d: nat)
    requires ParseItems(items, d).Some?
    ensures var r := ParseItems(items, d).value;
            |r| == |items| && forall i :: 0 <= i < |items| ==> Parse(items[i], d) == Some(r[i])
    decreases |items|
  {
    if items != [] {
      ParsedItems(items[1..], d);
    }
  }

  lemma {:induction false} ParsedFields(fields: seq<Field>, d: nat)
    requires ParseFields(fields, d).Some?
    ensures var r := ParseFields(fields, d).value;
            && |r| == |fields|
            && forall i :: 0 <= i < |fields| ==> r[i].key == fields[i].key && Parse(fields[i].value, d) == Some(r[i].value)
    decreases |fields|
  {
    if fields != [] {
      ParsedFields(fields[1..], d);
    }
  }
}
