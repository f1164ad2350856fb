/** `_clean_empty` (src/a2a/utils/helpers.py): pruning a tree to its normal form. */
module CleanEmpty {
  import opened Json

  /** Python's truth test. */
  predicate Truthy(v: Json) {
    match v
    case Null => false
    case Bool(b) => b
    case Int(n) => n != 0
    case Real(r) => r != 0.0
    case Str(s) => s != ""
    case Arr(items) => items != []
    case Obj(fields) => fields != []
  }

  function Clean(v: Json): Json
    decreases v, 1
  {
    match v
    case Arr(items) => Arr(CleanItems(items))
    case Obj(fields) => Obj(CleanFields(fields))
    case _ => if v == Str("") then Null else v
  }

  function CleanItems(items: seq<Json>): seq<Json>
    decreases items, 0
  {
    if items == [] then []
    else
      var first := Clean(items[0]);
      (if Truthy(first) then [first] else []) + CleanItems(items[1..])
  }

  function CleanFields(fields: seq<Field>): seq<Field>
    decreases fields, 0
  {
    if fields == [] then []
    else
      var first := Clean(fields[0].value);
      (if Truthy(first) then [Field(fields[0].key, first)] else []) + CleanFields(fields[1..])
  }

  /** No falsy value anywhere below the root. */
  predicate NoneFalsyBelow(v: Json)
    decreases v, 0
  {
    match v
    case Arr(items) => forall i :: 0 <= i < |items| ==> Kept(items[i])
    case Obj(fields) => forall i :: 0 <= i < |fields| ==> Kept(fields[i].value)
    case _ => true
  }

  predicate Kept(v: Json)
    decreases v, 1
  {
    Truthy(v) && NoneFalsyBelow(v)
  }

  predicate Normal(v: Json) {
    v != Str("") && NoneFalsyBelow(v)
  }

  lemma {:induction false} CleanIsNormal(v: Json)
    ensures Normal(Clean(v))
    decreases v, 1
  {
    match v
    case Arr(items) =>
      CleanItemsNormal(items);
    case Obj(fields) =>
      CleanFieldsNormal(fields);
    case _ =>
  }

  lemma {:induction false} CleanItemsNormal(items: seq<Json>)
    ensures forall i :: 0 <= i < |CleanItems(items)| ==> Kept(CleanItems(items)[i])
    decreases items, 0
  {
    if items != [] {
      CleanIsNormal(items[0]);
      CleanItemsNormal(items[1..]);
    }
  }

  lemma {:induction false} CleanFieldsNormal(fields: seq<Field>)
    ensures forall i :: 0 <= i < |CleanFields(fields)| ==> Kept(CleanFields(fields)[i].value)
    decreases fields, 0
  {
    if fields != [] {
      CleanIsNormal(fields[0].value);
      CleanFieldsNormal(fields[1..]);
    }
  }

  /** Only an empty string changes at the root, to None; an empty container stays. */
  lemma CleanedRoot(v: Json)
    ensures v.Arr? ==> Clean(v).Arr?
    ensures v.Obj? ==> Clean(v).Obj?
    ensures !v.Arr? && !v.Obj? ==> Clean(v) == if v == Str("") then Null else v
  {
  }

  /** The normal forms are exactly the values that cleaning leaves alone. */
  lemma {:induction false} FixedPointIffNormal(v: Json)
    ensures Clean(v) == v <==> Normal(v)
    decreases v, 1
  {
    CleanIsNormal(v);
    if Normal(v) {
      match v
      case Arr(items) =>
        NormalItemsFixed(items);
      case Obj(fields) =>
        NormalFieldsFixed(fields);
      case _ =>
    }
  }

  lemma {:induction false} NormalItemsFixed(items: seq<Json>)
    requires forall i :: 0 <= i < |items| ==> Kept(items[i])
    ensures CleanItems(items) == items
    decreases items, 0
  {
    if items != [] {
      FixedPointIffNormal(items[0]);
      NormalItemsFixed(items[1..]);
      assert items == [items[0]] + items[1..];
    }
  }

  lemma {:induction false} NormalFieldsFixed(fields: seq<Field>)
    requires forall i :: 0 <= i < |fields| ==> Kept(fields[i].value)
    ensures CleanFields(fields) == fields
    decreases fields, 0
  {
    if fields != [] {
      FixedPointIffNormal(fields[0].value);
      NormalFieldsFixed(fields[1..]);
      assert fields == [fields[0]] + fields[1..];
    }
  }

  lemma CleanIsIdempotent(v: Json)
    ensures Clean(Clean(v)) == Clean(v)
  {
    CleanIsNormal(v);
    FixedPointIffNormal(Clean(v));
  }

  // ---- Nothing of substance is lost ----

  datatype Leaf = Leaf(path: seq<string>, value: Json)

  /** The truthy scalars of a tree in order, each with the dictionary keys leading to it. */
  function Leaves(path: seq<string>, v: Json): seq<Leaf>
    decreases v, 1
  {
    match v
    case Arr(items) => ItemLeaves(path, items)
    case Obj(fields) => FieldLeaves(path, fields)
    case _ => if Truthy(v) then [Leaf(path, v)] else []
  }

  function ItemLeaves(path: seq<string>, items: seq<Json>): seq<Leaf>
    decreases items, 0
  {
    if items == [] then [] else Leaves(path, items[0]) + ItemLeaves(path, items[1..])
  }

  function FieldLeaves(path: seq<string>, fields: seq<Field>): seq<Leaf>
    decreases fields, 0
  {
    if fields == [] then []
    else Leaves(path + [fields[0].key], fields[0].value) + FieldLeaves(path, fields[1..])
  }

  /** Every truthy scalar survives, under the same keys and in the same order, and nothing
      is added. */
  lemma {:induction false} CleanKeepsLeaves(path: seq<string>, v: Json)
    ensures Leaves(path, Clean(v)) == Leaves(path, v)
    decreases v, 1
  {
    match v
    case Arr(items) =>
      CleanKeepsItemLeaves(path, items);
    case Obj(fields) =>
      CleanKeepsFieldLeaves(path, fields);
    case _ =>
  }

  lemma {:induction false} CleanKeepsItemLeaves(path: seq<string>, items: seq<Json>)
    ensures ItemLeaves(path, CleanItems(items)) == ItemLeaves(path, items)
    decreases items, 0
  {
    if items != [] {
      CleanKeepsLeaves(path, items[0]);
      CleanKeepsItemLeaves(path, items[1..]);
      var first, rest := Clean(items[0]), CleanItems(items[1..]);
      if Truthy(first) {
        assert ([first] + rest)[1..] == rest;
      } else {
        assert [] + rest == rest && Leaves(path, first) == [];
      }
    }
  }

  lemma {:induction false} CleanKeepsFieldLeaves(path: seq<string>, fields: seq<Field>)
    ensures FieldLeaves(path, CleanFields(fields)) == FieldLeaves(path, fields)
    decreases fields, 0
  {
    if fields != [] {
      var inner := path + [fields[0].key];
      CleanKeepsLeaves(inner, fields[0].value);
      CleanKeepsFieldLeaves(path, fields[1..]);
      var first, rest := Clean(fields[0].value), CleanFields(fields[1..]);
      if Truthy(first) {
        assert ([Field(fields[0].key, first)] + rest)[1..] == rest;
      } else {
        assert [] + rest == rest && Leaves(inner, first) == [];
      }
    }
  }

  /** A container survives cleaning as truthy exactly when it holds a truthy scalar. */
  lemma {:induction false} TruthyIffLeaves(path: seq<string>, v: Json)
    ensures Truthy(Clean(v)) <==> Leaves(path, v) != []
    decreases v, 1
  {
    match v
    case Arr(items) =>
      ItemsTruthyIffLeaves(path, items);
    case Obj(fields) =>
      FieldsTruthyIffLeaves(path, fields);
    case _ =>
  }

  lemma {:induction false} ItemsTruthyIffLeaves(path: seq<string>, items: seq<Json>)
    ensures CleanItems(items) != [] <==> ItemLeaves(path, items) != []
    decreases items, 0
  {
    if items != [] {
      TruthyIffLeaves(path, items[0]);
      ItemsTruthyIffLeaves(path, items[1..]);
    }
  }

  lemma {:induction false} FieldsTruthyIffLeaves(path: seq<string>, fields: seq<Field>)
    ensures CleanFields(fields) != [] <==> FieldLeaves(path, fields) != []
    decreases fields, 0
  {
    if fields != [] {
      TruthyIffLeaves(path + [fields[0].key], fields[0].value);
      FieldsTruthyIffLeaves(path, fields[1..]);
    }
  }

  // ---- Which elements survive, and where ----

  predicate HasLeaf(v: Json) {
    Leaves([], v) != []
  }

  /** The positions, in order, of the elements that hold a truthy scalar. */
  function Survivors(items: seq<Json>): (idx: seq<nat>)
    ensures forall k :: 0 <= k < |idx| ==> idx[k] < |items| && HasLeaf(items[idx[k]])
    ensures forall j, k :: 0 <= j < k < |idx| ==> idx[j] < idx[k]
    ensures forall i :: 0 <= i < |items| && HasLeaf(items[i]) ==> i in idx
  {
    if items == [] then []
    else
      var front := items[..|items| - 1];
      Survivors(front) + (if HasLeaf(items[|items| - 1]) then [|items| - 1] else [])
  }

  lemma {:induction false} CleanItemsSnoc(items: seq<Json>, last: Json)
    ensures CleanItems(items + [last]) == CleanItems(items) + (if Truthy(Clean(last)) then [Clean(last)] else [])
    decreases |items|
  {
    if items == [] {
      assert [last][1..] == [] && items + [last] == [last];
    } else {
      var all, rest := items + [last], items[1..];
      assert all[0] == items[0] && all[1..] == rest + [last];
      CleanItemsSnoc(rest, last);
      var first := if Truthy(Clean(items[0])) then [Clean(items[0])] else [];
      var end := if Truthy(Clean(last)) then [Clean(last)] else [];
      assert CleanItems(all) == first + (CleanItems(rest) + end) == (first + CleanItems(rest)) + end;
    }
  }

  /** A cleaned list is the list of the cleaned elements that hold a truthy scalar, each by
      itself and in their order: none is merged, split, moved or repeated. */
  lemma {:induction false} CleanItemsAreSurvivors(items: seq<Json>)
    ensures var idx := Survivors(items);
            && |CleanItems(items)| == |idx|
            && forall k :: 0 <= k < |idx| ==> CleanItems(items)[k] == Clean(items[idx[k]])
    decreases |items|
  {
    if items != [] {
      var front, last := items[..|items| - 1], items[|items| - 1];
      assert items == front + [last];
      CleanItemsAreSurvivors(front);
      CleanItemsSnoc(front, last);
      TruthyIffLeaves([], last);
    }
  }

  function Values(fields: seq<Field>): (items: seq<Json>)
    ensures |items| == |fields| && forall i :: 0 <= i < |fields| ==> items[i] == fields[i].value
  {
    seq(|fields|, i requires 0 <= i < |fields| => fields[i].value)
  }

  lemma {:induction false} CleanFieldsSnoc(fields: seq<Field>, last: Field)
    ensures CleanFields(fields + [last]) ==
            CleanFields(fields) + (if Truthy(Clean(last.value)) then [Field(last.key, Clean(last.value))] else [])
    decreases |fields|
  {
    if fields == [] {
      assert [last][1..] == [] && fields + [last] == [last];
    } else {
      var all, rest := fields + [last], fields[1..];
      assert all[0] == fields[0] && all[1..] == rest + [last];
      CleanFieldsSnoc(rest, last);
      var v := Clean(fields[0].value);
      var first := if Truthy(v) then [Field(fields[0].key, v)] else [];
      var end := if Truthy(Clean(last.value)) then [Field(last.key, Clean(last.value))] else [];
      assert CleanFields(all) == first + (CleanFields(rest) + end) == (first + CleanFields(rest)) + end;
    }
  }

  /** And a cleaned dictionary has the surviving entries under their own keys. */
  lemma {:induction false} CleanFieldsAreSurvivors(fields: seq<Field>)
    ensures var idx := Survivors(Values(fields));
            && |CleanFields(fields)| == |idx|
            && forall k :: 0 <= k < |idx| ==>
                 CleanFields(fields)[k] == Field(fields[idx[k]].key, Clean(fields[idx[k]].value))
    decreases |fields|
  {
    if fields != [] {
      var front, last := fields[..|fields| - 1], fields[|fields| - 1];
      assert fields == front + [last];
      assert Values(fields)[..|fields| - 1] == Values(front);
      CleanFieldsAreSurvivors(front);
      CleanFieldsSnoc(front, last);
      TruthyIffLeaves([], last.value);
    }
  }
}
