/**
 * src/morph/auth.ts, `sortObjectDeep`: the canonical form both sides of the HMAC sign.
 *
 * An object is the sequence of its properties in JavaScript's enumeration order: integer-like keys
 * first, ascending, then the others in the order in which they were added. Assigning to the key __proto__
 * creates no property: it calls the setter that objects inherit, so the canonical form never has that key.
 */
module CanonicalJson {
  import opened Numerals

  datatype Json =
    | Null | Bool(b: bool) | Num(n: real) | Str(s: string)
    | Arr(items: seq<Json>)
    | Obj(fields: seq<Field>)

  datatype Field = Field(key: string, val: Json)

  // ---------------------------------------------------------------- Array.prototype.sort on strings

  predicate StrLeq(a: string, b: string) {
    a == "" || (b != "" && (a[0] < b[0] || (a[0] == b[0] && StrLeq(a[1..], b[1..]))))
  }

  lemma {:induction false} StrTotal(a: string, b: string)
    ensures StrLeq(a, b) || StrLeq(b, a)
    ensures StrLeq(a, b) && StrLeq(b, a) ==> a == b
  {
    if a != "" && b != "" && a[0] == b[0] {
      StrTotal(a[1..], b[1..]);
      assert a == [a[0]] + a[1..] && b == [b[0]] + b[1..];
    }
  }

  lemma {:induction false} StrTransitive(a: string, b: string, c: string)
    requires StrLeq(a, b) && StrLeq(b, c)
    ensures StrLeq(a, c)
  {
    if a != "" && a[0] == b[0] == c[0] {
      StrTransitive(a[1..], b[1..], c[1..]);
    }
  }

  ghost predicate Distinct(ks: seq<string>) {
    forall i, j :: 0 <= i < j < |ks| ==> ks[i] != ks[j]
  }

  ghost predicate Sorted(ks: seq<string>) {
    forall i, j :: 0 <= i < j < |ks| ==> StrLeq(ks[i], ks[j])
  }

  function InsertKey(k: string, ks: seq<string>): seq<string> {
    if ks == [] || StrLeq(k, ks[0]) then [k] + ks else [ks[0]] + InsertKey(k, ks[1..])
  }

  function SortKeys(ks: seq<string>): seq<string> {
    if ks == [] then [] else InsertKey(ks[0], SortKeys(ks[1..]))
  }

  ghost function Elements(ks: seq<string>): set<string> {
    set i | 0 <= i < |ks| :: ks[i]
  }

  lemma ElementsCons(k: string, ks: seq<string>)
    ensures Elements([k] + ks) == {k} + Elements(ks)
  {
    var r := [k] + ks;
    forall x | x in {k} + Elements(ks) ensures x in Elements(r) {
      if x == k {
        assert r[0] == x;
      } else {
        var i :| 0 <= i < |ks| && ks[i] == x;
        assert r[i + 1] == x;
      }
    }
  }

  lemma ElementsEmpty(ks: seq<string>)
    ensures ks == [] <==> Elements(ks) == {}
  {
    if ks != [] {
      assert ks[0] in Elements(ks);
    }
  }

  lemma HeadApart(k: string, ks: seq<string>)
    ensures Distinct([k] + ks) <==> Distinct(ks) && k !in Elements(ks)
  {
    var r := [k] + ks;
    assert r[0] == k && r[1..] == ks;
    forall i | 0 <= i < |ks| ensures r[i + 1] == ks[i] && ks[i] in Elements(ks) {
    }
    if Distinct(r) {
      forall i, j | 0 <= i < j < |ks| ensures ks[i] != ks[j] {
        assert r[i + 1] != r[j + 1];
      }
    }
  }

  lemma {:induction false} InsertKeyAdds(k: string, ks: seq<string>)
    ensures Elements(InsertKey(k, ks)) == {k} + Elements(ks)
    ensures Distinct(ks) && k !in Elements(ks) ==> Distinct(InsertKey(k, ks))
  {
    hide Distinct, Elements, StrLeq;
    if InsertKey(k, ks) == [k] + ks {
      ElementsCons(k, ks);
      HeadApart(k, ks);
    } else {
      assert ks == [ks[0]] + ks[1..];
      var t := InsertKey(k, ks[1..]);
      InsertKeyAdds(k, ks[1..]);
      ElementsCons(ks[0], ks[1..]);
      ElementsCons(ks[0], t);
      HeadApart(ks[0], ks[1..]);
      HeadApart(ks[0], t);
    }
  }

  lemma HeadLeast(k: string, ks: seq<string>)
    requires Sorted(ks) && forall x :: x in Elements(ks) ==> StrLeq(k, x)
    ensures Sorted([k] + ks)
  {
    var r := [k] + ks;
    forall i, j | 0 <= i < j < |r| ensures StrLeq(r[i], r[j]) {
      assert r[j] == ks[j - 1] && ks[j - 1] in Elements(ks);
    }
  }

  lemma {:induction false} InsertKeySorts(k: string, ks: seq<string>)
    requires Sorted(ks)
    ensures Sorted(InsertKey(k, ks))
  {
    if ks != [] {
      var h, rest := ks[0], ks[1..];
      forall x | x in Elements(rest) ensures StrLeq(h, x) {
        var i :| 0 <= i < |rest| && rest[i] == x;
        assert ks[i + 1] == x;
      }
      assert ks == [h] + rest;
      ElementsCons(h, rest);
      if StrLeq(k, h) {
        forall x | x in Elements(ks) ensures StrLeq(k, x) {
          if x != h {
            StrTransitive(k, h, x);
          }
        }
        HeadLeast(k, ks);
      } else {
        StrTotal(k, h);
        InsertKeySorts(k, rest);
        InsertKeyAdds(k, rest);
        HeadLeast(h, InsertKey(k, rest));
      }
    }
  }

  lemma {:induction false} SortKeysSorts(ks: seq<string>)
    ensures Sorted(SortKeys(ks)) && Elements(SortKeys(ks)) == Elements(ks)
    ensures Distinct(ks) ==> Distinct(SortKeys(ks))
  {
    if ks != [] {
      SortKeysSorts(ks[1..]);
      InsertKeySorts(ks[0], SortKeys(ks[1..]));
      InsertKeyAdds(ks[0], SortKeys(ks[1..]));
      ElementsCons(ks[0], ks[1..]);
      assert [ks[0]] + ks[1..] == ks;
    }
  }

  /** There is one way to sort a set of keys. */
  lemma {:induction false} SortedUnique(a: seq<string>, b: seq<string>)
    requires Sorted(a) && Sorted(b) && Distinct(a) && Distinct(b) && Elements(a) == Elements(b)
    ensures a == b
  {
    ElementsEmpty(a);
    ElementsEmpty(b);
    if a != [] {
      assert a[0] in Elements(b) && b[0] in Elements(a);
      StrTotal(a[0], b[0]);
      assert a[0] == b[0];
      assert Elements(a[1..]) == Elements(a) - {a[0]};
      assert Elements(b[1..]) == Elements(b) - {b[0]};
      SortedUnique(a[1..], b[1..]);
    }
  }

  // ---------------------------------------------------------------- properties

  function Keys(fs: seq<Field>): seq<string> {
    seq(|fs|, i requires 0 <= i < |fs| => fs[i].key)
  }

  function Lookup(fs: seq<Field>, k: string): Json
    requires k in Keys(fs)
  {
    if fs[0].key == k then fs[0].val
    else
      assert Keys(fs[1..]) == Keys(fs)[1..];
      Lookup(fs[1..], k)
  }

  /** An array index: it is spelled as the number it denotes, below 2^32 - 1. */
  predicate IsIndex(k: string) {
    k != "" && IsNumeral(k, Dec) && (k == "0" || k[0] != '0') && Value(k, Dec) < 0xFFFF_FFFF
  }

  /** A new property goes behind the smaller indices if its key is an index, and else to the end. */
  function InsertNew(fs: seq<Field>, f: Field): seq<Field> {
    if fs == [] then [f]
    else if IsIndex(f.key) && (!IsIndex(fs[0].key) || Value(f.key, Dec) < Value(fs[0].key, Dec)) then [f] + fs
    else [fs[0]] + InsertNew(fs[1..], f)
  }

  function Overwrite(fs: seq<Field>, f: Field): seq<Field> {
    seq(|fs|, i requires 0 <= i < |fs| => if fs[i].key == f.key then f else fs[i])
  }

  const PROTO := "__proto__"

  /** `acc[key] = val` */
  function SetProperty(fs: seq<Field>, f: Field): seq<Field> {
    if f.key == PROTO then fs else if f.key in Keys(fs) then Overwrite(fs, f) else InsertNew(fs, f)
  }

  /** The properties of fs named in ks, added one by one in that order. */
  function Assemble(ks: seq<string>, fs: seq<Field>): seq<Field>
    requires forall i :: 0 <= i < |ks| ==> ks[i] in Keys(fs)
  {
    if ks == [] then []
    else
      var k := ks[|ks| - 1];
      SetProperty(Assemble(ks[..|ks| - 1], fs), Field(k, Lookup(fs, k)))
  }

  lemma SortedKeysPresent(fs: seq<Field>)
    ensures forall i :: 0 <= i < |SortKeys(Keys(fs))| ==> SortKeys(Keys(fs))[i] in Keys(fs)
  {
    SortKeysSorts(Keys(fs));
    forall i | 0 <= i < |SortKeys(Keys(fs))| ensures SortKeys(Keys(fs))[i] in Keys(fs) {
      assert SortKeys(Keys(fs))[i] in Elements(Keys(fs));
    }
  }

  function Rebuild(fs: seq<Field>): seq<Field> {
    SortedKeysPresent(fs);
    Assemble(SortKeys(Keys(fs)), fs)
  }

  function SortObjectDeep(v: Json): Json
    decreases v
  {
    match v
    case Arr(items) => Arr(seq(|items|, i requires 0 <= i < |items| => SortObjectDeep(items[i])))
    case Obj(fields) =>
      Obj(Rebuild(seq(|fields|, i requires 0 <= i < |fields| => Field(fields[i].key, SortObjectDeep(fields[i].val)))))
    case _ => v
  }

  // ---------------------------------------------------------------- objects as maps

  /** The same JSON value up to the order of the keys of objects, at any depth. */
  ghost predicate Same(a: Json, b: Json)
    decreases a
  {
    match (a, b)
    case (Arr(x), Arr(y)) => |x| == |y| && forall i :: 0 <= i < |x| ==> Same(x[i], y[i])
    case (Obj(x), Obj(y)) =>
      && Elements(Keys(x)) == Elements(Keys(y))
      && forall i, j :: 0 <= i < |x| && 0 <= j < |y| && x[i].key == y[j].key ==> Same(x[i].val, y[j].val)
    case _ => a == b
  }

  /** No object repeats a key, at any depth. */
  ghost predicate WellFormed(v: Json)
    decreases v
  {
    match v
    case Arr(items) => forall i :: 0 <= i < |items| ==> WellFormed(items[i])
    case Obj(fs) => Distinct(Keys(fs)) && forall i :: 0 <= i < |fs| ==> WellFormed(fs[i].val)
    case _ => true
  }

  ghost function AsMap(fs: seq<Field>): map<string, Json> {
    map k | k in Elements(Keys(fs)) :: Lookup(fs, k)
  }

  lemma {:induction false} LookupAt(fs: seq<Field>, i: nat)
    requires Distinct(Keys(fs)) && i < |fs|
    ensures fs[i].key in Keys(fs) && Lookup(fs, fs[i].key) == fs[i].val
    ensures fs[i].key in AsMap(fs) && AsMap(fs)[fs[i].key] == fs[i].val
  {
    assert Keys(fs)[i] == fs[i].key;
    assert fs[i].key in Elements(Keys(fs));
    if i > 0 {
      assert Keys(fs)[0] != Keys(fs)[i];
      assert Keys(fs[1..]) == Keys(fs)[1..];
      LookupAt(fs[1..], i - 1);
    }
  }

  /** A sequence of properties with these keys and values is this map. */
  lemma IsMap(fs: seq<Field>, m: map<string, Json>)
    requires Distinct(Keys(fs)) && Elements(Keys(fs)) == m.Keys
    requires forall i :: 0 <= i < |fs| ==> fs[i].key in m && m[fs[i].key] == fs[i].val
    ensures AsMap(fs) == m
  {
    forall k | k in AsMap(fs) ensures AsMap(fs)[k] == m[k] {
      var i :| 0 <= i < |Keys(fs)| && Keys(fs)[i] == k;
      LookupAt(fs, i);
    }
  }

  lemma {:induction false} InsertNewFields(fs: seq<Field>, f: Field)
    ensures forall i :: 0 <= i < |InsertNew(fs, f)| ==> InsertNew(fs, f)[i] == f || InsertNew(fs, f)[i] in fs
  {
    hide IsIndex;
    if fs != [] {
      InsertNewFields(fs[1..], f);
    }
  }

  lemma {:induction false} InsertNewAdds(fs: seq<Field>, f: Field)
    requires Distinct(Keys(fs)) && f.key !in Elements(Keys(fs))
    ensures Distinct(Keys(InsertNew(fs, f)))
    ensures Elements(Keys(InsertNew(fs, f))) == Elements(Keys(fs)) + {f.key}
  {
    hide IsIndex, Distinct, Elements;
    var r := InsertNew(fs, f);
    if r == [f] + fs {
      assert Keys(r) == [f.key] + Keys(fs);
      ElementsCons(f.key, Keys(fs));
      HeadApart(f.key, Keys(fs));
    } else {
      var k, rest := fs[0].key, fs[1..];
      var t := InsertNew(rest, f);
      assert Keys(fs) == [k] + Keys(rest);
      assert Keys(r) == [k] + Keys(t);
      ElementsCons(k, Keys(rest));
      ElementsCons(k, Keys(t));
      HeadApart(k, Keys(rest));
      HeadApart(k, Keys(t));
      InsertNewAdds(rest, f);
    }
  }

  lemma SetPropertyMap(fs: seq<Field>, f: Field)
    requires Distinct(Keys(fs))
    ensures Distinct(Keys(SetProperty(fs, f)))
    ensures AsMap(SetProperty(fs, f)) == if f.key == PROTO then AsMap(fs) else AsMap(fs)[f.key := f.val]
  {
    var r := SetProperty(fs, f);
    if f.key == PROTO {
      return;
    }
    forall i | 0 <= i < |fs| ensures fs[i].key in AsMap(fs) && AsMap(fs)[fs[i].key] == fs[i].val {
      LookupAt(fs, i);
    }
    if f.key in Keys(fs) {
      assert Keys(r) == Keys(fs);
      assert f.key in Elements(Keys(fs));
    } else {
      InsertNewAdds(fs, f);
      InsertNewFields(fs, f);
      forall i | 0 <= i < |fs| ensures fs[i].key != f.key {
        assert Keys(fs)[i] == fs[i].key;
      }
    }
    IsMap(r, AsMap(fs)[f.key := f.val]);
  }

  ghost function Restrict(m: map<string, Json>, ks: set<string>): map<string, Json> {
    map k | k in ks && k in m :: m[k]
  }

  lemma RestrictMore(m: map<string, Json>, ks: set<string>, k: string)
    requires k in m
    ensures Restrict(m, ks + {k} - {PROTO}) ==
            if k == PROTO then Restrict(m, ks - {PROTO}) else Restrict(m, ks - {PROTO})[k := m[k]]
  {
  }

  lemma {:induction false} AssembleMap(ks: seq<string>, fs: seq<Field>)
    requires Distinct(Keys(fs)) && forall i :: 0 <= i < |ks| ==> ks[i] in Keys(fs)
    ensures Distinct(Keys(Assemble(ks, fs)))
    ensures AsMap(Assemble(ks, fs)) == Restrict(AsMap(fs), Elements(ks) - {PROTO})
  {
    hide SetProperty, Restrict;
    if ks == [] {
      assert Keys(Assemble(ks, fs)) == [];
      RestrictNone(AsMap(fs));
    } else {
      var init, k := ks[..|ks| - 1], ks[|ks| - 1];
      AssembleMap(init, fs);
      SetPropertyMap(Assemble(init, fs), Field(k, Lookup(fs, k)));
      assert Elements(ks) == Elements(init) + {k};
      var j :| 0 <= j < |Keys(fs)| && Keys(fs)[j] == k;
      LookupAt(fs, j);
      RestrictMore(AsMap(fs), Elements(init), k);
    }
  }

  lemma RestrictNone(m: map<string, Json>)
    ensures Restrict(m, {} - {PROTO}) == map[] && Restrict(m, Elements([]) - {PROTO}) == map[]
  {
  }

  /** Rebuilding keeps the object's meaning, but for that key. */
  lemma RebuildMap(fs: seq<Field>)
    requires Distinct(Keys(fs))
    ensures Distinct(Keys(Rebuild(fs))) && AsMap(Rebuild(fs)) == AsMap(fs) - {PROTO}
  {
    SortKeysSorts(Keys(fs));
    SortedKeysPresent(fs);
    AssembleMap(SortKeys(Keys(fs)), fs);
    assert Restrict(AsMap(fs), Elements(Keys(fs)) - {PROTO}) == AsMap(fs) - {PROTO};
  }

  /** Rebuilding depends on nothing but the object's meaning: its map has one enumeration. */
  lemma RebuildSame(x: seq<Field>, y: seq<Field>)
    requires Distinct(Keys(x)) && Distinct(Keys(y)) && AsMap(x) - {PROTO} == AsMap(y) - {PROTO}
    ensures Rebuild(x) == Rebuild(y)
  {
    hide Rebuild, Lookup, Enumerated;
    var x', y' := Rebuild(x), Rebuild(y);
    RebuildMap(x);
    RebuildMap(y);
    RebuildEnumerated(x);
    RebuildEnumerated(y);
    assert AsMap(x').Keys == Elements(Keys(x')) && AsMap(y').Keys == Elements(Keys(y'));
    EnumeratedUnique(Keys(x'), Keys(y'));
    assert |x'| == |Keys(x')| == |Keys(y')| == |y'|;
    forall i | 0 <= i < |x'| ensures x'[i] == y'[i] {
      assert Keys(x')[i] == Keys(y')[i];
      LookupAt(x', i);
      LookupAt(y', i);
    }
  }

  // ---------------------------------------------------------------- the canonical form

  function SortValues(fs: seq<Field>): seq<Field> {
    seq(|fs|, i requires 0 <= i < |fs| => Field(fs[i].key, SortObjectDeep(fs[i].val)))
  }

  lemma SortValuesKeys(fs: seq<Field>)
    ensures Keys(SortValues(fs)) == Keys(fs)
    ensures SortObjectDeep(Obj(fs)) == Obj(Rebuild(SortValues(fs)))
  {
    assert SortValues(fs) == seq(|fs|, i requires 0 <= i < |fs| => Field(fs[i].key, SortObjectDeep(fs[i].val)));
  }

  function DropProto(fs: seq<Field>): seq<Field> {
    if fs == [] then [] else (if fs[0].key == PROTO then [] else [fs[0]]) + DropProto(fs[1..])
  }

  /** The value without that key, at any depth. */
  function Strip(v: Json): Json
    decreases v
  {
    match v
    case Arr(items) => Arr(seq(|items|, i requires 0 <= i < |items| => Strip(items[i])))
    case Obj(fields) =>
      Obj(DropProto(seq(|fields|, i requires 0 <= i < |fields| => Field(fields[i].key, Strip(fields[i].val)))))
    case _ => v
  }

  /** The key is nowhere in the value. */
  predicate Clean(v: Json)
    decreases v
  {
    match v
    case Arr(items) => forall i :: 0 <= i < |items| ==> Clean(items[i])
    case Obj(fs) => forall i :: 0 <= i < |fs| ==> fs[i].key != PROTO && Clean(fs[i].val)
    case _ => true
  }

  /** The same JSON value up to the order of keys and to the key that is dropped. */
  ghost predicate Alike(a: Json, b: Json) {
    Same(Strip(a), Strip(b))
  }

  function StripValues(fs: seq<Field>): seq<Field> {
    seq(|fs|, i requires 0 <= i < |fs| => Field(fs[i].key, Strip(fs[i].val)))
  }

  lemma StripValuesKeys(fs: seq<Field>)
    ensures Keys(StripValues(fs)) == Keys(fs)
    ensures Strip(Obj(fs)) == Obj(DropProto(StripValues(fs)))
  {
    assert StripValues(fs) == seq(|fs|, i requires 0 <= i < |fs| => Field(fs[i].key, Strip(fs[i].val)));
  }

  lemma {:induction false} DropProtoFields(fs: seq<Field>)
    ensures forall i :: 0 <= i < |DropProto(fs)| ==> DropProto(fs)[i] in fs
    ensures Elements(Keys(DropProto(fs))) == Elements(Keys(fs)) - {PROTO}
    ensures Distinct(Keys(fs)) ==> Distinct(Keys(DropProto(fs)))
  {
    hide Elements, Distinct;
    if fs == [] {
      assert Keys(fs) == [] && Keys(DropProto(fs)) == [];
      ElementsEmpty([]);
    } else {
      var k, rest, drop := fs[0].key, fs[1..], DropProto(fs[1..]);
      DropProtoFields(rest);
      assert Keys(fs) == [k] + Keys(rest);
      ElementsCons(k, Keys(rest));
      HeadApart(k, Keys(rest));
      if k == PROTO {
        assert DropProto(fs) == drop;
      } else {
        assert Keys(DropProto(fs)) == [k] + Keys(drop);
        ElementsCons(k, Keys(drop));
        HeadApart(k, Keys(drop));
      }
    }
  }

  lemma DropProtoMap(fs: seq<Field>)
    requires Distinct(Keys(fs))
    ensures Distinct(Keys(DropProto(fs))) && AsMap(DropProto(fs)) == AsMap(fs) - {PROTO}
  {
    hide Lookup, DropProto;
    var r := DropProto(fs);
    DropProtoFields(fs);
    assert AsMap(fs).Keys == Elements(Keys(fs));
    forall i | 0 <= i < |r| ensures r[i].key in AsMap(fs) - {PROTO} && (AsMap(fs) - {PROTO})[r[i].key] == r[i].val {
      var j :| 0 <= j < |fs| && fs[j] == r[i];
      LookupAt(fs, j);
      assert Keys(r)[i] in Elements(Keys(r));
    }
    IsMap(r, AsMap(fs) - {PROTO});
  }

  /** What an object holds under a key is the value of one of its properties. */
  lemma PropertyOf(fs: seq<Field>, k: string) returns (i: nat)
    requires Distinct(Keys(fs)) && k in AsMap(fs)
    ensures i < |fs| && fs[i].key == k && fs[i].val == AsMap(fs)[k]
  {
    i :| 0 <= i < |Keys(fs)| && Keys(fs)[i] == k;
    LookupAt(fs, i);
  }

  /** Both ways of treating the values keep the keys. */
  lemma ValuesOf(fs: seq<Field>)
    requires Distinct(Keys(fs))
    ensures AsMap(SortValues(fs)).Keys == AsMap(fs).Keys && AsMap(StripValues(fs)).Keys == AsMap(fs).Keys
    ensures forall k :: k in AsMap(fs) ==> AsMap(SortValues(fs))[k] == SortObjectDeep(AsMap(fs)[k])
    ensures forall k :: k in AsMap(fs) ==> AsMap(StripValues(fs))[k] == Strip(AsMap(fs)[k])
  {
    hide Lookup, SortObjectDeep, Strip;
    SortValuesKeys(fs);
    StripValuesKeys(fs);
    forall k | k in AsMap(fs)
      ensures AsMap(SortValues(fs))[k] == SortObjectDeep(AsMap(fs)[k]) && AsMap(StripValues(fs))[k] == Strip(AsMap(fs)[k])
    {
      var i := PropertyOf(fs, k);
      LookupAt(SortValues(fs), i);
      LookupAt(StripValues(fs), i);
    }
  }

  /** The values that two objects have under their common keys, but for the one that is dropped, are related by R. */
  ghost predicate OnCommonKeys(x: seq<Field>, y: seq<Field>, R: (Json, Json) -> bool) {
    forall k :: k in AsMap(x) && k in AsMap(y) && k != PROTO ==> R(AsMap(x)[k], AsMap(y)[k])
  }

  ghost predicate SameKeys(x: seq<Field>, y: seq<Field>) {
    AsMap(x).Keys - {PROTO} == AsMap(y).Keys - {PROTO}
  }

  /** Objects have one canonical form when they have the same keys with values of the same canonical forms. */
  lemma CanonicalObjects(x: seq<Field>, y: seq<Field>)
    requires Distinct(Keys(x)) && Distinct(Keys(y))
    ensures SortObjectDeep(Obj(x)) == SortObjectDeep(Obj(y)) <==>
              SameKeys(x, y) && OnCommonKeys(x, y, (a, b) => SortObjectDeep(a) == SortObjectDeep(b))
  {
    hide Lookup, SortObjectDeep, Rebuild, AsMap;
    var x', y' := SortValues(x), SortValues(y);
    SortValuesKeys(x);
    SortValuesKeys(y);
    ValuesOf(x);
    ValuesOf(y);
    RebuildMap(x');
    RebuildMap(y');
    if AsMap(x') - {PROTO} == AsMap(y') - {PROTO} {
      RebuildSame(x', y');
      forall k | k in AsMap(x) && k in AsMap(y) && k != PROTO
        ensures SortObjectDeep(AsMap(x)[k]) == SortObjectDeep(AsMap(y)[k])
      {
        assert (AsMap(x') - {PROTO})[k] == (AsMap(y') - {PROTO})[k];
      }
      assert SameKeys(x, y) by {
        assert AsMap(x').Keys - {PROTO} == (AsMap(x') - {PROTO}).Keys == (AsMap(y') - {PROTO}).Keys;
      }
    }
  }

  /** They are alike when they have the same keys with values that are alike. */
  lemma AlikeObjects(x: seq<Field>, y: seq<Field>)
    requires Distinct(Keys(x)) && Distinct(Keys(y))
    ensures Alike(Obj(x), Obj(y)) <==> SameKeys(x, y) && OnCommonKeys(x, y, (a, b) => Alike(a, b))
  {
    hide Lookup, Strip, Same, DropProto, AsMap;
    StrippedMap(x);
    StrippedMap(y);
    SameObjects(DropProto(StripValues(x)), DropProto(StripValues(y)));
  }

  lemma StrippedMap(fs: seq<Field>)
    requires Distinct(Keys(fs))
    ensures Strip(Obj(fs)) == Obj(DropProto(StripValues(fs))) && Distinct(Keys(DropProto(StripValues(fs))))
    ensures AsMap(DropProto(StripValues(fs))).Keys == AsMap(fs).Keys - {PROTO}
    ensures forall k :: k in AsMap(fs) && k != PROTO ==> AsMap(DropProto(StripValues(fs)))[k] == Strip(AsMap(fs)[k])
  {
    hide Lookup, Strip, DropProto, AsMap;
    StripValuesKeys(fs);
    ValuesOf(fs);
    DropProtoMap(StripValues(fs));
  }

  /** Two values have one canonical form exactly when they differ, at any depth, only by the order of keys and by
      what they have under the key that is dropped. */
  lemma {:induction false} CanonicalIff(a: Json, b: Json)
    requires WellFormed(a) && WellFormed(b)
    ensures SortObjectDeep(a) == SortObjectDeep(b) <==> Alike(a, b)
    decreases a
  {
    match (a, b)
    case (Arr(x), Arr(y)) =>
      if |x| == |y| {
        forall i | 0 <= i < |x| ensures SortObjectDeep(x[i]) == SortObjectDeep(y[i]) <==> Alike(x[i], y[i]) {
          CanonicalIff(x[i], y[i]);
        }
        CanonicalArrays(x, y);
      } else {
        assert |SortObjectDeep(a).items| == |x| && |SortObjectDeep(b).items| == |y|;
        assert |Strip(a).items| == |x| && |Strip(b).items| == |y|;
      }
    case (Obj(x), Obj(y)) =>
      forall i, j | 0 <= i < |x| && 0 <= j < |y|
        ensures SortObjectDeep(x[i].val) == SortObjectDeep(y[j].val) <==> Alike(x[i].val, y[j].val)
      {
        CanonicalIff(x[i].val, y[j].val);
      }
      CanonicalFields(x, y);
    case _ =>
  }

  lemma CanonicalArrays(x: seq<Json>, y: seq<Json>)
    requires |x| == |y|
    requires forall i :: 0 <= i < |x| ==> (SortObjectDeep(x[i]) == SortObjectDeep(y[i]) <==> Alike(x[i], y[i]))
    ensures SortObjectDeep(Arr(x)) == SortObjectDeep(Arr(y)) <==> Alike(Arr(x), Arr(y))
  {
    var x', y' := SortObjectDeep(Arr(x)).items, SortObjectDeep(Arr(y)).items;
    if SortObjectDeep(Arr(x)) == SortObjectDeep(Arr(y)) {
      forall i | 0 <= i < |x| ensures Alike(x[i], y[i]) {
        assert x'[i] == y'[i];
      }
    }
    if Alike(Arr(x), Arr(y)) {
      forall i | 0 <= i < |x| ensures Alike(x[i], y[i]) {
        assert Same(Strip(Arr(x)).items[i], Strip(Arr(y)).items[i]);
      }
    }
  }

  lemma CanonicalFields(x: seq<Field>, y: seq<Field>)
    requires Distinct(Keys(x)) && Distinct(Keys(y))
    requires forall i, j :: 0 <= i < |x| && 0 <= j < |y| ==>
               (SortObjectDeep(x[i].val) == SortObjectDeep(y[j].val) <==> Alike(x[i].val, y[j].val))
    ensures SortObjectDeep(Obj(x)) == SortObjectDeep(Obj(y)) <==> Alike(Obj(x), Obj(y))
  {
    hide SortObjectDeep, Alike, AsMap;
    CanonicalObjects(x, y);
    AlikeObjects(x, y);
    forall k | k in AsMap(x) && k in AsMap(y)
      ensures SortObjectDeep(AsMap(x)[k]) == SortObjectDeep(AsMap(y)[k]) <==> Alike(AsMap(x)[k], AsMap(y)[k])
    {
      var i := PropertyOf(x, k);
      var j := PropertyOf(y, k);
    }
  }

  /** Objects are the same when they have the same keys with the same values. */
  lemma SameObjects(x: seq<Field>, y: seq<Field>)
    requires Distinct(Keys(x)) && Distinct(Keys(y))
    ensures Same(Obj(x), Obj(y)) <==>
              AsMap(x).Keys == AsMap(y).Keys && forall k :: k in AsMap(x) && k in AsMap(y) ==> Same(AsMap(x)[k], AsMap(y)[k])
  {
    hide Lookup;
    assert AsMap(x).Keys == Elements(Keys(x)) && AsMap(y).Keys == Elements(Keys(y));
    forall i | 0 <= i < |x| ensures x[i].key in AsMap(x) && AsMap(x)[x[i].key] == x[i].val {
      LookupAt(x, i);
    }
    forall j | 0 <= j < |y| ensures y[j].key in AsMap(y) && AsMap(y)[y[j].key] == y[j].val {
      LookupAt(y, j);
    }
    if Same(Obj(x), Obj(y)) {
      forall k | k in AsMap(x) && k in AsMap(y) ensures Same(AsMap(x)[k], AsMap(y)[k]) {
        var i :| 0 <= i < |Keys(x)| && Keys(x)[i] == k;
        var j :| 0 <= j < |Keys(y)| && Keys(y)[j] == k;
        assert x[i].key == y[j].key;
      }
    }
  }

  /** The canonical form is a well-formed value without that key. */
  lemma {:induction false} CanonicalIsClean(v: Json)
    requires WellFormed(v)
    ensures WellFormed(SortObjectDeep(v)) && Clean(SortObjectDeep(v))
    decreases v
  {
    match v
    case Arr(items) =>
      forall i | 0 <= i < |items| ensures WellFormed(SortObjectDeep(items[i])) && Clean(SortObjectDeep(items[i])) {
        CanonicalIsClean(items[i]);
      }
    case Obj(fs) =>
      forall i | 0 <= i < |fs| ensures WellFormed(SortObjectDeep(fs[i].val)) && Clean(SortObjectDeep(fs[i].val)) {
        CanonicalIsClean(fs[i].val);
      }
      var fs' := SortValues(fs);
      SortValuesKeys(fs);
      RebuildMap(fs');
      var r := Rebuild(fs');
      forall i | 0 <= i < |r| ensures r[i].key != PROTO && WellFormed(r[i].val) && Clean(r[i].val) {
        LookupAt(r, i);
        var j := PropertyOf(fs', r[i].key);
      }
    case _ =>
  }

  /** A clean value is its own stripped form. */
  lemma {:induction false} StripOfClean(v: Json)
    requires Clean(v)
    ensures Strip(v) == v
    decreases v
  {
    match v
    case Arr(items) =>
      forall i | 0 <= i < |items| ensures Strip(items[i]) == items[i] {
        StripOfClean(items[i]);
      }
    case Obj(fs) =>
      forall i | 0 <= i < |fs| ensures Strip(fs[i].val) == fs[i].val {
        StripOfClean(fs[i].val);
      }
      StripValuesKeys(fs);
      assert StripValues(fs) == fs;
      NothingToDrop(fs);
    case _ =>
  }

  lemma {:induction false} NothingToDrop(fs: seq<Field>)
    requires forall i :: 0 <= i < |fs| ==> fs[i].key != PROTO
    ensures DropProto(fs) == fs
  {
    if fs != [] {
      NothingToDrop(fs[1..]);
    }
  }

  /** The canonical form is the value without that key: arrays keep their order, objects their other properties. */
  lemma {:induction false} CanonicalIsSame(v: Json)
    requires WellFormed(v)
    ensures Same(SortObjectDeep(v), Strip(v))
    decreases v
  {
    match v
    case Arr(items) =>
      forall i | 0 <= i < |items| ensures Same(SortObjectDeep(items[i]), Strip(items[i])) {
        CanonicalIsSame(items[i]);
      }
    case Obj(fs) =>
      forall i | 0 <= i < |fs| ensures Same(SortObjectDeep(fs[i].val), Strip(fs[i].val)) {
        CanonicalIsSame(fs[i].val);
      }
      CanonicalFieldsSame(fs);
    case _ =>
  }

  lemma CanonicalFieldsSame(fs: seq<Field>)
    requires Distinct(Keys(fs)) && forall i :: 0 <= i < |fs| ==> Same(SortObjectDeep(fs[i].val), Strip(fs[i].val))
    ensures Same(SortObjectDeep(Obj(fs)), Strip(Obj(fs)))
  {
    hide SortObjectDeep, Strip, Same, AsMap, Rebuild, DropProto;
    SortValuesKeys(fs);
    StripValuesKeys(fs);
    RebuildMap(SortValues(fs));
    DropProtoMap(StripValues(fs));
    ValuesOf(fs);
    SameObjects(Rebuild(SortValues(fs)), DropProto(StripValues(fs)));
    forall k | k in AsMap(fs) ensures Same(SortObjectDeep(AsMap(fs)[k]), Strip(AsMap(fs)[k])) {
      var i := PropertyOf(fs, k);
    }
  }

  /** Nothing is lost exactly when the key is nowhere in the value. */
  lemma NothingLostIff(v: Json)
    requires WellFormed(v)
    ensures Same(SortObjectDeep(v), v) <==> Clean(v)
  {
    CanonicalIsClean(v);
    if Clean(v) {
      CanonicalIsSame(v);
      StripOfClean(v);
    } else if Same(SortObjectDeep(v), v) {
      SameAsClean(SortObjectDeep(v), v);
      assert false;
    }
  }

  /** What is the same as a clean value is clean. */
  lemma {:induction false} SameAsClean(a: Json, b: Json)
    requires Same(a, b) && Clean(a)
    ensures Clean(b)
    decreases a
  {
    match (a, b)
    case (Arr(x), Arr(y)) =>
      forall i | 0 <= i < |y| ensures Clean(y[i]) {
        SameAsClean(x[i], y[i]);
      }
    case (Obj(x), Obj(y)) =>
      forall j | 0 <= j < |y| ensures y[j].key != PROTO && Clean(y[j].val) {
        assert Keys(y)[j] in Elements(Keys(x));
        var i :| 0 <= i < |Keys(x)| && Keys(x)[i] == Keys(y)[j];
        SameAsClean(x[i].val, y[j].val);
      }
    case _ =>
  }

  /** Anything may be added under that key, at any place, without changing the canonical form. */
  lemma DroppedKeyGoesUnseen(fs: seq<Field>, w: Json)
    requires Distinct(Keys(fs)) && PROTO !in Keys(fs)
    ensures Distinct(Keys(fs + [Field(PROTO, w)]))
    ensures SortObjectDeep(Obj(fs + [Field(PROTO, w)])) == SortObjectDeep(Obj(fs))
  {
    hide SortObjectDeep, Lookup;
    var more := fs + [Field(PROTO, w)];
    assert Keys(more) == Keys(fs) + [PROTO];
    assert Elements(Keys(more)) == Elements(Keys(fs)) + {PROTO} by {
      forall k | k in Elements(Keys(fs)) + {PROTO} ensures k in Elements(Keys(more)) {
        if k == PROTO {
          assert Keys(more)[|fs|] == k;
        } else {
          var i :| 0 <= i < |Keys(fs)| && Keys(fs)[i] == k;
          assert Keys(more)[i] == k;
        }
      }
    }
    forall k | k in AsMap(fs) ensures k in AsMap(more) && AsMap(more)[k] == AsMap(fs)[k] {
      var i := PropertyOf(fs, k);
      LookupAt(more, i);
    }
    CanonicalObjects(more, fs);
  }

  lemma Idempotent(v: Json)
    requires WellFormed(v)
    ensures SortObjectDeep(SortObjectDeep(v)) == SortObjectDeep(v)
  {
    CanonicalIsClean(v);
    CanonicalIsSame(v);
    StripOfClean(SortObjectDeep(v));
    CanonicalIff(SortObjectDeep(v), v);
  }

  // ---------------------------------------------------------------- the order of the canonical keys

  /** JavaScript's enumeration order: array indices first, by value, then the other keys, here lexicographically. */
  predicate Before(a: string, b: string) {
    if IsIndex(a) then !IsIndex(b) || Value(a, Dec) <= Value(b, Dec) else !IsIndex(b) && StrLeq(a, b)
  }

  function CanonicalKeys(fs: seq<Field>): seq<string> {
    Keys(SortObjectDeep(Obj(fs)).fields)
  }

  ghost predicate Enumerated(ks: seq<string>) {
    forall i, j :: 0 <= i < j < |ks| ==> Before(ks[i], ks[j])
  }

  /** The array indices are the numbers below 4294967295 as they are printed. */
  lemma IndexIff(k: string)
    ensures IsIndex(k) <==> exists n: nat :: n < 4_294_967_295 && k == Digits(n, Dec)
  {
    if IsIndex(k) {
      DigitsOfDecimal(k);
      assert k == "0" ==> k[1..] == "";
      assert k == Digits(Value(k, Dec), Dec);
    }
    if n: nat :| n < 4_294_967_295 && k == Digits(n, Dec) {
      ValueOfDigits(n, Dec);
      PrintedDigits(n, Dec);
    }
  }

  lemma IndexSpelledOnce(a: string, b: string)
    requires IsIndex(a) && IsIndex(b) && Value(a, Dec) == Value(b, Dec)
    ensures a == b
  {
    DigitsOfDecimal(a);
    DigitsOfDecimal(b);
  }

  lemma BeforeTotal(a: string, b: string)
    ensures Before(a, b) || Before(b, a)
    ensures Before(a, b) && Before(b, a) ==> a == b
  {
    StrTotal(a, b);
    if IsIndex(a) && IsIndex(b) && Value(a, Dec) == Value(b, Dec) {
      IndexSpelledOnce(a, b);
    }
  }

  /** There is one way to enumerate a set of keys. */
  lemma {:induction false} EnumeratedUnique(a: seq<string>, b: seq<string>)
    requires Enumerated(a) && Enumerated(b) && Distinct(a) && Distinct(b) && Elements(a) == Elements(b)
    ensures a == b
  {
    hide Before;
    ElementsEmpty(a);
    ElementsEmpty(b);
    if a != [] {
      assert a[0] in Elements(b) && b[0] in Elements(a);
      BeforeTotal(a[0], b[0]);
      assert a[0] == b[0];
      assert Elements(a[1..]) == Elements(a) - {a[0]};
      assert Elements(b[1..]) == Elements(b) - {b[0]};
      EnumeratedUnique(a[1..], b[1..]);
    }
  }

  /** The new key stands in its place among enumerated ones if the other keys were added in sorted order. */
  lemma {:induction false} InsertNewEnumerated(fs: seq<Field>, f: Field)
    requires Enumerated(Keys(fs))
    requires forall i :: 0 <= i < |fs| && !IsIndex(fs[i].key) && !IsIndex(f.key) ==> StrLeq(fs[i].key, f.key)
    ensures Enumerated(Keys(InsertNew(fs, f)))
  {
    hide StrLeq, Value, IsNumeral;
    var r := InsertNew(fs, f);
    if fs != [] {
      forall i | 0 <= i < |fs| ensures i == 0 || Before(fs[0].key, fs[i].key) {
        assert i > 0 ==> Before(Keys(fs)[0], Keys(fs)[i]);
      }
      if IsIndex(f.key) && (!IsIndex(fs[0].key) || Value(f.key, Dec) < Value(fs[0].key, Dec)) {
        forall i | 0 <= i < |fs| ensures Before(f.key, fs[i].key) {
        }
        HeadBefore(f, fs);
      } else {
        assert Keys(fs[1..]) == Keys(fs)[1..];
        InsertNewEnumerated(fs[1..], f);
        InsertNewFields(fs[1..], f);
        var rest := InsertNew(fs[1..], f);
        forall i | 0 <= i < |rest| ensures Before(fs[0].key, rest[i].key) {
          if rest[i] != f {
            var j :| 0 <= j < |fs[1..]| && fs[1..][j] == rest[i];
            assert fs[j + 1] == rest[i];
          }
        }
        HeadBefore(fs[0], rest);
      }
    }
  }

  lemma HeadBefore(f: Field, fs: seq<Field>)
    requires Enumerated(Keys(fs)) && forall i :: 0 <= i < |fs| ==> Before(f.key, fs[i].key)
    ensures Enumerated(Keys([f] + fs))
  {
    hide Before;
    var ks := Keys([f] + fs);
    forall i, j | 0 <= i < j < |ks| ensures Before(ks[i], ks[j]) {
      assert ks[j] == Keys(fs)[j - 1] && (i > 0 ==> ks[i] == Keys(fs)[i - 1]);
    }
  }

  lemma {:induction false} AssembleEnumerated(ks: seq<string>, fs: seq<Field>)
    requires Sorted(ks) && Distinct(ks) && Distinct(Keys(fs)) && forall i :: 0 <= i < |ks| ==> ks[i] in Keys(fs)
    ensures Enumerated(Keys(Assemble(ks, fs))) && Elements(Keys(Assemble(ks, fs))) == Elements(ks) - {PROTO}
  {
    hide IsIndex, Lookup, StrLeq, Before;
    if ks != [] {
      var init, k := ks[..|ks| - 1], ks[|ks| - 1];
      var r := Assemble(init, fs);
      AssembleEnumerated(init, fs);
      AssembleMap(init, fs);
      assert Elements(ks) == Elements(init) + {k};
      if k == PROTO {
        return;
      }
      assert k !in Elements(Keys(r));
      forall i | 0 <= i < |r| ensures StrLeq(r[i].key, k) {
        assert Keys(r)[i] in Elements(Keys(r)) && Keys(r)[i] in Elements(init);
      }
      InsertNewEnumerated(r, Field(k, Lookup(fs, k)));
      InsertNewAdds(r, Field(k, Lookup(fs, k)));
    } else {
      assert Keys(Assemble(ks, fs)) == [];
    }
  }

  lemma RebuildEnumerated(fs: seq<Field>)
    requires Distinct(Keys(fs))
    ensures Enumerated(Keys(Rebuild(fs))) && Distinct(Keys(Rebuild(fs)))
    ensures Elements(Keys(Rebuild(fs))) == Elements(Keys(fs)) - {PROTO}
  {
    hide IsIndex;
    SortKeysSorts(Keys(fs));
    SortedKeysPresent(fs);
    AssembleEnumerated(SortKeys(Keys(fs)), fs);
    AssembleMap(SortKeys(Keys(fs)), fs);
  }

  /** The canonical keys of any object: its own keys but the one that is dropped, the array indices by value, then
      the others lexicographically. */
  lemma KeysComeEnumerated(fs: seq<Field>)
    requires Distinct(Keys(fs))
    ensures var ks := CanonicalKeys(fs);
            Enumerated(ks) && Distinct(ks) && Elements(ks) == Elements(Keys(fs)) - {PROTO}
  {
    hide Rebuild;
    SortValuesKeys(fs);
    RebuildEnumerated(SortValues(fs));
  }

  /** So they are the object's keys in the lexicographic order that the source promises exactly when that order
      enumerates them and none is dropped. */
  lemma LexicographicIff(fs: seq<Field>)
    requires Distinct(Keys(fs))
    ensures CanonicalKeys(fs) == SortKeys(Keys(fs)) <==> Enumerated(SortKeys(Keys(fs))) && PROTO !in Keys(fs)
  {
    hide CanonicalKeys, Before;
    KeysComeEnumerated(fs);
    SortKeysSorts(Keys(fs));
    assert PROTO in Keys(fs) <==> PROTO in Elements(Keys(fs));
    if Enumerated(SortKeys(Keys(fs))) && PROTO !in Keys(fs) {
      assert Elements(Keys(fs)) - {PROTO} == Elements(Keys(fs));
      EnumeratedUnique(CanonicalKeys(fs), SortKeys(Keys(fs)));
    }
  }

  /** In particular when no key is an array index or dropped. */
  lemma KeysComeSorted(fs: seq<Field>)
    requires Distinct(Keys(fs)) && forall i :: 0 <= i < |fs| ==> !IsIndex(fs[i].key) && fs[i].key != PROTO
    ensures CanonicalKeys(fs) == SortKeys(Keys(fs))
    ensures Sorted(CanonicalKeys(fs))
  {
    hide IsIndex, CanonicalKeys;
    var ks := SortKeys(Keys(fs));
    SortKeysSorts(Keys(fs));
    forall i | 0 <= i < |ks| ensures !IsIndex(ks[i]) {
      assert ks[i] in Elements(Keys(fs));
    }
    LexicographicIff(fs);
  }

  /** It fails for every two indices whose text sorts the other way round from their values, as 9 and 10. */
  lemma IndexKeysComeByValue(fs: seq<Field>, i: nat, j: nat)
    requires Distinct(Keys(fs)) && i < |fs| && j < |fs| && IsIndex(fs[i].key) && IsIndex(fs[j].key)
    requires Value(fs[i].key, Dec) < Value(fs[j].key, Dec) && StrLeq(fs[j].key, fs[i].key)
    ensures CanonicalKeys(fs) != SortKeys(Keys(fs))
  {
    hide CanonicalKeys, Value;
    var ks := SortKeys(Keys(fs));
    var a, b := fs[i].key, fs[j].key;
    SortKeysSorts(Keys(fs));
    assert Keys(fs)[i] in Elements(ks) && Keys(fs)[j] in Elements(ks);
    var x :| 0 <= x < |ks| && ks[x] == a;
    var y :| 0 <= y < |ks| && ks[y] == b;
    StrTotal(a, b);
    assert y < x;
    assert !Before(ks[y], ks[x]);
    LexicographicIff(fs);
  }
}
