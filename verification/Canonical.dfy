/**
 Canonical hashing of JavaScript values (src/services/hashStable.ts): object keys are
 sorted recursively before the value is serialised and digested.

 Besides JSON, values may hold `Date` objects (`Instant`), which have no own keys. An
 object's keys are distinct, and its fields are listed in the order they were created in.
 JavaScript moves integer-like keys to the front when it enumerates and serialises; that
 order depends on the set of keys alone, so sorted values are still serialised alike
 exactly when they are equal.
 */
module Canonical {

  datatype Json =
    | Null
    | Bool(b: bool)
    | Number(n: real)
    | Text(s: string)
    | Array(items: seq<Json>)
    | Object(fields: seq<Field>)
    | Instant(ms: int)

  datatype Field = Field(key: string, value: Json)

  /** The order of `Array.prototype.sort` on strings. */
  predicate Less(a: string, b: string) {
    b != [] && (a == [] || a[0] < b[0] || (a[0] == b[0] && Less(a[1..], b[1..])))
  }

  const PROTO := "__proto__"

  function InsertField(f: Field, fs: seq<Field>): seq<Field> {
    if fs == [] || Less(f.key, fs[0].key) then [f] + fs
    else [fs[0]] + InsertField(f, fs[1..])
  }

  /** Assigning to the key `__proto__` of the fresh accumulator sets its prototype and
      creates no field. */
  function SortValue(v: Json): Json
    decreases v
  {
    match v
    case Array(items) => Array(SortItems(items))
    case Object(fields) => Object(SortFields(fields))
    case Instant(_) => Object([])
    case _ => v
  }

  function SortItems(items: seq<Json>): (r: seq<Json>)
    ensures |r| == |items|
    decreases items
  {
    if items == [] then [] else [SortValue(items[0])] + SortItems(items[1..])
  }

  function SortFields(fields: seq<Field>): seq<Field>
    decreases fields
  {
    if fields == [] then []
    else if fields[0].key == PROTO then SortFields(fields[1..])
    else InsertField(Field(fields[0].key, SortValue(fields[0].value)), SortFields(fields[1..]))
  }

  /** The digest is injective on what is serialised. */
  datatype Digest = Digest(serialised: Json)

  function Sha256(v: Json): Digest {
    Digest(SortValue(v))
  }

  // ---------- what "the same value" means ----------

  ghost predicate DistinctKeys(fields: seq<Field>) {
    forall i, j :: 0 <= i < j < |fields| ==> fields[i].key != fields[j].key
  }

  ghost predicate WellFormed(v: Json)
    decreases v
  {
    match v
    case Array(items) => forall i :: 0 <= i < |items| ==> WellFormed(items[i])
    case Object(fields) => DistinctKeys(fields) && forall i :: 0 <= i < |fields| ==> WellFormed(fields[i].value)
    case _ => true
  }

  ghost predicate HasKey(fields: seq<Field>, key: string) {
    exists i :: 0 <= i < |fields| && fields[i].key == key
  }

  /** Equal up to reordering of object keys at every depth; array order counts. */
  ghost predicate Same(a: Json, b: Json)
    decreases a
  {
    match a
    case Array(items) => b.Array? && |items| == |b.items| && forall i :: 0 <= i < |items| ==> Same(items[i], b.items[i])
    case Object(fields) =>
      && b.Object?
      && (forall key :: HasKey(fields, key) <==> HasKey(b.fields, key))
      && (forall i, j :: 0 <= i < |fields| && 0 <= j < |b.fields| && fields[i].key == b.fields[j].key ==>
            Same(fields[i].value, b.fields[j].value))
    case _ => a == b
  }

  /** No `Date` and no `__proto__` key anywhere. */
  ghost predicate Plain(v: Json)
    decreases v
  {
    match v
    case Array(items) => forall i :: 0 <= i < |items| ==> Plain(items[i])
    case Object(fields) => forall i :: 0 <= i < |fields| ==> fields[i].key != PROTO && Plain(fields[i].value)
    case Instant(_) => false
    case _ => true
  }

  /** The part of a value that sorting does not lose. */
  function Visible(v: Json): Json
    decreases v
  {
    match v
    case Array(items) => Array(VisibleItems(items))
    case Object(fields) => Object(VisibleFields(fields))
    case Instant(_) => Object([])
    case _ => v
  }

  function VisibleItems(items: seq<Json>): (r: seq<Json>)
    ensures |r| == |items|
    decreases items
  {
    if items == [] then [] else [Visible(items[0])] + VisibleItems(items[1..])
  }

  function VisibleFields(fields: seq<Field>): seq<Field>
    decreases fields
  {
    if fields == [] then []
    else (if fields[0].key == PROTO then [] else [Field(fields[0].key, Visible(fields[0].value))])
         + VisibleFields(fields[1..])
  }

  // ---------- key order ----------

  lemma {:induction false} LessIsStrict(a: string, b: string)
    ensures !(Less(a, b) && Less(b, a)) && !Less(a, a)
    ensures Less(a, b) || Less(b, a) || a == b
  {
    if a != [] && b != [] {
      LessIsStrict(a[1..], b[1..]);
      LessIsStrict(a[1..], a[1..]);
      assert a == [a[0]] + a[1..] && b == [b[0]] + b[1..];
    } else if a != [] {
      LessIsStrict(a[1..], a[1..]);
    }
  }

  lemma {:induction false} LessIsTransitive(a: string, b: string, c: string)
    requires Less(a, b) && Less(b, c)
    ensures Less(a, c)
  {
    if a != [] && a[0] == b[0] == c[0] {
      LessIsTransitive(a[1..], b[1..], c[1..]);
    }
  }

  ghost predicate Above(key: string, fs: seq<Field>) {
    forall f :: f in fs ==> Less(key, f.key)
  }

  ghost predicate Sorted(fs: seq<Field>) {
    fs == [] || (Above(fs[0].key, fs[1..]) && Sorted(fs[1..]))
  }

  lemma {:induction false} InsertMembers(f: Field, fs: seq<Field>)
    ensures forall g :: g in InsertField(f, fs) <==> g == f || g in fs
  {
    if fs != [] && !Less(f.key, fs[0].key) {
      InsertMembers(f, fs[1..]);
      assert fs == [fs[0]] + fs[1..];
    }
  }

  lemma {:induction false} InsertKeepsSorted(f: Field, fs: seq<Field>)
    requires Sorted(fs) && forall g :: g in fs ==> g.key != f.key
    ensures Sorted(InsertField(f, fs))
  {
    if fs == [] {
      assert [f][1..] == [];
    } else if Less(f.key, fs[0].key) {
      assert ([f] + fs)[1..] == fs;
      forall g | g in fs
        ensures Less(f.key, g.key)
      {
        if g != fs[0] {
          assert fs == [fs[0]] + fs[1..];
          LessIsTransitive(f.key, fs[0].key, g.key);
        }
      }
    } else {
      var r := InsertField(f, fs[1..]);
      assert fs == [fs[0]] + fs[1..];
      InsertKeepsSorted(f, fs[1..]);
      InsertMembers(f, fs[1..]);
      LessIsStrict(f.key, fs[0].key);
      assert ([fs[0]] + r)[1..] == r;
    }
  }

  lemma {:induction false} SortedIsUnique(s: seq<Field>, t: seq<Field>)
    requires Sorted(s) && Sorted(t) && forall f :: f in s <==> f in t
    ensures s == t
  {
    if s == [] || t == [] {
      assert |s| == |t| == 0 || multiset(s) != multiset(t);
      assert forall f :: f in multiset(s) <==> f in multiset(t);
    } else {
      assert s == [s[0]] + s[1..] && t == [t[0]] + t[1..];
      assert s[0] in t && t[0] in s;
      LessIsStrict(s[0].key, t[0].key);
      assert s[0] == t[0];
      LessIsStrict(s[0].key, s[0].key);
      assert s[0] !in s[1..] && s[0] !in t[1..];
      forall f
        ensures f in s[1..] <==> f in t[1..]
      {
        assert f in s <==> f in t;
      }
      SortedIsUnique(s[1..], t[1..]);
    }
  }

  // ---------- sorting one value ----------

  lemma {:induction false} SortItemsAt(items: seq<Json>, i: nat)
    requires i < |items|
    ensures SortItems(items)[i] == SortValue(items[i])
  {
    if i > 0 {
      SortItemsAt(items[1..], i - 1);
    }
  }

  lemma {:induction false} SortedFieldsOf(fields: seq<Field>, f: Field)
    ensures f in SortFields(fields) <==>
      exists i :: 0 <= i < |fields| && fields[i].key != PROTO && f == Field(fields[i].key, SortValue(fields[i].value))
  {
    if fields != [] {
      var tail := fields[1..];
      SortedFieldsOf(tail, f);
      var head := Field(fields[0].key, SortValue(fields[0].value));
      InsertMembers(head, SortFields(tail));
      assert forall i :: 0 <= i < |tail| ==> tail[i] == fields[i + 1];
      if f in SortFields(tail) {
        var i :| 0 <= i < |tail| && tail[i].key != PROTO && f == Field(tail[i].key, SortValue(tail[i].value));
        assert fields[i + 1] == tail[i];
      }
      if i :| 0 <= i < |fields| && fields[i].key != PROTO && f == Field(fields[i].key, SortValue(fields[i].value)) {
        assert i > 0 ==> tail[i - 1] == fields[i];
      }
    }
  }

  /** Up to place `n` the strings agree, and there the first is over or has the smaller character. */
  predicate SmallerAt(a: string, b: string, n: nat) {
    n <= |a| && n < |b| && a[..n] == b[..n] && (n == |a| || a[n] < b[n])
  }

  ghost predicate Precedes(a: string, b: string) {
    exists n: nat :: SmallerAt(a, b, n)
  }

  lemma {:induction false} LessMeans(a: string, b: string)
    ensures Less(a, b) <==> Precedes(a, b)
  {
    if a != [] && b != [] {
      assert a == [a[0]] + a[1..] && b == [b[0]] + b[1..];
      LessMeans(a[1..], b[1..]);
      if Less(a, b) {
        if a[0] < b[0] {
          assert SmallerAt(a, b, 0);
        } else {
          var n: nat :| SmallerAt(a[1..], b[1..], n);
          assert a[..n + 1] == [a[0]] + a[1..][..n] && b[..n + 1] == [b[0]] + b[1..][..n];
          assert SmallerAt(a, b, n + 1);
        }
      }
      forall n: nat | SmallerAt(a, b, n)
        ensures Less(a, b)
      {
        if n > 0 {
          assert a[..n] == b[..n] && a[..n][0] == a[0] && b[..n][0] == b[0];
          assert a[1..][..n - 1] == a[..n][1..] && b[1..][..n - 1] == b[..n][1..];
          assert SmallerAt(a[1..], b[1..], n - 1);
        }
      }
    } else if Less(a, b) {
      assert SmallerAt(a, b, 0);
    }
  }

  lemma {:induction false} SortFieldsSorted(fields: seq<Field>)
    requires DistinctKeys(fields)
    ensures Sorted(SortFields(fields))
  {
    if fields != [] {
      var tail := fields[1..];
      assert DistinctKeys(tail);
      SortFieldsSorted(tail);
      if fields[0].key != PROTO {
        forall g | g in SortFields(tail)
          ensures g.key != fields[0].key
        {
          SortedFieldsOf(tail, g);
          var i :| 0 <= i < |tail| && tail[i].key != PROTO && g == Field(tail[i].key, SortValue(tail[i].value));
          assert tail[i] == fields[i + 1];
        }
        InsertKeepsSorted(Field(fields[0].key, SortValue(fields[0].value)), SortFields(tail));
      }
    }
  }

  // ---------- equal canonical forms ----------

  lemma {:induction false} FieldIn(fields: seq<Field>, i: nat)
    requires i < |fields| && fields[i].key != PROTO
    ensures Field(fields[i].key, SortValue(fields[i].value)) in SortFields(fields)
  {
    SortedFieldsOf(fields, Field(fields[i].key, SortValue(fields[i].value)));
  }

  /** A sorted field comes from the one field with that key. */
  lemma {:induction false} FieldFrom(fields: seq<Field>, f: Field) returns (i: nat)
    requires f in SortFields(fields)
    ensures i < |fields| && fields[i].key != PROTO && f == Field(fields[i].key, SortValue(fields[i].value))
  {
    SortedFieldsOf(fields, f);
    i :| 0 <= i < |fields| && fields[i].key != PROTO && f == Field(fields[i].key, SortValue(fields[i].value));
  }

  lemma {:induction false} SameFieldsSortAlike(fa: seq<Field>, fb: seq<Field>)
    requires DistinctKeys(fa) && DistinctKeys(fb)
    requires forall key :: HasKey(fa, key) <==> HasKey(fb, key)
    requires forall i, j :: 0 <= i < |fa| && 0 <= j < |fb| && fa[i].key == fb[j].key ==>
      SortValue(fa[i].value) == SortValue(fb[j].value)
    ensures SortFields(fa) == SortFields(fb)
  {
    SortFieldsSorted(fa);
    SortFieldsSorted(fb);
    forall f
      ensures f in SortFields(fa) <==> f in SortFields(fb)
    {
      if f in SortFields(fa) {
        var i := FieldFrom(fa, f);
        assert HasKey(fa, fa[i].key);
        var j :| 0 <= j < |fb| && fb[j].key == fa[i].key;
        FieldIn(fb, j);
      }
      if f in SortFields(fb) {
        var j := FieldFrom(fb, f);
        assert HasKey(fb, fb[j].key);
        var i :| 0 <= i < |fa| && fa[i].key == fb[j].key;
        FieldIn(fa, i);
      }
    }
    SortedIsUnique(SortFields(fa), SortFields(fb));
  }

  lemma {:induction false} AlikeFieldsMatch(fa: seq<Field>, fb: seq<Field>, i: nat) returns (j: nat)
    requires SortFields(fa) == SortFields(fb) && i < |fa| && fa[i].key != PROTO
    ensures j < |fb| && fb[j].key == fa[i].key && SortValue(fb[j].value) == SortValue(fa[i].value)
  {
    FieldIn(fa, i);
    j := FieldFrom(fb, Field(fa[i].key, SortValue(fa[i].value)));
  }

  lemma {:induction false} SameSortAlike(a: Json, b: Json)
    requires WellFormed(a) && WellFormed(b) && Plain(a) && Plain(b) && Same(a, b)
    ensures SortValue(a) == SortValue(b)
    decreases a
  {
    match a
    case Array(items) =>
      forall i | 0 <= i < |items|
        ensures SortItems(items)[i] == SortItems(b.items)[i]
      {
        SameSortAlike(items[i], b.items[i]);
        SortItemsAt(items, i);
        SortItemsAt(b.items, i);
      }
      assert SortItems(items) == SortItems(b.items);
    case Object(fields) =>
      forall i, j | 0 <= i < |fields| && 0 <= j < |b.fields| && fields[i].key == b.fields[j].key
        ensures SortValue(fields[i].value) == SortValue(b.fields[j].value)
      {
        SameSortAlike(fields[i].value, b.fields[j].value);
      }
      SameFieldsSortAlike(fields, b.fields);
    case _ =>
  }

  lemma {:induction false} SortAlikeSame(a: Json, b: Json)
    requires WellFormed(a) && WellFormed(b) && Plain(a) && Plain(b) && SortValue(a) == SortValue(b)
    ensures Same(a, b)
    decreases a
  {
    match a
    case Array(items) =>
      forall i | 0 <= i < |items|
        ensures Same(items[i], b.items[i])
      {
        SortItemsAt(items, i);
        SortItemsAt(b.items, i);
        SortAlikeSame(items[i], b.items[i]);
      }
    case Object(fields) =>
      forall key
        ensures HasKey(fields, key) <==> HasKey(b.fields, key)
      {
        AlikeKeys(fields, b.fields, key);
        AlikeKeys(b.fields, fields, key);
      }
      forall i, j | 0 <= i < |fields| && 0 <= j < |b.fields| && fields[i].key == b.fields[j].key
        ensures Same(fields[i].value, b.fields[j].value)
      {
        var k := AlikeFieldsMatch(fields, b.fields, i);
        assert k == j;
        SortAlikeSame(fields[i].value, b.fields[j].value);
      }
    case _ =>
  }

  lemma {:induction false} AlikeKeys(fa: seq<Field>, fb: seq<Field>, key: string)
    requires SortFields(fa) == SortFields(fb) && forall i :: 0 <= i < |fa| ==> fa[i].key != PROTO
    ensures HasKey(fa, key) ==> HasKey(fb, key)
  {
    if HasKey(fa, key) {
      var i :| 0 <= i < |fa| && fa[i].key == key;
      var j := AlikeFieldsMatch(fa, fb, i);
    }
  }

  // ---------- what sorting loses ----------

  lemma {:induction false} VisibleItemsAt(items: seq<Json>, i: nat)
    requires i < |items|
    ensures VisibleItems(items)[i] == Visible(items[i])
  {
    if i > 0 {
      VisibleItemsAt(items[1..], i - 1);
    }
  }

  lemma {:induction false} VisibleFieldFrom(fields: seq<Field>, k: nat) returns (i: nat)
    requires k < |VisibleFields(fields)|
    ensures i < |fields| && fields[i].key != PROTO
    ensures VisibleFields(fields)[k] == Field(fields[i].key, Visible(fields[i].value))
  {
    if fields[0].key == PROTO {
      var i1 := VisibleFieldFrom(fields[1..], k);
      i := i1 + 1;
    } else if k == 0 {
      i := 0;
    } else {
      var i1 := VisibleFieldFrom(fields[1..], k - 1);
      i := i1 + 1;
    }
  }

  lemma {:induction false} VisibleKeysDistinct(fields: seq<Field>)
    requires DistinctKeys(fields)
    ensures DistinctKeys(VisibleFields(fields))
  {
    if fields != [] {
      var tail := fields[1..];
      VisibleKeysDistinct(tail);
      forall k | 0 <= k < |VisibleFields(tail)|
        ensures VisibleFields(tail)[k].key != fields[0].key
      {
        var i := VisibleFieldFrom(tail, k);
        assert tail[i] == fields[i + 1];
      }
    }
  }

  lemma {:induction false} VisibleIsPlain(v: Json)
    requires WellFormed(v)
    ensures WellFormed(Visible(v)) && Plain(Visible(v))
    decreases v
  {
    match v
    case Array(items) =>
      forall i | 0 <= i < |items|
        ensures WellFormed(VisibleItems(items)[i]) && Plain(VisibleItems(items)[i])
      {
        VisibleItemsAt(items, i);
        VisibleIsPlain(items[i]);
      }
    case Object(fields) =>
      VisibleKeysDistinct(fields);
      forall k | 0 <= k < |VisibleFields(fields)|
        ensures VisibleFields(fields)[k].key != PROTO
        ensures WellFormed(VisibleFields(fields)[k].value) && Plain(VisibleFields(fields)[k].value)
      {
        var i := VisibleFieldFrom(fields, k);
        VisibleIsPlain(fields[i].value);
      }
    case _ =>
  }

  lemma {:induction false} SortSeesVisible(v: Json)
    ensures SortValue(Visible(v)) == SortValue(v)
    decreases v
  {
    match v
    case Array(items) => SortSeesVisibleItems(items);
    case Object(fields) => SortSeesVisibleFields(fields);
    case _ =>
  }

  lemma {:induction false} SortSeesVisibleItems(items: seq<Json>)
    ensures SortItems(VisibleItems(items)) == SortItems(items)
    decreases items
  {
    if items != [] {
      SortSeesVisible(items[0]);
      SortSeesVisibleItems(items[1..]);
      assert VisibleItems(items)[1..] == VisibleItems(items[1..]);
    }
  }

  lemma {:induction false} SortSeesVisibleFields(fields: seq<Field>)
    ensures SortFields(VisibleFields(fields)) == SortFields(fields)
    decreases fields
  {
    if fields != [] {
      SortSeesVisible(fields[0].value);
      SortSeesVisibleFields(fields[1..]);
      if fields[0].key != PROTO {
        assert VisibleFields(fields)[1..] == VisibleFields(fields[1..]);
      } else {
        assert VisibleFields(fields) == VisibleFields(fields[1..]);
      }
    }
  }

  lemma {:induction false} PlainIsVisible(v: Json)
    requires Plain(v)
    ensures Visible(v) == v
    decreases v
  {
    match v
    case Array(items) =>
      forall i | 0 <= i < |items|
        ensures VisibleItems(items)[i] == items[i]
      {
        VisibleItemsAt(items, i);
        PlainIsVisible(items[i]);
      }
      assert VisibleItems(items) == items;
    case Object(fields) => PlainFieldsVisible(fields);
    case _ =>
  }

  lemma {:induction false} PlainFieldsVisible(fields: seq<Field>)
    requires forall i :: 0 <= i < |fields| ==> fields[i].key != PROTO && Plain(fields[i].value)
    ensures VisibleFields(fields) == fields
    decreases fields
  {
    if fields != [] {
      PlainIsVisible(fields[0].value);
      PlainFieldsVisible(fields[1..]);
      assert fields == [fields[0]] + fields[1..];
    }
  }

  // ---------- the two laws ----------

  /** Two values hash alike exactly when their visible parts are equal up to reordering of
      object keys. */
  lemma {:induction false} HashesAgreeExactly(a: Json, b: Json)
    requires WellFormed(a) && WellFormed(b)
    ensures Sha256(a) == Sha256(b) <==> Same(Visible(a), Visible(b))
  {
    var va, vb := Visible(a), Visible(b);
    VisibleIsPlain(a);
    VisibleIsPlain(b);
    SortSeesVisible(a);
    SortSeesVisible(b);
    if Same(va, vb) {
      SameSortAlike(va, vb);
    }
    if SortValue(va) == SortValue(vb) {
      SortAlikeSame(va, vb);
    }
  }

  /** On values without dates and without `__proto__` keys that is the intended law. */
  lemma {:induction false} PlainHashesAgreeExactly(a: Json, b: Json)
    requires WellFormed(a) && WellFormed(b) && Plain(a) && Plain(b)
    ensures Sha256(a) == Sha256(b) <==> Same(a, b)
  {
    PlainIsVisible(a);
    PlainIsVisible(b);
    HashesAgreeExactly(a, b);
  }

  /** Neither condition can be dropped: two different dates hash alike, and an object with
      a `__proto__` key hashes like the empty object. */
  lemma {:induction false} HashBlindSpots(t1: int, t2: int, v: Json)
    requires t1 != t2
    ensures !Same(Instant(t1), Instant(t2)) && Sha256(Instant(t1)) == Sha256(Instant(t2))
    ensures var a, b := Object([Field(PROTO, v)]), Object([]);
      !Same(a, b) && Sha256(a) == Sha256(b)
  {
    var fields := [Field(PROTO, v)];
    assert fields[1..] == [];
    assert SortFields(fields) == SortFields(fields[1..]);
    assert HasKey(fields, PROTO) by {
      assert fields[0].key == PROTO;
    }
    assert !HasKey([], PROTO);
  }

  lemma {:induction false} SortedPairs(fs: seq<Field>, i: nat, j: nat)
    requires Sorted(fs) && i < j < |fs|
    ensures Less(fs[i].key, fs[j].key)
  {
    if i == 0 {
      assert fs[1..][j - 1] in fs[1..];
    } else {
      SortedPairs(fs[1..], i - 1, j - 1);
    }
  }

  /** What is hashed of an object: its fields, each with its value sorted, without one named
      `__proto__`, in the order of their keys. */
  lemma {:induction false} SortedObjectIs(fields: seq<Field>)
    requires DistinctKeys(fields)
    ensures var sorted := SortValue(Object(fields));
      && sorted.Object?
      && (forall i, j :: 0 <= i < j < |sorted.fields| ==> Precedes(sorted.fields[i].key, sorted.fields[j].key))
      && (forall f :: f in sorted.fields <==>
            exists i :: 0 <= i < |fields| && fields[i].key != "__proto__"
                        && f == Field(fields[i].key, SortValue(fields[i].value)))
  {
    var sorted := SortFields(fields);
    SortFieldsSorted(fields);
    forall i, j | 0 <= i < j < |sorted|
      ensures Precedes(sorted[i].key, sorted[j].key)
    {
      SortedPairs(sorted, i, j);
      LessMeans(sorted[i].key, sorted[j].key);
    }
    forall f
      ensures f in sorted <==> exists i :: 0 <= i < |fields| && fields[i].key != "__proto__"
                                           && f == Field(fields[i].key, SortValue(fields[i].value))
    {
      SortedFieldsOf(fields, f);
    }
    hide SortFields, Sorted, Precedes;
  }

  /** Sorting is idempotent. */
  lemma {:induction false} SortIsIdempotent(v: Json)
    requires WellFormed(v)
    ensures SortValue(SortValue(v)) == SortValue(v)
    decreases v
  {
    match v
    case Array(items) =>
      var once := SortItems(items);
      forall i | 0 <= i < |items|
        ensures SortItems(once)[i] == once[i]
      {
        SortItemsAt(items, i);
        SortItemsAt(once, i);
        SortIsIdempotent(items[i]);
      }
      assert SortItems(once) == once;
    case Object(fields) =>
      SortFieldsSorted(fields);
      forall f | f in SortFields(fields)
        ensures f.key != PROTO && SortValue(f.value) == f.value
      {
        var i := FieldFrom(fields, f);
        SortIsIdempotent(fields[i].value);
      }
      SortedStays(SortFields(fields));
    case _ =>
  }

  lemma {:induction false} SortedStays(fs: seq<Field>)
    requires Sorted(fs) && forall f :: f in fs ==> f.key != PROTO && SortValue(f.value) == f.value
    ensures SortFields(fs) == fs
  {
    if fs != [] {
      assert fs == [fs[0]] + fs[1..];
      SortedStays(fs[1..]);
      if fs[1..] != [] {
        assert fs[1..][0] in fs[1..];
      }
    }
  }
}
