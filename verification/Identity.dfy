/**
  The policy identity: a configuration tree is put into a canonical form, in which objects have
  their keys in order and arrays are left as they are, and that form is what gets hashed.
 */
module Identity {
  import opened Wrappers

  datatype Field = Field(key: string, value: Json)

  datatype Json = Null | Bool(b: bool) | Number(n: int) | Text(s: string) | Array(items: seq<Json>) | Object(fields: seq<Field>)

  // ---------------------------------------------------------------- keys in order

  predicate Less(a: string, b: string) {
    b != [] && (a == [] || a[0] < b[0] || (a[0] == b[0] && Less(a[1..], b[1..])))
  }

  lemma {:induction false} LessTotal(a: string, b: string)
    ensures Less(a, b) || a == b || Less(b, a)
    ensures !(Less(a, b) && Less(b, a)) && !Less(a, a)
  {
    if a != [] && b != [] && a[0] == b[0] {
      LessTotal(a[1..], b[1..]);
      assert a == [a[0]] + a[1..] && b == [b[0]] + b[1..];
    }
    if a != [] {
      LessTotal(a[1..], a[1..]);
    }
  }

  lemma {:induction false} LessTransitive(a: string, b: string, c: string)
    requires Less(a, b) && Less(b, c)
    ensures Less(a, c)
  {
    if a != [] && a[0] == b[0] == c[0] {
      LessTransitive(a[1..], b[1..], c[1..]);
    }
  }

  function Insert(f: Field, rest: seq<Field>): seq<Field> {
    if rest == [] then [f]
    else if Less(rest[0].key, f.key) then [rest[0]] + Insert(f, rest[1..])
    else [f] + rest
  }

  function Sort(fields: seq<Field>): seq<Field> {
    if fields == [] then [] else Insert(fields[0], Sort(fields[1..]))
  }

  ghost predicate Ascending(fields: seq<Field>) {
    forall i, j | 0 <= i < j < |fields| :: Less(fields[i].key, fields[j].key)
  }

  ghost predicate Distinct(fields: seq<Field>) {
    forall i, j | 0 <= i < j < |fields| :: fields[i].key != fields[j].key
  }

  lemma {:induction false} InsertElements(f: Field, rest: seq<Field>)
    ensures multiset(Insert(f, rest)) == multiset{f} + multiset(rest)
  {
    if rest != [] {
      assert rest == [rest[0]] + rest[1..];
      if Less(rest[0].key, f.key) {
        InsertElements(f, rest[1..]);
      }
    }
  }

  lemma {:induction false} SortElements(fields: seq<Field>)
    ensures multiset(Sort(fields)) == multiset(fields)
  {
    if fields != [] {
      assert fields == [fields[0]] + fields[1..];
      SortElements(fields[1..]);
      InsertElements(fields[0], Sort(fields[1..]));
    }
  }

  lemma {:induction false} InsertAscending(f: Field, rest: seq<Field>)
    requires Ascending(rest) && forall g | g in rest :: g.key != f.key
    ensures Ascending(Insert(f, rest))
  {
    if rest == [] {
    } else if Less(rest[0].key, f.key) {
      InsertAscending(f, rest[1..]);
      InsertElements(f, rest[1..]);
      var tail := Insert(f, rest[1..]);
      forall j | 0 <= j < |tail|
        ensures Less(rest[0].key, tail[j].key)
      {
        assert tail[j] in multiset(tail);
        if tail[j] != f {
          assert tail[j] in rest[1..];
        }
      }
    } else {
      forall j | 0 <= j < |rest|
        ensures Less(f.key, rest[j].key)
      {
        LessTotal(f.key, rest[0].key);
        if j > 0 {
          LessTransitive(f.key, rest[0].key, rest[j].key);
        }
      }
    }
  }

  lemma {:induction false} SortAscending(fields: seq<Field>)
    requires Distinct(fields)
    ensures Ascending(Sort(fields))
  {
    if fields != [] {
      SortAscending(fields[1..]);
      SortElements(fields[1..]);
      forall g | g in Sort(fields[1..])
        ensures g.key != fields[0].key
      {
        assert g in multiset(fields[1..]);
      }
      InsertAscending(fields[0], Sort(fields[1..]));
    }
  }

  lemma LeastFirst(s: seq<Field>, f: Field)
    requires Ascending(s) && f in s
    ensures s[0] == f || Less(s[0].key, f.key)
  {
    var i :| 0 <= i < |s| && s[i] == f;
    assert i == 0 || Less(s[0].key, s[i].key);
  }

  lemma SameFirst(s: seq<Field>, t: seq<Field>)
    requires Ascending(s) && Ascending(t) && s != [] && multiset(s) == multiset(t)
    ensures t != [] && s[0] == t[0]
  {
    assert s[0] in multiset(t);
    assert t[0] in multiset(s);
    LeastFirst(s, t[0]);
    LeastFirst(t, s[0]);
    LessTotal(s[0].key, t[0].key);
  }

  lemma TailElements(s: seq<Field>)
    requires s != []
    ensures multiset(s[1..]) == multiset(s) - multiset{s[0]}
  {
    assert s == [s[0]] + s[1..];
  }

  /** Two lists in ascending order with the same elements are the same list. */
  lemma {:induction false} AscendingUnique(s: seq<Field>, t: seq<Field>)
    requires Ascending(s) && Ascending(t) && multiset(s) == multiset(t)
    ensures s == t
  {
    if s == [] {
      assert |multiset(t)| == 0;
    } else {
      SameFirst(s, t);
      TailElements(s);
      TailElements(t);
      AscendingUnique(s[1..], t[1..]);
      assert s == [s[0]] + s[1..] && t == [t[0]] + t[1..];
    }
  }

  // ---------------------------------------------------------------- the canonical form

  /** Sorting looks at keys only, so it does not matter that the children are done first. */
  function Canonical(j: Json): Json {
    match j
    case Array(items) => Array(seq(|items|, i requires 0 <= i < |items| => Canonical(items[i])))
    case Object(fields) =>
      Object(Sort(seq(|fields|, i requires 0 <= i < |fields| => Field(fields[i].key, Canonical(fields[i].value)))))
    case _ => j
  }

  /** No object has a key twice, at any depth. */
  predicate Proper(j: Json) {
    match j
    case Array(items) => forall i | 0 <= i < |items| :: Proper(items[i])
    case Object(fields) =>
      && (forall i, k | 0 <= i < k < |fields| :: fields[i].key != fields[k].key)
      && forall i | 0 <= i < |fields| :: Proper(fields[i].value)
    case _ => true
  }

  /** Equal but for the order of object keys, at every depth. */
  ghost predicate Same(a: Json, b: Json) {
    match a
    case Array(items) => b.Array? && |b.items| == |items| && forall i | 0 <= i < |items| :: Same(items[i], b.items[i])
    case Object(fields) =>
      && b.Object? && |b.fields| == |fields|
      && forall i | 0 <= i < |fields| ::
           exists k | 0 <= k < |b.fields| :: b.fields[k].key == fields[i].key && Same(fields[i].value, b.fields[k].value)
    case _ => a == b
  }

  function Children(fields: seq<Field>): (r: seq<Field>)
    ensures |r| == |fields| && forall i | 0 <= i < |r| :: r[i] == Field(fields[i].key, Canonical(fields[i].value))
  {
    seq(|fields|, i requires 0 <= i < |fields| => Field(fields[i].key, Canonical(fields[i].value)))
  }

  lemma CanonicalObject(fields: seq<Field>)
    ensures Canonical(Object(fields)) == Object(Sort(Children(fields)))
  {
    assert Children(fields) == seq(|fields|, i requires 0 <= i < |fields| => Field(fields[i].key, Canonical(fields[i].value)));
  }

  // ---------------------------------------------------------------- equal exactly when only key order differs

  function Elements(fields: seq<Field>): set<Field> {
    set f | f in fields
  }

  lemma {:induction false} DistinctElements(fields: seq<Field>)
    requires Distinct(fields)
    ensures |Elements(fields)| == |fields|
    ensures multiset(fields) == multiset(Elements(fields))
  {
    if fields == [] {
    } else {
      var rest := fields[1..];
      DistinctElements(rest);
      assert fields == [fields[0]] + rest;
      assert fields[0] !in Elements(rest);
      assert Elements(fields) == {fields[0]} + Elements(rest);
    }
  }

  /** Lists with distinct keys, equally long, one within the other: they sort to the same list. */
  lemma ContainedSortsEqual(a: seq<Field>, b: seq<Field>)
    requires Distinct(a) && Distinct(b) && |a| == |b| && forall i | 0 <= i < |a| :: a[i] in b
    ensures Sort(a) == Sort(b)
  {
    DistinctElements(a);
    DistinctElements(b);
    assert Elements(a) <= Elements(b);
    SubsetOfSameSize(Elements(a), Elements(b));
    SortElements(a);
    SortElements(b);
    SortAscending(a);
    SortAscending(b);
    AscendingUnique(Sort(a), Sort(b));
  }

  lemma SubsetOfSameSize(small: set<Field>, large: set<Field>)
    requires small <= large && |small| == |large|
    ensures small == large
  {
    assert large == small + (large - small);
  }

  lemma {:induction false} SameThenCanonicalEqual(a: Json, b: Json)
    requires Proper(a) && Proper(b) && Same(a, b)
    ensures Canonical(a) == Canonical(b)
    decreases a
  {
    match a
    case Array(items) =>
      forall i | 0 <= i < |items|
        ensures Canonical(items[i]) == Canonical(b.items[i])
      {
        SameThenCanonicalEqual(items[i], b.items[i]);
      }
    case Object(fields) =>
      var mine, theirs := Children(fields), Children(b.fields);
      forall i | 0 <= i < |mine|
        ensures mine[i] in theirs
      {
        var k :| 0 <= k < |b.fields| && b.fields[k].key == fields[i].key && Same(fields[i].value, b.fields[k].value);
        SameThenCanonicalEqual(fields[i].value, b.fields[k].value);
        assert theirs[k] == mine[i];
      }
      ContainedSortsEqual(mine, theirs);
      CanonicalObject(fields);
      CanonicalObject(b.fields);
    case _ =>
  }

  lemma SortedAlike(a: seq<Field>, b: seq<Field>)
    requires Sort(a) == Sort(b)
    ensures |a| == |b| && forall i | 0 <= i < |a| :: a[i] in b
  {
    SortElements(a);
    SortElements(b);
    assert |multiset(a)| == |multiset(b)|;
    assert forall i | 0 <= i < |a| :: a[i] in multiset(b);
  }

  lemma {:induction false} CanonicalEqualThenSame(a: Json, b: Json)
    requires Canonical(a) == Canonical(b)
    ensures Same(a, b)
    decreases a
  {
    match a
    case Array(items) =>
      assert b.Array?;
      forall i | 0 <= i < |items|
        ensures Same(items[i], b.items[i])
      {
        assert Canonical(a).items[i] == Canonical(b).items[i];
        CanonicalEqualThenSame(items[i], b.items[i]);
      }
    case Object(fields) =>
      assert b.Object?;
      CanonicalObject(fields);
      CanonicalObject(b.fields);
      var mine, theirs := Children(fields), Children(b.fields);
      SortedAlike(mine, theirs);
      forall i | 0 <= i < |fields|
        ensures exists k | 0 <= k < |b.fields| :: b.fields[k].key == fields[i].key && Same(fields[i].value, b.fields[k].value)
      {
        var k :| 0 <= k < |theirs| && theirs[k] == mine[i];
        CanonicalEqualThenSame(fields[i].value, b.fields[k].value);
      }
    case _ =>
  }

  /** Two configurations have one canonical form exactly when they differ in nothing but key order. */
  lemma CanonicalIff(a: Json, b: Json)
    requires Proper(a) && Proper(b)
    ensures Canonical(a) == Canonical(b) <==> Same(a, b)
  {
    if Same(a, b) {
      SameThenCanonicalEqual(a, b);
    }
    if Canonical(a) == Canonical(b) {
      CanonicalEqualThenSame(a, b);
    }
  }

  lemma {:induction false} CanonicalProper(j: Json)
    requires Proper(j)
    ensures Proper(Canonical(j))
  {
    match j
    case Array(items) =>
      forall i | 0 <= i < |items|
        ensures Proper(Canonical(items[i]))
      {
        CanonicalProper(items[i]);
      }
    case Object(fields) =>
      var children := Children(fields);
      CanonicalObject(fields);
      SortElements(children);
      SortAscending(children);
      var sorted := Sort(children);
      forall i, k | 0 <= i < k < |sorted|
        ensures sorted[i].key != sorted[k].key
      {
        LessTotal(sorted[i].key, sorted[k].key);
      }
      forall i | 0 <= i < |sorted|
        ensures Proper(sorted[i].value)
      {
        assert sorted[i] in multiset(children);
        var k :| 0 <= k < |children| && children[k] == sorted[i];
        CanonicalProper(fields[k].value);
      }
    case _ =>
  }

  lemma {:induction false} SortOfAscending(fields: seq<Field>)
    requires Ascending(fields)
    ensures Sort(fields) == fields
  {
    if fields != [] {
      SortOfAscending(fields[1..]);
      assert fields == [fields[0]] + fields[1..];
      if |fields| > 1 {
        LessTotal(fields[0].key, fields[1].key);
      }
    }
  }

  lemma {:induction false} CanonicalStable(j: Json)
    requires Proper(j)
    ensures Canonical(Canonical(j)) == Canonical(j)
  {
    match j
    case Array(items) =>
      forall i | 0 <= i < |items|
        ensures Canonical(Canonical(items[i])) == Canonical(items[i])
      {
        CanonicalStable(items[i]);
      }
    case Object(fields) =>
      var children := Children(fields);
      var sorted := Sort(children);
      CanonicalObject(fields);
      CanonicalObject(sorted);
      SortElements(children);
      SortAscending(children);
      forall i | 0 <= i < |sorted|
        ensures Canonical(sorted[i].value) == sorted[i].value
      {
        assert sorted[i] in multiset(children);
        var k :| 0 <= k < |children| && children[k] == sorted[i];
        CanonicalStable(fields[k].value);
      }
      assert Children(sorted) == sorted;
      SortOfAscending(sorted);
    case _ =>
  }

  /** The canonical form is its own canonical form, and differs from its source in nothing but key order. */
  lemma CanonicalIdempotent(j: Json)
    requires Proper(j)
    ensures Canonical(Canonical(j)) == Canonical(j) && Proper(Canonical(j)) && Same(j, Canonical(j))
  {
    CanonicalStable(j);
    CanonicalProper(j);
    CanonicalEqualThenSame(j, Canonical(j));
  }

  // ---------------------------------------------------------------- the fingerprint of a policy

  /** The position of a key in an object. */
  function Position(fields: seq<Field>, key: string): (r: Option<nat>)
    ensures r.Some? ==> r.value < |fields| && fields[r.value].key == key
    ensures r.None? ==> forall i | 0 <= i < |fields| :: fields[i].key != key
  {
    if fields == [] then None
    else if fields[0].key == key then Some(0)
    else
      match Position(fields[1..], key)
      case None => None
      case Some(i) => Some(i + 1)
  }

  /** The spread of an object with one key given anew: in place if it is there, else at the end. */
  function With(fields: seq<Field>, key: string, value: Json): seq<Field> {
    match Position(fields, key)
    case None => fields + [Field(key, value)]
    case Some(i) => fields[i := Field(key, value)]
  }

  /** A configuration is an object whose `http` member is an object. */
  predicate IsConfig(j: Json) {
    j.Object? && Position(j.fields, "http").Some? && j.fields[Position(j.fields, "http").value].value.Object?
  }

  function WithPort(config: Json, port: int): Json
    requires IsConfig(config)
  {
    var http := config.fields[Position(config.fields, "http").value].value;
    Object(With(config.fields, "http", Object(With(http.fields, "port", Number(port)))))
  }

  /** `digest` stands for hashing the printed tree. */
  function Fingerprint(digest: Json -> string, config: Json): string
    requires IsConfig(config)
  {
    digest(Canonical(WithPort(config, 0)))
  }

  ghost predicate CollisionFree(digest: Json -> string) {
    forall a, b :: digest(a) == digest(b) ==> a == b
  }

  lemma PositionOf(fields: seq<Field>, i: nat)
    requires Distinct(fields) && i < |fields|
    ensures Position(fields, fields[i].key) == Some(i)
  {
  }

  lemma WithDistinct(fields: seq<Field>, key: string, value: Json)
    requires Proper(Object(fields)) && Proper(value)
    ensures Proper(Object(With(fields, key, value)))
    ensures var after := With(fields, key, value);
            Position(after, key).Some? && after[Position(after, key).value].value == value
  {
    var after := With(fields, key, value);
    var at := match Position(fields, key) { case None => |fields| case Some(i) => i };
    PositionOf(after, at);
  }

  lemma WithTwice(fields: seq<Field>, key: string, first: Json, second: Json)
    requires Proper(Object(fields)) && Proper(first)
    ensures With(With(fields, key, first), key, second) == With(fields, key, second)
  {
    var once := With(fields, key, first);
    var at := match Position(fields, key) { case None => |fields| case Some(i) => i };
    WithDistinct(fields, key, first);
    PositionOf(once, at);
  }

  lemma WithPortProper(config: Json, port: int)
    requires IsConfig(config) && Proper(config)
    ensures Proper(WithPort(config, port)) && IsConfig(WithPort(config, port))
  {
    var http := config.fields[Position(config.fields, "http").value].value;
    WithDistinct(http.fields, "port", Number(port));
    WithDistinct(config.fields, "http", Object(With(http.fields, "port", Number(port))));
  }

  /** Placing a policy on another port does not change its fingerprint. */
  lemma PortIsNotPolicy(digest: Json -> string, config: Json, port: int)
    requires IsConfig(config) && Proper(config)
    ensures IsConfig(WithPort(config, port))
    ensures Fingerprint(digest, WithPort(config, port)) == Fingerprint(digest, config)
  {
    var http := config.fields[Position(config.fields, "http").value].value;
    var placed := Object(With(http.fields, "port", Number(port)));
    WithDistinct(http.fields, "port", Number(port));
    WithDistinct(config.fields, "http", placed);
    WithTwice(http.fields, "port", Number(port), Number(0));
    WithTwice(config.fields, "http", placed, Object(With(http.fields, "port", Number(0))));
  }

  /** With a digest free of collisions, two policies share a fingerprint exactly when, ports aside, they differ in nothing but key order. */
  lemma FingerprintIff(digest: Json -> string, a: Json, b: Json)
    requires CollisionFree(digest) && IsConfig(a) && IsConfig(b) && Proper(a) && Proper(b)
    ensures Fingerprint(digest, a) == Fingerprint(digest, b) <==> Same(WithPort(a, 0), WithPort(b, 0))
  {
    WithPortProper(a, 0);
    WithPortProper(b, 0);
    CanonicalIff(WithPort(a, 0), WithPort(b, 0));
  }

  /** The memo table: configurations are known by identity and do not change. */
  class Fingerprints {
    const digest: Json -> string
    ghost const configs: map<nat, Json>
    var known: map<nat, string>

    ghost predicate Valid()
      reads this
    {
      && (forall id | id in configs :: IsConfig(configs[id]))
      && forall id | id in known :: id in configs && known[id] == Fingerprint(digest, configs[id])
    }

    constructor (digest: Json -> string, ghost configs: map<nat, Json>)
      requires forall id | id in configs :: IsConfig(configs[id])
      ensures Valid() && this.digest == digest && this.configs == configs
    {
      this.digest, this.configs, known := digest, configs, map[];
    }

    method PolicyFingerprint(id: nat, config: Json) returns (value: string)
      requires Valid() && id in configs && configs[id] == config
      modifies this`known
      ensures Valid() && value == Fingerprint(digest, config)
      ensures known == old(known)[id := value]
    {
      if id in known {
        value := known[id];
      } else {
        value := Fingerprint(digest, config);
        known := known[id := value];
      }
    }
  }
}
