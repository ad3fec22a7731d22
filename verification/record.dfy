/**
 * The group-count reducers as written: the accumulator is a plain object
 * literal, so a lookup `acc[key]` also sees the properties every object
 * inherits from `Object.prototype`, and an assignment to `acc["__proto__"]`
 * goes to the prototype setter, which ignores a non-object value.
 * `Analytics.CountBy` is the intended behaviour (a dictionary that starts
 * empty); this module shows where the two part.
 */
module ObjectRecord {
  import opened Types
  import opened Analytics

  /** The property names a plain object inherits from `Object.prototype`. */
  const INHERITED: set<string> := {
    "constructor", "hasOwnProperty", "isPrototypeOf", "propertyIsEnumerable",
    "toLocaleString", "toString", "valueOf", "__proto__",
    "__defineGetter__", "__defineSetter__", "__lookupGetter__", "__lookupSetter__"}

  /** A property value: a count, or the string `+ 1` makes of an inherited function. */
  datatype Slot = Count(n: nat) | NotANumber

  /** The accumulator's own properties and the order they were created in. */
  datatype Record = Record(own: map<string, Slot>, order: seq<string>)

  /** `acc[key] = (acc[key] || 0) + 1` on a plain object. */
  function Bump(acc: Record, key: string): (r: Record)
    ensures forall k :: k in acc.own ==> k in r.own
    ensures forall k :: k in r.own ==> k in acc.own || k == key
    ensures key != "__proto__" ==> key in r.own
    ensures key == "__proto__" ==> r == acc
  {
    if key == "__proto__" then acc                       // the setter ignores the string it is given
    else if key in acc.own then
      match acc.own[key]
      case Count(n) => acc.(own := acc.own[key := Count(n + 1)])
      case NotANumber => acc
    else if key in INHERITED then                        // function + 1 is a string
      Record(acc.own[key := NotANumber], acc.order + [key])
    else
      Record(acc.own[key := Count(1)], acc.order + [key])
  }

  /** `keys.reduce(...)` from `{}`: an own property for every key but `__proto__`, and no other. */
  function Reduce(keys: seq<string>): (r: Record)
    ensures forall k :: k in r.own ==> k in keys && k != "__proto__"
    ensures forall k :: k in keys && k != "__proto__" ==> k in r.own
  {
    if keys == [] then Record(map[], [])
    else
      var init := keys[..|keys| - 1];
      assert keys == init + [keys[|keys| - 1]];
      Bump(Reduce(init), keys[|keys| - 1])
  }

  datatype Entry = Entry(key: string, value: Slot)

  /** `Object.entries(acc)`: the own properties in creation order. */
  function EntriesOf(acc: Record): (r: seq<Entry>)
    requires forall k :: k in acc.order ==> k in acc.own
    ensures |r| == |acc.order|
    ensures forall j :: 0 <= j < |r| ==> r[j] == Entry(acc.order[j], acc.own[acc.order[j]])
  {
    EntriesIn(acc.order, acc.own)
  }

  function EntriesIn(order: seq<string>, own: map<string, Slot>): (r: seq<Entry>)
    requires forall k :: k in order ==> k in own
    ensures |r| == |order|
    ensures forall j :: 0 <= j < |order| ==> r[j] == Entry(order[j], own[order[j]])
  {
    if order == [] then []
    else
      assert forall k :: k in order[1..] ==> k in order;
      [Entry(order[0], own[order[0]])] + EntriesIn(order[1..], own)
  }

  ghost predicate WellFormed(acc: Record) {
    forall k :: k in acc.order <==> k in acc.own
  }

  lemma {:induction false} ReduceWellFormed(keys: seq<string>)
    ensures WellFormed(Reduce(keys))
  {
    if keys != [] {
      ReduceWellFormed(keys[..|keys| - 1]);
    }
  }

  /** The grouping as written: every entry is named after an input key other than `__proto__`. */
  function GroupAsWritten(keys: seq<string>): (r: seq<Entry>)
    ensures forall j :: 0 <= j < |r| ==> r[j].key in keys && r[j].key != "__proto__"
  {
    ReduceWellFormed(keys);
    EntriesOf(Reduce(keys))
  }

  /** A key named `__proto__` is never counted: one key in, no entry out. */
  lemma ProtoKeyIsDropped()
    ensures GroupAsWritten(["__proto__"]) == []
    ensures Tally(["__proto__"]) == [GroupCount("__proto__", 1)]
  {
    assert ["__proto__"][..0] == [];
    assert Reduce(["__proto__"]) == Record(map[], []);
    assert Distinct(["__proto__"]) == ["__proto__"];
  }

  /** A key named after an inherited method gets a count that is not a number. */
  lemma InheritedKeyIsNotANumber()
    ensures GroupAsWritten(["toString"]) == [Entry("toString", NotANumber)]
    ensures Tally(["toString"]) == [GroupCount("toString", 1)]
  {
    assert ["toString"][..0] == [];
    assert "toString" != "__proto__";
    assert Reduce(["toString"]) == Record(map["toString" := NotANumber], ["toString"]);
    assert Distinct(["toString"]) == ["toString"];
  }

  /** The intended grouping written with the as-written entry shape. */
  function AsEntries(g: seq<GroupCount>): (r: seq<Entry>)
    ensures |r| == |g|
    ensures forall j :: 0 <= j < |g| ==> r[j] == Entry(g[j].key, Count(g[j].count))
  {
    if g == [] then [] else [Entry(g[0].key, Count(g[0].count))] + AsEntries(g[1..])
  }

  /** The accumulator holds exactly the intended counts of `keys`, created in first-seen order. */
  ghost predicate Tracks(acc: Record, keys: seq<string>) {
    && acc.order == Distinct(keys)
    && (forall k :: k in acc.own <==> k in keys)
    && (forall k :: k in acc.own ==> acc.own[k] == Count(multiset(keys)[k]))
  }

  lemma BumpTracks(acc: Record, keys: seq<string>, x: string)
    requires Tracks(acc, keys) && x !in INHERITED
    ensures Tracks(Bump(acc, x), keys + [x])
  {
    assert x != "__proto__";
    if x in acc.own {
      var n := multiset(keys)[x];
      assert Bump(acc, x) == acc.(own := acc.own[x := Count(n + 1)]);
      BumpSeen(acc, keys, x);
    } else {
      assert Bump(acc, x) == Record(acc.own[x := Count(1)], acc.order + [x]);
      BumpNew(acc, keys, x);
    }
  }

  lemma BumpSeen(acc: Record, keys: seq<string>, x: string)
    requires Tracks(acc, keys) && x in acc.own
    ensures Tracks(acc.(own := acc.own[x := Count(multiset(keys)[x] + 1)]), keys + [x])
  {
    var keys' := keys + [x];
    assert keys'[..|keys'| - 1] == keys;
    assert x in keys;
    SeenKeyCounts(acc.own, keys, x);
  }

  lemma SeenKeyCounts(own: map<string, Slot>, keys: seq<string>, x: string)
    requires forall k :: k in own ==> own[k] == Count(multiset(keys)[k])
    ensures var own' := own[x := Count(multiset(keys)[x] + 1)];
      forall k :: k in own' && k in own ==> own'[k] == Count(multiset(keys + [x])[k])
  {
    assert multiset(keys + [x]) == multiset(keys) + multiset{x};
  }

  lemma BumpNew(acc: Record, keys: seq<string>, x: string)
    requires Tracks(acc, keys) && x !in acc.own
    ensures Tracks(Record(acc.own[x := Count(1)], acc.order + [x]), keys + [x])
  {
    var keys' := keys + [x];
    assert keys'[..|keys'| - 1] == keys;
    assert x !in keys;
    NewKeyCounts(acc.own, keys, x);
  }

  lemma NewKeyCounts(own: map<string, Slot>, keys: seq<string>, x: string)
    requires forall k :: k in own ==> own[k] == Count(multiset(keys)[k])
    requires x !in keys
    ensures forall k :: k in own[x := Count(1)] ==> own[x := Count(1)][k] == Count(multiset(keys + [x])[k])
  {
    assert multiset(keys + [x]) == multiset(keys) + multiset{x};
  }

  /** The reduction tracks the intended counts as long as no inherited name occurs. */
  lemma {:induction false} ReduceTracksCounts(keys: seq<string>)
    requires forall i :: 0 <= i < |keys| ==> keys[i] !in INHERITED
    ensures Tracks(Reduce(keys), keys)
  {
    if keys != [] {
      var p := keys[..|keys| - 1];
      assert keys == p + [keys[|keys| - 1]];
      ReduceTracksCounts(p);
      BumpTracks(Reduce(p), p, keys[|keys| - 1]);
    }
  }

  /** Away from the inherited names the code as written and the intended grouping agree. */
  lemma AsWrittenAgreesOffPrototype(keys: seq<string>)
    requires forall i :: 0 <= i < |keys| ==> keys[i] !in INHERITED
    ensures GroupAsWritten(keys) == AsEntries(Tally(keys))
  {
    ReduceTracksCounts(keys);
    EntriesAgree(Reduce(keys), Distinct(keys), multiset(keys));
  }

  lemma EntriesAgree(acc: Record, d: seq<string>, m: multiset<string>)
    requires acc.order == d
    requires forall k :: k in d ==> k in acc.own && acc.own[k] == Count(m[k])
    ensures EntriesOf(acc) == AsEntries(Counted(d, m))
  {
    CountedEntries(d, m);
    var mine, theirs := EntriesOf(acc), AsEntries(Counted(d, m));
    forall j | 0 <= j < |d|
      ensures mine[j] == theirs[j]
    {
      assert d[j] in d;
    }
  }
}
