/**
  The Ruby values a JSON body decodes to (nil, booleans, integers, floats,
  strings, symbols, arrays and insertion-ordered hashes) and the recursive
  key transform `deep_symbolize_keys` the client applies to decoded payloads.
 */
module Json {
  import opened Wrappers

  /** A hash key: a String or a Symbol with the same name. */
  datatype Key = Str(name: string) | Sym(name: string)

  datatype Json =
    | JNull
    | JBool(b: bool)
    | JInt(i: int)
    | JFloat(r: real)
    | JStr(s: string)
    | JSym(sym: string)
    | JArr(items: seq<Json>)
    | JObj(members: seq<Member>)

  /** One entry of a hash, in insertion order. */
  datatype Member = Member(key: Key, value: Json)

  /** `to_sym` on a String or a Symbol. */
  function ToSym(k: Key): Key {
    Sym(k.name)
  }

  function KeySet(ms: seq<Member>): set<Key> {
    set m | m in ms :: m.key
  }

  lemma KeySetConcat(a: seq<Member>, b: seq<Member>)
    ensures KeySet(a + b) == KeySet(a) + KeySet(b)
  {
    assert forall m :: m in a + b <==> m in a || m in b;
  }

  /** Ruby hashes never hold a key twice. */
  predicate DistinctKeys(ms: seq<Member>) {
    forall i, j | 0 <= i < j < |ms| :: ms[i].key != ms[j].key
  }

  /** `Hash#[]`: the value stored under `k`, if any. */
  function Lookup(ms: seq<Member>, k: Key): (r: Option<Json>)
    ensures r.Some? <==> k in KeySet(ms)
    ensures r.Some? ==> Member(k, r.value) in ms
  {
    if ms == [] then None
    else if ms[0].key == k then Some(ms[0].value)
    else Lookup(ms[1..], k)
  }

  /** `Hash#[]=`: overwrite the value of a key already present, keeping its position, or append a new entry. */
  function Store(ms: seq<Member>, k: Key, v: Json): (r: seq<Member>)
    ensures KeySet(r) == KeySet(ms) + {k}
    ensures k !in KeySet(ms) ==> r == ms + [Member(k, v)]
    ensures forall m | m in r :: m in ms || m == Member(k, v)
  {
    if ms == [] then [Member(k, v)]
    else
      KeySetConcat([ms[0]], ms[1..]);
      assert ms == [ms[0]] + ms[1..];
      if ms[0].key == k then
        KeySetConcat([Member(k, v)], ms[1..]);
        [Member(k, v)] + ms[1..]
      else
        var tail := Store(ms[1..], k, v);
        KeySetConcat([ms[0]], tail);
        [ms[0]] + tail
  }

  /** Overwriting a key already present changes that entry's value in place and leaves every other entry where it was. */
  lemma {:induction false} StoreInPlace(ms: seq<Member>, k: Key, v: Json)
    requires k in KeySet(ms)
    ensures |Store(ms, k, v)| == |ms|
    ensures forall i | 0 <= i < |ms| && ms[i].key != k :: Store(ms, k, v)[i] == ms[i]
    ensures DistinctKeys(ms) ==> forall i | 0 <= i < |ms| && ms[i].key == k :: Store(ms, k, v)[i] == Member(k, v)
  {
    var r := Store(ms, k, v);
    if ms[0].key == k {
      assert r == [Member(k, v)] + ms[1..];
      if DistinctKeys(ms) {
        forall i | 0 <= i < |ms| && ms[i].key == k
          ensures r[i] == Member(k, v)
        {
          assert i == 0;
        }
      }
    } else {
      var tail := Store(ms[1..], k, v);
      assert r == [ms[0]] + tail;
      var m :| m in ms && m.key == k;
      assert m in ms[1..];
      StoreInPlace(ms[1..], k, v);
      forall i | 0 <= i < |ms| && ms[i].key != k
        ensures r[i] == ms[i]
      {
        if i > 0 {
          assert r[i] == tail[i - 1] && ms[1..][i - 1] == ms[i];
        }
      }
      if DistinctKeys(ms) {
        assert DistinctKeys(ms[1..]);
        forall i | 0 <= i < |ms| && ms[i].key == k
          ensures r[i] == Member(k, v)
        {
          assert r[i] == tail[i - 1] && ms[1..][i - 1] == ms[i];
        }
      }
    }
  }

  lemma {:induction false} StoreKeepsKeysDistinct(ms: seq<Member>, k: Key, v: Json)
    requires DistinctKeys(ms)
    ensures DistinctKeys(Store(ms, k, v))
  {
    if ms != [] && ms[0].key != k {
      StoreKeepsKeysDistinct(ms[1..], k, v);
      var tail := Store(ms[1..], k, v);
      assert ms[0].key !in KeySet(ms[1..]);
      assert ms[0].key !in KeySet(tail);
    }
  }

  /** Storing `rest` entry by entry into `memo`, as `each_with_object` does. */
  function StoreAll(memo: seq<Member>, rest: seq<Member>): (r: seq<Member>)
    ensures KeySet(r) == KeySet(memo) + KeySet(rest)
    ensures forall m | m in r :: m in memo || m in rest
    decreases |rest|
  {
    if rest == [] then memo
    else
      KeySetConcat([rest[0]], rest[1..]);
      assert rest == [rest[0]] + rest[1..];
      StoreAll(Store(memo, rest[0].key, rest[0].value), rest[1..])
  }

  lemma {:induction false} StoreAllKeepsKeysDistinct(memo: seq<Member>, rest: seq<Member>)
    requires DistinctKeys(memo)
    ensures DistinctKeys(StoreAll(memo, rest))
    decreases |rest|
  {
    if rest != [] {
      StoreKeepsKeysDistinct(memo, rest[0].key, rest[0].value);
      StoreAllKeepsKeysDistinct(Store(memo, rest[0].key, rest[0].value), rest[1..]);
    }
  }

  /**
    `deep_symbolize_keys`: arrays are mapped element-wise, hashes are rebuilt
    with every key turned into a Symbol (a later entry whose key collides
    after conversion overwrites the earlier one in place), and every other
    value is returned as it is.
   */
  function SymbolizeKeys(j: Json): Json
    decreases j, 1
  {
    match j
    case JArr(items) => JArr(seq(|items|, i requires 0 <= i < |items| => SymbolizeKeys(items[i])))
    case JObj(ms) => JObj(StoreAll([], SymbolizeMembers(ms)))
    case _ => j
  }

  /** The entries `each_with_object` stores, in order: each key as a Symbol, each value transformed. */
  function SymbolizeMembers(ms: seq<Member>): (r: seq<Member>)
    ensures |r| == |ms|
    ensures forall i | 0 <= i < |ms| :: r[i] == Member(ToSym(ms[i].key), SymbolizeKeys(ms[i].value))
    decreases JObj(ms), 0
  {
    seq(|ms|, i requires 0 <= i < |ms| => Member(ToSym(ms[i].key), SymbolizeKeys(ms[i].value)))
  }

  /** Every hash, at every depth, has distinct Symbol keys. */
  predicate Symbolized(j: Json)
    decreases j
  {
    match j
    case JArr(items) => forall i | 0 <= i < |items| :: Symbolized(items[i])
    case JObj(ms) => DistinctKeys(ms) && forall i | 0 <= i < |ms| :: ms[i].key.Sym? && Symbolized(ms[i].value)
    case _ => true
  }

  /** After a store the key reads back as the stored value and every other key reads as before. */
  lemma {:induction false} StoreThenLookup(ms: seq<Member>, k: Key, v: Json, k': Key)
    ensures Lookup(Store(ms, k, v), k) == Some(v)
    ensures k' != k ==> Lookup(Store(ms, k, v), k') == Lookup(ms, k')
  {
    if ms != [] && ms[0].key != k {
      StoreThenLookup(ms[1..], k, v, k');
    }
  }

  /** Storing entries whose keys are all new appends them in order. */
  lemma {:induction false} StoreAllAppends(memo: seq<Member>, rest: seq<Member>)
    requires DistinctKeys(memo + rest)
    ensures StoreAll(memo, rest) == memo + rest
    decreases |rest|
  {
    if rest != [] {
      var all := memo + rest;
      assert rest[0] == all[|memo|];
      forall m | m in memo ensures m.key != rest[0].key {
        var i :| 0 <= i < |memo| && memo[i] == m;
        assert all[i] == m;
      }
      assert rest[0].key !in KeySet(memo);
      var memo' := memo + [rest[0]];
      assert memo' + rest[1..] == all;
      StoreAllAppends(memo', rest[1..]);
    }
  }

  /**
    The transform keeps the shape of a value: an array keeps its length, a
    hash keeps its keys up to String-to-Symbol conversion, and every other
    value is unchanged.
   */
  lemma SymbolizeKeysShape(j: Json)
    ensures j.JArr? ==> SymbolizeKeys(j).JArr? && |SymbolizeKeys(j).items| == |j.items|
    ensures j.JObj? ==> SymbolizeKeys(j).JObj? && KeySet(SymbolizeKeys(j).members) == set m | m in j.members :: ToSym(m.key)
    ensures !j.JArr? && !j.JObj? ==> SymbolizeKeys(j) == j
  {
    if j.JObj? {
      var mapped := SymbolizeMembers(j.members);
      assert KeySet(mapped) == set m | m in j.members :: ToSym(m.key) by {
        forall k | k in KeySet(mapped) ensures k in set m | m in j.members :: ToSym(m.key) {
          var m' :| m' in mapped && m'.key == k;
          var i :| 0 <= i < |mapped| && mapped[i] == m';
          assert j.members[i] in j.members;
        }
        forall k | k in set m | m in j.members :: ToSym(m.key) ensures k in KeySet(mapped) {
          var m :| m in j.members && ToSym(m.key) == k;
          var i :| 0 <= i < |j.members| && j.members[i] == m;
          assert mapped[i] in mapped;
        }
      }
    }
  }

  /** Every hash in the result, at every depth, has distinct Symbol keys. */
  lemma {:induction false} SymbolizeKeysSymbolizes(j: Json)
    ensures Symbolized(SymbolizeKeys(j))
    decreases j
  {
    match j
    case JArr(items) =>
      forall i | 0 <= i < |items| ensures Symbolized(SymbolizeKeys(items[i])) {
        SymbolizeKeysSymbolizes(items[i]);
      }
    case JObj(ms) =>
      var mapped := SymbolizeMembers(ms);
      var r := StoreAll([], mapped);
      StoreAllKeepsKeysDistinct([], mapped);
      forall i | 0 <= i < |r| ensures r[i].key.Sym? && Symbolized(r[i].value) {
        assert r[i] in r;
        var k :| 0 <= k < |mapped| && mapped[k] == r[i];
        SymbolizeKeysSymbolizes(ms[k].value);
      }
    case _ =>
  }

  /** A value whose hashes already have distinct Symbol keys is left as it is. */
  lemma {:induction false} SymbolizedIsFixpoint(j: Json)
    requires Symbolized(j)
    ensures SymbolizeKeys(j) == j
    decreases j
  {
    match j
    case JArr(items) =>
      forall i | 0 <= i < |items| ensures SymbolizeKeys(items[i]) == items[i] {
        SymbolizedIsFixpoint(items[i]);
      }
      assert SymbolizeKeys(j).items == items;
    case JObj(ms) =>
      var mapped := SymbolizeMembers(ms);
      forall i | 0 <= i < |ms| ensures mapped[i] == ms[i] {
        SymbolizedIsFixpoint(ms[i].value);
      }
      assert mapped == ms;
      assert [] + ms == ms;
      StoreAllAppends([], ms);
    case _ =>
  }

  /** `deep_symbolize_keys` is idempotent. */
  lemma SymbolizeKeysIdempotent(j: Json)
    ensures SymbolizeKeys(SymbolizeKeys(j)) == SymbolizeKeys(j)
  {
    SymbolizeKeysSymbolizes(j);
    SymbolizedIsFixpoint(SymbolizeKeys(j));
  }

  /**
    A hash whose key names are distinct, such as any hash the JSON parser
    returns, loses no entry and renames no key except to its Symbol: entry
    `i` of the result is entry `i` of the input with a Symbol key and a
    transformed value.
   */
  lemma SymbolizeKeysKeepsEntries(ms: seq<Member>)
    requires forall i, j | 0 <= i < j < |ms| :: ms[i].key.name != ms[j].key.name
    ensures SymbolizeKeys(JObj(ms)).members == SymbolizeMembers(ms)
    ensures |SymbolizeKeys(JObj(ms)).members| == |ms|
  {
    var mapped := SymbolizeMembers(ms);
    forall i, j | 0 <= i < j < |mapped| ensures mapped[i].key != mapped[j].key {
      assert mapped[i].key == Sym(ms[i].key.name) && mapped[j].key == Sym(ms[j].key.name);
    }
    assert [] + mapped == mapped;
    StoreAllAppends([], mapped);
    assert SymbolizeKeys(JObj(ms)) == JObj(StoreAll([], mapped));
  }
}
