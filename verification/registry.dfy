/**
 * The hub's observer registry `observers: [String: [KeyObserver]]` as a value:
 * a map from storage key to the ordered list of observers registered for it.
 * Observers are compared by identity, so `O` is only required to support `==`.
 */
module Registry {

  type Registry<O> = map<string, seq<O>>

  /** `observers[key, default: []]` */
  function ObserversFor<O>(reg: Registry<O>, key: string): seq<O> {
    if key in reg then reg[key] else []
  }

  /** The observer is listed under some key. */
  predicate Registered<O(==)>(reg: Registry<O>, o: O) {
    exists k :: k in reg && o in reg[k]
  }

  /**
   * `observers[key, default: []].append(o)`: the key's list (empty if the key
   * was absent) gains `o` at its end, with no check for an existing entry, and
   * every other key keeps its list.
   */
  function Appended<O>(reg: Registry<O>, key: string, o: O): (r: Registry<O>)
    ensures r.Keys == reg.Keys + {key}
    ensures r[key] == ObserversFor(reg, key) + [o]
    ensures forall k :: k in reg && k != key ==> r[k] == reg[k]
  {
    reg[key := ObserversFor(reg, key) + [o]]
  }

  /** Appending never deduplicates: the same observer added twice is listed twice more. */
  lemma AppendedTwiceListsTwice<O>(reg: Registry<O>, key: string, o: O)
    ensures multiset(Appended(Appended(reg, key, o), key, o)[key])[o]
         == multiset(ObserversFor(reg, key))[o] + 2
  {
  }

  /** `list.filter { $0 !== o }` */
  function Without<O(==)>(s: seq<O>, o: O): (r: seq<O>)
    ensures forall x | x in r :: x in s && x != o
    ensures forall x | x in s && x != o :: x in r
    ensures multiset(r) == multiset(s)[o := 0]
    ensures |r| <= |s|
  {
    if s == [] then []
    else
      assert s == [s[0]] + s[1..];
      (if s[0] == o then [] else [s[0]]) + Without(s[1..], o)
  }

  /** `a` is `b` with some entries deleted and the rest left in their order. */
  predicate IsSubsequence<O(==)>(a: seq<O>, b: seq<O>)
    decreases |b|
  {
    a == [] || (b != [] && if a[0] == b[0] then IsSubsequence(a[1..], b[1..]) else IsSubsequence(a, b[1..]))
  }

  /** Filtering keeps the survivors in their original relative order. */
  lemma {:induction false} WithoutKeepsOrder<O>(s: seq<O>, o: O)
    ensures IsSubsequence(Without(s, o), s)
  {
    if s != [] {
      WithoutKeepsOrder(s[1..], o);
      var rest := Without(s[1..], o);
      if s[0] == o {
        assert Without(s, o) == rest;
        assert rest == [] || rest[0] != s[0];
      } else {
        assert Without(s, o)[1..] == rest;
      }
    }
  }

  /** Filtering out an observer that is not listed changes nothing. */
  lemma {:induction false} WithoutAbsent<O>(s: seq<O>, o: O)
    requires o !in s
    ensures Without(s, o) == s
  {
    if s != [] {
      WithoutAbsent(s[1..], o);
      assert s == [s[0]] + s[1..];
    }
  }

  /**
   * `observers.mapValues { $0.filter { $0 !== o } }`: every key keeps its
   * place, emptied lists included, and loses every entry that is `o`.
   */
  function Removed<O(==)>(reg: Registry<O>, o: O): (r: Registry<O>)
    ensures r.Keys == reg.Keys
    ensures forall k :: k in reg ==> r[k] == Without(reg[k], o)
  {
    map k | k in reg :: Without(reg[k], o)
  }

  /** Removal is total: afterwards `o` is listed under no key at all. */
  lemma RemovedUnderNoKey<O>(reg: Registry<O>, o: O)
    ensures !Registered(Removed(reg, o), o)
    ensures forall k :: o !in ObserversFor(Removed(reg, o), k)
  {
  }

  /**
   * Removal touches nothing but `o`: under every key each other observer keeps
   * its multiplicity, and the survivors keep their relative order.
   */
  lemma RemovedKeepsOthers<O>(reg: Registry<O>, o: O)
    ensures forall k, x :: k in reg && x != o ==> multiset(Removed(reg, o)[k])[x] == multiset(reg[k])[x]
    ensures forall k :: k in reg ==> IsSubsequence(Removed(reg, o)[k], reg[k])
  {
    forall k | k in reg
      ensures IsSubsequence(Removed(reg, o)[k], reg[k])
    {
      WithoutKeepsOrder(reg[k], o);
    }
  }

  /** Removing an observer that is listed nowhere leaves the registry as it was. */
  lemma RemovedUnregisteredIsNoOp<O>(reg: Registry<O>, o: O)
    requires !Registered(reg, o)
    ensures Removed(reg, o) == reg
  {
    forall k | k in reg
      ensures Removed(reg, o)[k] == reg[k]
    {
      WithoutAbsent(reg[k], o);
    }
  }

  /** Removing the same observer twice is the same as removing it once. */
  lemma RemovedIdempotent<O>(reg: Registry<O>, o: O)
    ensures Removed(Removed(reg, o), o) == Removed(reg, o)
  {
    RemovedUnderNoKey(reg, o);
    RemovedUnregisteredIsNoOp(Removed(reg, o), o);
  }

  /**
   * The observers one external change reaches, in dispatch order: the lists
   * of the changed keys, one after another.
   */
  function Fanout<O>(reg: Registry<O>, keys: seq<string>): (r: seq<O>)
    ensures forall x | x in r :: exists i :: 0 <= i < |keys| && x in ObserversFor(reg, keys[i])
    ensures forall i, x | 0 <= i < |keys| && x in ObserversFor(reg, keys[i]) :: x in r
  {
    if keys == [] then []
    else
      var r := ObserversFor(reg, keys[0]) + Fanout(reg, keys[1..]);
      assert forall i | 0 < i < |keys| :: keys[i] == keys[1..][i - 1];
      r
  }

  /** Dispatching key by key: one more key appends that key's list. */
  lemma {:induction false} FanoutSnoc<O>(reg: Registry<O>, keys: seq<string>, key: string)
    ensures Fanout(reg, keys + [key]) == Fanout(reg, keys) + ObserversFor(reg, key)
  {
    if keys != [] {
      assert (keys + [key])[1..] == keys[1..] + [key];
      FanoutSnoc(reg, keys[1..], key);
    }
  }
}
