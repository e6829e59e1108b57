/**
 * JSON values as the gateway sees them: both the request payloads it builds
 * and the responses it parses. An object is an ordered list of members, as a
 * Ruby Hash keeps its keys in insertion order.
 */
module Json {
  import opened Wrappers

  datatype Json =
    | JNull
    | JBool(b: bool)
    | JInt(i: int)
    | JString(s: string)
    | JArray(items: seq<Json>)
    | JObject(members: seq<Member>)

  datatype Member = Member(key: string, value: Json)

  /** The keys of a hash, in insertion order. */
  function Keys(h: seq<Member>): (ks: seq<string>)
    ensures |ks| == |h|
    ensures forall i :: 0 <= i < |h| ==> ks[i] == h[i].key
  {
    if h == [] then [] else [h[0].key] + Keys(h[1..])
  }

  /** Hash#key? */
  predicate HasKey(h: seq<Member>, k: string)
  {
    k in Keys(h)
  }

  /** No key occurs twice: what every Ruby Hash satisfies. */
  predicate UniqueKeys(h: seq<Member>)
  {
    var ks := Keys(h);
    forall i, j :: 0 <= i < j < |ks| ==> ks[i] != ks[j]
  }

  /** The value stored under `k`, if any (the first member with that key). */
  function Find(h: seq<Member>, k: string): (r: Option<Json>)
    ensures r.Some? <==> HasKey(h, k)
    ensures r.Some? ==> Member(k, r.value) in h
  {
    if h == [] then None
    else if h[0].key == k then Some(h[0].value)
    else Find(h[1..], k)
  }

  /** Hash#[]: the stored value, or nil when the key is absent. */
  function Lookup(h: seq<Member>, k: string): (v: Json)
    ensures HasKey(h, k) ==> Some(v) == Find(h, k)
    ensures !HasKey(h, k) ==> v == JNull
  {
    Find(h, k).GetOr(JNull)
  }

  /** A Ruby Hash object, updated in place by `hash[key] = value`. */
  class Hash {
    var members: seq<Member>

    constructor(members: seq<Member>)
      ensures this.members == members
    {
      this.members := members;
    }

    /** hash[key] = value */
    method Assign(key: string, value: Json)
      modifies this
      ensures members == Set(old(members), key, value)
    {
      members := Set(members, key, value);
    }
  }

  /**
   * Hash#[]=: an existing key keeps its position and takes the new value;
   * a new key is appended at the end.
   */
  function Set(h: seq<Member>, k: string, v: Json): (r: seq<Member>)
    ensures |r| == if HasKey(h, k) then |h| else |h| + 1
  {
    if h == [] then [Member(k, v)]
    else if h[0].key == k then [Member(k, v)] + h[1..]
    else
      KeysOfTail(h);
      [h[0]] + Set(h[1..], k, v)
  }

  /** After the assignment the key holds the new value, and every other key what it held. */
  lemma {:induction false} SetFind(h: seq<Member>, k: string, v: Json)
    ensures Find(Set(h, k, v), k) == Some(v)
    ensures forall k' :: k' != k ==> Find(Set(h, k, v), k') == Find(h, k')
  {
    var r := Set(h, k, v);
    if h != [] && h[0].key != k {
      SetFind(h[1..], k, v);
      assert r[1..] == Set(h[1..], k, v);
    } else if h != [] {
      assert r[1..] == h[1..];
    }
  }

  /** The assignment keeps the order of the keys and appends a new one. */
  lemma {:induction false} SetKeys(h: seq<Member>, k: string, v: Json)
    ensures Keys(Set(h, k, v)) == if HasKey(h, k) then Keys(h) else Keys(h) + [k]
  {
    if h != [] {
      KeysOfTail(h);
      KeysOfTail(Set(h, k, v));
      if h[0].key != k {
        SetKeys(h[1..], k, v);
        assert Set(h, k, v)[1..] == Set(h[1..], k, v);
      } else {
        assert Set(h, k, v)[1..] == h[1..];
      }
    }
  }

  /** Assignment keeps a hash free of duplicate keys. */
  lemma SetKeepsUniqueKeys(h: seq<Member>, k: string, v: Json)
    requires UniqueKeys(h)
    ensures UniqueKeys(Set(h, k, v))
  {
    var ks, ks' := Keys(h), Keys(Set(h, k, v));
    SetKeys(h, k, v);
    if !HasKey(h, k) {
      assert ks' == ks + [k];
      forall i, j | 0 <= i < j < |ks'| ensures ks'[i] != ks'[j] {
        if j == |ks| {
          assert ks'[i] == ks[i] && ks[i] in ks;
        } else {
          assert ks'[i] == ks[i] && ks'[j] == ks[j];
        }
      }
    }
  }

  lemma KeysOfTail(h: seq<Member>)
    requires h != []
    ensures Keys(h) == [h[0].key] + Keys(h[1..])
  {
  }

  /** Assigning a key the hash does not have appends one member at the end. */
  lemma {:induction false} SetAppends(h: seq<Member>, k: string, v: Json)
    requires !HasKey(h, k)
    ensures Set(h, k, v) == h + [Member(k, v)]
  {
    if h != [] {
      KeysOfTail(h);
      SetAppends(h[1..], k, v);
      calc {
        Set(h, k, v);
        [h[0]] + Set(h[1..], k, v);
        [h[0]] + (h[1..] + [Member(k, v)]);
        { assert h == [h[0]] + h[1..]; }
        h + [Member(k, v)];
      }
    }
  }

  /** The value under the first member with a given key is what Find returns. */
  lemma {:induction false} FindAt(h: seq<Member>, i: nat)
    requires i < |h|
    requires forall j :: 0 <= j < i ==> h[j].key != h[i].key
    ensures Find(h, h[i].key) == Some(h[i].value)
  {
    if i > 0 {
      assert h[1..][i - 1] == h[i];
      FindAt(h[1..], i - 1);
    }
  }

  lemma KeysConcat(a: seq<Member>, b: seq<Member>)
    ensures Keys(a + b) == Keys(a) + Keys(b)
  {
    assert forall i :: 0 <= i < |a + b| ==> Keys(a + b)[i] == (Keys(a) + Keys(b))[i];
  }

  /** A key is looked up in the second half of a hash only when the first half lacks it. */
  lemma {:induction false} FindConcat(a: seq<Member>, b: seq<Member>, k: string)
    ensures Find(a + b, k) == if HasKey(a, k) then Find(a, k) else Find(b, k)
  {
    if a != [] {
      KeysOfTail(a);
      assert (a + b)[1..] == a[1..] + b;
      FindConcat(a[1..], b, k);
    } else {
      assert a + b == b;
    }
  }

  /** Two hashes without duplicate keys and without a key in common append to one. */
  lemma UniqueConcat(a: seq<Member>, b: seq<Member>)
    requires UniqueKeys(a) && UniqueKeys(b)
    requires forall i :: 0 <= i < |b| ==> !HasKey(a, b[i].key)
    ensures UniqueKeys(a + b)
  {
    KeysConcat(a, b);
    var ks, ka, kb := Keys(a + b), Keys(a), Keys(b);
    forall i, j | 0 <= i < j < |ks| ensures ks[i] != ks[j] {
      if j >= |ka| && i < |ka| {
        assert ks[j] == b[j - |ka|].key && ks[i] == ka[i] && ka[i] in ka;
      }
    }
  }

  /** Hash#[]= for each member in turn. */
  function SetAll(h: seq<Member>, ms: seq<Member>): seq<Member>
    decreases |ms|
  {
    if ms == [] then h else SetAll(Set(h, ms[0].key, ms[0].value), ms[1..])
  }

  lemma ConcatAssoc<T>(a: seq<T>, b: seq<T>, c: seq<T>)
    ensures a + b + c == a + (b + c)
  {
  }

  lemma AppendFirst<T>(a: seq<T>, b: seq<T>)
    requires b != []
    ensures a + [b[0]] + b[1..] == a + b
  {
    assert b == [b[0]] + b[1..];
  }

  /** Assigning members with new, pairwise distinct keys appends them in order. */
  lemma {:induction false} SetAllAppends(h: seq<Member>, ms: seq<Member>)
    requires forall i :: 0 <= i < |ms| ==> !HasKey(h, ms[i].key)
    requires forall i, j :: 0 <= i < j < |ms| ==> ms[i].key != ms[j].key
    ensures SetAll(h, ms) == h + ms
    decreases |ms|
  {
    if ms != [] {
      var h' := h + [ms[0]];
      assert SetAll(h, ms) == SetAll(h', ms[1..]) by {
        SetAppends(h, ms[0].key, ms[0].value);
      }
      assert forall i :: 0 <= i < |ms[1..]| ==> !HasKey(h', ms[1..][i].key) by {
        KeysConcat(h, [ms[0]]);
        forall i | 0 <= i < |ms[1..]| ensures !HasKey(h', ms[1..][i].key) {
          assert ms[1..][i] == ms[i + 1];
        }
      }
      SetAllAppends(h', ms[1..]);
      AppendFirst(h, ms);
    }
  }
}
