/** The PHP null-or-value idiom used for the client's last error and for lookups. */
module Optional {
  datatype Option<+T> = None | Some(value: T) {
    function GetOr(default: T): T
    {
      match this
      case Some(v) => v
      case None => default
    }
  }
}

/**
 * PHP values as they travel through the client: request payloads are arrays
 * with string keys, kept in insertion order, and responses are whatever the
 * JSON decoder produced.
 */
module PhpArray {
  import opened Optional

  datatype Value =
    | Null
    | Bool(b: bool)
    | Int(i: int)
    | Str(s: string)
    | List(items: seq<Value>)
    | Dict(entries: seq<(string, Value)>)

  /** A string-keyed PHP array: its entries in insertion order. */
  type Assoc = seq<(string, Value)>

  function Keys(p: Assoc): (ks: seq<string>)
    ensures |ks| == |p|
    ensures forall i :: 0 <= i < |p| ==> ks[i] == p[i].0
  {
    if p == [] then [] else [p[0].0] + Keys(p[1..])
  }

  /** A PHP array never holds the same key twice. */
  predicate UniqueKeys(p: Assoc)
  {
    forall i, j :: 0 <= i < j < |p| ==> p[i].0 != p[j].0
  }

  /** $p[$k] when isset, otherwise nothing (the first entry with that key). */
  function Lookup(p: Assoc, k: string): (r: Option<Value>)
    ensures r.None? <==> k !in Keys(p)
    ensures r.Some? ==> (k, r.value) in p
  {
    if p == [] then None
    else if p[0].0 == k then Some(p[0].1)
    else Lookup(p[1..], k)
  }

  /** r is p with some entries left out, the others kept in p's order. */
  predicate Subsequence(r: Assoc, p: Assoc)
  {
    if r == [] then true
    else if p == [] then false
    else if r[0] == p[0] then Subsequence(r[1..], p[1..])
    else Subsequence(r, p[1..])
  }

  /** The array with every entry under key k removed, the rest in order. */
  function Without(p: Assoc, k: string): (r: Assoc)
    ensures k !in Keys(r)
    ensures forall e :: e in r <==> e in p && e.0 != k
    ensures Subsequence(r, p)
    ensures k !in Keys(p) ==> r == p
  {
    if p == [] then []
    else
      var rest := Without(p[1..], k);
      var r := (if p[0].0 == k then [] else [p[0]]) + rest;
      assert p == [p[0]] + p[1..];
      assert Keys(p) == [p[0].0] + Keys(p[1..]);
      assert Subsequence(r, p) by {
        if p[0].0 != k {
          assert r[0] == p[0] && r[1..] == rest;
        } else {
          assert r == rest;
          if rest != [] {
            assert rest[0] in rest && rest[0].0 != k;
            assert rest[0] != p[0];
          }
        }
      }
      r
  }

  /** The entries of a, in a's order, each taking b's value when b has the same key. */
  function Overwritten(a: Assoc, b: Assoc): (r: Assoc)
    ensures Keys(r) == Keys(a)
  {
    if a == [] then []
    else [(a[0].0, Lookup(b, a[0].0).GetOr(a[0].1))] + Overwritten(a[1..], b)
  }

  /** The entries of b, in b's order, whose keys a does not have. */
  function Appended(b: Assoc, a: Assoc): (r: Assoc)
    ensures forall k :: k in Keys(r) ==> k in Keys(b) && k !in Keys(a)
    ensures forall e :: e in r <==> e in b && e.0 !in Keys(a)
    ensures Subsequence(r, b)
  {
    if b == [] then []
    else
      var rest := Appended(b[1..], a);
      var r := (if b[0].0 in Keys(a) then [] else [b[0]]) + rest;
      assert b == [b[0]] + b[1..];
      assert Subsequence(r, b) by {
        if b[0].0 !in Keys(a) {
          assert r[0] == b[0] && r[1..] == rest;
        } else {
          assert r == rest;
          if rest != [] {
            assert rest[0] in rest && rest[0].0 !in Keys(a);
            assert rest[0] != b[0];
          }
        }
      }
      r
  }

  /** array_merge(a, b) for string keys: a later value replaces an earlier one in place,
      new keys follow in b's order. */
  function ArrayMerge(a: Assoc, b: Assoc): (r: Assoc)
    ensures |r| >= |a| && Keys(r)[..|a|] == Keys(a)
    ensures Subsequence(r[|a|..], b)
    ensures forall e :: e in r[|a|..] <==> e in b && e.0 !in Keys(a)
  {
    var front, back := Overwritten(a, b), Appended(b, a);
    KeysAppend(front, back);
    assert (front + back)[|a|..] == back;
    front + back
  }

  lemma {:induction false} KeysAppend(p: Assoc, q: Assoc)
    ensures Keys(p + q) == Keys(p) + Keys(q)
  {
    if p != [] {
      assert (p + q)[0] == p[0] && (p + q)[1..] == p[1..] + q;
      KeysAppend(p[1..], q);
    } else {
      assert p + q == q;
    }
  }

  lemma {:induction false} LookupAppend(p: Assoc, q: Assoc, k: string)
    ensures Lookup(p + q, k) == if k in Keys(p) then Lookup(p, k) else Lookup(q, k)
  {
    if p != [] {
      assert (p + q)[0] == p[0] && (p + q)[1..] == p[1..] + q;
      LookupAppend(p[1..], q, k);
    } else {
      assert p + q == q;
    }
  }

  lemma {:induction false} LookupOverwritten(a: Assoc, b: Assoc, k: string)
    requires k in Keys(a)
    ensures Lookup(Overwritten(a, b), k) == Some(Lookup(b, k).GetOr(Lookup(a, k).value))
  {
    if a[0].0 != k {
      LookupOverwritten(a[1..], b, k);
    }
  }

  lemma {:induction false} LookupAppended(b: Assoc, a: Assoc, k: string)
    requires k !in Keys(a)
    ensures Lookup(Appended(b, a), k) == Lookup(b, k)
  {
    if b != [] {
      LookupAppended(b[1..], a, k);
      var head := if b[0].0 in Keys(a) then [] else [b[0]];
      LookupAppend(head, Appended(b[1..], a), k);
    }
  }

  /** array_merge precedence: a key of b reads b's value, any other key reads a's. */
  lemma MergeLookup(a: Assoc, b: Assoc, k: string)
    ensures Lookup(ArrayMerge(a, b), k) == if k in Keys(b) then Lookup(b, k) else Lookup(a, k)
  {
    LookupAppend(Overwritten(a, b), Appended(b, a), k);
    if k in Keys(a) {
      LookupOverwritten(a, b, k);
    } else {
      LookupAppended(b, a, k);
    }
  }

  /** array_merge loses no key of either array and adds none. */
  lemma MergeKeys(a: Assoc, b: Assoc)
    ensures forall k :: k in Keys(ArrayMerge(a, b)) <==> k in Keys(a) || k in Keys(b)
  {
    KeysAppend(Overwritten(a, b), Appended(b, a));
    forall k | k in Keys(b) && k !in Keys(a)
      ensures k in Keys(Appended(b, a))
    {
      LookupAppended(b, a, k);
    }
  }

  lemma {:induction false} AppendedSingle(b: Assoc, k: string, v: Value)
    ensures Appended(b, [(k, v)]) == Without(b, k)
  {
    if b != [] {
      AppendedSingle(b[1..], k, v);
      assert Keys([(k, v)]) == [k];
    }
  }

  /** A new key in front of distinct keys keeps them distinct. */
  lemma ConsUnique(k: string, v: Value, rest: Assoc)
    requires UniqueKeys(rest) && k !in Keys(rest)
    ensures UniqueKeys([(k, v)] + rest)
  {
    var r := [(k, v)] + rest;
    forall i, j | 0 <= i < j < |r|
      ensures r[i].0 != r[j].0
    {
      assert r[j] == rest[j - 1] && Keys(rest)[j - 1] == r[j].0;
      if i > 0 {
        assert r[i] == rest[i - 1];
      }
    }
  }

  /** Removing a key keeps the keys distinct. */
  lemma {:induction false} WithoutUnique(p: Assoc, k: string)
    requires UniqueKeys(p)
    ensures UniqueKeys(Without(p, k))
  {
    if p != [] {
      var tail := p[1..];
      assert UniqueKeys(tail) by {
        forall i, j | 0 <= i < j < |tail|
          ensures tail[i].0 != tail[j].0
        {
          assert tail[i] == p[i + 1] && tail[j] == p[j + 1];
        }
      }
      WithoutUnique(tail, k);
      var rest := Without(tail, k);
      if p[0].0 != k {
        assert p[0].0 !in Keys(rest);
        ConsUnique(p[0].0, p[0].1, rest);
        assert Without(p, k) == [(p[0].0, p[0].1)] + rest;
      } else {
        assert Without(p, k) == rest;
      }
    }
  }

  /** Appending arrays with distinct keys and no key in common gives distinct keys. */
  lemma AppendUnique(p: Assoc, q: Assoc)
    requires UniqueKeys(p) && UniqueKeys(q)
    requires forall k :: k in Keys(q) ==> k !in Keys(p)
    ensures UniqueKeys(p + q)
  {
    var r := p + q;
    forall i, j | 0 <= i < j < |r|
      ensures r[i].0 != r[j].0
    {
      if j >= |p| {
        assert r[j] == q[j - |p|] && Keys(q)[j - |p|] == r[j].0;
        if i < |p| {
          assert r[i] == p[i] && Keys(p)[i] == r[i].0;
          assert r[j].0 in Keys(q) && r[i].0 in Keys(p);
        } else {
          assert r[i] == q[i - |p|];
        }
      } else {
        assert r[i] == p[i] && r[j] == p[j];
      }
    }
  }

  lemma {:induction false} AppendedUnique(b: Assoc, a: Assoc)
    requires UniqueKeys(b)
    ensures UniqueKeys(Appended(b, a))
  {
    if b != [] {
      var tail := b[1..];
      assert UniqueKeys(tail) by {
        forall i, j | 0 <= i < j < |tail|
          ensures tail[i].0 != tail[j].0
        {
          assert tail[i] == b[i + 1] && tail[j] == b[j + 1];
        }
      }
      AppendedUnique(tail, a);
      var rest := Appended(tail, a);
      if b[0].0 !in Keys(a) {
        assert b[0].0 !in Keys(rest);
        ConsUnique(b[0].0, b[0].1, rest);
        assert Appended(b, a) == [(b[0].0, b[0].1)] + rest;
      } else {
        assert Appended(b, a) == rest;
      }
    }
  }

  /** array_merge of two PHP arrays is a PHP array: no key occurs twice. */
  lemma MergeUnique(a: Assoc, b: Assoc)
    requires UniqueKeys(a) && UniqueKeys(b)
    ensures UniqueKeys(ArrayMerge(a, b))
  {
    var front := Overwritten(a, b);
    assert UniqueKeys(front) by {
      forall i, j | 0 <= i < j < |front|
        ensures front[i].0 != front[j].0
      {
        assert Keys(front)[i] == Keys(a)[i] && Keys(front)[j] == Keys(a)[j];
      }
    }
    AppendedUnique(b, a);
    AppendUnique(front, Appended(b, a));
  }

  /** array_merge([k => v], b): k stays first, with b's value when b supplies one, and b's
      other entries follow unchanged and in order. */
  lemma MergeSingle(k: string, v: Value, b: Assoc)
    ensures ArrayMerge([(k, v)], b) == [(k, Lookup(b, k).GetOr(v))] + Without(b, k)
  {
    AppendedSingle(b, k, v);
  }
}
