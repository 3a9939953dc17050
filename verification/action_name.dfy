/**
 * The client derives the remote action name from the name of the PHP method
 * that was called: a regular-expression replacement puts "_" in front of every
 * ASCII capital that is not at the start of the string, and strtolower then
 * lower-cases the whole result ("getBulkTrackingNo" becomes
 * "get_bulk_tracking_no").
 */
module ActionName {

  /** What the pattern class [A-Z] matches. */
  predicate IsUpper(c: char) { 'A' <= c <= 'Z' }

  predicate IsLower(c: char) { 'a' <= c <= 'z' }

  /** strtolower on one character: ASCII capitals become small letters, anything else is kept. */
  function ToLower(c: char): (d: char)
    ensures !IsUpper(d)
    ensures IsUpper(c) ==> IsLower(d) && ToUpper(d) == c
    ensures !IsUpper(c) ==> d == c
  {
    if IsUpper(c) then (c as int + 32) as char else c
  }

  function ToUpper(c: char): char
  {
    if IsLower(c) then (c as int - 32) as char else c
  }

  function CountUpper(s: string): nat
  {
    if s == [] then 0 else (if IsUpper(s[0]) then 1 else 0) + CountUpper(s[1..])
  }

  predicate NoUpper(s: string)
  {
    forall i :: 0 <= i < |s| ==> !IsUpper(s[i])
  }

  /** strtolower on a whole string. */
  function Lower(s: string): (r: string)
    ensures |r| == |s|
    ensures forall i :: 0 <= i < |s| ==> r[i] == ToLower(s[i])
  {
    if s == [] then [] else [ToLower(s[0])] + Lower(s[1..])
  }

  /** One scan position of the replacement: a capital is preceded by one "_". */
  function Marked(c: char): string
  {
    if IsUpper(c) then ['_', c] else [c]
  }

  /** The replacement's scan of t from index i on, every capital it meets being marked. */
  function MarkFrom(t: string, i: nat): string
    requires i <= |t|
    decreases |t| - i
  {
    if i == |t| then [] else Marked(t[i]) + MarkFrom(t, i + 1)
  }

  /** The replacement applied to a whole string whose every position may be marked. */
  function MarkCapitals(t: string): (r: string)
    ensures |r| == |t| + CountUpper(t)
  {
    MarkCapitalsCons(t);
    MarkFrom(t, 0)
  }

  /** t[i] sits in r after the i characters before it and one underscore for each capital
      from index lo up to and including it, right behind an underscore when it is itself a
      capital. */
  predicate PlacedAt(t: string, r: string, lo: nat, i: nat)
    requires lo <= i < |t|
  {
    var j := i + CountUpper(t[lo..i + 1]);
    j < |r| && r[j] == t[i] && (IsUpper(t[i]) ==> r[j - 1] == '_')
  }

  /** preg_replace('/(?<!^)([A-Z])/', '_$1', s): the look-behind leaves position 0 unmarked,
      and the scan marks every later capital. */
  function InsertUnderscores(s: string): (r: string)
    ensures s == [] ==> r == []
    ensures s != [] ==> |r| == |s| + CountUpper(s[1..]) && r[0] == s[0]
    ensures forall i :: 0 < i < |s| ==> PlacedAt(s, r, 1, i)
  {
    if s == [] then []
    else
      var t := s[1..];
      MarkFromShift(s, 1);
      MarkCapitalsCons(t);
      var r := [s[0]] + MarkCapitals(t);
      assert forall i :: 0 < i < |s| ==> PlacedAt(s, r, 1, i) by {
        MarkPositions(t);
        forall i | 0 < i < |s|
          ensures PlacedAt(s, r, 1, i)
        {
          assert PlacedAt(t, MarkCapitals(t), 0, i - 1);
          assert t[0..i] == s[1..i + 1];
          assert t[i - 1] == s[i];
        }
      }
      r
  }

  /** The action name sent to the server for a method name. */
  function SnakeCase(s: string): (r: string)
    ensures NoUpper(r)
    ensures s == [] ==> r == []
    ensures s != [] ==> |r| == |s| + CountUpper(s[1..]) && r[0] == ToLower(s[0])
  {
    var marked := InsertUnderscores(s);
    assert s != [] ==> marked == [s[0]] + MarkCapitals(s[1..]) by {
      if s != [] { InsertUnderscoresMark(s); }
    }
    Lower(marked)
  }

  /** The name with every "_" removed. */
  function DropUnderscores(s: string): (r: string)
    ensures '_' !in r
  {
    if s == [] then []
    else (if s[0] == '_' then [] else [s[0]]) + DropUnderscores(s[1..])
  }

  /** Reference inverse: "_x" becomes "X", anything else is kept. */
  function CamelCase(t: string): string
  {
    if t == [] then []
    else if t[0] == '_' && |t| >= 2 then [ToUpper(t[1])] + CamelCase(t[2..])
    else [t[0]] + CamelCase(t[1..])
  }

  /** The shape of the client's method names: no "_" and no leading capital. */
  predicate IsMethodName(s: string)
  {
    '_' !in s && (s == [] || !IsUpper(s[0]))
  }

  lemma {:induction false} MarkFromShift(t: string, i: nat)
    requires i <= |t|
    ensures MarkFrom(t, i) == MarkFrom(t[i..], 0)
    decreases |t| - i
  {
    if i < |t| {
      MarkFromShift(t, i + 1);
      MarkFromShift(t[i..], 1);
      assert t[i..][1..] == t[i + 1..];
    }
  }

  /** The scan unfolded at the front of the string. */
  lemma {:induction false} MarkCapitalsCons(t: string)
    ensures t != [] ==> MarkFrom(t, 0) == Marked(t[0]) + MarkFrom(t[1..], 0)
    ensures |MarkFrom(t, 0)| == |t| + CountUpper(t)
    decreases |t|
  {
    if t != [] {
      MarkFromShift(t, 1);
      MarkCapitalsCons(t[1..]);
    }
  }

  lemma InsertUnderscoresMark(s: string)
    requires s != []
    ensures InsertUnderscores(s) == [s[0]] + MarkCapitals(s[1..])
  {
    MarkFromShift(s, 1);
  }

  /** Where the scan puts each character of t. */
  lemma {:induction false} MarkPositions(t: string)
    ensures forall i :: 0 <= i < |t| ==> PlacedAt(t, MarkCapitals(t), 0, i)
  {
    if t != [] {
      MarkCapitalsCons(t);
      MarkPositions(t[1..]);
      var head, rest := Marked(t[0]), MarkCapitals(t[1..]);
      var r := head + rest;
      assert MarkCapitals(t) == r;
      forall i | 0 <= i < |t|
        ensures PlacedAt(t, r, 0, i)
      {
        var p := t[0..i + 1];
        assert p[0] == t[0];
        var c0 := if IsUpper(t[0]) then 1 else 0;
        assert |head| == 1 + c0;
        if i == 0 {
          assert p[1..] == [];
          assert CountUpper(p) == c0;
        } else {
          assert p[1..] == t[1..][0..i];
          assert CountUpper(p) == c0 + CountUpper(t[1..][0..i]);
          assert PlacedAt(t[1..], rest, 0, i - 1);
          var k := i - 1 + CountUpper(t[1..][0..i]);
          assert k < |rest| && rest[k] == t[1..][i - 1];
          assert r[|head| + k] == rest[k];
          assert IsUpper(t[i]) ==> r[|head| + k - 1] == rest[k - 1];
        }
      }
    }
  }

  lemma {:induction false} LowerAppend(a: string, b: string)
    ensures Lower(a + b) == Lower(a) + Lower(b)
  {
    if a != [] {
      assert (a + b)[0] == a[0] && (a + b)[1..] == a[1..] + b;
      LowerAppend(a[1..], b);
    } else {
      assert a + b == b;
    }
  }

  lemma {:induction false} DropAppend(a: string, b: string)
    ensures DropUnderscores(a + b) == DropUnderscores(a) + DropUnderscores(b)
  {
    if a != [] {
      assert (a + b)[0] == a[0] && (a + b)[1..] == a[1..] + b;
      DropAppend(a[1..], b);
    } else {
      assert a + b == b;
    }
  }

  lemma {:induction false} DropLower(s: string)
    ensures DropUnderscores(Lower(s)) == Lower(DropUnderscores(s))
  {
    if s != [] {
      DropLower(s[1..]);
      LowerAppend(if s[0] == '_' then [] else [s[0]], DropUnderscores(s[1..]));
    }
  }

  lemma {:induction false} DropMarked(t: string)
    ensures DropUnderscores(MarkCapitals(t)) == DropUnderscores(t)
  {
    if t != [] {
      var head := Marked(t[0]);
      MarkCapitalsCons(t);
      DropAppend(head, MarkCapitals(t[1..]));
      DropMarked(t[1..]);
      if IsUpper(t[0]) {
        assert DropUnderscores(head) == [t[0]] by {
          assert head[1..] == [t[0]];
        }
      }
    }
  }

  /** The replacement only inserts underscores: deleting them all undoes it. */
  lemma InsertUnderscoresDrops(s: string)
    ensures DropUnderscores(InsertUnderscores(s)) == DropUnderscores(s)
  {
    if s != [] {
      InsertUnderscoresMark(s);
      DropMarked(s[1..]);
      DropAppend([s[0]], MarkCapitals(s[1..]));
      DropAppend([s[0]], s[1..]);
      assert [s[0]] + s[1..] == s;
    }
  }

  lemma {:induction false} MarkAppend(a: string, b: string)
    ensures MarkCapitals(a + b) == MarkCapitals(a) + MarkCapitals(b)
  {
    if a != [] {
      assert (a + b)[0] == a[0] && (a + b)[1..] == a[1..] + b;
      MarkCapitalsCons(a);
      MarkCapitalsCons(a + b);
      MarkAppend(a[1..], b);
    } else {
      assert a + b == b;
    }
  }

  /** Checks one character at a time that r, read from index j, is what marking and
      lower-casing make of t read from index i. The step bound makes the check unfold
      fully on written-out names. */
  predicate MarksTo(t: string, r: string, i: nat, j: nat, steps: nat)
    decreases steps
  {
    if i >= |t| then j == |r|
    else if steps == 0 then false
    else if IsUpper(t[i]) then
      j + 1 < |r| && r[j] == '_' && r[j + 1] == ToLower(t[i]) && MarksTo(t, r, i + 1, j + 2, steps - 1)
    else
      j < |r| && r[j] == t[i] && MarksTo(t, r, i + 1, j + 1, steps - 1)
  }

  lemma {:induction false} MarksToCorrect(t: string, r: string, i: nat, j: nat, steps: nat)
    requires i <= |t| && j <= |r|
    requires MarksTo(t, r, i, j, steps)
    ensures Lower(MarkCapitals(t[i..])) == r[j..]
    decreases steps
  {
    if i < |t| {
      var head := Marked(t[i]);
      assert t[i..][0] == t[i] && t[i..][1..] == t[i + 1..];
      MarkCapitalsCons(t[i..]);
      LowerAppend(head, MarkCapitals(t[i + 1..]));
      MarksToCorrect(t, r, i + 1, j + |head|, steps - 1);
      assert r[j..] == r[j..j + |head|] + r[j + |head|..];
    }
  }

  /** The action name of a + b is the action name of a followed by b marked and lower-cased. */
  lemma SnakeCaseAppend(a: string, b: string)
    requires a != []
    ensures SnakeCase(a + b) == [ToLower(a[0])] + Lower(MarkCapitals(a[1..])) + Lower(MarkCapitals(b))
  {
    var ab := a + b;
    assert ab[0] == a[0] && ab[1..] == a[1..] + b;
    InsertUnderscoresMark(ab);
    MarkAppend(a[1..], b);
    var x, y := MarkCapitals(a[1..]), MarkCapitals(b);
    LowerAppend([a[0]], x + y);
    LowerAppend(x, y);
  }

  /** The action name of a name written as two pieces a + b, from a check of each piece:
      the first is lower-cased at its head and marked after it, the second is marked
      throughout. Splitting keeps each check short on written-out names. */
  lemma SnakeCaseOfPieces(s: string, a: string, b: string, r: string, ra: string, rb: string, steps: nat)
    requires s == a + b && r == ra + rb
    requires a != [] && ra != [] && ra[0] == ToLower(a[0])
    requires MarksTo(a, ra, 1, 1, steps) && MarksTo(b, rb, 0, 0, steps)
    ensures SnakeCase(s) == r
  {
    MarksToCorrect(a, ra, 1, 1, steps);
    MarksToCorrect(b, rb, 0, 0, steps);
    SnakeCaseAppend(a, b);
    assert b[0..] == b && rb[0..] == rb;
    assert ra == [ra[0]] + ra[1..];
  }

  /** Deleting every "_" from the action name gives the lower-cased method name with its own
      "_" deleted: the only characters the replacement adds are underscores. */
  lemma SnakeCaseDropsInserted(s: string)
    ensures DropUnderscores(SnakeCase(s)) == Lower(DropUnderscores(s))
  {
    if s != [] {
      DropLower(InsertUnderscores(s));
      InsertUnderscoresDrops(s);
    }
  }

  lemma {:induction false} MarkNoUpper(t: string)
    requires NoUpper(t)
    ensures MarkCapitals(t) == t
  {
    if t != [] {
      MarkCapitalsCons(t);
      MarkNoUpper(t[1..]);
      assert [t[0]] + t[1..] == t;
    }
  }

  /** In a marked, lower-cased piece without "_" of its own, every "_" is followed by a
      small letter. */
  lemma {:induction false} MarkedUnderscoreFollowed(t: string)
    requires '_' !in t
    ensures var r := Lower(MarkCapitals(t));
            forall i :: 0 <= i < |r| && r[i] == '_' ==> i + 1 < |r| && IsLower(r[i + 1])
  {
    if t != [] {
      MarkCapitalsCons(t);
      var head, rest := Marked(t[0]), MarkCapitals(t[1..]);
      assert '_' !in t[1..] by {
        assert forall i :: 0 <= i < |t[1..]| ==> t[1..][i] == t[i + 1];
      }
      MarkedUnderscoreFollowed(t[1..]);
      LowerAppend(head, rest);
      var r := Lower(head) + Lower(rest);
      forall i | 0 <= i < |r| && r[i] == '_'
        ensures i + 1 < |r| && IsLower(r[i + 1])
      {
        if i >= |head| {
          assert r[i] == Lower(rest)[i - |head|];
          assert r[i + 1] == Lower(rest)[i + 1 - |head|];
        } else {
          assert t[0] != '_';
        }
      }
    }
  }

  /** For a method name, every "_" of the action name is followed by a small letter: the name
      neither starts nor ends with "_" and never holds "__", whatever run of capitals it had. */
  lemma UnderscoresSeparateWords(s: string)
    requires IsMethodName(s)
    ensures var r := SnakeCase(s);
            && (r != [] ==> r[0] != '_')
            && forall i :: 0 <= i < |r| && r[i] == '_' ==> i + 1 < |r| && IsLower(r[i + 1])
  {
    if s != [] {
      assert '_' !in s[1..] by {
        assert forall i :: 0 <= i < |s[1..]| ==> s[1..][i] == s[i + 1];
      }
      MarkedUnderscoreFollowed(s[1..]);
      SnakeCaseAppend(s, []);
      assert s + [] == s;
      assert s[0] != '_';
      var r := SnakeCase(s);
      var rest := Lower(MarkCapitals(s[1..]));
      assert MarkCapitals([]) == [] by { MarkCapitalsCons([]); }
      assert r == [ToLower(s[0])] + rest;
      forall i | 0 <= i < |r| && r[i] == '_'
        ensures i + 1 < |r| && IsLower(r[i + 1])
      {
        assert i > 0 && r[i] == rest[i - 1];
        assert r[i + 1] == rest[i];
      }
    }
  }

  /** A name without capitals is its own action name. */
  lemma SnakeCaseFixesLower(t: string)
    requires NoUpper(t)
    ensures SnakeCase(t) == t
  {
    if t != [] {
      InsertUnderscoresMark(t);
      MarkNoUpper(t[1..]);
      assert [t[0]] + t[1..] == t;
      assert InsertUnderscores(t) == t;
    }
  }

  lemma SnakeCaseIdempotent(s: string)
    ensures SnakeCase(SnakeCase(s)) == SnakeCase(s)
  {
    SnakeCaseFixesLower(SnakeCase(s));
  }

  lemma {:induction false} CamelOfMarked(t: string)
    requires '_' !in t
    ensures CamelCase(Lower(MarkCapitals(t))) == t
  {
    if t != [] {
      MarkCapitalsCons(t);
      var rest := MarkCapitals(t[1..]);
      assert '_' !in t[1..] by {
        assert forall i :: 0 <= i < |t[1..]| ==> t[1..][i] == t[i + 1];
      }
      CamelOfMarked(t[1..]);
      if IsUpper(t[0]) {
        LowerAppend(['_', t[0]], rest);
        var low := Lower(['_', t[0]]) + Lower(rest);
        assert low[0] == '_' && low[1] == ToLower(t[0]);
        assert low[2..] == Lower(rest);
      } else {
        LowerAppend([t[0]], rest);
        var low := Lower([t[0]]) + Lower(rest);
        assert low[0] == t[0] && low[0] != '_';
        assert low[1..] == Lower(rest);
      }
      assert [t[0]] + t[1..] == t;
    }
  }

  /** On method names the action name can be turned back into the method name, so two
      distinct methods never share an endpoint. */
  lemma SnakeCaseRoundTrip(s: string)
    requires IsMethodName(s)
    ensures CamelCase(SnakeCase(s)) == s
  {
    if s != [] {
      InsertUnderscoresMark(s);
      var rest := MarkCapitals(s[1..]);
      assert '_' !in s[1..] by {
        assert forall i :: 0 <= i < |s[1..]| ==> s[1..][i] == s[i + 1];
      }
      CamelOfMarked(s[1..]);
      LowerAppend([s[0]], rest);
      var low := Lower([s[0]]) + Lower(rest);
      assert low[0] == s[0] && low[0] != '_';
      assert low[1..] == Lower(rest);
      assert [s[0]] + s[1..] == s;
    }
  }

  lemma SnakeCaseInjective(s1: string, s2: string)
    requires IsMethodName(s1) && IsMethodName(s2)
    requires SnakeCase(s1) == SnakeCase(s2)
    ensures s1 == s2
  {
    SnakeCaseRoundTrip(s1);
    SnakeCaseRoundTrip(s2);
  }
}
