/** The map key "subscriber:merchant:token" and the split that takes it apart again. */
module Keys {

  predicate ColonFree(s: string) { ':' !in s }

  predicate TripleColonFree(s: string, m: string, t: string) { ColonFree(s) && ColonFree(m) && ColonFree(t) }

  function Join(s: string, m: string, t: string): string { s + ":" + m + ":" + t }

  /** The parts of a key between its colons. */
  function Split(key: string): (parts: seq<string>)
    ensures |parts| >= 1
    ensures forall i :: 0 <= i < |parts| ==> ColonFree(parts[i])
  {
    if key == "" then [""]
    else
      var rest := Split(key[1..]);
      if key[0] == ':' then [""] + rest else [[key[0]] + rest[0]] + rest[1..]
  }

  lemma {:induction false} SplitColonFree(s: string)
    requires ColonFree(s)
    ensures Split(s) == [s]
  {
    if s != "" {
      SplitColonFree(s[1..]);
      assert [s[0]] + s[1..] == s;
    }
  }

  lemma {:induction false} SplitAt(a: string, b: string)
    requires ColonFree(a)
    ensures Split(a + ":" + b) == [a] + Split(b)
  {
    var k := a + ":" + b;
    if a == "" {
      assert k[1..] == b;
    } else {
      SplitAt(a[1..], b);
      assert k[1..] == a[1..] + ":" + b;
      assert [a[0]] + a[1..] == a;
    }
  }

  lemma {:induction false} SplitCount(a: string, b: string)
    ensures |Split(a + ":" + b)| == |Split(a)| + |Split(b)|
  {
    var k := a + ":" + b;
    if a == "" {
      assert k[1..] == b;
    } else {
      SplitCount(a[1..], b);
      assert k[1..] == a[1..] + ":" + b;
    }
  }

  lemma {:induction false} OnePart(s: string)
    ensures |Split(s)| == 1 <==> ColonFree(s)
  {
    if s != "" { OnePart(s[1..]); }
  }

  lemma JoinCount(s: string, m: string, t: string)
    ensures |Split(Join(s, m, t))| == |Split(s)| + |Split(m)| + |Split(t)|
  {
    assert Join(s, m, t) == s + ":" + (m + ":" + t);
    SplitCount(s, m + ":" + t);
    SplitCount(m, t);
  }

  /** Splitting a key gives back its parts exactly when none of them contains a colon. */
  lemma SplitInvertsJoin(s: string, m: string, t: string)
    ensures Split(Join(s, m, t)) == [s, m, t] <==> TripleColonFree(s, m, t)
  {
    assert Join(s, m, t) == s + ":" + (m + ":" + t);
    if TripleColonFree(s, m, t) {
      SplitAt(s, m + ":" + t);
      SplitAt(m, t);
      SplitColonFree(t);
    } else {
      forall i | 0 <= i < 3 && Split(Join(s, m, t)) == [s, m, t]
        ensures ColonFree([s, m, t][i])
      {
      }
      assert [s, m, t][0] == s && [s, m, t][1] == m && [s, m, t][2] == t;
    }
  }

  /** Part `i` of a split key.  Keys come from Join and have at least three parts. */
  function Part(key: string, i: nat): string {
    var parts := Split(key);
    if i < |parts| then parts[i] else ""
  }

  /** The key that a lookup through the first three parts of `key` uses. */
  function Rejoin(key: string): string { Join(Part(key, 0), Part(key, 1), Part(key, 2)) }

  /** The lookup hits the key itself exactly when no part contains a colon. */
  lemma RejoinIsIdentity(s: string, m: string, t: string)
    ensures Rejoin(Join(s, m, t)) == Join(s, m, t) <==> TripleColonFree(s, m, t)
  {
    JoinCount(s, m, t);
    OnePart(s);
    OnePart(m);
    OnePart(t);
    var key := Join(s, m, t);
    var p := Split(key);
    SplitInvertsJoin(s, m, t);
    SplitInvertsJoin(p[0], p[1], p[2]);
  }
}
