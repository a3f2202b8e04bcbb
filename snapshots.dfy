/** Choosing the newest snapshot file. Snapshot file names carry a
    `YYYYMMDD_HHMMSS` timestamp, so the newest one is the greatest name in
    Python's string order, which is what `sorted(files)[-1]` returns. */
module Snapshots {

  /** Python's `a <= b` on strings: code-point lexicographic order, a proper
      prefix coming first. */
  predicate LexLeq(a: string, b: string)
    decreases |a|
  {
    |a| == 0 || (|b| > 0 && (a[0] < b[0] || (a[0] == b[0] && LexLeq(a[1..], b[1..]))))
  }

  lemma {:induction false} LexLeqRefl(a: string)
    ensures LexLeq(a, a)
    decreases |a|
  {
    if |a| > 0 { LexLeqRefl(a[1..]); }
  }

  lemma {:induction false} LexLeqTotal(a: string, b: string)
    ensures LexLeq(a, b) || LexLeq(b, a)
    decreases |a|
  {
    if |a| > 0 && |b| > 0 && a[0] == b[0] { LexLeqTotal(a[1..], b[1..]); }
  }

  lemma {:induction false} LexLeqTrans(a: string, b: string, c: string)
    requires LexLeq(a, b) && LexLeq(b, c)
    ensures LexLeq(a, c)
    decreases |a|
  {
    if |a| > 0 && a[0] == b[0] && b[0] == c[0] { LexLeqTrans(a[1..], b[1..], c[1..]); }
  }

  lemma {:induction false} LexLeqAntisym(a: string, b: string)
    requires LexLeq(a, b) && LexLeq(b, a)
    ensures a == b
    decreases |a|
  {
    if |a| > 0 {
      LexLeqAntisym(a[1..], b[1..]);
      assert a == [a[0]] + a[1..] && b == [b[0]] + b[1..];
    }
  }

  /** `sorted(paths)[-1]`: the greatest path in Python's string order. */
  function Latest(paths: seq<string>): (r: string)
    requires |paths| > 0
    ensures r in paths
    ensures forall p :: p in paths ==> LexLeq(p, r)
  {
    if |paths| == 1 then
      LexLeqRefl(paths[0]);
      paths[0]
    else
      var m := Latest(paths[1..]);
      assert forall p :: p in paths ==> p == paths[0] || p in paths[1..];
      LexLeqTotal(paths[0], m);
      if LexLeq(paths[0], m) then m
      else
        LexLeqRefl(paths[0]);
        assert forall p :: p in paths[1..] ==> LexLeq(p, paths[0]) by {
          forall p | p in paths[1..] ensures LexLeq(p, paths[0]) { LexLeqTrans(p, m, paths[0]); }
        }
        paths[0]
  }

  /** The choice does not depend on the order the files were listed in: any
      listed path that is at least every other one is the one chosen. */
  lemma LatestIsUnique(paths: seq<string>, q: string)
    requires q in paths
    requires forall p :: p in paths ==> LexLeq(p, q)
    ensures Latest(paths) == q
  {
    LexLeqAntisym(Latest(paths), q);
  }
}
