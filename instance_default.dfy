/**
 * The (plugin type, default instance key) pair held by both override layers, and the
 * ordering that sorts it: ordinal lexicographic comparison of the plugin-type names.
 */
module InstanceDefaults {

  datatype InstanceDefault = InstanceDefault(pluginTypeName: string, defaultKey: string)

  /** Ordinal string order: character codes compared left to right, a proper prefix first. */
  predicate OrdinalLess(a: string, b: string)
  {
    if |a| == 0 then |b| > 0
    else if |b| == 0 then false
    else if a[0] == b[0] then OrdinalLess(a[1..], b[1..])
    else a[0] < b[0]
  }

  lemma {:induction false} OrdinalLessIrreflexive(a: string)
    ensures !OrdinalLess(a, a)
  {
    if |a| > 0 {
      OrdinalLessIrreflexive(a[1..]);
    }
  }

  lemma {:induction false} OrdinalLessTransitive(a: string, b: string, c: string)
    requires OrdinalLess(a, b) && OrdinalLess(b, c)
    ensures OrdinalLess(a, c)
  {
    if |a| > 0 && |b| > 0 && |c| > 0 && a[0] == b[0] && b[0] == c[0] {
      OrdinalLessTransitive(a[1..], b[1..], c[1..]);
    }
  }

  /** Any two different names are ordered one way or the other. */
  lemma {:induction false} OrdinalLessTotal(a: string, b: string)
    requires a != b
    ensures OrdinalLess(a, b) || OrdinalLess(b, a)
  {
    if |a| > 0 && |b| > 0 && a[0] == b[0] {
      assert a == [a[0]] + a[1..] && b == [b[0]] + b[1..];
      OrdinalLessTotal(a[1..], b[1..]);
    }
  }

  lemma OrdinalLessAsymmetric(a: string, b: string)
    requires OrdinalLess(a, b)
    ensures !OrdinalLess(b, a)
  {
    if OrdinalLess(b, a) {
      OrdinalLessTransitive(a, b, a);
      OrdinalLessIrreflexive(a);
    }
  }

  /** "Not after" is transitive as well: the order is a total preorder on names. */
  lemma OrdinalNotLessTransitive(a: string, b: string, c: string)
    requires !OrdinalLess(b, a) && !OrdinalLess(c, b)
    ensures !OrdinalLess(c, a)
  {
    if OrdinalLess(c, a) {
      if a == b {
      } else {
        OrdinalLessTotal(a, b);
        OrdinalLessTransitive(c, a, b);
      }
    }
  }

  /** The comparison Array.Sort uses: by plugin-type name alone. */
  predicate Precedes(x: InstanceDefault, y: InstanceDefault)
  {
    OrdinalLess(x.pluginTypeName, y.pluginTypeName)
  }

  /** Strictly ascending by plugin-type name, hence at most one entry per plugin type. */
  ghost predicate Sorted(s: seq<InstanceDefault>)
  {
    forall i, j :: 0 <= i < j < |s| ==> Precedes(s[i], s[j])
  }

  /**
   * A strictly sorted sequence is determined by its elements: two of them holding the same
   * entries are equal, whatever order the entries were gathered in.
   */
  lemma {:induction false} SortedIsUnique(s: seq<InstanceDefault>, t: seq<InstanceDefault>)
    requires Sorted(s) && Sorted(t)
    requires forall d :: d in s <==> d in t
    ensures s == t
  {
    assert |s| > 0 ==> s[0] in t;
    assert |t| > 0 ==> t[0] in s;
    if |s| > 0 && |t| > 0 {
      if s[0] != t[0] {
        assert s[0] in t;
        var j :| 0 <= j < |t| && t[j] == s[0];
        assert t[0] in s;
        var i :| 0 <= i < |s| && s[i] == t[0];
        OrdinalLessAsymmetric(t[0].pluginTypeName, s[0].pluginTypeName);
      }
      forall d
        ensures d in s[1..] <==> d in t[1..]
      {
        if d in s[1..] {
          var i :| 1 <= i < |s| && s[i] == d;
          OrdinalLessIrreflexive(d.pluginTypeName);
          assert d in s;
          var k :| 0 <= k < |t| && t[k] == d;
          assert k != 0;
          assert t[1..][k - 1] == d;
        }
        if d in t[1..] {
          var i :| 1 <= i < |t| && t[i] == d;
          OrdinalLessIrreflexive(d.pluginTypeName);
          assert d in t;
          var k :| 0 <= k < |s| && s[k] == d;
          assert k != 0;
          assert s[1..][k - 1] == d;
        }
      }
      SortedIsUnique(s[1..], t[1..]);
    }
  }
}
