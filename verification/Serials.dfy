/** Serials, their byte order, and the keys of device pairs. */
module Serials {

  type Serial = string

  datatype Option<+T> = None | Some(value: T)

  /** The order of `str`: the first differing character decides, a prefix comes first. */
  predicate Less(a: Serial, b: Serial) {
    if b == "" then false
    else if a == "" then true
    else a[0] < b[0] || (a[0] == b[0] && Less(a[1..], b[1..]))
  }

  lemma {:induction false} LessIsAsymmetric(a: Serial, b: Serial)
    ensures !(Less(a, b) && Less(b, a))
  {
    if a != "" && b != "" && a[0] == b[0] {
      LessIsAsymmetric(a[1..], b[1..]);
    }
  }

  lemma {:induction false} LessIsTotal(a: Serial, b: Serial)
    ensures Less(a, b) || a == b || Less(b, a)
  {
    if a != "" && b != "" && a[0] == b[0] {
      LessIsTotal(a[1..], b[1..]);
      assert a == [a[0]] + a[1..] && b == [b[0]] + b[1..];
    }
  }

  lemma {:induction false} LessIsTransitive(a: Serial, b: Serial, c: Serial)
    requires Less(a, b) && Less(b, c)
    ensures Less(a, c)
  {
    if a != "" && a[0] == b[0] == c[0] {
      LessIsTransitive(a[1..], b[1..], c[1..]);
    }
  }

  predicate IsLeast(m: Serial, s: set<Serial>) {
    m in s && forall o | o in s && o != m :: Less(m, o)
  }

  lemma {:induction false} LeastExists(s: set<Serial>)
    requires s != {}
    ensures exists m :: IsLeast(m, s)
  {
    var k :| k in s;
    if s == {k} {
      assert IsLeast(k, s);
    } else {
      LeastExists(s - {k});
      var m' :| IsLeast(m', s - {k});
      LessIsTotal(m', k);
      var m := if Less(k, m') then k else m';
      forall o | o in s && o != m ensures Less(m, o) {
        if m == k && o != m' {
          LessIsTransitive(k, m', o);
        }
      }
      assert IsLeast(m, s);
    }
  }

  lemma LeastIsUnique(m: Serial, m': Serial, s: set<Serial>)
    requires IsLeast(m, s) && IsLeast(m', s)
    ensures m == m'
  {
    LessIsAsymmetric(m, m');
  }

  function Least(s: set<Serial>): (m: Serial)
    requires s != {}
    ensures IsLeast(m, s)
  {
    LeastExists(s);
    assert forall m, m' | IsLeast(m, s) && IsLeast(m', s) :: m == m' by {
      forall m, m' | IsLeast(m, s) && IsLeast(m', s) ensures m == m' {
        LeastIsUnique(m, m', s);
      }
    }
    var m :| m in s && IsLeast(m, s);
    m
  }

  ghost predicate Ascending(r: seq<Serial>) {
    forall i, j | 0 <= i < j < |r| :: Less(r[i], r[j])
  }

  /** The iteration order of a `BTreeMap` keyed by serial. */
  function Sorted(s: set<Serial>): (r: seq<Serial>)
    ensures |r| == |s|
    ensures forall k :: k in r <==> k in s
    ensures Ascending(r)
  {
    if s == {} then []
    else
      var m := Least(s);
      [m] + Sorted(s - {m})
  }

  /** Which pair of devices a regression belongs to, and whether the first argument is the larger. */
  function PairKey(a: Serial, b: Serial): (string, bool) {
    if Less(a, b) then (a + "|" + b, false) else (b + "|" + a, true)
  }

  predicate Plausible(sn: Serial) {
    sn != "" && |sn| <= 64 &&
    forall i | 0 <= i < |sn| ::
      'a' <= sn[i] <= 'z' || 'A' <= sn[i] <= 'Z' || '0' <= sn[i] <= '9'
  }

  /** `key.split('|')`. */
  function SplitBar(s: string): (parts: seq<string>)
    ensures parts != []
  {
    if s == "" then [""]
    else
      var rest := SplitBar(s[1..]);
      if s[0] == '|' then [""] + rest else [[s[0]] + rest[0]] + rest[1..]
  }

  lemma {:induction false} SplitBarPlain(s: string)
    requires '|' !in s
    ensures SplitBar(s) == [s]
  {
    if s != "" {
      SplitBarPlain(s[1..]);
      assert s == [s[0]] + s[1..];
    }
  }

  lemma {:induction false} SplitBarJoined(a: string, b: string)
    requires '|' !in a && '|' !in b
    ensures SplitBar(a + "|" + b) == [a, b]
  {
    var s := a + "|" + b;
    if a == "" {
      assert s[1..] == b;
      SplitBarPlain(b);
    } else {
      assert s[1..] == a[1..] + "|" + b;
      SplitBarJoined(a[1..], b);
      assert a == [a[0]] + a[1..];
    }
  }

  /** The key names exactly the two devices, smaller first, whichever of them reported. */
  lemma PairKeySplits(a: Serial, b: Serial)
    requires Plausible(a) && Plausible(b)
    ensures SplitBar(PairKey(a, b).0) == if Less(a, b) then [a, b] else [b, a]
  {
    SplitBarJoined(a, b);
    SplitBarJoined(b, a);
  }

  lemma PairKeyIsSymmetric(a: Serial, b: Serial)
    requires a != b
    ensures PairKey(a, b).0 == PairKey(b, a).0
    ensures PairKey(a, b).1 == !PairKey(b, a).1
  {
    LessIsTotal(a, b);
    LessIsAsymmetric(a, b);
  }

  /** Two pairs of plausible serials share a key exactly when they are the same unordered pair. */
  lemma PairKeyInjective(a: Serial, b: Serial, c: Serial, d: Serial)
    requires Plausible(a) && Plausible(b) && Plausible(c) && Plausible(d)
    ensures PairKey(a, b).0 == PairKey(c, d).0 <==> (a == c && b == d) || (a == d && b == c)
  {
    PairKeySplits(a, b);
    PairKeySplits(c, d);
    if a == d && b == c && a != b {
      PairKeyIsSymmetric(a, b);
    }
  }
}
