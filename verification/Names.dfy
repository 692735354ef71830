// Zone names, and the order in which the scheduler visits region names.
module Names {

  // The position of the last dash of a zone name, or -1.
  function LastDash(zone: string): (i: int)
    ensures -1 <= i < |zone|
    ensures i >= 0 ==> zone[i] == '-'
    ensures forall k :: i < k < |zone| ==> zone[k] != '-'
  {
    if zone == "" then -1
    else if zone[|zone| - 1] == '-' then |zone| - 1
    else LastDash(zone[..|zone| - 1])
  }

  // A zone such as "us-east1-b" lies in region "us-east1"; a name without a
  // dash is its own region.
  function ZoneRegion(zone: string): (region: string)
    ensures region <= zone
  {
    var i := LastDash(zone);
    if i < 0 then zone else zone[..i]
  }

  // The region is what stands before the last dash.
  lemma ZoneRegionAsStated(zone: string, region: string)
    ensures region == ZoneRegion(zone) <==>
      if '-' in zone then exists letter :: '-' !in letter && zone == region + "-" + letter else region == zone
  {
    var i := LastDash(zone);
    if '-' in zone {
      assert zone == zone[..i] + "-" + zone[i + 1..];
      if letter :| '-' !in letter && zone == region + "-" + letter {
        assert zone[|region|] == '-' && forall k :: |region| < k < |zone| ==> zone[k] == letter[k - |region| - 1];
      }
    }
  }

  // Lexicographic order, as sort.Strings uses it.
  predicate StrLe(a: string, b: string) {
    a == "" || (b != "" && (a[0] < b[0] || (a[0] == b[0] && StrLe(a[1..], b[1..]))))
  }

  // One name is a prefix of the other, or has the smaller character where they
  // first differ.
  ghost predicate Before(a: string, b: string) {
    a <= b || exists i: nat :: DiffersAt(a, b, i)
  }

  ghost predicate DiffersAt(a: string, b: string, i: nat) {
    i < |a| && i < |b| && a[..i] == b[..i] && a[i] < b[i]
  }

  lemma {:induction false} StrLeAsStated(a: string, b: string)
    ensures StrLe(a, b) <==> Before(a, b)
  {
    if a != "" && b != "" {
      assert a == [a[0]] + a[1..] && b == [b[0]] + b[1..];
      StrLeAsStated(a[1..], b[1..]);
      assert a[0] < b[0] ==> DiffersAt(a, b, 0);
      if i: nat :| DiffersAt(a[1..], b[1..], i) && a[0] == b[0] {
        assert a[..i + 1] == [a[0]] + a[1..][..i] && b[..i + 1] == [b[0]] + b[1..][..i];
        assert DiffersAt(a, b, i + 1);
      }
      if i: nat :| DiffersAt(a, b, i) && i > 0 {
        assert a[..i][0] == b[..i][0];
        assert a[1..][..i - 1] == a[..i][1..] && b[1..][..i - 1] == b[..i][1..];
        assert DiffersAt(a[1..], b[1..], i - 1);
      }
    }
  }

  lemma {:induction false} StrLeTotal(a: string, b: string)
    ensures StrLe(a, b) || StrLe(b, a)
  {
    if a != "" && b != "" && a[0] == b[0] {
      StrLeTotal(a[1..], b[1..]);
    }
  }

  lemma {:induction false} StrLeTransitive(a: string, b: string, c: string)
    requires StrLe(a, b) && StrLe(b, c)
    ensures StrLe(a, c)
  {
    if a != "" && a[0] == b[0] && b[0] == c[0] {
      StrLeTransitive(a[1..], b[1..], c[1..]);
    }
  }

  ghost predicate Sorted(s: seq<string>) {
    forall i, j :: 0 <= i < j < |s| ==> StrLe(s[i], s[j])
  }

  function Insert(x: string, s: seq<string>): (r: seq<string>)
    ensures multiset(r) == multiset(s) + multiset{x}
  {
    if s == [] then [x]
    else if StrLe(x, s[0]) then [x] + s
    else
      assert s == [s[0]] + s[1..];
      [s[0]] + Insert(x, s[1..])
  }

  lemma {:induction false} InsertMember(x: string, s: seq<string>, y: string)
    requires y in Insert(x, s)
    ensures y == x || y in s
  {
    hide StrLe;
    if s != [] && y !in s && y != x && y in Insert(x, s[1..]) {
      InsertMember(x, s[1..], y);
    }
  }

  lemma {:induction false} InsertSorted(x: string, s: seq<string>)
    requires Sorted(s)
    ensures Sorted(Insert(x, s))
  {
    hide StrLe;
    if s != [] {
      var r := Insert(x, s);
      if StrLe(x, s[0]) {
        forall j | 0 < j < |r| ensures StrLe(x, r[j]) {
          if j > 1 { StrLeTransitive(x, s[0], s[j - 1]); }
        }
      } else {
        StrLeTotal(x, s[0]);
        InsertSorted(x, s[1..]);
        var t := Insert(x, s[1..]);
        forall j | 0 < j < |r| ensures StrLe(s[0], r[j]) {
          InsertMember(x, s[1..], t[j - 1]);
        }
      }
    }
  }

  // sort.Strings: the sorted permutation of a slice of names.
  function Sort(s: seq<string>): (r: seq<string>)
    ensures multiset(r) == multiset(s)
  {
    if s == [] then []
    else
      assert s == [s[0]] + s[1..];
      Insert(s[0], Sort(s[1..]))
  }

  lemma {:induction false} SortSorts(s: seq<string>)
    ensures Sorted(Sort(s))
    ensures forall x :: x in Sort(s) <==> x in s
    ensures |Sort(s)| == |s|
  {
    if s != [] {
      SortSorts(s[1..]);
      InsertSorted(s[0], Sort(s[1..]));
    }
    assert forall x :: x in Sort(s) <==> x in multiset(Sort(s));
    assert |multiset(Sort(s))| == |Sort(s)|;
  }

  ghost predicate Distinct<T>(s: seq<T>) {
    forall i, j :: 0 <= i < j < |s| ==> s[i] != s[j]
  }
}
