/** ECMAScript string operations the adapter relies on. */
module JsText {
  /** White space and line terminators of ECMAScript's String.prototype.trim. */
  predicate IsSpace(c: char) {
    var n := c as int;
    9 <= n <= 13 || n == 32 || n == 0xA0 || n == 0x1680 || 0x2000 <= n <= 0x200A
    || n == 0x2028 || n == 0x2029 || n == 0x202F || n == 0x205F || n == 0x3000 || n == 0xFEFF
  }

  function Trim(s: string): string {
    if s == "" then ""
    else if IsSpace(s[0]) then Trim(s[1..])
    else if IsSpace(s[|s| - 1]) then Trim(s[..|s| - 1])
    else s
  }

  lemma {:induction false} TrimTwice(s: string)
    ensures Trim(Trim(s)) == Trim(s)
    decreases |s|
  {
    if s != "" {
      if IsSpace(s[0]) {
        TrimTwice(s[1..]);
      } else if IsSpace(s[|s| - 1]) {
        TrimTwice(s[..|s| - 1]);
      }
    }
  }

  predicate AllSpaces(s: string) {
    forall i | 0 <= i < |s| :: IsSpace(s[i])
  }

  /** Trimming removes white space at both ends, all of it, and nothing else. */
  lemma {:induction false} TrimIs(s: string) returns (before: string, after: string)
    ensures s == before + Trim(s) + after && AllSpaces(before) && AllSpaces(after)
    ensures Trim(s) != "" ==> !IsSpace(Trim(s)[0]) && !IsSpace(Trim(s)[|Trim(s)| - 1])
    decreases |s|
  {
    hide Trim, IsSpace, AllSpaces;
    TrimStep(s);
    SpacesGrow("", ' ');
    before, after := "", "";
    if s == "" || (!IsSpace(s[0]) && !IsSpace(s[|s| - 1])) {
      assert "" + s + "" == s;
    } else if IsSpace(s[0]) {
      before, after := TrimIs(s[1..]);
      SpacesGrow(before, s[0]);
      assert s == [s[0]] + (before + Trim(s[1..]) + after) == ([s[0]] + before) + Trim(s) + after;
      before := [s[0]] + before;
    } else {
      var last := s[|s| - 1];
      before, after := TrimIs(s[..|s| - 1]);
      SpacesGrow(after, last);
      assert s == (before + Trim(s[..|s| - 1]) + after) + [last] == before + Trim(s) + (after + [last]);
      after := after + [last];
    }
  }

  lemma TrimStep(s: string)
    ensures s == "" || (!IsSpace(s[0]) && !IsSpace(s[|s| - 1])) ==> Trim(s) == s
    ensures s != "" && IsSpace(s[0]) ==> Trim(s) == Trim(s[1..])
    ensures s != "" && !IsSpace(s[0]) && IsSpace(s[|s| - 1]) ==> Trim(s) == Trim(s[..|s| - 1])
  {
    hide IsSpace;
  }

  lemma SpacesGrow(s: string, c: char)
    ensures AllSpaces("")
    ensures AllSpaces(s) && IsSpace(c) ==> AllSpaces([c] + s) && AllSpaces(s + [c])
  {
    hide IsSpace;
  }

  /** Order of the default array sort, code by code. */
  predicate Less(a: string, b: string) {
    b != "" && (a == "" || a[0] < b[0] || (a[0] == b[0] && Less(a[1..], b[1..])))
  }

  /** A shorter or smaller text comes first: at the first place where they differ. */
  ghost predicate FirstDiffersAt(a: string, b: string, k: nat) {
    && k <= |a| && k < |b| && a[..k] == b[..k]
    && (k == |a| || a[k] < b[k])
  }

  lemma {:induction false} LessIs(a: string, b: string)
    ensures Less(a, b) <==> exists k: nat :: FirstDiffersAt(a, b, k)
  {
    if a == "" || b == "" || a[0] != b[0] {
      if Less(a, b) {
        assert FirstDiffersAt(a, b, 0);
      }
    } else {
      LessIs(a[1..], b[1..]);
      if Less(a, b) {
        var k: nat :| FirstDiffersAt(a[1..], b[1..], k);
        assert a[..k + 1] == [a[0]] + a[1..][..k] && b[..k + 1] == [b[0]] + b[1..][..k];
        assert FirstDiffersAt(a, b, k + 1);
      } else if k: nat :| FirstDiffersAt(a, b, k) {
        if k > 0 {
          assert a[1..][..k - 1] == a[..k][1..] && b[1..][..k - 1] == b[..k][1..];
          assert FirstDiffersAt(a[1..], b[1..], k - 1);
        }
      }
    }
  }

  lemma {:induction false} LessTransitive(a: string, b: string, c: string)
    requires Less(a, b) && Less(b, c)
    ensures Less(a, c)
  {
    if a != "" && a[0] == b[0] && b[0] == c[0] {
      LessTransitive(a[1..], b[1..], c[1..]);
    }
  }

  lemma {:induction false} LessTotal(a: string, b: string)
    ensures a == b || Less(a, b) || Less(b, a)
    ensures !Less(a, a)
  {
    if a != "" {
      LessTotal(a[1..], if b == "" then "" else b[1..]);
      if b != "" && a[0] == b[0] && a[1..] == b[1..] {
        assert a == [a[0]] + a[1..] && b == [b[0]] + b[1..];
      }
    }
  }

  ghost predicate Sorted(s: seq<string>) {
    forall i, j | 0 <= i < j < |s| :: Less(s[i], s[j])
  }

  /** Sorting by insertion; an item already there stays single. */
  function Insert(s: seq<string>, x: string): seq<string> {
    if s == [] then [x]
    else if s[0] == x then s
    else if Less(x, s[0]) then [x] + s
    else [s[0]] + Insert(s[1..], x)
  }

  lemma {:induction false} InsertKeepsSorted(s: seq<string>, x: string)
    requires Sorted(s)
    ensures Sorted(Insert(s, x))
    ensures forall y :: y in Insert(s, x) <==> y in s || y == x
  {
    if s != [] {
      LessTotal(x, s[0]);
      if s[0] == x {
      } else if Less(x, s[0]) {
        forall j | 0 < j < |s| ensures Less(x, s[j]) {
          LessTransitive(x, s[0], s[j]);
        }
      } else {
        InsertKeepsSorted(s[1..], x);
        var t := Insert(s[1..], x);
        forall y | y in t ensures Less(s[0], y) {
          if y != x {
            var j :| 0 <= j < |s| - 1 && s[1..][j] == y;
            assert Less(s[0], s[j + 1]);
          }
        }
        assert s == [s[0]] + s[1..];
      }
    }
  }

  /** A sorted list is determined by its members. */
  lemma {:induction false} SortedIsUnique(a: seq<string>, b: seq<string>)
    requires Sorted(a) && Sorted(b) && forall x :: x in a <==> x in b
    ensures a == b
  {
    if a == [] {
      if b != [] {
        BothHave(a, b);
      }
    } else {
      BothHave(b, a);
      BothHave(a, b);
      SmallestFirst(a, b[0]);
      SmallestFirst(b, a[0]);
      forall x ensures x in a[1..] <==> x in b[1..] {
        RestOfSorted(a, x);
        RestOfSorted(b, x);
      }
      SortedIsUnique(a[1..], b[1..]);
      assert a == [a[0]] + a[1..] && b == [b[0]] + b[1..];
    }
  }

  lemma BothHave(a: seq<string>, b: seq<string>)
    requires b != [] && forall x | x in b :: x in a
    ensures a != [] && b[0] in a
  {
    assert b[0] in b;
  }

  lemma SmallestFirst(s: seq<string>, x: string)
    requires Sorted(s) && x in s
    ensures x == s[0] || (Less(s[0], x) && !Less(x, s[0]))
  {
    var i :| 0 <= i < |s| && s[i] == x;
    if i > 0 && Less(x, s[0]) {
      LessTransitive(x, s[0], x);
      LessTotal(x, x);
    }
  }

  lemma RestOfSorted(s: seq<string>, x: string)
    requires Sorted(s) && s != []
    ensures x in s[1..] <==> x in s && x != s[0]
  {
    LessTotal(s[0], s[0]);
    assert s == [s[0]] + s[1..];
  }
}
