/**
 * The subset of Go's `strings` and `sort` packages the core relies on, over
 * decoded text (`seq<char>`): splitting on one separator character, trimming,
 * lower-casing, prefix tests and the byte-wise ordering `sort.Strings` uses.
 */
module GoStrings {

  // ---------------------------------------------------------------------------
  // strings.Split with a one-character separator

  /** `strings.Split(s, string(sep))`: the pieces between separators, always at least one. */
  function Split(s: string, sep: char): (parts: seq<string>)
    ensures |parts| >= 1
    ensures forall i :: 0 <= i < |parts| ==> sep !in parts[i]
  {
    if |s| == 0 then [""]
    else
      var rest := Split(s[1..], sep);
      if s[0] == sep then [""] + rest
      else [[s[0]] + rest[0]] + rest[1..]
  }

  /** `strings.Join(parts, string(sep))`, the inverse of Split. */
  function Join(parts: seq<string>, sep: char): string
    requires |parts| >= 1
  {
    if |parts| == 1 then parts[0] else parts[0] + [sep] + Join(parts[1..], sep)
  }

  /** Number of occurrences of `c` in `s`. */
  function Count(s: string, c: char): nat
  {
    if |s| == 0 then 0 else (if s[0] == c then 1 else 0) + Count(s[1..], c)
  }

  lemma {:induction false} SplitJoin(s: string, sep: char)
    ensures Join(Split(s, sep), sep) == s
  {
    if |s| > 0 {
      SplitJoin(s[1..], sep);
      var rest := Split(s[1..], sep);
      if s[0] != sep && |rest| > 1 {
        assert Join(rest, sep) == rest[0] + [sep] + Join(rest[1..], sep);
      }
    }
  }

  lemma {:induction false} SplitCount(s: string, sep: char)
    ensures |Split(s, sep)| == Count(s, sep) + 1
  {
    if |s| > 0 {
      SplitCount(s[1..], sep);
    }
  }

  lemma {:induction false} CountZero(s: string, c: char)
    ensures Count(s, c) == 0 <==> c !in s
  {
    if |s| > 0 {
      CountZero(s[1..], c);
      assert c in s <==> s[0] == c || c in s[1..];
    }
  }

  lemma {:induction false} SplitWithoutSep(s: string, sep: char)
    requires sep !in s
    ensures Split(s, sep) == [s]
  {
    if |s| > 0 {
      SplitWithoutSep(s[1..], sep);
      assert s == [s[0]] + s[1..];
    }
  }

  /** The first piece of a split is the text before the first separator, or all of it. */
  lemma {:induction false} SplitHead(s: string, sep: char)
    ensures |Split(s, sep)[0]| <= |s| && s[..|Split(s, sep)[0]|] == Split(s, sep)[0]
    ensures |Split(s, sep)[0]| < |s| ==> s[|Split(s, sep)[0]|] == sep
    decreases |s|
  {
    if |s| > 0 && s[0] != sep {
      SplitHead(s[1..], sep);
      assert s == [s[0]] + s[1..];
    }
  }

  lemma SplitCons(c: char, t: string, sep: char)
    ensures Split([c] + t, sep) ==
            if c == sep then [""] + Split(t, sep)
            else [[c] + Split(t, sep)[0]] + Split(t, sep)[1..]
  {
    assert ([c] + t)[1..] == t;
  }

  /** Splitting around one separator splits each side independently. */
  lemma {:induction false} SplitAround(x: string, y: string, sep: char)
    ensures Split(x + [sep] + y, sep) == Split(x, sep) + Split(y, sep)
  {
    if |x| == 0 {
      assert x + [sep] + y == [sep] + y;
      SplitCons(sep, y, sep);
    } else {
      var t := x[1..];
      assert x == [x[0]] + t;
      assert x + [sep] + y == [x[0]] + (t + [sep] + y);
      SplitAround(t, y, sep);
      SplitConsAppend(x[0], Split(t, sep), Split(y, sep), t + [sep] + y, t, sep);
    }
  }

  lemma SplitConsAppend(c: char, pt: seq<string>, py: seq<string>, w: string, t: string, sep: char)
    requires Split(w, sep) == pt + py && Split(t, sep) == pt
    ensures Split([c] + w, sep) == Split([c] + t, sep) + py
  {
    SplitCons(c, w, sep);
    SplitCons(c, t, sep);
    if c != sep {
      ExtendHeadAppend(c, pt, py);
    }
  }

  lemma ExtendHeadAppend(c: char, pt: seq<string>, py: seq<string>)
    requires |pt| >= 1
    ensures [[c] + (pt + py)[0]] + (pt + py)[1..] == ([[c] + pt[0]] + pt[1..]) + py
  {
    assert (pt + py)[0] == pt[0];
    assert (pt + py)[1..] == pt[1..] + py;
  }

  // ---------------------------------------------------------------------------
  // strings.TrimSpace, strings.Trim with one cut character

  /** `unicode.IsSpace`: the Latin-1 spaces and the other White_Space code points. */
  predicate IsSpace(c: char)
  {
    var n := c as int;
    (9 <= n <= 13) || n == 32 || n == 0x85 || n == 0xA0 || n == 0x1680
    || (0x2000 <= n <= 0x200A) || n == 0x2028 || n == 0x2029 || n == 0x202F
    || n == 0x205F || n == 0x3000
  }

  function TrimLeftSpace(s: string): (r: string)
    ensures |r| <= |s| && r == s[|s| - |r|..]
    ensures |r| > 0 ==> !IsSpace(r[0])
    ensures forall k :: 0 <= k < |s| - |r| ==> IsSpace(s[k])
  {
    if |s| > 0 && IsSpace(s[0]) then TrimLeftSpace(s[1..]) else s
  }

  function TrimRightSpace(s: string): (r: string)
    ensures |r| <= |s| && r == s[..|r|]
    ensures |r| > 0 ==> !IsSpace(r[|r| - 1])
    ensures forall k :: |r| <= k < |s| ==> IsSpace(s[k])
  {
    if |s| > 0 && IsSpace(s[|s| - 1]) then TrimRightSpace(s[..|s| - 1]) else s
  }

  /** `strings.TrimSpace`: drops the leading and trailing white space, nothing else. */
  function TrimSpace(s: string): (r: string)
    ensures |r| > 0 ==> !IsSpace(r[0]) && !IsSpace(r[|r| - 1])
    ensures forall c :: c in r ==> c in s
  {
    TrimRightSpace(TrimLeftSpace(s))
  }

  function TrimLeftChar(s: string, cut: char): (r: string)
    ensures |r| <= |s| && r == s[|s| - |r|..]
    ensures |r| > 0 ==> r[0] != cut
  {
    if |s| > 0 && s[0] == cut then TrimLeftChar(s[1..], cut) else s
  }

  function TrimRightChar(s: string, cut: char): (r: string)
    ensures |r| <= |s| && r == s[..|r|]
    ensures |r| > 0 ==> r[|r| - 1] != cut
  {
    if |s| > 0 && s[|s| - 1] == cut then TrimRightChar(s[..|s| - 1], cut) else s
  }

  /** `strings.Trim(s, string(cut))`: drops every leading and trailing `cut`. */
  function Trim(s: string, cut: char): (r: string)
    ensures |r| > 0 ==> r[0] != cut && r[|r| - 1] != cut
    ensures forall c :: c in r ==> c in s
  {
    TrimRightChar(TrimLeftChar(s, cut), cut)
  }

  lemma TrimSpaceUnchanged(s: string)
    requires |s| > 0 ==> !IsSpace(s[0]) && !IsSpace(s[|s| - 1])
    ensures TrimSpace(s) == s
  {
  }

  /** One trailing space is trimmed away from text that is already trimmed. */
  lemma TrimSpaceDropsTrailing(s: string, c: char)
    requires IsSpace(c)
    requires TrimSpace(s) == s
    ensures TrimSpace(s + [c]) == s
  {
    if |s| == 0 {
      assert TrimLeftSpace([c]) == TrimLeftSpace([c][1..]);
    } else {
      assert !IsSpace(s[0]);
      assert TrimLeftSpace(s + [c]) == s + [c];
      assert (s + [c])[..|s|] == s;
    }
  }

  /** One leading space is trimmed away from text that is already trimmed. */
  lemma TrimSpaceDropsLeading(s: string, c: char)
    requires IsSpace(c)
    requires |s| > 0 && !IsSpace(s[0]) && !IsSpace(s[|s| - 1])
    ensures TrimSpace([c] + s) == s
  {
    assert ([c] + s)[1..] == s;
    assert TrimLeftSpace([c] + s) == TrimLeftSpace(s) == s;
  }

  lemma TrimUnchanged(s: string, cut: char)
    requires |s| > 0 ==> s[0] != cut && s[|s| - 1] != cut
    ensures Trim(s, cut) == s
  {
  }

  /** Enclosing already-trimmed text in one pair of `cut` characters does not change what Trim leaves. */
  lemma TrimEnclosed(s: string, cut: char)
    ensures Trim([cut] + s + [cut], cut) == Trim(s, cut)
  {
    var w := [cut] + s + [cut];
    assert w[1..] == s + [cut];
    assert TrimLeftChar(w, cut) == TrimLeftChar(s + [cut], cut);
    TrimLeftAppend(s, cut);
    var l := TrimLeftChar(s, cut);
    if |l| == 0 {
      assert TrimLeftChar(s + [cut], cut) == [];
    } else {
      assert TrimLeftChar(s + [cut], cut) == l + [cut];
      assert (l + [cut])[..|l|] == l;
      assert TrimRightChar(l + [cut], cut) == TrimRightChar(l, cut);
    }
  }

  lemma {:induction false} TrimLeftAppend(s: string, cut: char)
    ensures TrimLeftChar(s + [cut], cut) ==
            (if |TrimLeftChar(s, cut)| == 0 then [] else TrimLeftChar(s, cut) + [cut])
  {
    if |s| == 0 {
      assert TrimLeftChar([cut], cut) == TrimLeftChar([cut][1..], cut);
    } else if s[0] == cut {
      assert (s + [cut])[1..] == s[1..] + [cut];
      TrimLeftAppend(s[1..], cut);
    }
  }

  // ---------------------------------------------------------------------------
  // strings.ToLower (ASCII letters) and strings.HasPrefix

  function ToLowerChar(c: char): char
  {
    if 'A' <= c <= 'Z' then (c as int + 32) as char else c
  }

  /** `strings.ToLower`, restricted to the ASCII letters. */
  function ToLower(s: string): (r: string)
    ensures |r| == |s|
    ensures forall i :: 0 <= i < |s| ==> r[i] == ToLowerChar(s[i])
  {
    if |s| == 0 then [] else [ToLowerChar(s[0])] + ToLower(s[1..])
  }

  lemma ToLowerIdempotent(s: string)
    ensures ToLower(ToLower(s)) == ToLower(s)
  {
  }

  /** Lower-casing keeps white space, `=` and line breaks where they were. */
  lemma ToLowerKeepsLayout(s: string)
    ensures forall i :: 0 <= i < |s| ==> (IsSpace(ToLower(s)[i]) <==> IsSpace(s[i]))
    ensures '=' in ToLower(s) <==> '=' in s
    ensures '\n' in ToLower(s) <==> '\n' in s
  {
    var r := ToLower(s);
    assert forall i :: 0 <= i < |s| ==> (r[i] == '=' <==> s[i] == '=');
    assert forall i :: 0 <= i < |s| ==> (r[i] == '\n' <==> s[i] == '\n');
    if '=' in r {
      var i :| 0 <= i < |r| && r[i] == '=';
      assert s[i] == '=';
    }
    if '\n' in r {
      var i :| 0 <= i < |r| && r[i] == '\n';
      assert s[i] == '\n';
    }
  }

  predicate HasPrefix(s: string, prefix: string)
  {
    |prefix| <= |s| && s[..|prefix|] == prefix
  }

  // ---------------------------------------------------------------------------
  // The ordering of sort.Strings and a sort that realises it

  /** Lexicographic order on code points, which is the order of the UTF-8 bytes Go compares. */
  predicate Less(a: string, b: string)
  {
    if |b| == 0 then false
    else if |a| == 0 then true
    else if a[0] != b[0] then a[0] < b[0]
    else Less(a[1..], b[1..])
  }

  predicate LessEq(a: string, b: string)
  {
    a == b || Less(a, b)
  }

  lemma {:induction false} LessIrreflexive(a: string)
    ensures !Less(a, a)
  {
    if |a| > 0 {
      LessIrreflexive(a[1..]);
    }
  }

  lemma {:induction false} LessTransitive(a: string, b: string, c: string)
    requires Less(a, b) && Less(b, c)
    ensures Less(a, c)
  {
    if |a| > 0 && a[0] == b[0] && b[0] == c[0] {
      LessTransitive(a[1..], b[1..], c[1..]);
    }
  }

  lemma {:induction false} LessTotal(a: string, b: string)
    ensures a == b || Less(a, b) || Less(b, a)
  {
    if |a| > 0 && |b| > 0 && a[0] == b[0] {
      LessTotal(a[1..], b[1..]);
      if a[1..] == b[1..] {
        assert a == [a[0]] + a[1..] && b == [b[0]] + b[1..];
      }
    }
  }

  lemma LessAsymmetric(a: string, b: string)
    ensures !(Less(a, b) && Less(b, a))
  {
    if Less(a, b) && Less(b, a) {
      LessTransitive(a, b, a);
      LessIrreflexive(a);
    }
  }

  ghost predicate StrictlySorted(s: seq<string>)
  {
    forall i, j :: 0 <= i < j < |s| ==> Less(s[i], s[j])
  }

  /** Two strictly ascending sequences with the same elements are the same sequence. */
  lemma {:induction false} StrictlySortedUnique(a: seq<string>, b: seq<string>)
    requires StrictlySorted(a) && StrictlySorted(b)
    requires forall x :: x in a <==> x in b
    ensures a == b
  {
    if |a| == 0 {
      HeadIsElement(b);
    } else {
      assert a[0] in a;
      assert a[0] in b;
      var i :| 0 <= i < |b| && b[i] == a[0];
      assert b[0] in b;
      assert b[0] in a;
      var j :| 0 <= j < |a| && a[j] == b[0];
      if i > 0 && j > 0 {
        LessAsymmetric(a[0], b[0]);
        assert false;
      }
      if i > 0 {
        assert j == 0;
        LessIrreflexive(b[0]);
        assert false;
      }
      assert a[0] == b[0];
      forall x
        ensures x in a[1..] <==> x in b[1..]
      {
        if x in a[1..] {
          var k :| 1 <= k < |a| && a[k] == x;
          assert Less(a[0], x);
          LessIrreflexive(x);
          assert x in b && x != b[0];
        }
        if x in b[1..] {
          var k :| 1 <= k < |b| && b[k] == x;
          assert Less(b[0], x);
          LessIrreflexive(x);
          assert x in a && x != a[0];
        }
      }
      StrictlySortedUnique(a[1..], b[1..]);
      assert a == [a[0]] + a[1..] && b == [b[0]] + b[1..];
    }
  }

  lemma HeadIsElement(s: seq<string>)
    ensures |s| > 0 ==> s[0] in s
  {
  }

  ghost predicate Distinct(s: seq<string>)
  {
    forall i, j :: 0 <= i < j < |s| ==> s[i] != s[j]
  }

  /** Inserts `x` before the first element it does not follow. */
  function Insert(x: string, s: seq<string>): (r: seq<string>)
    ensures |r| == |s| + 1
    ensures forall y :: y in r <==> y == x || y in s
  {
    if |s| == 0 then [x]
    else if LessEq(x, s[0]) then [x] + s
    else [s[0]] + Insert(x, s[1..])
  }

  lemma {:induction false} InsertStrictlySorted(x: string, s: seq<string>)
    requires StrictlySorted(s) && x !in s
    ensures StrictlySorted(Insert(x, s))
  {
    if |s| > 0 {
      if LessEq(x, s[0]) {
        forall j | 0 <= j < |s| ensures Less(x, s[j]) {
          if j > 0 { LessTransitive(x, s[0], s[j]); }
        }
      } else {
        LessTotal(x, s[0]);
        InsertStrictlySorted(x, s[1..]);
        var t := Insert(x, s[1..]);
        forall j | 0 <= j < |t| ensures Less(s[0], t[j]) {
          assert t[j] in t;
        }
      }
    }
  }

  /** `sort.Strings` as an insertion sort over a sequence. */
  function SortStrings(s: seq<string>): (r: seq<string>)
    ensures |r| == |s|
    ensures forall y :: y in r <==> y in s
  {
    if |s| == 0 then [] else Insert(s[0], SortStrings(s[1..]))
  }

  lemma {:induction false} SortStringsStrictlySorted(s: seq<string>)
    requires Distinct(s)
    ensures StrictlySorted(SortStrings(s))
  {
    if |s| > 0 {
      assert Distinct(s[1..]);
      SortStringsStrictlySorted(s[1..]);
      assert s[0] !in s[1..];
      InsertStrictlySorted(s[0], SortStrings(s[1..]));
    }
  }
}
