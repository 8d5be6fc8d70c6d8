/** The two string operations the entitlement logic relies on: substring
    search and splitting on a separator character. Strings are `seq<char>`. */
module Text {

  /** `t` occurs in `s` starting at index `i`. */
  ghost predicate OccursAt(s: string, t: string, i: int)
  {
    0 <= i && i + |t| <= |s| && s[i..i + |t|] == t
  }

  predicate IsPrefix(p: string, s: string)
  {
    |p| <= |s| && s[..|p|] == p
  }

  lemma {:induction false} OccursAtShift(s: string, t: string, i: int)
    requires |s| > 0 && i >= 1
    ensures OccursAt(s, t, i) <==> OccursAt(s[1..], t, i - 1)
  {
    if i + |t| <= |s| {
      assert s[1..][i - 1..i - 1 + |t|] == s[i..i + |t|];
    }
  }

  /** Substring test, as Swift's `String.contains(_:)` for a non-empty needle. */
  function Contains(s: string, t: string): (r: bool)
    ensures r <==> exists i :: OccursAt(s, t, i)
    decreases |s|
  {
    if IsPrefix(t, s) then
      assert OccursAt(s, t, 0);
      true
    else if |s| == 0 then
      assert forall i :: !OccursAt(s, t, i);
      false
    else
      var rest := Contains(s[1..], t);
      assert rest ==> exists i :: OccursAt(s, t, i) by {
        if rest {
          var j :| OccursAt(s[1..], t, j);
          OccursAtShift(s, t, j + 1);
        }
      }
      assert (exists i :: OccursAt(s, t, i)) ==> rest by {
        if i :| OccursAt(s, t, i) {
          if i >= 1 {
            OccursAtShift(s, t, i);
          }
        }
      }
      rest
  }

  lemma OccurrenceStartsWithFirst(s: string, t: string, i: int)
    requires |t| > 0
    ensures OccursAt(s, t, i) ==> s[i] == t[0]
  {
    if OccursAt(s, t, i) {
      assert s[i..i + |t|][0] == t[0];
    }
  }

  /** A string in which character `c` never appears cannot contain a string
      that starts with `c`. */
  lemma AbsentFirstCharacter(s: string, t: string)
    requires |t| > 0 && t[0] !in s
    ensures !Contains(s, t)
  {
    forall i ensures !OccursAt(s, t, i) {
      OccurrenceStartsWithFirst(s, t, i);
    }
  }

  /** The parts, rejoined with `sep` between consecutive parts. */
  function Join(parts: seq<string>, sep: char): (r: string)
    requires |parts| >= 1
    decreases |parts|
  {
    if |parts| == 1 then parts[0] else parts[0] + [sep] + Join(parts[1..], sep)
  }

  /** Swift's `components(separatedBy:)` with a one-character separator:
      the maximal separator-free pieces of `s`, in order. There is always at
      least one piece (the empty string yields `[""]`). */
  function Components(s: string, sep: char): (r: seq<string>)
    ensures |r| >= 1
    ensures forall k :: 0 <= k < |r| ==> sep !in r[k]
    ensures Join(r, sep) == s
    decreases |s|
  {
    if |s| == 0 then [""]
    else
      var rest := Components(s[1..], sep);
      if s[0] == sep then
        assert ([""] + rest)[1..] == rest;
        [""] + rest
      else
        var r := [[s[0]] + rest[0]] + rest[1..];
        assert r[1..] == rest[1..];
        assert Join(r, sep) == s by {
          if |rest| == 1 {
            assert s == [s[0]] + s[1..];
          } else {
            calc {
              Join(r, sep);
              ([s[0]] + rest[0]) + [sep] + Join(rest[1..], sep);
              [s[0]] + (rest[0] + [sep] + Join(rest[1..], sep));
              [s[0]] + Join(rest, sep);
              s;
            }
          }
        }
        r
  }

  /** The last piece of `Components(s, sep)`. */
  function LastComponent(s: string, sep: char): string
  {
    var parts := Components(s, sep);
    parts[|parts| - 1]
  }

  /** `c` is the text after the last `sep` of `s`: a separator-free suffix
      of `s` that is either all of `s` or immediately preceded by `sep`. */
  ghost predicate IsTailAfterLast(s: string, sep: char, c: string)
  {
    && |c| <= |s|
    && s[|s| - |c|..] == c
    && sep !in c
    && (|c| == |s| || s[|s| - |c| - 1] == sep)
  }

  /** Joining two or more parts puts a separator into the result. */
  lemma JoinHasSeparator(parts: seq<string>, sep: char)
    requires |parts| > 1
    ensures sep in Join(parts, sep)
  {
    assert Join(parts, sep)[|parts[0]|] == sep;
  }

  lemma LastComponentStep(s: string, sep: char)
    requires |s| > 0
    ensures s[0] != sep && |Components(s[1..], sep)| == 1 ==> LastComponent(s, sep) == s
    ensures s[0] == sep || |Components(s[1..], sep)| > 1 ==> LastComponent(s, sep) == LastComponent(s[1..], sep)
  {
    var rest := Components(s[1..], sep);
    if s[0] != sep && |rest| == 1 {
      assert rest[0] == Join(rest, sep) == s[1..];
      assert [s[0]] + s[1..] == s;
    }
  }

  lemma TailExtends(s: string, sep: char, c: string)
    requires |s| > 0 && IsTailAfterLast(s[1..], sep, c)
    requires |c| < |s| - 1 || s[0] == sep
    ensures IsTailAfterLast(s, sep, c)
  {
    assert s[1..][|s| - 1 - |c|..] == s[|s| - |c|..];
    if |c| < |s| - 1 {
      assert s[|s| - |c| - 1] == s[1..][|s| - 1 - |c| - 1];
    }
  }

  lemma {:induction false} LastComponentIsTail(s: string, sep: char)
    ensures IsTailAfterLast(s, sep, LastComponent(s, sep))
    decreases |s|
  {
    if |s| > 0 {
      var rest := Components(s[1..], sep);
      LastComponentStep(s, sep);
      if s[0] == sep || |rest| > 1 {
        var c := LastComponent(s[1..], sep);
        LastComponentIsTail(s[1..], sep);
        if |rest| > 1 {
          JoinHasSeparator(rest, sep);
        }
        TailExtends(s, sep, c);
      }
    }
  }

  /** A separator-free suffix that is longer than a tail after the last
      separator must contain that separator. */
  lemma LongerSuffixHasSeparator(s: string, sep: char, c: string, d: string)
    requires IsTailAfterLast(s, sep, c)
    requires |d| <= |s| && s[|s| - |d|..] == d
    ensures |c| < |d| ==> sep in d
  {
    if |c| < |d| {
      assert d[|d| - |c| - 1] == s[|s| - |c| - 1];
    }
  }

  /** There is only one tail after the last separator. */
  lemma TailAfterLastUnique(s: string, sep: char, c: string, d: string)
    requires IsTailAfterLast(s, sep, c) && IsTailAfterLast(s, sep, d)
    ensures c == d
  {
    LongerSuffixHasSeparator(s, sep, c, d);
    LongerSuffixHasSeparator(s, sep, d, c);
  }
}
