/*
 * Facts about a text written as its words joined by a separator: how
 * lower-casing, substring search, capital counting and length behave on the
 * joined text, in terms of the words alone.
 */
module WordLists {
  import opened Text

  /** Every word of the list lowered. */
  function LowerAll(ws: seq<string>): (r: seq<string>)
    ensures |r| == |ws|
    ensures forall i :: 0 <= i < |ws| ==> r[i] == Lower(ws[i])
  {
    seq(|ws|, i requires 0 <= i < |ws| => Lower(ws[i]))
  }

  /** Total number of characters in the words. */
  function TotalLength(ws: seq<string>): nat
  {
    if |ws| == 0 then 0 else |ws[0]| + TotalLength(ws[1..])
  }

  /** Total number of capitals in the words. */
  function TotalUpper(ws: seq<string>): nat
  {
    if |ws| == 0 then 0 else CountUpper(ws[0]) + TotalUpper(ws[1..])
  }

  /** Joining a word in front of a non-empty list puts one separator between them. */
  lemma JoinCons(w: string, ws: seq<string>, sep: char)
    requires |ws| > 0
    ensures Join([w] + ws, sep) == w + [sep] + Join(ws, sep)
  {
    assert ([w] + ws)[1..] == ws;
  }

  lemma {:induction false} JoinConcat(a: seq<string>, b: seq<string>, sep: char)
    requires |a| > 0 && |b| > 0
    ensures Join(a + b, sep) == Join(a, sep) + [sep] + Join(b, sep)
  {
    if |a| == 1 {
      assert (a + b)[1..] == b;
    } else {
      assert (a + b)[1..] == a[1..] + b;
      JoinConcat(a[1..], b, sep);
    }
  }

  lemma {:induction false} LowerJoin(ws: seq<string>, sep: char)
    requires !IsUpper(sep)
    ensures Lower(Join(ws, sep)) == Join(LowerAll(ws), sep)
  {
    if |ws| > 1 {
      LowerJoin(ws[1..], sep);
      assert LowerAll(ws)[1..] == LowerAll(ws[1..]);
      LowerAppend(ws[0] + [sep], Join(ws[1..], sep));
      LowerAppend(ws[0], [sep]);
    }
  }

  /** The joined text has every separator plus every character of every word. */
  lemma {:induction false} JoinLength(ws: seq<string>, sep: char)
    requires |ws| > 0
    ensures |Join(ws, sep)| == TotalLength(ws) + |ws| - 1
  {
    if |ws| > 1 {
      JoinLength(ws[1..], sep);
    }
  }

  /** The capitals of the joined text are those of its words when the separator is not one. */
  lemma {:induction false} JoinUpper(ws: seq<string>, sep: char)
    requires !IsUpper(sep)
    ensures CountUpper(Join(ws, sep)) == TotalUpper(ws)
  {
    if |ws| == 1 {
      assert TotalUpper(ws) == CountUpper(ws[0]) + TotalUpper(ws[1..]);
    } else if |ws| > 1 {
      JoinUpper(ws[1..], sep);
      CountUpperAppend(ws[0] + [sep], Join(ws[1..], sep));
      CountUpperAppend(ws[0], [sep]);
    }
  }

  lemma {:induction false} TotalLengthConcat(a: seq<string>, b: seq<string>)
    ensures TotalLength(a + b) == TotalLength(a) + TotalLength(b)
  {
    if |a| == 0 {
      assert a + b == b;
    } else {
      assert (a + b)[1..] == a[1..] + b;
      TotalLengthConcat(a[1..], b);
    }
  }

  /** A word whose only capital, if any, is its first character. */
  predicate CapitalOnlyFirst(w: string)
  {
    forall k | 1 <= k < |w| :: !IsUpper(w[k])
  }

  lemma CapitalOnlyFirstBound(w: string)
    requires CapitalOnlyFirst(w)
    ensures CountUpper(w) <= 1
  {
    if |w| > 0 {
      assert CountUpper(w[1..]) == 0;
    }
  }

  /** Words with at most one capital each contribute at most one capital each. */
  lemma {:induction false} TotalUpperBound(ws: seq<string>)
    requires forall i :: 0 <= i < |ws| ==> CapitalOnlyFirst(ws[i])
    ensures TotalUpper(ws) <= |ws|
  {
    if |ws| > 0 {
      CapitalOnlyFirstBound(ws[0]);
      assert forall i :: 0 <= i < |ws| - 1 ==> ws[1..][i] == ws[i + 1];
      TotalUpperBound(ws[1..]);
    }
  }

  /** A run of consecutive words, joined, occurs in the joined text. */
  lemma {:induction false} JoinIncludesRun(ws: seq<string>, sep: char, i: int, j: int)
    requires 0 <= i < j <= |ws|
    ensures Includes(Join(ws, sep), Join(ws[i..j], sep))
  {
    if i == 0 && j == |ws| {
      assert ws[i..j] == ws;
      assert OccursAt(Join(ws, sep), Join(ws, sep), 0);
    } else if i == 0 {
      JoinConcat(ws[..j], ws[j..], sep);
      assert ws[..j] + ws[j..] == ws;
      assert ws[i..j] == ws[..j];
      assert OccursAt(Join(ws, sep), Join(ws[..j], sep), 0);
    } else {
      JoinConcat(ws[..i], ws[i..], sep);
      assert ws[..i] + ws[i..] == ws;
      assert ws[i..][0..j - i] == ws[i..j];
      JoinIncludesRun(ws[i..], sep, 0, j - i);
      IncludesExtend(Join(ws[..i], sep) + [sep], Join(ws[i..], sep), "", Join(ws[i..j], sep));
      assert Join(ws[..i], sep) + [sep] + Join(ws[i..], sep) + "" == Join(ws, sep);
    }
  }

  /** An occurrence in a + [sep] + b of a pattern without the separator lies in a or in b. */
  lemma SplitOccurrence(a: string, sep: char, b: string, q: string)
    requires |q| > 0 && sep !in q
    requires Includes(a + [sep] + b, q)
    ensures Includes(a, q) || Includes(b, q)
  {
    var s := a + [sep] + b;
    var k :| OccursAt(s, q, k);
    assert OccursAt(s, q, k);
    if k + |q| <= |a| {
      assert a[k..k + |q|] == s[k..k + |q|];
      assert OccursAt(a, q, k);
    } else if k > |a| {
      assert b[k - |a| - 1..k - |a| - 1 + |q|] == s[k..k + |q|];
      assert OccursAt(b, q, k - |a| - 1);
    } else {
      SliceAt(s, k, k + |q|, |a| - k);
      assert false;
    }
  }

  /** A pattern without the separator that no word contains is not in the joined text. */
  lemma {:induction false} JoinAvoids(ws: seq<string>, sep: char, q: string)
    requires |q| > 0 && sep !in q
    requires forall i :: 0 <= i < |ws| ==> !Includes(ws[i], q)
    ensures !Includes(Join(ws, sep), q)
  {
    if |ws| == 0 {
      IncludesBounds("", q);
    } else if |ws| > 1 {
      assert forall i :: 0 <= i < |ws| - 1 ==> ws[1..][i] == ws[i + 1];
      JoinAvoids(ws[1..], sep, q);
      if Includes(Join(ws, sep), q) {
        SplitOccurrence(ws[0], sep, Join(ws[1..], sep), q);
      }
    }
  }

  /**
   * The three-character pattern x, sep, y occurs in a join of separator-free,
   * non-empty words only where one word ends in x and the next begins with y.
   */
  lemma {:induction false} JoinAvoidsAcross(ws: seq<string>, sep: char, x: char, y: char)
    requires forall i :: 0 <= i < |ws| ==> |ws[i]| > 0 && sep !in ws[i]
    requires forall i :: 0 <= i < |ws| - 1 ==> !(ws[i][|ws[i]| - 1] == x && ws[i + 1][0] == y)
    ensures !Includes(Join(ws, sep), [x, sep, y])
  {
    var q := [x, sep, y];
    if |ws| == 1 {
      forall k | 0 <= k <= |ws[0]| - 3
        ensures !OccursAt(ws[0], q, k)
      {
        SliceAt(ws[0], k, k + 3, 1);
      }
    } else if |ws| > 1 {
      var rest := ws[1..];
      assert forall i :: 0 <= i < |rest| ==> rest[i] == ws[i + 1];
      JoinAvoidsAcross(rest, sep, x, y);
      var a, b := ws[0], Join(rest, sep);
      var s := a + [sep] + b;
      assert Join(ws, sep) == s;
      if Includes(s, q) {
        var k :| OccursAt(s, q, k);
        assert OccursAt(s, q, k);
        assert s[k..k + 3] == q;
        assert s[k + 1] == sep;
        if k + 1 < |a| {
          SliceAt(s, k, k + 3, 1);
          assert false;
        } else if k + 1 == |a| {
          assert s[k] == a[|a| - 1] && s[k + 2] == b[0];
          JoinFirst(rest, sep);
        } else {
          assert b[k - |a| - 1..k - |a| - 1 + 3] == s[k..k + 3];
          assert OccursAt(b, q, k - |a| - 1);
        }
      }
    }
  }

  lemma SliceAt(s: string, i: int, j: int, t: int)
    ensures 0 <= i <= j <= |s| && 0 <= t < j - i ==> s[i..j][t] == s[i + t]
  {
  }

  /** The joined text starts with the first word. */
  lemma {:induction false} JoinFirst(ws: seq<string>, sep: char)
    requires |ws| > 0 && |ws[0]| > 0
    ensures |Join(ws, sep)| > 0 && Join(ws, sep)[0] == ws[0][0]
  {
  }

  /** Includes is transitive, read backwards: a text lacking a piece of p lacks p. */
  lemma LacksPiece(s: string, p: string, q: string)
    requires !Includes(s, q) && Includes(p, q)
    ensures !Includes(s, p)
  {
    if Includes(s, p) {
      IncludesTransitive(s, p, q);
    }
  }

  /** No character of w is c. */
  lemma AvoidsChar(w: string, c: char)
    requires c !in w
    ensures !Includes(w, [c])
  {
    forall k | 0 <= k <= |w| - 1
      ensures !OccursAt(w, [c], k)
    {
      assert w[k] == w[k..k + 1][0];
    }
  }

  /** No two adjacent characters of w are x then y. */
  predicate NoPair(w: string, x: char, y: char)
  {
    forall k | 0 <= k < |w| - 1 :: !(w[k] == x && w[k + 1] == y)
  }

  lemma AvoidsPair(w: string, x: char, y: char)
    requires NoPair(w, x, y)
    ensures !Includes(w, [x, y])
  {
    forall k | 0 <= k <= |w| - 2
      ensures !OccursAt(w, [x, y], k)
    {
      assert w[k] == w[k..k + 2][0] && w[k + 1] == w[k..k + 2][1];
    }
  }

  /** No three adjacent characters of w are x, y, z. */
  predicate NoTriple(w: string, x: char, y: char, z: char)
  {
    forall k | 0 <= k < |w| - 2 :: !(w[k] == x && w[k + 1] == y && w[k + 2] == z)
  }

  lemma AvoidsTriple(w: string, x: char, y: char, z: char)
    requires NoTriple(w, x, y, z)
    ensures !Includes(w, [x, y, z])
  {
    forall k | 0 <= k <= |w| - 3
      ensures !OccursAt(w, [x, y, z], k)
    {
      assert w[k] == w[k..k + 3][0] && w[k + 1] == w[k..k + 3][1] && w[k + 2] == w[k..k + 3][2];
    }
  }

  lemma LowerAllConcat(a: seq<string>, b: seq<string>)
    ensures LowerAll(a + b) == LowerAll(a) + LowerAll(b)
  {
  }

  /** lw is w with every character lowered. */
  predicate LowersTo(w: string, lw: string)
  {
    |w| == |lw| && forall k | 0 <= k < |w| :: LowerChar(w[k]) == lw[k]
  }

  lemma LowersToLower(w: string, lw: string)
    requires LowersTo(w, lw)
    ensures Lower(w) == lw
  {
  }

  /** Word lists related word by word by LowersTo. */
  lemma LowerAllOf(ws: seq<string>, lws: seq<string>)
    requires |ws| == |lws|
    requires forall i | 0 <= i < |ws| :: LowersTo(ws[i], lws[i])
    ensures LowerAll(ws) == lws
  {
    forall i | 0 <= i < |ws|
      ensures LowerAll(ws)[i] == lws[i]
    {
      LowersToLower(ws[i], lws[i]);
    }
  }

  lemma JoinAvoidsChar(ws: seq<string>, sep: char, c: char)
    requires c != sep
    requires forall i | 0 <= i < |ws| :: c !in ws[i]
    ensures !Includes(Join(ws, sep), [c])
  {
    forall i | 0 <= i < |ws|
      ensures !Includes(ws[i], [c])
    {
      AvoidsChar(ws[i], c);
    }
    JoinAvoids(ws, sep, [c]);
  }

  lemma JoinAvoidsPair(ws: seq<string>, sep: char, x: char, y: char)
    requires x != sep && y != sep
    requires forall i | 0 <= i < |ws| :: NoPair(ws[i], x, y)
    ensures !Includes(Join(ws, sep), [x, y])
  {
    forall i | 0 <= i < |ws|
      ensures !Includes(ws[i], [x, y])
    {
      AvoidsPair(ws[i], x, y);
    }
    JoinAvoids(ws, sep, [x, y]);
  }

  lemma JoinAvoidsTriple(ws: seq<string>, sep: char, x: char, y: char, z: char)
    requires x != sep && y != sep && z != sep
    requires forall i | 0 <= i < |ws| :: NoTriple(ws[i], x, y, z)
    ensures !Includes(Join(ws, sep), [x, y, z])
  {
    forall i | 0 <= i < |ws|
      ensures !Includes(ws[i], [x, y, z])
    {
      AvoidsTriple(ws[i], x, y, z);
    }
    JoinAvoids(ws, sep, [x, y, z]);
  }

  /** A run of consecutive words of the middle part m, joined, occurs in the join of a + m + b. */
  lemma JoinIncludesRunOf(a: seq<string>, m: seq<string>, b: seq<string>, sep: char, i: int, j: int)
    requires 0 <= i < j <= |m|
    ensures Includes(Join(a + m + b, sep), Join(m[i..j], sep))
  {
    assert (a + m + b)[|a| + i..|a| + j] == m[i..j];
    JoinIncludesRun(a + m + b, sep, |a| + i, |a| + j);
  }

  /** Words with at most one capital each, except the word at e, which may be all capitals. */
  lemma {:induction false} TotalUpperBoundExcept(ws: seq<string>, e: int)
    requires 0 <= e < |ws|
    requires forall i | 0 <= i < |ws| && i != e :: CapitalOnlyFirst(ws[i])
    ensures TotalUpper(ws) <= |ws| - 1 + |ws[e]|
  {
    assert forall i :: 0 <= i < |ws| - 1 ==> ws[1..][i] == ws[i + 1];
    if e == 0 {
      TotalUpperBound(ws[1..]);
    } else {
      CapitalOnlyFirstBound(ws[0]);
      TotalUpperBoundExcept(ws[1..], e - 1);
    }
  }
}
