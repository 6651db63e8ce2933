/** The three JavaScript string primitives the handlers use on chat text and
    action tokens: `String.prototype.split` with a one-character separator,
    `indexOf`, and `replace` with a string pattern (first occurrence only). */
module Text {
  import opened Wrappers

  /** The parts joined back with the separator between them. */
  function Join(parts: seq<string>, sep: char): string
    requires |parts| >= 1
    decreases |parts|
  {
    if |parts| == 1 then parts[0] else parts[0] + [sep] + Join(parts[1..], sep)
  }

  /** `s.split(sep)`: the maximal runs of characters between separators.
      The result is never empty ("".split("-") is [""]), no part holds the
      separator, and joining the parts gives back `s`; these three facts
      determine the parts uniquely. */
  function Split(s: string, sep: char): (parts: seq<string>)
    ensures |parts| >= 1
    ensures forall i :: 0 <= i < |parts| ==> sep !in parts[i]
    ensures Join(parts, sep) == s
    decreases |s|
  {
    if s == [] then [""]
    else
      var rest := Split(s[1..], sep);
      if s[0] == sep then
        assert ([""] + rest)[1..] == rest;
        [""] + rest
      else
        var parts := [[s[0]] + rest[0]] + rest[1..];
        assert parts[1..] == rest[1..];
        assert |rest| > 1 ==> Join(rest, sep) == rest[0] + [sep] + Join(rest[1..], sep);
        assert s == [s[0]] + s[1..];
        parts
  }

  /** A string with no separator splits into itself alone. */
  lemma {:induction false} SplitWithoutSeparator(a: string, sep: char)
    requires sep !in a
    ensures Split(a, sep) == [a]
    decreases |a|
  {
    if a != [] {
      assert sep !in a[1..];
      SplitWithoutSeparator(a[1..], sep);
      assert [a[0]] + a[1..] == a;
    }
  }

  /** Splitting `a + sep + b`, where `a` holds no separator, yields `a`
      followed by the parts of `b`. */
  lemma {:induction false} SplitAfterSeparator(a: string, sep: char, b: string)
    requires sep !in a
    ensures Split(a + [sep] + b, sep) == [a] + Split(b, sep)
    decreases |a|
  {
    var s := a + [sep] + b;
    if a == [] {
      assert s[0] == sep && s[1..] == b;
    } else {
      assert s[0] == a[0] && s[1..] == a[1..] + [sep] + b;
      assert sep !in a[1..];
      SplitAfterSeparator(a[1..], sep, b);
      assert [a[0]] + a[1..] == a;
    }
  }

  /** `pat` occurs in `s` starting at index `j`. */
  predicate OccursAt(s: string, pat: string, j: nat)
  {
    j + |pat| <= |s| && s[j..j + |pat|] == pat
  }

  /** `pat` occurs somewhere in `s`. */
  ghost predicate Occurs(s: string, pat: string)
  {
    exists j: nat :: OccursAt(s, pat, j)
  }

  /** `i` is where `pat` first occurs in `s`. */
  predicate FirstOccurrence(s: string, pat: string, i: nat)
  {
    OccursAt(s, pat, i) && forall j: nat :: j < i ==> !OccursAt(s, pat, j)
  }

  /** A string placed between two others occurs right after the first. */
  lemma InfixOccurs(a: string, pat: string, b: string)
    ensures OccursAt(a + pat + b, pat, |a|) && Occurs(a + pat + b, pat)
  {
    var j: nat := |a|;
    assert (a + pat + b)[j..j + |pat|] == pat;
    assert OccursAt(a + pat + b, pat, j);
  }

  /** An occurrence in `b` is an occurrence in `a + b`, shifted by `|a|`. */
  lemma OccursAfterPrefix(a: string, b: string, pat: string, j: nat)
    requires OccursAt(b, pat, j)
    ensures OccursAt(a + b, pat, |a| + j) && Occurs(a + b, pat)
  {
    var i: nat := |a| + j;
    assert (a + b)[i..i + |pat|] == b[j..j + |pat|];
    assert OccursAt(a + b, pat, i);
  }

  /** The pieces written one after the other. */
  function Concat(pieces: seq<string>): string
  {
    if pieces == [] then "" else pieces[0] + Concat(pieces[1..])
  }

  /** Every piece occurs in the concatenation of the pieces. */
  lemma {:induction false} PieceOccurs(pieces: seq<string>, k: nat)
    requires k < |pieces|
    ensures Occurs(Concat(pieces), pieces[k])
  {
    if k == 0 {
      InfixOccurs("", pieces[0], Concat(pieces[1..]));
      assert "" + pieces[0] + Concat(pieces[1..]) == Concat(pieces);
    } else {
      PieceOccurs(pieces[1..], k - 1);
      var j: nat :| OccursAt(Concat(pieces[1..]), pieces[k], j);
      OccursAfterPrefix(pieces[0], Concat(pieces[1..]), pieces[k], j);
    }
  }

  /** `s.indexOf(pat)`: the first index at which `pat` occurs, or None
      (JavaScript's -1) when it occurs nowhere. */
  function IndexOf(s: string, pat: string): (r: Option<nat>)
    ensures r.Some? ==> OccursAt(s, pat, r.value)
    ensures r.Some? ==> forall j: nat :: j < r.value ==> !OccursAt(s, pat, j)
    ensures r.None? ==> forall j: nat :: !OccursAt(s, pat, j)
    decreases |s|
  {
    if pat <= s then Some(0)
    else if s == [] then None
    else
      var tail := IndexOf(s[1..], pat);
      ShiftedOccurrence(s, pat);
      assert !OccursAt(s, pat, 0) by { if |pat| <= |s| { assert s[0..|pat|] == s[..|pat|]; } }
      match tail
      case None => None
      case Some(i) => Some(i + 1)
  }

  /** An occurrence at `j + 1` in `s` is an occurrence at `j` in `s[1..]`. */
  lemma ShiftedOccurrence(s: string, pat: string)
    requires s != []
    ensures forall j: nat :: j > 0 ==> (OccursAt(s, pat, j) <==> OccursAt(s[1..], pat, j - 1))
  {
    forall j: nat | j > 0 ensures OccursAt(s, pat, j) <==> OccursAt(s[1..], pat, j - 1) {
      if j + |pat| <= |s| {
        assert s[1..][j - 1..j - 1 + |pat|] == s[j..j + |pat|];
      }
    }
  }

  /** `s.replace(pat, rep)` with a string pattern: only the first occurrence
      of `pat` is replaced; `s` is returned as it is when `pat` does not occur.
      (The replacement strings used here hold no `$` patterns.) */
  function ReplaceFirst(s: string, pat: string, rep: string): (r: string)
    ensures !Occurs(s, pat) ==> r == s
    ensures forall i: nat :: FirstOccurrence(s, pat, i) ==> r == s[..i] + rep + s[i + |pat|..]
  {
    match IndexOf(s, pat)
    case None => s
    case Some(i) => s[..i] + rep + s[i + |pat|..]
  }
}
