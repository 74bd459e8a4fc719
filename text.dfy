/** String helpers standing for the JavaScript string methods the source uses. */
module Text {

  /** Lower-case letter of `c`: ASCII letters and the accented capitals of Spanish.
      Other characters are unchanged. */
  function LowerChar(c: char): char
  {
    if 'A' <= c <= 'Z' then (c as int + 32) as char
    else if c == 'Á' then 'á'
    else if c == 'É' then 'é'
    else if c == 'Í' then 'í'
    else if c == 'Ó' then 'ó'
    else if c == 'Ú' then 'ú'
    else if c == 'Ñ' then 'ñ'
    else if c == 'Ü' then 'ü'
    else c
  }

  /** `s.toLowerCase()` for the letters `LowerChar` knows. */
  function ToLower(s: string): (r: string)
    ensures |r| == |s|
    ensures forall i :: 0 <= i < |s| ==> r[i] == LowerChar(s[i])
  {
    if s == [] then [] else [LowerChar(s[0])] + ToLower(s[1..])
  }

  /** `s.startsWith(p)`. */
  predicate StartsWith(s: string, p: string)
  {
    |p| <= |s| && s[..|p|] == p
  }

  /** `p` occurs in `s` at position `i`. */
  predicate OccursAt(s: string, p: string, i: int)
  {
    0 <= i <= |s| - |p| && s[i..i + |p|] == p
  }

  /** `s.includes(p)`: `p` occurs at some position of `s`. */
  predicate Contains(s: string, p: string)
  {
    exists i :: 0 <= i <= |s| - |p| && OccursAt(s, p, i)
  }

  /** The characters of `p` from `j` on match those of `s` from `i + j` on, ignoring case. */
  predicate MatchesFoldedAt(s: string, p: string, i: nat, j: nat)
    requires i + |p| <= |s|
    decreases |p| - j
  {
    j >= |p| || (LowerChar(s[i + j]) == LowerChar(p[j]) && MatchesFoldedAt(s, p, i, j + 1))
  }

  /** `p` occurs in `s`, ignoring case, at some position from `i` on. */
  predicate ContainsFoldedFrom(s: string, p: string, i: nat)
    decreases |s| - i
  {
    i + |p| <= |s| && (MatchesFoldedAt(s, p, i, 0) || ContainsFoldedFrom(s, p, i + 1))
  }

  /** `s.toLowerCase().includes(p.toLowerCase())`, scanning the start positions of `s`. */
  predicate IncludesIgnoringCase(s: string, p: string)
  {
    ContainsFoldedFrom(s, p, 0)
  }

  lemma {:induction false} MatchesFoldedAtIff(s: string, p: string, i: nat, j: nat)
    requires i + |p| <= |s|
    decreases |p| - j
    ensures MatchesFoldedAt(s, p, i, j) <==> forall k :: j <= k < |p| ==> LowerChar(s[i + k]) == LowerChar(p[k])
  {
    if j < |p| {
      MatchesFoldedAtIff(s, p, i, j + 1);
    }
  }

  /** Characters of `s` from `k` on that match `p` ignoring case. */
  predicate FoldedMatch(s: string, p: string, k: int)
  {
    0 <= k && k + |p| <= |s| && forall m :: 0 <= m < |p| ==> LowerChar(s[k + m]) == LowerChar(p[m])
  }

  lemma {:induction false} FoldedMatchOccurs(s: string, p: string, k: int)
    requires FoldedMatch(s, p, k)
    ensures OccursAt(ToLower(s), ToLower(p), k)
  {
    var ls, lp := ToLower(s), ToLower(p);
    var w := ls[k..k + |p|];
    assert |w| == |lp|;
    forall m | 0 <= m < |lp| ensures w[m] == lp[m] {
      assert w[m] == ls[k + m] == LowerChar(s[k + m]);
    }
    assert w == lp;
  }

  lemma {:induction false} OccursFoldedMatch(s: string, p: string, k: int)
    requires OccursAt(ToLower(s), ToLower(p), k)
    ensures FoldedMatch(s, p, k)
  {
    var ls, lp := ToLower(s), ToLower(p);
    var w := ls[k..k + |p|];
    forall m | 0 <= m < |p| ensures LowerChar(s[k + m]) == LowerChar(p[m]) {
      assert w[m] == ls[k + m];
      assert w[m] == lp[m];
    }
  }

  lemma {:induction false} OccursFolded(s: string, p: string, k: int)
    ensures OccursAt(ToLower(s), ToLower(p), k) <==> FoldedMatch(s, p, k)
  {
    if FoldedMatch(s, p, k) { FoldedMatchOccurs(s, p, k); }
    if OccursAt(ToLower(s), ToLower(p), k) { OccursFoldedMatch(s, p, k); }
  }

  lemma {:induction false} ContainsFoldedFromIff(s: string, p: string, i: nat)
    decreases |s| - i
    ensures ContainsFoldedFrom(s, p, i) <==> exists k :: i <= k && OccursAt(ToLower(s), ToLower(p), k)
  {
    if i + |p| <= |s| {
      MatchesFoldedAtIff(s, p, i, 0);
      OccursFolded(s, p, i);
      ContainsFoldedFromIff(s, p, i + 1);
      if k :| i <= k && OccursAt(ToLower(s), ToLower(p), k) {
        if k > i {
          assert i + 1 <= k;
        }
      }
    } else {
      if k :| i <= k && OccursAt(ToLower(s), ToLower(p), k) {
        OccursFolded(s, p, k);
      }
    }
  }

  /** The scan agrees with lower-casing both strings and searching. */
  lemma {:induction false} IncludesIgnoringCaseIff(s: string, p: string)
    ensures IncludesIgnoringCase(s, p) <==> Contains(ToLower(s), ToLower(p))
  {
    ContainsFoldedFromIff(s, p, 0);
  }

  /** `a || b` on strings: `a` unless it is empty. */
  function OrElse(a: string, b: string): (r: string)
    ensures r == a || r == b
    ensures r == "" <==> a == "" && b == ""
  {
    if a != "" then a else b
  }

  /** `s.slice(0, n)`: the first `n` characters, or all of `s` when it is shorter. */
  function Prefix(s: string, n: nat): (r: string)
    ensures |r| == if |s| < n then |s| else n
    ensures StartsWith(s, r)
  {
    if |s| < n then s else s[..n]
  }

  /** The characters `String.prototype.trim` removes: the white space and line terminators of
      ECMAScript (sections 12.2 and 12.3 of ECMA-262), the space separators of Unicode included. */
  predicate IsSpace(c: char)
  {
    || c == ' ' || c == '\t' || c == '\n' || c == '\r' || c == '\U{000B}' || c == '\U{000C}'
    || c == '\U{00A0}' || c == '\U{1680}' || ('\U{2000}' <= c <= '\U{200A}')
    || c == '\U{2028}' || c == '\U{2029}' || c == '\U{202F}' || c == '\U{205F}'
    || c == '\U{3000}' || c == '\U{FEFF}'
  }

  function TrimStart(s: string): (r: string)
    ensures |r| <= |s|
    ensures r == s[|s| - |r|..]
    ensures r == [] || !IsSpace(r[0])
    ensures forall i :: 0 <= i < |s| - |r| ==> IsSpace(s[i])
  {
    if s != [] && IsSpace(s[0]) then TrimStart(s[1..]) else s
  }

  function TrimEnd(s: string): (r: string)
    ensures |r| <= |s|
    ensures r == s[..|r|]
    ensures r == [] || !IsSpace(r[|r| - 1])
    ensures forall i :: |r| <= i < |s| ==> IsSpace(s[i])
  {
    if s != [] && IsSpace(s[|s| - 1]) then TrimEnd(s[..|s| - 1]) else s
  }

  /** `s.trim()`. */
  function Trim(s: string): (r: string)
  {
    TrimEnd(TrimStart(s))
  }

  /** A string `trim` leaves alone: no white space at either end. */
  predicate IsTrimmed(s: string)
  {
    s == [] || (!IsSpace(s[0]) && !IsSpace(s[|s| - 1]))
  }

  lemma {:induction false} TrimResult(s: string)
    ensures IsTrimmed(Trim(s))
    ensures Trim(s) == [] ==> forall i :: 0 <= i < |s| ==> IsSpace(s[i])
  {
    var t := TrimStart(s);
    var r := TrimEnd(t);
    if r != [] {
      assert r[0] == t[0];
    }
  }

  lemma {:induction false} TrimOfTrimmed(s: string)
    requires IsTrimmed(s)
    ensures Trim(s) == s
  {
  }

  /** Prepending white space is undone by `Trim`. */
  lemma {:induction false} TrimLeadingSpaces(sp: string, s: string)
    requires forall i :: 0 <= i < |sp| ==> IsSpace(sp[i])
    requires IsTrimmed(s)
    ensures Trim(sp + s) == s
    decreases |sp|
  {
    if sp == [] {
      assert sp + s == s;
    } else {
      assert (sp + s)[1..] == sp[1..] + s;
      TrimLeadingSpaces(sp[1..], s);
    }
  }

  /** `s.split(sep)`: the pieces of `s` between occurrences of `sep`. */
  function Split(s: string, sep: char): (r: seq<string>)
    ensures |r| > 0
  {
    if s == [] then [""]
    else if s[0] == sep then [""] + Split(s[1..], sep)
    else
      var rest := Split(s[1..], sep);
      [[s[0]] + rest[0]] + rest[1..]
  }

  /** `pieces.join(sep)`. */
  function Join(pieces: seq<string>, sep: string): string
  {
    if pieces == [] then ""
    else if |pieces| == 1 then pieces[0]
    else pieces[0] + sep + Join(pieces[1..], sep)
  }

  lemma {:induction false} SplitPiecesHaveNoSeparator(s: string, sep: char)
    ensures forall k :: 0 <= k < |Split(s, sep)| ==> sep !in Split(s, sep)[k]
  {
    if s != [] {
      SplitPiecesHaveNoSeparator(s[1..], sep);
    }
  }

  /** Splitting and joining again with the same separator gives back the string. */
  lemma {:induction false} JoinSplit(s: string, sep: char)
    ensures Join(Split(s, sep), [sep]) == s
  {
    if s != [] {
      var rest := Split(s[1..], sep);
      JoinSplit(s[1..], sep);
      if s[0] == sep {
        assert Split(s, sep) == [""] + rest;
        assert ([""] + rest)[1..] == rest;
      } else {
        var r := [[s[0]] + rest[0]] + rest[1..];
        if |rest| == 1 {
          assert r == [[s[0]] + rest[0]];
        } else {
          assert r[1..] == rest[1..];
          assert Join(rest, [sep]) == rest[0] + [sep] + Join(rest[1..], [sep]);
        }
      }
    }
  }

  /** Splitting a string that begins with a piece and a separator. */
  lemma {:induction false} SplitCons(w: string, sep: char, rest: string)
    requires sep !in w
    ensures Split(w + [sep] + rest, sep) == [w] + Split(rest, sep)
    decreases |w|
  {
    if w == [] {
      assert w + [sep] + rest == [sep] + rest;
      assert ([sep] + rest)[1..] == rest;
    } else {
      assert (w + [sep] + rest)[1..] == w[1..] + [sep] + rest;
      SplitCons(w[1..], sep, rest);
      assert [w[0]] + w[1..] == w;
    }
  }

  lemma {:induction false} SplitWord(w: string, sep: char)
    requires sep !in w
    ensures Split(w, sep) == [w]
    decreases |w|
  {
    if w != [] {
      SplitWord(w[1..], sep);
      assert [w[0]] + w[1..] == w;
    }
  }

  /** Joining pieces that hold no separator and splitting again gives back the pieces. */
  lemma {:induction false} SplitJoin(pieces: seq<string>, sep: char)
    requires |pieces| > 0
    requires forall k :: 0 <= k < |pieces| ==> sep !in pieces[k]
    ensures Split(Join(pieces, [sep]), sep) == pieces
  {
    if |pieces| == 1 {
      SplitWord(pieces[0], sep);
    } else {
      SplitJoin(pieces[1..], sep);
      SplitCons(pieces[0], sep, Join(pieces[1..], [sep]));
    }
  }

  /** Decimal digits of a natural number. */
  function NatToString(n: nat): (r: string)
    ensures |r| > 0
    decreases n
  {
    var d := ['0', '1', '2', '3', '4', '5', '6', '7', '8', '9'][n % 10];
    if n < 10 then [d] else NatToString(n / 10) + [d]
  }

  /** `n.toString()` for an integer. */
  function IntToString(n: int): (r: string)
    ensures |r| > 0
  {
    if n < 0 then "-" + NatToString(-n) else NatToString(n)
  }

  /** `s.padStart(2, '0')`. */
  function PadTwo(s: string): (r: string)
    ensures |r| == if |s| < 2 then 2 else |s|
    ensures |s| >= 2 ==> r == s
  {
    if |s| == 0 then "00" else if |s| == 1 then "0" + s else s
  }

  /** The day number of a date, written with at least two digits. */
  lemma {:induction false} DayStringOneDigit(d: nat)
    requires 1 <= d <= 9
    ensures PadTwo(IntToString(d)) == ['0', ['0', '1', '2', '3', '4', '5', '6', '7', '8', '9'][d]]
  {
  }

  /** Lexicographic order on strings (the order of ISO dates). */
  predicate LexLe(a: string, b: string)
    decreases |a|
  {
    a == [] || (b != [] && (a[0] < b[0] || (a[0] == b[0] && LexLe(a[1..], b[1..]))))
  }

  lemma {:induction false} LexLeTotal(a: string, b: string)
    ensures LexLe(a, b) || LexLe(b, a)
    decreases |a|
  {
    if a != [] && b != [] && a[0] == b[0] {
      LexLeTotal(a[1..], b[1..]);
    }
  }

  lemma {:induction false} LexLeTransitive(a: string, b: string, c: string)
    requires LexLe(a, b) && LexLe(b, c)
    ensures LexLe(a, c)
    decreases |a|
  {
    if a != [] && b != [] && c != [] && a[0] == b[0] && b[0] == c[0] {
      LexLeTransitive(a[1..], b[1..], c[1..]);
    }
  }

  lemma {:induction false} LexLeAntisymmetric(a: string, b: string)
    requires LexLe(a, b) && LexLe(b, a)
    ensures a == b
    decreases |a|
  {
    if a != [] && b != [] {
      LexLeAntisymmetric(a[1..], b[1..]);
      assert a == [a[0]] + a[1..] && b == [b[0]] + b[1..];
    }
  }

  lemma {:induction false} LexLeReflexive(a: string)
    ensures LexLe(a, a)
    decreases |a|
  {
    if a != [] {
      LexLeReflexive(a[1..]);
    }
  }
}
