/** The JavaScript string operations the source relies on, written out over `seq<char>`. */
module Strings {
  import opened Wrappers

  /** `Array.prototype.join`: the parts separated by `sep`; empty for no parts. */
  function Join(parts: seq<string>, sep: string): string
  {
    if |parts| == 0 then ""
    else if |parts| == 1 then parts[0]
    else Join(parts[..|parts| - 1], sep) + sep + parts[|parts| - 1]
  }

  /** Joining one more part adds the separator and then that part. */
  lemma JoinSnoc(parts: seq<string>, sep: string, last: string)
    requires |parts| > 0
    ensures Join(parts + [last], sep) == Join(parts, sep) + sep + last
  {
    assert (parts + [last])[..|parts|] == parts;
  }

  /** Joining two non-empty runs of parts puts one separator between their joins. */
  lemma {:induction false} JoinAppend(a: seq<string>, b: seq<string>, sep: string)
    requires |a| > 0 && |b| > 0
    ensures Join(a + b, sep) == Join(a, sep) + sep + Join(b, sep)
  {
    if |b| == 1 {
      JoinSnoc(a, sep, b[0]);
      assert a + b == a + [b[0]];
    } else {
      var init := b[..|b| - 1];
      var last := b[|b| - 1];
      assert b == init + [last];
      assert a + b == (a + init) + [last];
      JoinAppend(a, init, sep);
      JoinSnoc(a + init, sep, last);
      JoinSnoc(init, sep, last);
      AppendAssoc(Join(a, sep) + sep, Join(init, sep) + sep, last);
      AppendAssoc(Join(a, sep) + sep, Join(init, sep), sep);
    }
  }

  /** A join is its first part, then (when there are more) the separator and the join of the rest. */
  lemma JoinFirst(parts: seq<string>, sep: string)
    requires |parts| > 0
    ensures Join(parts, sep) == parts[0] + (if |parts| == 1 then "" else sep + Join(parts[1..], sep))
  {
    if |parts| > 1 {
      assert parts == [parts[0]] + parts[1..];
      JoinAppend([parts[0]], parts[1..], sep);
    }
  }

  /** Each part of a join sits between the join of the parts before it and the join of the parts
      after it, a separator on each side that has parts. */
  lemma JoinAt(parts: seq<string>, sep: string, i: nat)
    requires i < |parts|
    ensures Join(parts, sep)
         == (if i == 0 then "" else Join(parts[..i], sep) + sep)
          + parts[i]
          + (if i == |parts| - 1 then "" else sep + Join(parts[i + 1..], sep))
  {
    var rest := parts[i..];
    var after := if i == |parts| - 1 then "" else sep + Join(parts[i + 1..], sep);
    assert Join(rest, sep) == parts[i] + after by {
      assert rest[0] == parts[i] && rest[1..] == parts[i + 1..];
      JoinFirst(rest, sep);
    }
    if i > 0 {
      var before := Join(parts[..i], sep) + sep;
      assert Join(parts, sep) == before + Join(rest, sep) by {
        assert parts == parts[..i] + rest;
        JoinAppend(parts[..i], rest, sep);
      }
      AppendAssoc(before, parts[i], after);
    } else {
      assert parts == rest;
    }
  }

  /** Repeated `+=` of text fragments: the concatenation of `parts` in order. */
  function Concat(parts: seq<string>): string
  {
    if parts == [] then "" else Concat(parts[..|parts| - 1]) + parts[|parts| - 1]
  }

  /** Concatenation is a monoid morphism: concatenating two runs of fragments concatenates their texts. */
  lemma {:induction false} ConcatAppend(a: seq<string>, b: seq<string>)
    ensures Concat(a + b) == Concat(a) + Concat(b)
  {
    if b == [] {
      assert a + b == a;
    } else {
      var init := b[..|b| - 1];
      var last := b[|b| - 1];
      assert (a + b)[..|a + b| - 1] == a + init;
      assert (a + b)[|a + b| - 1] == last;
      assert Concat(a + b) == Concat(a + init) + last;
      ConcatAppend(a, init);
      assert Concat(b) == Concat(init) + last;
    }
  }

  /** The concatenation is exactly as long as its fragments together. */
  lemma {:induction false} ConcatPrefix(parts: seq<string>, i: nat)
    requires i <= |parts|
    ensures Concat(parts) == Concat(parts[..i]) + Concat(parts[i..])
  {
    assert parts == parts[..i] + parts[i..];
    ConcatAppend(parts[..i], parts[i..]);
  }

  /** Concatenation regroups freely. */
  lemma AppendAssoc(a: string, b: string, c: string)
    ensures a + (b + c) == a + b + c
  {
  }

  /** `pat` occurs in `s` starting at index `k`. */
  predicate OccursAt(s: string, pat: string, k: nat)
  {
    k + |pat| <= |s| && s[k..k + |pat|] == pat
  }

  /** The first index at or after `from` where `pat` occurs (`String.prototype.indexOf`). */
  function FindFrom(s: string, pat: string, from: nat): (r: Option<nat>)
    requires from <= |s|
    decreases |s| - from
    ensures r.Some? ==> from <= r.value && OccursAt(s, pat, r.value)
    ensures r.Some? ==> forall k :: from <= k < r.value ==> !OccursAt(s, pat, k)
    ensures r.None? ==> forall k :: from <= k <= |s| ==> !OccursAt(s, pat, k)
  {
    if OccursAt(s, pat, from) then Some(from)
    else if from == |s| then None
    else FindFrom(s, pat, from + 1)
  }

  /** `String.prototype.replace` with a string pattern: only the first occurrence is replaced,
      and the replacement is inserted literally. */
  function ReplaceFirst(s: string, pat: string, rep: string): (r: string)
    ensures FindFrom(s, pat, 0).None? ==> r == s
  {
    match FindFrom(s, pat, 0)
    case None => s
    case Some(k) => s[..k] + rep + s[k + |pat|..]
  }

  /** `replace` rewrites the first occurrence: when `pat` occurs at `k` and nowhere before, the
      result is the text before `k`, then `rep`, then the text after that occurrence. */
  lemma ReplaceFirstAt(s: string, pat: string, rep: string, k: nat)
    requires OccursAt(s, pat, k)
    requires forall j: nat :: j < k ==> !OccursAt(s, pat, j)
    ensures ReplaceFirst(s, pat, rep) == s[..k] + rep + s[k + |pat|..]
  {
    var r := FindFrom(s, pat, 0);
    assert r.Some?;
    assert r.value == k;
  }

  /** An occurrence of `pat` cannot start at a character other than its first one. */
  lemma NoOccurrenceAt(s: string, pat: string, k: nat)
    requires |pat| > 0 && k < |s| && s[k] != pat[0]
    ensures !OccursAt(s, pat, k)
  {
    assert k + |pat| <= |s| ==> s[k..k + |pat|][0] == s[k];
  }

  /** More generally, an occurrence cannot start at `k` when the character at `k + p` differs
      from the pattern's character `p`. */
  lemma NoOccurrenceAtOffset(s: string, pat: string, k: nat, p: nat)
    requires p < |pat| && k + p < |s| && s[k + p] != pat[p]
    ensures !OccursAt(s, pat, k)
  {
    assert k + |pat| <= |s| ==> s[k..k + |pat|][p] == s[k + p];
  }

  /** When the pattern does not start anywhere in `a + pat + b` before its occurrence after `a`,
      `replace` fills exactly that occurrence. */
  lemma ReplaceFirstAfter(a: string, pat: string, b: string, rep: string)
    requires forall j: nat :: j < |a| ==> !OccursAt(a + pat + b, pat, j)
    ensures ReplaceFirst(a + pat + b, pat, rep) == a + rep + b
  {
    var s := a + pat + b;
    assert OccursAt(s, pat, |a|) by { assert s[|a|..|a| + |pat|] == pat; }
    ReplaceFirstAt(s, pat, rep, |a|);
    assert s[..|a|] == a && s[|a| + |pat|..] == b;
  }

  /** When the placeholder's first character does not appear before it, `replace` fills exactly
      that slot, whatever the rest of the text contains. */
  lemma ReplaceFirstSlot(a: string, pat: string, b: string, rep: string)
    requires |pat| > 0 && pat[0] !in a
    ensures ReplaceFirst(a + pat + b, pat, rep) == a + rep + b
  {
    var s := a + pat + b;
    forall j: nat | j < |a| ensures !OccursAt(s, pat, j) {
      assert s[j] == a[j];
      NoOccurrenceAt(s, pat, j);
    }
    ReplaceFirstAfter(a, pat, b, rep);
  }

  /** The whitespace and line terminators that `String.prototype.trim` removes. */
  predicate IsSpace(c: char)
  {
    c == '\t' || c == '\n' || c == '\U{000B}' || c == '\U{000C}' || c == '\r' || c == ' '
    || c == '\U{00A0}' || c == '\U{1680}' || ('\U{2000}' <= c <= '\U{200A}')
    || c == '\U{2028}' || c == '\U{2029}' || c == '\U{202F}' || c == '\U{205F}'
    || c == '\U{3000}' || c == '\U{FEFF}'
  }

  /** `s` without its leading whitespace. */
  function TrimStart(s: string): (r: string)
    ensures |r| <= |s| && r == s[|s| - |r|..]
    ensures forall k :: 0 <= k < |s| - |r| ==> IsSpace(s[k])
    ensures r == [] || !IsSpace(r[0])
  {
    if s != [] && IsSpace(s[0]) then
      var r := TrimStart(s[1..]);
      assert s[1..][|s| - 1 - |r|..] == s[|s| - |r|..];
      assert forall k :: 1 <= k < |s| - |r| ==> s[k] == s[1..][k - 1];
      r
    else s
  }

  /** `s` without its trailing whitespace. */
  function TrimEnd(s: string): (r: string)
    ensures |r| <= |s| && r == s[..|r|]
    ensures forall k :: |r| <= k < |s| ==> IsSpace(s[k])
    ensures r == [] || !IsSpace(r[|r| - 1])
  {
    if s != [] && IsSpace(s[|s| - 1]) then TrimEnd(s[..|s| - 1]) else s
  }

  /** `String.prototype.trim`. */
  function Trim(s: string): string
  {
    TrimEnd(TrimStart(s))
  }

  /** Everything of `s` before `i` and from `j` on is whitespace. */
  predicate SpaceOutside(s: string, i: nat, j: nat)
  {
    i <= j <= |s| && (forall k :: 0 <= k < i ==> IsSpace(s[k])) && (forall k :: j <= k < |s| ==> IsSpace(s[k]))
  }

  /** A suffix `t` of `s` after whitespace, cut down to a prefix `u` before whitespace, is a slice
      of `s` with only whitespace outside it. */
  lemma SpaceOutsideSlice(s: string, t: string, u: string)
    requires |t| <= |s| && t == s[|s| - |t|..] && (forall k :: 0 <= k < |s| - |t| ==> IsSpace(s[k]))
    requires |u| <= |t| && u == t[..|u|] && (forall k :: |u| <= k < |t| ==> IsSpace(t[k]))
    ensures var i := |s| - |t|;
            SpaceOutside(s, i, i + |u|) && u == s[i..i + |u|]
  {
    var i := |s| - |t|;
    forall k | i + |u| <= k < |s| ensures IsSpace(s[k]) {
      assert s[k] == t[k - i];
    }
  }

  /** `trim` keeps a contiguous middle of the text, drops only whitespace around it, and
      the kept text neither starts nor ends with whitespace. */
  lemma TrimSpec(s: string)
    ensures exists i: nat, j: nat :: SpaceOutside(s, i, j) && Trim(s) == s[i..j]
    ensures Trim(s) == [] || (!IsSpace(Trim(s)[0]) && !IsSpace(Trim(s)[|Trim(s)| - 1]))
  {
    var t := TrimStart(s);
    var i := |s| - |t|;
    SpaceOutsideSlice(s, t, Trim(s));
    assert SpaceOutside(s, i, i + |Trim(s)|);
    if Trim(s) != [] {
      assert Trim(s)[0] == t[0];
    }
  }

  /** A text trims to nothing exactly when every character of it is whitespace (the `trimmed &&`
      guards of the source). */
  lemma TrimEmpty(s: string)
    ensures Trim(s) == [] <==> forall k :: 0 <= k < |s| ==> IsSpace(s[k])
  {
    var t := TrimStart(s);
    var i := |s| - |t|;
    if Trim(s) == [] {
      assert |TrimEnd(t)| == 0;
      forall k | 0 <= k < |s| ensures IsSpace(s[k]) {
        if i <= k {
          assert s[k] == t[k - i];
        }
      }
    } else {
      assert Trim(s)[0] == t[0] == s[i];
    }
  }

  /** Lexicographic comparison by character code: negative, zero or positive as `a` sorts
      before, equal to, or after `b`. */
  function LexCompare(a: string, b: string): (r: int)
    ensures -1 <= r <= 1
  {
    if a == [] && b == [] then 0
    else if a == [] then -1
    else if b == [] then 1
    else if a[0] < b[0] then -1
    else if a[0] > b[0] then 1
    else LexCompare(a[1..], b[1..])
  }

  /** Swapping the arguments negates the comparison. */
  lemma {:induction false} LexCompareAntisymmetric(a: string, b: string)
    ensures LexCompare(a, b) == -LexCompare(b, a)
  {
    if a != [] && b != [] && a[0] == b[0] {
      LexCompareAntisymmetric(a[1..], b[1..]);
    }
  }

  /** Two texts compare equal exactly when they are the same text. */
  lemma {:induction false} LexCompareZero(a: string, b: string)
    ensures LexCompare(a, b) == 0 <==> a == b
  {
    if a != [] && b != [] && a[0] == b[0] {
      LexCompareZero(a[1..], b[1..]);
      if a[1..] == b[1..] {
        assert a == [a[0]] + a[1..] && b == [b[0]] + b[1..];
      }
    }
  }

  /** "Sorts no later than" is transitive. */
  lemma {:induction false} LexCompareTransitive(a: string, b: string, c: string)
    requires LexCompare(a, b) <= 0 && LexCompare(b, c) <= 0
    ensures LexCompare(a, c) <= 0
  {
    if a != [] && b != [] && c != [] && a[0] == b[0] && b[0] == c[0] {
      LexCompareTransitive(a[1..], b[1..], c[1..]);
    }
  }
}
