/**
 * The parts of Go's `strings` and `strconv` packages that the tools rely on,
 * with Go's semantics: whitespace is `unicode.IsSpace`, `Split` keeps empty
 * pieces, `Fields` drops them, `Atoi` accepts an optional sign and decimal
 * digits within the 64-bit range.
 */
module Strings {
  import opened Wrappers

  /** `unicode.IsSpace`: the six ASCII spaces plus the Unicode White_Space code points. */
  predicate IsSpace(c: char) {
    c == ' ' || c == '\t' || c == '\n' || c == '\r' || c == '\U{0B}' || c == '\U{0C}'
    || c == '\U{85}' || c == '\U{A0}' || c == '\U{1680}'
    || ('\U{2000}' <= c <= '\U{200A}') || c == '\U{2028}' || c == '\U{2029}'
    || c == '\U{202F}' || c == '\U{205F}' || c == '\U{3000}'
  }

  predicate HasPrefix(s: string, p: string) { p <= s }

  predicate HasSuffix(s: string, p: string) { |p| <= |s| && s[|s| - |p|..] == p }

  /** `strings.TrimPrefix`: removes one leading `p` if present. */
  function TrimPrefix(s: string, p: string): (r: string)
    ensures HasPrefix(s, p) ==> s == p + r
    ensures !HasPrefix(s, p) ==> r == s
  {
    if HasPrefix(s, p) then s[|p|..] else s
  }

  /** `strings.Contains`: `sub` occurs at some position of `s`. */
  predicate Contains(s: string, sub: string)
    decreases |s|
  {
    HasPrefix(s, sub) || (|s| > 0 && Contains(s[1..], sub))
  }

  /** `Contains` holds exactly when `sub` occurs at some index. */
  lemma {:induction false} ContainsIff(s: string, sub: string)
    ensures Contains(s, sub) <==> exists k :: 0 <= k <= |s| && HasPrefix(s[k..], sub)
    decreases |s|
  {
    assert s[0..] == s;
    if |s| > 0 {
      ContainsIff(s[1..], sub);
      if Contains(s[1..], sub) {
        var k :| 0 <= k <= |s[1..]| && HasPrefix(s[1..][k..], sub);
        assert s[1..][k..] == s[k + 1..];
      }
      if k :| 0 <= k <= |s| && HasPrefix(s[k..], sub) {
        if k > 0 {
          assert s[1..][k - 1..] == s[k..];
        }
      }
    }
  }

  /** A string contained in a prefix or a suffix is contained in the whole. */
  lemma {:induction false} ContainsConcat(a: string, b: string, sub: string)
    ensures Contains(a, sub) ==> Contains(a + b, sub)
    ensures Contains(b, sub) ==> Contains(a + b, sub)
    decreases |a|
  {
    if |a| > 0 {
      assert (a + b)[1..] == a[1..] + b;
      ContainsConcat(a[1..], b, sub);
    } else {
      assert a + b == b;
    }
  }

  /** `strings.Index`: the first position at which `sub` occurs (see `IndexOfAt`, `IndexOfNone`). */
  function IndexOf(s: string, sub: string): (r: Option<nat>)
    ensures r.Some? ==> r.value + |sub| <= |s|
    decreases |s|
  {
    if HasPrefix(s, sub) then Some(0)
    else if |s| == 0 then None
    else
      match IndexOf(s[1..], sub)
      case None => None
      case Some(i) => Some(i + 1)
  }

  /** `IndexOf` reports the first position where `sub` occurs. */
  lemma {:induction false} IndexOfAt(s: string, sub: string, p: nat)
    requires p <= |s| && HasPrefix(s[p..], sub)
    requires forall k :: 0 <= k < p ==> !HasPrefix(s[k..], sub)
    ensures IndexOf(s, sub) == Some(p)
    decreases p
  {
    assert s[0..] == s;
    if p > 0 {
      forall k | 0 <= k < p - 1 ensures !HasPrefix(s[1..][k..], sub) {
        assert s[1..][k..] == s[k + 1..];
      }
      assert s[1..][p - 1..] == s[p..];
      IndexOfAt(s[1..], sub, p - 1);
    }
  }

  /** `IndexOf` reports nothing when `sub` occurs nowhere. */
  lemma {:induction false} IndexOfNone(s: string, sub: string)
    requires forall k :: 0 <= k <= |s| ==> !HasPrefix(s[k..], sub)
    ensures IndexOf(s, sub) == None
    decreases |s|
  {
    assert s[0..] == s;
    if |s| > 0 {
      forall k | 0 <= k <= |s| - 1 ensures !HasPrefix(s[1..][k..], sub) {
        assert s[1..][k..] == s[k + 1..];
      }
      IndexOfNone(s[1..], sub);
    }
  }

  /** What `IndexOf` reports is an occurrence: `sub` starts there. */
  lemma {:induction false} IndexOfFound(s: string, sub: string)
    requires IndexOf(s, sub).Some?
    ensures s[IndexOf(s, sub).value..IndexOf(s, sub).value + |sub|] == sub
    decreases |s|
  {
    if !HasPrefix(s, sub) {
      IndexOfFound(s[1..], sub);
      var i := IndexOf(s[1..], sub).value;
      assert s[1..][i..i + |sub|] == s[i + 1..i + 1 + |sub|];
    }
  }

  /** `strings.Replace(s, pat, rep, 1)`: replaces the first occurrence of `pat`. */
  function ReplaceFirst(s: string, pat: string, rep: string): string {
    match IndexOf(s, pat)
    case None => s
    case Some(i) => s[..i] + rep + s[i + |pat|..]
  }

  /** `strings.ReplaceAll` for a non-empty pattern: non-overlapping occurrences, left to right. */
  function ReplaceAll(s: string, pat: string, rep: string): string
    requires |pat| > 0
    decreases |s|
  {
    if HasPrefix(s, pat) then rep + ReplaceAll(s[|pat|..], pat, rep)
    else if |s| == 0 then ""
    else [s[0]] + ReplaceAll(s[1..], pat, rep)
  }

  /** Number of occurrences of the character `c` in `s`. */
  function Count(s: string, c: char): nat
    decreases |s|
  {
    if |s| == 0 then 0 else (if s[0] == c then 1 else 0) + Count(s[1..], c)
  }

  lemma {:induction false} CountConcat(a: string, b: string, c: char)
    ensures Count(a + b, c) == Count(a, c) + Count(b, c)
    decreases |a|
  {
    if |a| == 0 {
      assert a + b == b;
    } else {
      assert (a + b)[1..] == a[1..] + b;
      CountConcat(a[1..], b, c);
    }
  }

  lemma {:induction false} CountAbsent(s: string, c: char)
    requires c !in s
    ensures Count(s, c) == 0
    decreases |s|
  {
    if |s| > 0 {
      CountAbsent(s[1..], c);
    }
  }

  /** Replacing a pattern by a text, neither of which holds `c`, keeps the number of `c`s. */
  lemma {:induction false} ReplaceAllKeepsCount(s: string, pat: string, rep: string, c: char)
    requires |pat| > 0 && c !in pat && c !in rep
    ensures Count(ReplaceAll(s, pat, rep), c) == Count(s, c)
    decreases |s|
  {
    if HasPrefix(s, pat) {
      ReplaceAllKeepsCount(s[|pat|..], pat, rep, c);
      CountConcat(rep, ReplaceAll(s[|pat|..], pat, rep), c);
      assert s == pat + s[|pat|..];
      CountConcat(pat, s[|pat|..], c);
      CountAbsent(pat, c);
      CountAbsent(rep, c);
    } else if |s| > 0 {
      ReplaceAllKeepsCount(s[1..], pat, rep, c);
      CountConcat([s[0]], ReplaceAll(s[1..], pat, rep), c);
    }
  }

  /** `strings.Split` with a one-character separator: keeps empty pieces, never returns `[]`. */
  function Split(s: string, sep: char): (parts: seq<string>)
    ensures |parts| == Count(s, sep) + 1
    ensures forall i :: 0 <= i < |parts| ==> sep !in parts[i]
    decreases |s|
  {
    if |s| == 0 then [""]
    else
      var rest := Split(s[1..], sep);
      if s[0] == sep then [""] + rest else [[s[0]] + rest[0]] + rest[1..]
  }

  /** The first piece of a split is the text before the first separator. */
  lemma {:induction false} SplitFirst(s: string, sep: char)
    ensures Split(s, sep)[0] <= s
    ensures sep in s ==> |Split(s, sep)[0]| < |s| && s[|Split(s, sep)[0]|] == sep
    ensures sep !in s ==> Split(s, sep)[0] == s
    decreases |s|
  {
    if |s| > 0 && s[0] != sep {
      SplitFirst(s[1..], sep);
      assert sep in s ==> sep in s[1..];
      assert s == [s[0]] + s[1..];
    }
  }

  /** `strings.Join`. */
  function Join(parts: seq<string>, sep: string): string {
    if |parts| == 0 then "" else parts[0] + JoinTail(parts[1..], sep)
  }

  /** The separators and pieces that follow the first piece of a `Join`. */
  function JoinTail(parts: seq<string>, sep: string): string {
    if |parts| == 0 then "" else sep + parts[0] + JoinTail(parts[1..], sep)
  }

  /** Splitting on a character and joining with it gives back the text. */
  lemma {:induction false} JoinSplit(s: string, sep: char)
    ensures Join(Split(s, sep), [sep]) == s
    decreases |s|
  {
    if |s| > 0 {
      var rest := Split(s[1..], sep);
      JoinSplit(s[1..], sep);
      if s[0] == sep {
        assert ([""] + rest)[1..] == rest;
      } else {
        assert ([[s[0]] + rest[0]] + rest[1..])[1..] == rest[1..];
      }
      assert s == [s[0]] + s[1..];
    }
  }

  /** Splitting text around one separator splits each side independently. */
  lemma {:induction false} SplitConcat(a: string, b: string, sep: char)
    ensures Split(a + [sep] + b, sep) == Split(a, sep) + Split(b, sep)
    decreases |a|
  {
    if |a| == 0 {
      assert a + [sep] + b == [sep] + b;
      assert ([sep] + b)[1..] == b;
    } else {
      SplitConcat(a[1..], b, sep);
      if a[0] == sep { SplitConcatSepStep(a, b, sep); } else { SplitConcatCharStep(a, b, sep); }
    }
  }

  /** Concatenation is associative (stated generically, so that it is cheap to use on lists of strings). */
  lemma AppendAssoc<T>(x: seq<T>, y: seq<T>, z: seq<T>)
    ensures x + (y + z) == (x + y) + z
  {
  }

  /** Growing a prefix by one element (generic, like `AppendAssoc`). */
  lemma PrefixSnoc<T>(xs: seq<T>, i: nat)
    requires i < |xs|
    ensures xs[..i + 1] == xs[..i] + [xs[i]]
  {
  }

  /** Lists with the same elements are equal (generic, like `AppendAssoc`). */
  lemma SameElements<T>(xs: seq<T>, ys: seq<T>)
    requires |xs| == |ys| && forall i :: 0 <= i < |xs| ==> xs[i] == ys[i]
    ensures xs == ys
  {
  }

  /** The two halves of a concatenation (generic, like `AppendAssoc`). */
  lemma ConcatHalves<T>(a: seq<T>, b: seq<T>)
    ensures (a + b)[..|a|] == a && (a + b)[|a|..] == b
  {
  }

  /** Six single appends add the six elements in order (generic, like `AppendAssoc`). */
  lemma AppendSix<T>(xs: seq<T>, a: T, b: T, c: T, d: T, e: T, f: T)
    ensures xs + [a] + [b] + [c] + [d] + [e] + [f] == xs + [a, b, c, d, e, f]
  {
  }

  /** Appending five parts one by one appends their concatenation (generic, like `AppendAssoc`). */
  lemma AppendFiveParts<T>(x: seq<T>, p1: seq<T>, p2: seq<T>, p3: seq<T>, p4: seq<T>, p5: seq<T>)
    ensures x + (p1 + p2 + p3 + p4 + p5) == x + p1 + p2 + p3 + p4 + p5
  {
  }

  /** Six pair appends add the twelve elements in order (generic, like `AppendAssoc`). */
  lemma AppendSixPairs<T>(xs: seq<T>, a1: T, b1: T, a2: T, b2: T, a3: T, b3: T, a4: T, b4: T, a5: T, b5: T, a6: T, b6: T)
    ensures xs + [a1, b1] + [a2, b2] + [a3, b3] + [a4, b4] + [a5, b5] + [a6, b6]
      == xs + [a1, b1, a2, b2, a3, b3, a4, b4, a5, b5, a6, b6]
  {
  }

  /** The prefix as long as the list is the list. */
  lemma PrefixAll<T>(xs: seq<T>)
    ensures xs[..|xs|] == xs
  {
  }

  /** A step of `SplitConcat` where `a` starts with the separator. */
  lemma SplitConcatSepStep(a: string, b: string, sep: char)
    requires |a| > 0 && a[0] == sep
    requires Split(a[1..] + [sep] + b, sep) == Split(a[1..], sep) + Split(b, sep)
    ensures Split(a + [sep] + b, sep) == Split(a, sep) + Split(b, sep)
  {
    var s := a + [sep] + b;
    assert s[1..] == a[1..] + [sep] + b && s[0] == a[0];
    var ra := Split(a[1..], sep);
    var rb := Split(b, sep);
    calc {
      Split(s, sep);
      [""] + Split(s[1..], sep);
      [""] + (ra + rb);
      { AppendAssoc([""], ra, rb); }
      ([""] + ra) + rb;
    }
  }

  /** A step of `SplitConcat` where `a` starts with another character. */
  lemma SplitConcatCharStep(a: string, b: string, sep: char)
    requires |a| > 0 && a[0] != sep
    requires Split(a[1..] + [sep] + b, sep) == Split(a[1..], sep) + Split(b, sep)
    ensures Split(a + [sep] + b, sep) == Split(a, sep) + Split(b, sep)
  {
    var s := a + [sep] + b;
    assert s[1..] == a[1..] + [sep] + b && s[0] == a[0];
    var ra := Split(a[1..], sep);
    var rb := Split(b, sep);
    var x := ra + rb;
    assert x[0] == ra[0] && x[1..] == ra[1..] + rb;
    calc {
      Split(s, sep);
      [[a[0]] + x[0]] + x[1..];
      [[a[0]] + ra[0]] + (ra[1..] + rb);
      { AppendAssoc([[a[0]] + ra[0]], ra[1..], rb); }
      ([[a[0]] + ra[0]] + ra[1..]) + rb;
    }
  }

  /** Text without the separator is a single piece. */
  lemma {:induction false} SplitNoSep(w: string, sep: char)
    requires sep !in w
    ensures Split(w, sep) == [w]
    decreases |w|
  {
    if |w| > 0 {
      SplitNoSep(w[1..], sep);
      assert [w[0]] + w[1..] == w;
    }
  }

  /** One more piece joined: the piece itself when it is the first, else after a separator. */
  lemma JoinStep(parts: seq<string>, sep: string, last: string)
    ensures Join(parts + [last], sep) == if |parts| == 0 then last else Join(parts, sep) + sep + last
  {
    if |parts| == 0 {
      assert [last][1..] == [];
      assert parts + [last] == [last];
    } else {
      JoinSnoc(parts, sep, last);
    }
  }

  /** Joining one more piece appends the separator and the piece. */
  lemma {:induction false} JoinSnoc(parts: seq<string>, sep: string, last: string)
    requires |parts| > 0
    ensures Join(parts + [last], sep) == Join(parts, sep) + sep + last
  {
    var ps := parts + [last];
    assert ps[0] == parts[0] && ps[1..] == parts[1..] + [last];
    var t := JoinTail(parts[1..], sep);
    JoinTailSnoc(parts[1..], sep, last);
    calc {
      Join(ps, sep);
      parts[0] + JoinTail(parts[1..] + [last], sep);
      parts[0] + (t + sep + last);
      { assert parts[0] + (t + sep + last) == (parts[0] + t) + sep + last; }
      (parts[0] + t) + sep + last;
    }
  }

  lemma {:induction false} JoinTailSnoc(parts: seq<string>, sep: string, last: string)
    ensures JoinTail(parts + [last], sep) == JoinTail(parts, sep) + sep + last
    decreases |parts|
  {
    if |parts| == 0 {
      assert parts + [last] == [last];
    } else {
      JoinTailSnoc(parts[1..], sep, last);
      assert (parts + [last])[1..] == parts[1..] + [last];
    }
  }

  /** Joining pieces that do not contain the separator and splitting again gives the pieces back. */
  lemma {:induction false} SplitJoin(parts: seq<string>, sep: char)
    requires |parts| > 0
    requires forall i :: 0 <= i < |parts| ==> sep !in parts[i]
    ensures Split(Join(parts, [sep]), sep) == parts
    decreases |parts|
  {
    var n := |parts|;
    if n == 1 {
      SplitNoSep(parts[0], sep);
      assert Join(parts, [sep]) == parts[0];
    } else {
      var init := parts[..n - 1];
      SplitJoin(init, sep);
      JoinSnoc(init, [sep], parts[n - 1]);
      assert init + [parts[n - 1]] == parts;
      SplitConcat(Join(init, [sep]), parts[n - 1], sep);
      SplitNoSep(parts[n - 1], sep);
    }
  }

  /** Number of leading spaces of `s`: where `TrimSpace(s)` starts. */
  function TrimStart(s: string): (n: nat)
    ensures n <= |s|
    decreases |s|
  {
    if |s| > 0 && IsSpace(s[0]) then 1 + TrimStart(s[1..]) else 0
  }

  /** `TrimStart` skips spaces only, and all of them. */
  lemma {:induction false} TrimStartSpaces(s: string)
    ensures forall k :: 0 <= k < TrimStart(s) ==> IsSpace(s[k])
    ensures TrimStart(s) < |s| ==> !IsSpace(s[TrimStart(s)])
    decreases |s|
  {
    if |s| > 0 && IsSpace(s[0]) {
      TrimStartSpaces(s[1..]);
      forall k | 1 <= k < TrimStart(s) ensures IsSpace(s[k]) {
        assert s[k] == s[1..][k - 1];
      }
    }
  }

  /** Length of `s` without its trailing spaces. */
  function TrimEnd(s: string): (e: nat)
    ensures e <= |s|
    decreases |s|
  {
    if |s| > 0 && IsSpace(s[|s| - 1]) then TrimEnd(s[..|s| - 1]) else |s|
  }

  /** `TrimEnd` drops spaces only, and all of them. */
  lemma {:induction false} TrimEndSpaces(s: string)
    ensures forall k :: TrimEnd(s) <= k < |s| ==> IsSpace(s[k])
    ensures TrimEnd(s) > 0 ==> !IsSpace(s[TrimEnd(s) - 1])
    decreases |s|
  {
    if |s| > 0 && IsSpace(s[|s| - 1]) {
      var init := s[..|s| - 1];
      TrimEndSpaces(init);
      forall k | TrimEnd(s) <= k < |s| - 1 ensures IsSpace(s[k]) {
        assert s[k] == init[k];
      }
      if TrimEnd(s) > 0 {
        assert s[TrimEnd(s) - 1] == init[TrimEnd(s) - 1];
      }
    }
  }

  /** `strings.TrimLeftFunc(s, unicode.IsSpace)`. */
  function TrimLeft(s: string): (r: string)
    ensures |r| <= |s|
    ensures |r| > 0 ==> !IsSpace(r[0])
  {
    TrimStartSpaces(s);
    s[TrimStart(s)..]
  }

  /** `strings.TrimSpace`: leading spaces skipped, then trailing ones dropped. */
  function TrimSpace(s: string): (r: string)
    ensures |r| <= |s|
  {
    var a := TrimStart(s);
    s[a..a + TrimEnd(s[a..])]
  }

  /** `s` is leading spaces, then `TrimSpace(s)`, which neither starts nor ends with a space, then trailing spaces. */
  lemma TrimSpaceBetween(s: string)
    ensures TrimStart(s) + |TrimSpace(s)| <= |s|
    ensures TrimSpace(s) == s[TrimStart(s)..TrimStart(s) + |TrimSpace(s)|]
    ensures forall k :: 0 <= k < TrimStart(s) ==> IsSpace(s[k])
    ensures forall k :: TrimStart(s) + |TrimSpace(s)| <= k < |s| ==> IsSpace(s[k])
    ensures |TrimSpace(s)| > 0 ==> !IsSpace(TrimSpace(s)[0]) && !IsSpace(TrimSpace(s)[|TrimSpace(s)| - 1])
  {
    var a := TrimStart(s);
    var t := s[a..];
    TrimStartSpaces(s);
    TrimEndSpaces(t);
    forall k | a + TrimEnd(t) <= k < |s| ensures IsSpace(s[k]) {
      assert s[k] == t[k - a];
    }
    if a < |s| {
      assert t[0] == s[a];
    }
  }

  /** Text that neither starts nor ends with a space is its own `TrimSpace`. */
  lemma TrimSpaceUnchanged(s: string)
    requires |s| > 0 && !IsSpace(s[0]) && !IsSpace(s[|s| - 1])
    ensures TrimSpace(s) == s
  {
    assert TrimStart(s) == 0;
    assert s[0..] == s;
    assert TrimEnd(s) == |s|;
  }

  /** The longest prefix of `s` without a space. */
  function LeadingWord(s: string): (w: string)
    ensures w <= s
    ensures forall i :: 0 <= i < |w| ==> !IsSpace(w[i])
    ensures |w| < |s| ==> IsSpace(s[|w|])
    ensures |s| > 0 && !IsSpace(s[0]) ==> |w| > 0
    decreases |s|
  {
    if |s| == 0 || IsSpace(s[0]) then "" else [s[0]] + LeadingWord(s[1..])
  }

  predicate NoSpace(w: string) { forall k :: 0 <= k < |w| ==> !IsSpace(w[k]) }

  /** `strings.Fields`: the maximal runs of non-space characters, in order. */
  function Fields(s: string): seq<string>
    decreases |s|
  {
    var t := TrimLeft(s);
    if |t| == 0 then []
    else
      var w := LeadingWord(t);
      assert 0 < |w| <= |t| <= |s|;
      [w] + Fields(t[|w|..])
  }

  /** Every field is a non-empty run without spaces. */
  lemma {:induction false} FieldsAreWords(s: string)
    ensures forall i :: 0 <= i < |Fields(s)| ==> |Fields(s)[i]| > 0 && NoSpace(Fields(s)[i])
    decreases |s|
  {
    var t := TrimLeft(s);
    if |t| > 0 {
      var w := LeadingWord(t);
      var rest := Fields(t[|w|..]);
      FieldsAreWords(t[|w|..]);
      assert Fields(s) == [w] + rest;
      forall i | 0 <= i < |[w] + rest| ensures |([w] + rest)[i]| > 0 && NoSpace(([w] + rest)[i]) {
        if i > 0 {
          assert ([w] + rest)[i] == rest[i - 1];
        }
      }
    }
  }

  /** A text without spaces that is not empty is its own single field. */
  lemma {:induction false} FieldsOfWord(s: string)
    requires |s| > 0 && forall i :: 0 <= i < |s| ==> !IsSpace(s[i])
    ensures Fields(s) == [s]
  {
    assert TrimLeft(s) == s;
    LeadingWordAll(s);
    assert s[|s|..] == "";
    assert TrimLeft("") == "";
  }

  lemma {:induction false} LeadingWordAll(s: string)
    requires forall i :: 0 <= i < |s| ==> !IsSpace(s[i])
    ensures LeadingWord(s) == s
    decreases |s|
  {
    if |s| > 0 {
      LeadingWordAll(s[1..]);
    }
  }

  /** The leading word of a word followed by a space is that word. */
  lemma {:induction false} LeadingWordBefore(w: string, rest: string)
    requires NoSpace(w)
    ensures LeadingWord(w + " " + rest) == w
    decreases |w|
  {
    var s := w + " " + rest;
    if |w| > 0 {
      LeadingWordBefore(w[1..], rest);
      assert s[1..] == w[1..] + " " + rest;
      assert s[0] == w[0];
    } else {
      assert s[0] == ' ';
    }
  }

  /** Leading spaces do not change the fields. */
  lemma FieldsSpaceThen(rest: string)
    ensures Fields(" " + rest) == Fields(rest)
  {
    var s := " " + rest;
    assert s[1..] == rest;
    assert TrimStart(s) == 1 + TrimStart(rest);
    assert TrimLeft(s) == TrimLeft(rest);
  }

  /** A word followed by a space is the first field, and the fields of the rest follow it. */
  lemma FieldsWordThen(w: string, rest: string)
    requires |w| > 0 && NoSpace(w)
    ensures Fields(w + " " + rest) == [w] + Fields(rest)
  {
    var s := w + " " + rest;
    assert s[0] == w[0];
    assert TrimStart(s) == 0;
    assert TrimLeft(s) == s;
    LeadingWordBefore(w, rest);
    assert s[|w|..] == " " + rest;
    FieldsSpaceThen(rest);
  }

  /** Lower case of an ASCII letter; every other character is kept. */
  function LowerChar(c: char): char {
    if 'A' <= c <= 'Z' then (c as int + 32) as char else c
  }

  /** `strings.ToLower` on ASCII letters. */
  function AsciiLower(s: string): string {
    seq(|s|, i requires 0 <= i < |s| => LowerChar(s[i]))
  }

  predicate IsDigit(c: char) { '0' <= c <= '9' }

  predicate AllDigits(s: string) { |s| > 0 && forall i :: 0 <= i < |s| ==> IsDigit(s[i]) }

  /** The value of a run of decimal digits. */
  function DigitsValue(s: string): nat
    requires forall i :: 0 <= i < |s| ==> IsDigit(s[i])
    decreases |s|
  {
    if |s| == 0 then 0
    else
      assert IsDigit(s[|s| - 1]);
      DigitsValue(s[..|s| - 1]) * 10 + (s[|s| - 1] as int - '0' as int)
  }

  /** The syntax `strconv.Atoi` accepts: an optional sign and at least one digit. */
  predicate IsIntSyntax(s: string) {
    AllDigits(s) || (|s| >= 2 && (s[0] == '+' || s[0] == '-') && AllDigits(s[1..]))
  }

  function SyntaxValue(s: string): int
    requires IsIntSyntax(s)
  {
    if AllDigits(s) then DigitsValue(s)
    else if s[0] == '-' then -(DigitsValue(s[1..]) as int)
    else DigitsValue(s[1..])
  }

  const MinInt64: int := -0x8000_0000_0000_0000
  const MaxInt64: int := 0x7FFF_FFFF_FFFF_FFFF

  /** `strconv.Atoi` on a 64-bit platform. */
  function Atoi(s: string): Result<int> {
    if !IsIntSyntax(s) then Err(AtoiError(s, "invalid syntax"))
    else if SyntaxValue(s) < MinInt64 || SyntaxValue(s) > MaxInt64 then Err(AtoiError(s, "value out of range"))
    else Ok(SyntaxValue(s))
  }

  /** The message of a `*strconv.NumError` from `Atoi`. */
  function AtoiError(s: string, reason: string): string {
    "strconv.Atoi: parsing \"" + s + "\": " + reason
  }

  /**
   * The value `strconv.Atoi` returns when its error is ignored: 0 for bad
   * syntax, the nearest 64-bit bound for an out-of-range number.
   */
  function AtoiIgnoringError(s: string): (v: int)
    ensures MinInt64 <= v <= MaxInt64
    ensures Atoi(s).Ok? ==> v == Atoi(s).value
    ensures !IsIntSyntax(s) ==> v == 0
  {
    if !IsIntSyntax(s) then 0
    else if SyntaxValue(s) < MinInt64 then MinInt64
    else if SyntaxValue(s) > MaxInt64 then MaxInt64
    else SyntaxValue(s)
  }

  function DigitChar(d: nat): (c: char)
    requires d < 10
    ensures IsDigit(c) && c as int - '0' as int == d
  {
    ('0' as int + d) as char
  }

  /** `strconv.Itoa` for a non-negative number. */
  function NatToString(n: nat): (s: string)
    ensures AllDigits(s)
    decreases n
  {
    if n < 10 then [DigitChar(n)] else NatToString(n / 10) + [DigitChar(n % 10)]
  }

  /** `strconv.Itoa` (and `%d`). */
  function IntToString(i: int): (s: string)
    ensures i >= 0 ==> AllDigits(s)
  {
    if i < 0 then "-" + NatToString(-i) else NatToString(i)
  }

  /** Reading back the digits written for `n` gives `n`. */
  lemma {:induction false} NatToStringValue(n: nat)
    ensures DigitsValue(NatToString(n)) == n
    decreases n
  {
    if n >= 10 {
      NatToStringValue(n / 10);
      var s := NatToString(n);
      assert s[..|s| - 1] == NatToString(n / 10);
    }
  }

  /** `strconv.Atoi(strconv.Itoa(i)) == i` for every 64-bit integer. */
  lemma AtoiItoa(i: int)
    requires MinInt64 <= i <= MaxInt64
    ensures Atoi(IntToString(i)) == Ok(i)
  {
    var s := IntToString(i);
    if i < 0 {
      NatToStringValue(-i);
      assert s[1..] == NatToString(-i);
      assert s[0] == '-' && !IsDigit(s[0]);
      assert IsIntSyntax(s) && SyntaxValue(s) == i;
    } else {
      NatToStringValue(i);
      assert AllDigits(s) && SyntaxValue(s) == i;
    }
  }

  /** `%t`. */
  function BoolToString(b: bool): string { if b then "true" else "false" }

  /** The non-empty elements of `xs`, in order: what every `if x != ""` append loop keeps. */
  function NonEmpty(xs: seq<string>): (r: seq<string>)
    ensures |r| <= |xs|
    ensures forall i :: 0 <= i < |r| ==> r[i] != "" && r[i] in xs
    decreases |xs|
  {
    if |xs| == 0 then []
    else NonEmpty(xs[..|xs| - 1]) + (if xs[|xs| - 1] == "" then [] else [xs[|xs| - 1]])
  }

  /** No element is dropped from a list without empty strings, and every non-empty element survives. */
  lemma {:induction false} NonEmptyKeeps(xs: seq<string>)
    ensures (forall i :: 0 <= i < |xs| ==> xs[i] != "") ==> NonEmpty(xs) == xs
    ensures forall x :: x in xs && x != "" ==> x in NonEmpty(xs)
    decreases |xs|
  {
    if |xs| > 0 {
      NonEmptyKeeps(xs[..|xs| - 1]);
      assert xs == xs[..|xs| - 1] + [xs[|xs| - 1]];
      forall x | x in xs && x != "" ensures x in NonEmpty(xs) {
        if x != xs[|xs| - 1] {
          assert x in xs[..|xs| - 1];
        }
      }
    }
  }

  /** Each non-empty element of `xs` preceded by `flag`: `-e X`, `--vllm-arg X`, `-r F` lists. */
  function FlagEach(flag: string, xs: seq<string>): (r: seq<string>)
    ensures |r| == 2 * |NonEmpty(xs)|
    ensures forall i :: 0 <= i < |NonEmpty(xs)| ==> r[2 * i] == flag && r[2 * i + 1] == NonEmpty(xs)[i]
    decreases |xs|
  {
    if |xs| == 0 then []
    else FlagEach(flag, xs[..|xs| - 1]) + (if xs[|xs| - 1] == "" then [] else [flag, xs[|xs| - 1]])
  }

  /** Dropping empty strings changes nothing when there are none. */
  lemma {:induction false} NonEmptyAll(xs: seq<string>)
    requires forall i :: 0 <= i < |xs| ==> xs[i] != ""
    ensures NonEmpty(xs) == xs
    decreases |xs|
  {
    if |xs| > 0 {
      NonEmptyAll(xs[..|xs| - 1]);
      assert xs[..|xs| - 1] + [xs[|xs| - 1]] == xs;
    }
  }

  /** Without empty strings every element gets the flag. */
  lemma FlagEachPlain(flag: string, xs: seq<string>)
    requires forall i :: 0 <= i < |xs| ==> xs[i] != ""
    ensures |FlagEach(flag, xs)| == 2 * |xs|
    ensures forall i :: 0 <= i < |xs| ==> FlagEach(flag, xs)[2 * i] == flag && FlagEach(flag, xs)[2 * i + 1] == xs[i]
  {
    NonEmptyAll(xs);
  }

  lemma FlagEachAt(flag: string, xs: seq<string>, i: nat)
    requires forall k :: 0 <= k < |xs| ==> xs[k] != ""
    requires i < |xs|
    ensures 2 * i + 1 < |FlagEach(flag, xs)|
    ensures FlagEach(flag, xs)[2 * i] == flag && FlagEach(flag, xs)[2 * i + 1] == xs[i]
  {
    FlagEachPlain(flag, xs);
  }

  /** A single non-empty value gets its flag. */
  lemma FlagEachOne(flag: string, x: string)
    requires x != ""
    ensures FlagEach(flag, [x]) == [flag, x]
  {
    assert [x][..0] == [];
  }

  /** Two non-empty values get their flags. */
  lemma FlagEachTwo(flag: string, x: string, y: string)
    requires x != "" && y != ""
    ensures FlagEach(flag, [x, y]) == [flag, x, flag, y]
  {
    assert [x, y][..1] == [x];
    FlagEachOne(flag, x);
  }

  /** Six non-empty values flagged one by one. */
  lemma FlagSix(f: string, e0: string, e1: string, e2: string, e3: string, e4: string, e5: string)
    requires e0 != "" && e1 != "" && e2 != "" && e3 != "" && e4 != "" && e5 != ""
    ensures FlagEach(f, [e0, e1, e2, e3, e4, e5]) == [f, e0, f, e1, f, e2, f, e3, f, e4, f, e5]
  {
    var env := [e0, e1, e2, e3, e4, e5];
    FlagEachAt(f, env, 0);
    FlagEachAt(f, env, 1);
    FlagEachAt(f, env, 2);
    FlagEachAt(f, env, 3);
    FlagEachAt(f, env, 4);
    FlagEachAt(f, env, 5);
  }

  /** Flagging a concatenation flags each part. */
  lemma {:induction false} FlagEachConcat(flag: string, a: seq<string>, b: seq<string>)
    ensures FlagEach(flag, a + b) == FlagEach(flag, a) + FlagEach(flag, b)
    decreases |b|
  {
    if |b| == 0 {
      assert a + b == a;
    } else {
      var init := b[..|b| - 1];
      var last := b[|b| - 1];
      var tail: seq<string> := if last == "" then [] else [flag, last];
      FlagEachConcat(flag, a, init);
      assert (a + b)[..|a + b| - 1] == a + init;
      assert (a + b)[|a + b| - 1] == last;
      AppendAssoc(FlagEach(flag, a), FlagEach(flag, init), tail);
    }
  }

  /** Flagging a concatenation of four parts flags each part (generic in the parts, so cheap to use). */
  lemma FlagEachFour(flag: string, a: seq<string>, b: seq<string>, c: seq<string>, d: seq<string>)
    ensures FlagEach(flag, a + b + c + d)
      == FlagEach(flag, a) + FlagEach(flag, b) + FlagEach(flag, c) + FlagEach(flag, d)
  {
    FlagEachConcat(flag, a, b);
    FlagEachConcat(flag, a + b, c);
    FlagEachConcat(flag, a + b + c, d);
  }

  /** Flagging a concatenation of five parts flags each part (generic in the parts, so cheap to use). */
  lemma FlagEachFive(flag: string, a: seq<string>, b: seq<string>, c: seq<string>, d: seq<string>, e: seq<string>)
    ensures FlagEach(flag, a + b + c + d + e)
      == FlagEach(flag, a) + FlagEach(flag, b) + FlagEach(flag, c) + FlagEach(flag, d) + FlagEach(flag, e)
  {
    FlagEachConcat(flag, a, b);
    FlagEachConcat(flag, a + b, c);
    FlagEachConcat(flag, a + b + c, d);
    FlagEachConcat(flag, a + b + c + d, e);
  }

  /** Flagging only sees the non-empty strings. */
  lemma {:induction false} FlagEachNonEmpty(flag: string, xs: seq<string>)
    ensures FlagEach(flag, NonEmpty(xs)) == FlagEach(flag, xs)
    decreases |xs|
  {
    if |xs| > 0 {
      var init := xs[..|xs| - 1];
      var last := xs[|xs| - 1];
      FlagEachNonEmpty(flag, init);
      var opt: seq<string> := if last == "" then [] else [last];
      FlagEachConcat(flag, NonEmpty(init), opt);
      if last != "" {
        assert [last][..0] == [];
      }
    }
  }

  /** The loop that appends each non-empty element of `xs`, in order. */
  method AppendNonEmpty(out: seq<string>, xs: seq<string>) returns (r: seq<string>)
    ensures r == out + NonEmpty(xs)
  {
    r := out;
    var i := 0;
    while i < |xs|
      invariant 0 <= i <= |xs|
      invariant r == out + NonEmpty(xs[..i])
    {
      assert xs[..i + 1][..i] == xs[..i];
      if xs[i] != "" {
        AppendAssoc(out, NonEmpty(xs[..i]), [xs[i]]);
        r := r + [xs[i]];
      }
      i := i + 1;
    }
    PrefixAll(xs);
  }

  /** The same loop appending `flag, x` for each non-empty `x`. */
  method AppendFlagEach(out: seq<string>, flag: string, xs: seq<string>) returns (r: seq<string>)
    ensures r == out + FlagEach(flag, xs)
  {
    r := out;
    var i := 0;
    while i < |xs|
      invariant 0 <= i <= |xs|
      invariant r == out + FlagEach(flag, xs[..i])
    {
      assert xs[..i + 1][..i] == xs[..i];
      if xs[i] != "" {
        AppendAssoc(out, FlagEach(flag, xs[..i]), [flag, xs[i]]);
        r := r + [flag, xs[i]];
      }
      i := i + 1;
    }
    PrefixAll(xs);
  }

  /** `strconv.Itoa` never yields text that starts with "--", so it is never taken for a flag. */
  lemma IntToStringNotFlag(i: int)
    ensures |IntToString(i)| < 2 || IntToString(i)[1] != '-'
  {
    if i < 0 {
      assert IntToString(i)[1..] == NatToString(-i);
    }
  }
}
