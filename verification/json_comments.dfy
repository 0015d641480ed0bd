/**
 * The comment stripper `stripJSONComments` of `tools/amgctl/cmd/host.go`,
 * applied to `/etc/cufile.json` before it is parsed. It is two regular
 * expression replacements: `//.*` (a line comment, up to but not including
 * the newline) and then `(?s)/\*.*?\*\/` (the shortest block comment, newlines
 * included). Neither expression knows about JSON string literals.
 */
module JsonComments {
  import opened Wrappers
  import opened Strings

  /** No two adjacent characters form `a` followed by `b`. */
  predicate NoPair(s: string, a: char, b: char) {
    forall k :: 0 <= k < |s| - 1 ==> !(s[k] == a && s[k + 1] == b)
  }

  /** The suffix of `s` from its first newline on; empty when there is none. */
  function FromNewline(s: string): (r: string)
    ensures |r| <= |s| && r == s[|s| - |r|..]
    ensures |r| == 0 || r[0] == '\n'
  {
    if |s| == 0 || s[0] == '\n' then s else FromNewline(s[1..])
  }

  /**
   * Every match of `//.*` deleted: from each leftmost `//` up to the next
   * newline, which is kept.
   */
  function StripLineComments(s: string): (r: string)
    ensures |r| <= |s|
    ensures |r| > 0 ==> r[0] == s[0] || r[0] == '\n'
    ensures |s| > 0 && s[0] == '\n' ==> |r| > 0 && r[0] == '\n'
    decreases |s|
  {
    if |s| < 2 then s
    else if s[0] == '/' && s[1] == '/' then StripLineComments(FromNewline(s[2..]))
    else [s[0]] + StripLineComments(s[1..])
  }

  // Every match of the lazy block pattern deleted: from each leftmost `/*`
  // to the first `*/` after it. An opening with no closing after it matches
  // nothing, and then nothing after it matches either.
  function StripBlockComments(s: string): (r: string)
    ensures |r| <= |s|
    decreases |s|
  {
    if |s| < 2 then s
    else if s[0] == '/' && s[1] == '*' then
      match IndexOf(s[2..], "*/")
      case None => s
      case Some(j) => StripBlockComments(s[2 + j + 2..])
    else [s[0]] + StripBlockComments(s[1..])
  }

  /** `stripJSONComments`: line comments first, then block comments. */
  function StripJsonComments(s: string): string {
    StripBlockComments(StripLineComments(s))
  }

  /** After the first pass no `//` is left anywhere. */
  lemma {:induction false} NoLineCommentLeft(s: string)
    ensures NoPair(StripLineComments(s), '/', '/')
    decreases |s|
  {
    if |s| < 2 {
    } else if s[0] == '/' && s[1] == '/' {
      NoLineCommentLeft(FromNewline(s[2..]));
    } else {
      NoLineCommentLeft(s[1..]);
      var t := StripLineComments(s[1..]);
      assert StripLineComments(s) == [s[0]] + t;
      forall k | 0 <= k < |[s[0]] + t| - 1
        ensures !(([s[0]] + t)[k] == '/' && ([s[0]] + t)[k + 1] == '/')
      {
        if k > 0 {
          assert ([s[0]] + t)[k] == t[k - 1] && ([s[0]] + t)[k + 1] == t[k];
        }
      }
    }
  }

  /** The first pass deletes no newline, so line numbers are kept. */
  lemma {:induction false} LineCommentsKeepLines(s: string)
    ensures Count(StripLineComments(s), '\n') == Count(s, '\n')
    decreases |s|
  {
    if |s| < 2 {
    } else if s[0] == '/' && s[1] == '/' {
      LineCommentsKeepLines(FromNewline(s[2..]));
      CommentHoldsNoNewline(s);
    } else {
      LineCommentsKeepLines(s[1..]);
      assert s == [s[0]] + s[1..];
      CountConcat([s[0]], s[1..], '\n');
      CountConcat([s[0]], StripLineComments(s[1..]), '\n');
    }
  }

  /** A comment, from `//` to the newline, holds no newline. */
  lemma CommentHoldsNoNewline(s: string)
    requires |s| >= 2 && s[0] == '/' && s[1] == '/'
    ensures Count(FromNewline(s[2..]), '\n') == Count(s, '\n')
  {
    assert s[1..][1..] == s[2..];
    SkipKeepsNewlines(s[2..]);
  }

  /** What `FromNewline` skips holds no newline. */
  lemma {:induction false} SkipKeepsNewlines(t: string)
    ensures Count(FromNewline(t), '\n') == Count(t, '\n')
    decreases |t|
  {
    if |t| > 0 && t[0] != '\n' {
      SkipKeepsNewlines(t[1..]);
    }
  }

  /** Text without `//` passes the first stage unchanged. */
  lemma {:induction false} NoLineCommentUnchanged(s: string)
    requires NoPair(s, '/', '/')
    ensures StripLineComments(s) == s
    decreases |s|
  {
    if |s| >= 2 {
      NoLineCommentUnchanged(s[1..]);
    }
  }

  // Text without `*/` passes the second stage unchanged: an unclosed `/*` is kept.
  lemma {:induction false} UnclosedBlockUnchanged(s: string)
    requires NoPair(s, '*', '/')
    ensures StripBlockComments(s) == s
    decreases |s|
  {
    if |s| >= 2 {
      if s[0] == '/' && s[1] == '*' {
        forall k | 0 <= k <= |s[2..]| ensures !HasPrefix(s[2..][k..], "*/") {
          if k + 1 < |s[2..]| {
            assert s[2..][k] == s[2 + k] && s[2..][k + 1] == s[2 + k + 1];
          }
        }
        IndexOfNone(s[2..], "*/");
      } else {
        UnclosedBlockUnchanged(s[1..]);
      }
    }
  }

  /** The first `//` ends the kept text; the comment runs to the next newline. */
  lemma {:induction false} LineCommentCut(a: string, c: string)
    requires NoPair(a, '/', '/') && (|a| == 0 || a[|a| - 1] != '/')
    ensures StripLineComments(a + "//" + c) == a + StripLineComments(FromNewline(c))
    decreases |a|
  {
    var s := a + "//" + c;
    if |a| == 0 {
      assert s[2..] == c;
    } else {
      var s1 := a[1..] + "//" + c;
      assert s[1..] == s1 && s[0] == a[0];
      assert NoPair(a[1..], '/', '/') by {
        forall k | 0 <= k < |a[1..]| - 1 ensures !(a[1..][k] == '/' && a[1..][k + 1] == '/') {
          assert a[1..][k] == a[k + 1] && a[1..][k + 1] == a[k + 2];
        }
      }
      LineCommentCut(a[1..], c);
      assert !(s[0] == '/' && s[1] == '/') by {
        if |a| > 1 {
          assert s[1] == a[1];
        }
      }
      var x := StripLineComments(FromNewline(c));
      calc {
        StripLineComments(s);
        [a[0]] + StripLineComments(s1);
        [a[0]] + (a[1..] + x);
        { AppendAssoc([a[0]], a[1..], x); assert [a[0]] + a[1..] == a; }
        a + x;
      }
    }
  }

  /** A closing cannot start inside a `body` that holds none. */
  lemma NoClosingInside(body: string, rest: string)
    requires NoPair(body, '*', '/')
    ensures forall k :: 0 <= k < |body| ==> !HasPrefix((body + "*/" + rest)[k..], "*/")
  {
    var t := body + "*/" + rest;
    forall k | 0 <= k < |body| ensures !HasPrefix(t[k..], "*/") {
      if k + 1 < |body| {
        assert t[k] == body[k] && t[k + 1] == body[k + 1];
      } else {
        assert t[k + 1] == '*';
      }
    }
  }

  /** After `body`, the first closing is the one that follows it. */
  lemma FirstClosing(body: string, rest: string)
    requires NoPair(body, '*', '/')
    ensures IndexOf(body + "*/" + rest, "*/") == Some(|body|)
  {
    var t := body + "*/" + rest;
    assert t[|body|..|body| + 2] == "*/";
    assert HasPrefix(t[|body|..], "*/");
    NoClosingInside(body, rest);
    IndexOfAt(t, "*/", |body|);
  }

  // The block pass deletes the shortest span: the first `/*` up to the first
  // `*/` after it, and goes on after that closing.
  lemma {:induction false} ShortestBlockRemoved(a: string, body: string, b: string)
    requires NoPair(a, '/', '*') && NoPair(body, '*', '/')
    ensures StripBlockComments(a + "/*" + body + "*/" + b) == a + StripBlockComments(b)
    decreases |a|
  {
    var s := a + "/*" + body + "*/" + b;
    if |a| == 0 {
      assert s[2..] == body + "*/" + b;
      FirstClosing(body, b);
      assert s[2 + |body| + 2..] == b;
    } else {
      var s1 := a[1..] + "/*" + body + "*/" + b;
      assert s[1..] == s1 && s[0] == a[0];
      assert NoPair(a[1..], '/', '*') by {
        forall k | 0 <= k < |a[1..]| - 1 ensures !(a[1..][k] == '/' && a[1..][k + 1] == '*') {
          assert a[1..][k] == a[k + 1] && a[1..][k + 1] == a[k + 2];
        }
      }
      ShortestBlockRemoved(a[1..], body, b);
      assert !(s[0] == '/' && s[1] == '*') by {
        if |a| > 1 {
          assert s[1] == a[1];
        } else {
          assert s[1] == '/';
        }
      }
      var x := StripBlockComments(b);
      calc {
        StripBlockComments(s);
        [a[0]] + StripBlockComments(s1);
        [a[0]] + (a[1..] + x);
        { AppendAssoc([a[0]], a[1..], x); assert [a[0]] + a[1..] == a; }
        a + x;
      }
    }
  }

  /**
   * Neither expression knows about string literals: a URL value loses
   * everything from its `//` to the end of the line.
   */
  lemma UrlInStringCut(rest: string)
    requires '\n' !in rest
    ensures StripJsonComments("\"http://" + rest) == "\"http:"
  {
    var a := "\"http:";
    assert a[0] == '"' && a[1] == 'h' && a[2] == 't' && a[3] == 't' && a[4] == 'p' && a[5] == ':';
    assert "\"http://" + rest == a + "//" + rest;
    FromNewlineNone(rest);
    LineCommentCut(a, rest);
    assert StripLineComments(a + "//" + rest) == a + StripLineComments("") == a;
    UnclosedBlockUnchanged(a);
  }

  lemma {:induction false} FromNewlineNone(s: string)
    requires '\n' !in s
    ensures FromNewline(s) == ""
    decreases |s|
  {
    if |s| > 0 {
      FromNewlineNone(s[1..]);
    }
  }
}
