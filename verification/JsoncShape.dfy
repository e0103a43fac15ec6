/** What stripping keeps and what it removes, for every text. */
module JsoncShape {
  import opened Jsonc
  import opened Whitespace

  predicate HasComment(s: string, inString: bool)
    decreases |s|
  {
    s != "" &&
    if inString then
      if Escape(s) then HasComment(s[2..], true) else HasComment(s[1..], s[0] != '"')
    else
      LineStart(s) || BlockStart(s) || HasComment(s[1..], s[0] == '"')
  }

  predicate HasTrailingComma(s: string, inString: bool)
    decreases |s|
  {
    s != "" &&
    if inString then
      if Escape(s) then HasTrailingComma(s[2..], true) else HasTrailingComma(s[1..], s[0] != '"')
    else
      Dangling(s) || HasTrailingComma(s[1..], s[0] == '"')
  }

  /** A comma in front of a trailing comma, with only white space between them. */
  predicate BeforeDangling(s: string) {
    s != "" && s[0] == ',' && Dangling(SkipSpace(s[1..]))
  }

  predicate HasDoubleComma(s: string, inString: bool)
    decreases |s|
  {
    s != "" &&
    if inString then
      if Escape(s) then HasDoubleComma(s[2..], true) else HasDoubleComma(s[1..], s[0] != '"')
    else
      BeforeDangling(s) || HasDoubleComma(s[1..], s[0] == '"')
  }

  lemma {:induction false} CommentsShrink(s: string, inString: bool)
    ensures HasComment(s, inString) <==> |DropComments(s, inString)| < |s|
    ensures !HasComment(s, inString) ==> DropComments(s, inString) == s
    decreases |s|
  {
    if s != "" {
      if inString && Escape(s) {
        CommentsShrink(s[2..], true);
        assert s == s[..2] + s[2..];
      } else if inString || !(LineStart(s) || BlockStart(s)) {
        CommentsShrink(s[1..], inString != (s[0] == '"'));
        assert s == [s[0]] + s[1..];
      }
    }
  }

  lemma {:induction false} CommasShrink(s: string, inString: bool)
    ensures HasTrailingComma(s, inString) <==> |DropCommas(s, inString)| < |s|
    ensures !HasTrailingComma(s, inString) ==> DropCommas(s, inString) == s
    decreases |s|
  {
    if s != "" {
      if inString && Escape(s) {
        CommasShrink(s[2..], true);
        assert s == s[..2] + s[2..];
      } else if inString || !Dangling(s) {
        CommasShrink(s[1..], inString != (s[0] == '"'));
        assert s == [s[0]] + s[1..];
      }
    }
  }

  /** Text comes back unchanged exactly when it is clean. */
  lemma UnchangedIffClean(s: string)
    ensures Strip(s) == s <==> !HasComment(s, false) && !HasTrailingComma(s, false)
  {
    CommentsShrink(s, false);
    CommasShrink(DropComments(s, false), false);
  }

  // ---------- no comment is left ----------

  lemma FirstCopied(s: string)
    requires s != "" && !LineStart(s) && !BlockStart(s)
    ensures var t := DropComments(s, false); !LineStart(t) && !BlockStart(t)
  {
    CommentsCopy(s, false);
    if |s| > 1 && s[0] == '/' {
      hide DropComments;
      CommentsCopy(s[1..], false);
    }
  }

  lemma {:induction false} CommentsGone(s: string, inString: bool)
    ensures !HasComment(DropComments(s, inString), inString)
    decreases |s|
  {
    if s != "" {
      if inString && Escape(s) {
        CommentsGone(s[2..], true);
        assert DropComments(s, true)[2..] == DropComments(s[2..], true);
      } else if inString || !(LineStart(s) || BlockStart(s)) {
        var q := inString != (s[0] == '"');
        CommentsGone(s[1..], q);
        if inString { EscapeCopied(s); } else { FirstCopied(s); }
        CommentsCopy(s, inString);
        hide DropComments;
        var t := DropComments(s, inString);
        assert t[0] == s[0] && t[1..] == DropComments(s[1..], q);
      } else if LineStart(s) {
        CommentsGone(AfterLine(s[2..]), false);
      } else {
        CommentsGone(AfterBlock(s[2..]), false);
      }
    }
  }

  // ---------- white space between a comma and what follows ----------

  function SpacePrefix(s: string): (w: string)
    ensures AllSpace(w) && s == w + SkipSpace(s)
  {
    if s == "" || !RegexSpace(s[0]) then "" else
      var w := SpacePrefix(s[1..]);
      assert ([s[0]] + w)[1..] == w;
      [s[0]] + w
  }

  lemma CloserKept(s: string)
    requires s != "" && Closer(s[0])
    ensures var t := DropCommas(s, false); t != "" && t[0] == s[0]
  {
  }

  lemma EscapeKept(s: string)
    ensures s != "" ==> Escape(DropCommas(s, true)) == Escape(s)
    ensures Escape(s) ==> DropCommas(s, true) == s[..2] + DropCommas(s[2..], true)
  {
  }

  /** What a head that is not itself removed looks like after removal. */
  lemma HeadAfterCommas(s: string)
    requires s != "" && !Dangling(s)
    ensures var t := DropCommas(s, false); t != "" && t[0] == s[0]
    ensures (LineStart(DropCommas(s, false)) ==> LineStart(s)) && (BlockStart(DropCommas(s, false)) ==> BlockStart(s))
  {
    CommasCopy(s, false);
    if |s| > 1 && s[0] == '/' {
      var k := s[1..];
      if Dangling(k) {
        CloserKept(SkipSpace(k[1..]));
        assert DropCommas(k, false) == DropCommas(SkipSpace(k[1..]), false);
      } else {
        hide DropCommas;
        CommasCopy(k, false);
      }
    }
  }

  lemma {:induction false} CommasKeepClean(s: string, inString: bool)
    requires !HasComment(s, inString)
    ensures !HasComment(DropCommas(s, inString), inString)
    decreases |s|
  {
    if s != "" {
      if inString && Escape(s) {
        CommasKeepClean(s[2..], true);
        EscapeKept(s);
        assert DropCommas(s, true)[2..] == DropCommas(s[2..], true);
      } else if inString || !Dangling(s) {
        var q := inString != (s[0] == '"');
        CommasKeepClean(s[1..], q);
        if inString { EscapeKept(s); } else { HeadAfterCommas(s); }
        CommasCopy(s, inString);
        hide DropCommas;
        var t := DropCommas(s, inString);
        assert t[0] == s[0] && t[1..] == DropCommas(s[1..], q);
      } else {
        var k := SkipSpace(s[1..]);
        CleanOverSpace(SpacePrefix(s[1..]), k);
        CommasKeepClean(k, false);
      }
    }
  }

  lemma {:induction false} CleanOverSpace(w: string, t: string)
    requires AllSpace(w)
    ensures HasComment(w + t, false) == HasComment(t, false)
    ensures HasDoubleComma(w + t, false) == HasDoubleComma(t, false)
  {
    if w == "" {
      assert w + t == t;
    } else {
      SpaceIsPlain(w[0]);
      hide RegexSpace;
      assert (w + t)[1..] == w[1..] + t;
      CleanOverSpace(w[1..], t);
    }
  }

  /** No comment start survives outside a string. */
  lemma NoCommentLeft(s: string)
    ensures !HasComment(Strip(s), false)
  {
    CommentsGone(s, false);
    CommasKeepClean(DropComments(s, false), false);
  }

  // ---------- a trailing comma is left only behind a removed one ----------

  lemma NewTrailing(s: string)
    requires s != "" && !Dangling(s)
    ensures Dangling(DropCommas(s, false)) == BeforeDangling(s)
  {
    CommasCopy(s, false);
    var u := DropCommas(s[1..], s[0] == '"');
    assert DropCommas(s, false)[1..] == u;
    if s[0] == ',' {
      var w, k := SpacePrefix(s[1..]), SkipSpace(s[1..]);
      DropCommasOverSpace(w, k);
      SkipSpaceOver(w, DropCommas(k, false));
      if Dangling(k) {
        var m := SkipSpace(k[1..]);
        CloserKept(m);
        assert DropCommas(k, false) == DropCommas(m, false);
        assert !RegexSpace(m[0]);
      } else if k != "" {
        HeadAfterCommas(k);
      }
    }
  }

  lemma {:induction false} TrailingLeft(s: string, inString: bool)
    ensures HasTrailingComma(DropCommas(s, inString), inString) <==> HasDoubleComma(s, inString)
    decreases |s|
  {
    if s != "" {
      if inString && Escape(s) {
        TrailingLeft(s[2..], true);
        EscapeKept(s);
        assert DropCommas(s, true)[2..] == DropCommas(s[2..], true);
      } else if inString || !Dangling(s) {
        var q := inString != (s[0] == '"');
        TrailingLeft(s[1..], q);
        if inString { EscapeKept(s); } else { NewTrailing(s); }
        CommasCopy(s, inString);
        hide DropCommas;
        var t := DropCommas(s, inString);
        assert t[0] == s[0] && t[1..] == DropCommas(s[1..], q);
      } else {
        var k := SkipSpace(s[1..]);
        TrailingLeft(k, false);
        CleanOverSpace(SpacePrefix(s[1..]), k);
        assert !BeforeDangling(s);
      }
    }
  }

  /** Stripping twice is stripping once, except where two commas dangle together. */
  lemma IdempotentIffNoDoubleComma(s: string)
    ensures Strip(Strip(s)) == Strip(s) <==> !HasDoubleComma(DropComments(s, false), false)
  {
    NoCommentLeft(s);
    TrailingLeft(DropComments(s, false), false);
    UnchangedIffClean(Strip(s));
  }

  lemma DoubleCommaExample()
    ensures Strip(",,]") == ",]" && Strip(",]") == "]"
  {
    var a, b := ",,]", ",]";
    assert a[1..] == b && b[1..] == "]" && SkipSpace("]") == "]" && SkipSpace(b) == b;
    CommentsCopy(a, false);
    CommentsCopy(b, false);
    CommentsCopy("]", false);
    CommasCopy("]", false);
    CommasCopy(a, false);
  }

  // ---------- string literals ----------

  /** How much of the text after an opening quote the literal takes, closing quote included. */
  function LiteralLength(s: string): (n: nat)
    ensures n <= |s|
    decreases |s|
  {
    if s == "" then 0
    else if Escape(s) then 2 + LiteralLength(s[2..])
    else if s[0] == '"' then 1
    else 1 + LiteralLength(s[1..])
  }

  /** The string literals of a commented text, in order. */
  function Literals(s: string): seq<string>
    decreases |s|
  {
    if s == "" then []
    else if s[0] == '"' then
      var n := 1 + LiteralLength(s[1..]);
      [s[..n]] + Literals(s[n..])
    else if LineStart(s) then Literals(AfterLine(s[2..]))
    else if BlockStart(s) then Literals(AfterBlock(s[2..]))
    else Literals(s[1..])
  }

  lemma Prepend(h: string, s: string, t: string, n: nat)
    requires n <= |s| && n <= |t| && t[..n] == s[..n]
    ensures (h + t)[..|h| + n] == (h + s)[..|h| + n]
    ensures (h + t)[|h| + n..] == t[n..] && (h + s)[|h| + n..] == s[n..]
  {
    assert (h + s)[..|h| + n] == h + s[..n] && (h + t)[..|h| + n] == h + t[..n];
  }

  lemma {:induction false} LiteralCopied(s: string)
    ensures var n := LiteralLength(s);
            var t := DropComments(s, true);
            LiteralLength(t) == n && t[..n] == s[..n] && t[n..] == DropComments(s[n..], false)
    decreases |s|
  {
    if s != "" {
      EscapeCopied(s);
      if Escape(s) {
        LiteralCopied(s[2..]);
        Prepend(s[..2], s[2..], DropComments(s[2..], true), LiteralLength(s[2..]));
        assert s == s[..2] + s[2..];
        hide DropComments;
        var t := DropComments(s, true);
        assert t[2..] == DropComments(s[2..], true);
      } else {
        CommentsCopy(s, true);
        if s[0] != '"' {
          LiteralCopied(s[1..]);
          Prepend([s[0]], s[1..], DropComments(s[1..], true), LiteralLength(s[1..]));
          assert s == [s[0]] + s[1..];
        }
        hide DropComments;
        var t := DropComments(s, true);
        assert t[1..] == DropComments(s[1..], s[0] != '"');
      }
    }
  }

  lemma {:induction false} LiteralKept(s: string)
    ensures var n := LiteralLength(s);
            var t := DropCommas(s, true);
            LiteralLength(t) == n && t[..n] == s[..n] && t[n..] == DropCommas(s[n..], false)
    decreases |s|
  {
    if s != "" {
      EscapeKept(s);
      if Escape(s) {
        LiteralKept(s[2..]);
        Prepend(s[..2], s[2..], DropCommas(s[2..], true), LiteralLength(s[2..]));
        assert s == s[..2] + s[2..];
        hide DropCommas;
        var t := DropCommas(s, true);
        assert t[2..] == DropCommas(s[2..], true);
      } else {
        CommasCopy(s, true);
        if s[0] != '"' {
          LiteralKept(s[1..]);
          Prepend([s[0]], s[1..], DropCommas(s[1..], true), LiteralLength(s[1..]));
          assert s == [s[0]] + s[1..];
        }
        hide DropCommas;
        var t := DropCommas(s, true);
        assert t[1..] == DropCommas(s[1..], s[0] != '"');
      }
    }
  }

  lemma {:induction false} CommentsKeepLiterals(s: string)
    ensures Literals(DropComments(s, false)) == Literals(s)
    decreases |s|
  {
    if s == "" {
    } else if s[0] == '"' {
      CommentsCopy(s, false);
      LiteralCopied(s[1..]);
      hide DropComments;
      var n, t := LiteralLength(s[1..]), DropComments(s[1..], true);
      Prepend(['"'], s[1..], t, n);
      assert s == ['"'] + s[1..] && DropComments(s, false)[1..] == t;
      CommentsKeepLiterals(s[1 + n..]);
    } else if LineStart(s) {
      CommentsKeepLiterals(AfterLine(s[2..]));
    } else if BlockStart(s) {
      CommentsKeepLiterals(AfterBlock(s[2..]));
    } else {
      FirstCopied(s);
      CommentsCopy(s, false);
      CommentsKeepLiterals(s[1..]);
      hide DropComments;
      var t := DropComments(s, false);
      assert t[0] == s[0] && t[1..] == DropComments(s[1..], false);
    }
  }

  lemma {:induction false} LiteralsOverSpace(w: string, t: string)
    requires AllSpace(w)
    ensures Literals(w + t) == Literals(t)
  {
    if w == "" {
      assert w + t == t;
    } else {
      SpaceIsPlain(w[0]);
      hide RegexSpace;
      assert (w + t)[1..] == w[1..] + t;
      LiteralsOverSpace(w[1..], t);
    }
  }

  lemma {:induction false} CleanAfterLiteral(s: string)
    requires !HasComment(s, true)
    ensures !HasComment(s[LiteralLength(s)..], false)
    decreases |s|
  {
    if s == "" {
    } else if Escape(s) {
      CleanAfterLiteral(s[2..]);
      assert s[2..][LiteralLength(s) - 2..] == s[LiteralLength(s)..];
    } else if s[0] != '"' {
      CleanAfterLiteral(s[1..]);
      assert s[1..][LiteralLength(s) - 1..] == s[LiteralLength(s)..];
    }
  }

  lemma {:induction false} CommasKeepLiterals(s: string)
    requires !HasComment(s, false)
    ensures Literals(DropCommas(s, false)) == Literals(s)
    decreases |s|
  {
    if s == "" {
    } else if s[0] == '"' {
      CommasCopy(s, false);
      LiteralKept(s[1..]);
      CleanAfterLiteral(s[1..]);
      hide DropCommas, Dangling;
      var n, t := LiteralLength(s[1..]), DropCommas(s[1..], true);
      Prepend(['"'], s[1..], t, n);
      assert s == ['"'] + s[1..] && DropCommas(s, false)[1..] == t;
      CommasKeepLiterals(s[1 + n..]);
    } else if Dangling(s) {
      var w, k := SpacePrefix(s[1..]), SkipSpace(s[1..]);
      CleanOverSpace(w, k);
      LiteralsOverSpace(w, k);
      CommasKeepLiterals(k);
    } else {
      HeadAfterCommas(s);
      CommasCopy(s, false);
      hide DropCommas, Dangling;
      CommasKeepLiterals(s[1..]);
      var t := DropCommas(s, false);
      assert t[0] == s[0] && t[1..] == DropCommas(s[1..], false);
    }
  }

  /** String literals come through verbatim and in order. */
  lemma LiteralsSurvive(s: string)
    ensures Literals(Strip(s)) == Literals(s)
  {
    CommentsKeepLiterals(s);
    CommentsGone(s, false);
    CommasKeepLiterals(DropComments(s, false));
  }
}
