/** The comment and trailing-comma stripper of `parseJsonc`, as the one-pass loop
    it is, refined to two independent string-aware passes. */
module Jsonc {
  import opened Whitespace

  predicate Closer(c: char) {
    c == '}' || c == ']'
  }

  predicate AllSpace(w: string) {
    w == "" || (RegexSpace(w[0]) && AllSpace(w[1..]))
  }

  // ---------- pass 1: comments ----------

  predicate LineStart(s: string) {
    |s| > 1 && s[0] == '/' && s[1] == '/'
  }

  predicate BlockStart(s: string) {
    |s| > 1 && s[0] == '/' && s[1] == '*'
  }

  predicate BlockEnd(s: string) {
    |s| > 1 && s[0] == '*' && s[1] == '/'
  }

  /** What is left of `s` from its first newline on; the newline is kept. */
  function AfterLine(s: string): (r: string)
    ensures |r| <= |s|
  {
    if s == "" || s[0] == '\n' then s else AfterLine(s[1..])
  }

  /** What is left of a comment body after its end mark; nothing if it never ends. */
  function AfterBlock(s: string): (r: string)
    ensures |r| <= |s|
  {
    if s == "" then "" else if BlockEnd(s) then s[2..] else AfterBlock(s[1..])
  }

  /** A backslash inside a string takes the next character with it. */
  predicate Escape(s: string) {
    |s| > 1 && s[0] == '\\'
  }

  function DropComments(s: string, inString: bool): (r: string)
    ensures |r| <= |s|
    decreases |s|
  {
    if s == "" then ""
    else if inString then
      if Escape(s) then s[..2] + DropComments(s[2..], true)
      else [s[0]] + DropComments(s[1..], s[0] != '"')
    else if LineStart(s) then DropComments(AfterLine(s[2..]), false)
    else if BlockStart(s) then DropComments(AfterBlock(s[2..]), false)
    else [s[0]] + DropComments(s[1..], s[0] == '"')
  }

  // ---------- pass 2: trailing commas ----------

  function SkipSpace(s: string): (r: string)
    ensures |r| <= |s|
    ensures r == "" || !RegexSpace(r[0])
  {
    if s == "" || !RegexSpace(s[0]) then s else SkipSpace(s[1..])
  }

  /** `s` starts with a comma that only white space separates from a closer. */
  predicate Dangling(s: string) {
    s != "" && s[0] == ',' && var t := SkipSpace(s[1..]); t != "" && Closer(t[0])
  }

  function DropCommas(s: string, inString: bool): (r: string)
    ensures |r| <= |s|
    decreases |s|
  {
    if s == "" then ""
    else if inString then
      if Escape(s) then s[..2] + DropCommas(s[2..], true)
      else [s[0]] + DropCommas(s[1..], s[0] != '"')
    else if Dangling(s) then DropCommas(SkipSpace(s[1..]), false)
    else [s[0]] + DropCommas(s[1..], s[0] == '"')
  }

  function Strip(s: string): string {
    DropCommas(DropComments(s, false), false)
  }

  // ---------- the loop ----------

  // One unfolding of each pass, so that the steps below need not look inside.

  lemma CommentsCopy(s: string, inString: bool)
    requires s != ""
    requires if inString then !Escape(s) else !LineStart(s) && !BlockStart(s)
    ensures DropComments(s, inString) == [s[0]] + DropComments(s[1..], inString != (s[0] == '"'))
  {
  }

  lemma CommasCopy(s: string, inString: bool)
    requires s != ""
    requires if inString then !Escape(s) else !Dangling(s)
    ensures DropCommas(s, inString) == [s[0]] + DropCommas(s[1..], inString != (s[0] == '"'))
  {
  }

  lemma CommasEscape(s: string)
    requires Escape(s)
    ensures DropCommas(s, true) == s[..2] + DropCommas(s[2..], true)
  {
  }

  lemma EscapeCopied(s: string)
    requires s != ""
    ensures Escape(DropComments(s, true)) == Escape(s)
    ensures Escape(s) ==> DropComments(s, true) == s[..2] + DropComments(s[2..], true)
  {
  }

  lemma SkipSpaceOver(w: string, t: string)
    requires AllSpace(w)
    ensures SkipSpace(w + t) == SkipSpace(t)
  {
    if w == "" {
      assert w + t == t;
    } else {
      assert (w + t)[1..] == w[1..] + t;
      SkipSpaceOver(w[1..], t);
    }
  }

  lemma AllSpaceSnoc(w: string, c: char)
    requires AllSpace(w) && RegexSpace(c)
    ensures AllSpace(w + [c])
  {
    if w != "" {
      assert (w + [c])[1..] == w[1..] + [c];
      AllSpaceSnoc(w[1..], c);
    }
  }

  lemma SpaceIsPlain(c: char)
    requires RegexSpace(c)
    ensures c !in {'"', ',', '/', '\\', '}', ']'}
  {
  }

  lemma DropCommasOverSpace(w: string, t: string)
    requires AllSpace(w)
    ensures DropCommas(w + t, false) == w + DropCommas(t, false)
  {
    hide DropCommas, RegexSpace;
    if w == "" {
      assert w + t == t;
      assert w + DropCommas(t, false) == DropCommas(t, false);
    } else {
      var s := w + t;
      assert s[1..] == w[1..] + t;
      SpaceIsPlain(w[0]);
      CommasCopy(s, false);
      DropCommasOverSpace(w[1..], t);
      assert [w[0]] + (w[1..] + DropCommas(t, false)) == w + DropCommas(t, false);
    }
  }

  lemma NotDangling(w: string, t: string)
    requires AllSpace(w)
    requires t == "" || (!RegexSpace(t[0]) && !Closer(t[0]))
    ensures !Dangling("," + w + t)
  {
    assert ("," + w + t)[1..] == w + t;
    SkipSpaceOver(w, t);
  }

  /** A pending comma stays when the next significant character is no closer. */
  lemma {:induction false} PendingKept(w: string, t: string)
    requires AllSpace(w)
    requires t == "" || (!RegexSpace(t[0]) && t[0] != '}' && t[0] != ']')
    ensures DropCommas("," + w + t, false) == "," + w + DropCommas(t, false)
  {
    assert t == "" || !Closer(t[0]);
    hide *;
    var s := "," + w + t;
    assert s[1..] == w + t && s[0] == ',';
    NotDangling(w, t);
    CommasCopy(s, false);
    DropCommasOverSpace(w, t);
    assert "," + (w + DropCommas(t, false)) == "," + w + DropCommas(t, false);
  }

  lemma CommasDrop(s: string)
    requires Dangling(s)
    ensures DropCommas(s, false) == DropCommas(SkipSpace(s[1..]), false)
  {
    assert s != "";
    hide Dangling, SkipSpace;
  }

  lemma CloserIsNoSpace(t: string)
    requires t != "" && Closer(t[0])
    ensures SkipSpace(t) == t
  {
  }

  lemma DanglingPending(w: string, t: string)
    requires AllSpace(w)
    requires t != "" && Closer(t[0])
    ensures var s := "," + w + t; Dangling(s) && s[1..] == w + t && SkipSpace(w + t) == t
  {
    assert ("," + w + t)[1..] == w + t;
    SkipSpaceOver(w, t);
    CloserIsNoSpace(t);
    hide RegexSpace, AllSpace, SkipSpace, Closer;
  }

  /** A pending comma goes, with the space behind it, when a closer comes next. */
  lemma {:induction false} PendingDropped(w: string, t: string)
    requires AllSpace(w)
    requires t != "" && (t[0] == '}' || t[0] == ']')
    ensures DropCommas("," + w + t, false) == DropCommas(t, false)
  {
    assert Closer(t[0]);
    hide *;
    DanglingPending(w, t);
    CommasDrop("," + w + t);
  }

  /** `kept` is final output, `pending` a provisional comma and the space after it. */
  ghost predicate LoopState(kept: string, pending: string, rest: string, inString: bool, whole: string) {
    && (pending == "" || (!inString && pending[0] == ',' && AllSpace(pending[1..])))
    && whole == kept + DropCommas(pending + DropComments(rest, inString), inString)
  }

  /** Output that no later character can take back. */
  lemma SettlePending(kept: string, pending: string, t: string)
    requires pending == "" || (pending[0] == ',' && AllSpace(pending[1..]))
    requires t == "" || (!RegexSpace(t[0]) && !Closer(t[0]))
    ensures kept + DropCommas(pending + t, false) == kept + pending + DropCommas(t, false)
  {
    assert t == "" || (t[0] != '}' && t[0] != ']');
    hide *;
    if pending == "" {
      assert pending + t == t && kept + pending == kept;
    } else {
      var w := pending[1..];
      assert pending == "," + w;
      PendingKept(w, t);
      assert kept + ("," + w + DropCommas(t, false)) == kept + pending + DropCommas(t, false);
    }
  }

  lemma CloserStep(kept: string, pending: string, rest: string, whole: string)
    requires LoopState(kept, pending, rest, false, whole)
    requires rest != "" && Closer(rest[0])
    ensures LoopState(kept + [rest[0]], "", rest[1..], false, whole)
  {
    hide DropComments, DropCommas, AllSpace;
    var t := DropComments(rest, false);
    var u := DropComments(rest[1..], false);
    CommentsCopy(rest, false);
    assert t[1..] == u;
    if pending == "" {
      assert pending + t == t;
    } else {
      PendingDropped(pending[1..], t);
      assert pending + t == "," + pending[1..] + t;
    }
    CommasCopy(t, false);
    assert kept + ([rest[0]] + DropCommas(u, false)) == kept + [rest[0]] + DropCommas("" + u, false) by {
      assert "" + u == u;
    }
  }

  lemma SpaceStep(kept: string, pending: string, rest: string, whole: string)
    requires LoopState(kept, pending, rest, false, whole)
    requires rest != "" && RegexSpace(rest[0])
    ensures pending != "" ==> LoopState(kept, pending + [rest[0]], rest[1..], false, whole)
    ensures pending == "" ==> LoopState(kept + [rest[0]], "", rest[1..], false, whole)
  {
    hide DropComments, DropCommas, RegexSpace, AllSpace;
    var t := DropComments(rest, false);
    var u := DropComments(rest[1..], false);
    SpaceIsPlain(rest[0]);
    CommentsCopy(rest, false);
    if pending == "" {
      assert pending + t == t && "" + u == u && t[1..] == u;
      CommasCopy(t, false);
      assert kept + ([rest[0]] + DropCommas(u, false)) == kept + [rest[0]] + DropCommas(u, false);
    } else {
      AllSpaceSnoc(pending[1..], rest[0]);
      assert pending + t == (pending + [rest[0]]) + u;
      assert (pending + [rest[0]])[1..] == pending[1..] + [rest[0]];
    }
  }

  lemma CommaStep(kept: string, pending: string, rest: string, whole: string)
    requires LoopState(kept, pending, rest, false, whole)
    requires rest != "" && rest[0] == ','
    ensures LoopState(kept + pending, [rest[0]], rest[1..], false, whole)
  {
    hide DropComments, DropCommas;
    CommentsCopy(rest, false);
    SettlePending(kept, pending, DropComments(rest, false));
  }

  /** Any other character outside strings, the opening quote included. */
  lemma PlainStep(kept: string, pending: string, rest: string, whole: string)
    requires LoopState(kept, pending, rest, false, whole)
    requires rest != "" && !RegexSpace(rest[0]) && !Closer(rest[0]) && rest[0] != ','
    requires !LineStart(rest) && !BlockStart(rest)
    ensures LoopState(kept + pending + [rest[0]], "", rest[1..], rest[0] == '"', whole)
  {
    hide DropComments, DropCommas, RegexSpace, AllSpace;
    var t := DropComments(rest, false);
    var u := DropComments(rest[1..], rest[0] == '"');
    CommentsCopy(rest, false);
    SettlePending(kept, pending, t);
    CommasCopy(t, false);
    assert t[1..] == u && "" + u == u;
    assert kept + pending + ([rest[0]] + DropCommas(u, rest[0] == '"'))
        == kept + pending + [rest[0]] + DropCommas(u, rest[0] == '"');
  }

  lemma StringStep(kept: string, rest: string, whole: string)
    requires LoopState(kept, "", rest, true, whole)
    requires rest != ""
    ensures Escape(rest) ==> LoopState(kept + rest[..2], "", rest[2..], true, whole)
    ensures !Escape(rest) ==> LoopState(kept + [rest[0]], "", rest[1..], rest[0] != '"', whole)
  {
    hide DropComments, DropCommas;
    var t := DropComments(rest, true);
    EscapeCopied(rest);
    assert "" + t == t;
    if Escape(rest) {
      var u := DropComments(rest[2..], true);
      assert t[..2] == rest[..2] && t[2..] == u && "" + u == u;
      CommasEscape(t);
      assert kept + (rest[..2] + DropCommas(u, true)) == kept + rest[..2] + DropCommas(u, true);
    } else {
      var q := rest[0] != '"';
      var u := DropComments(rest[1..], q);
      CommentsCopy(rest, true);
      assert t[1..] == u && "" + u == u;
      CommasCopy(t, true);
      assert kept + ([rest[0]] + DropCommas(u, q)) == kept + [rest[0]] + DropCommas(u, q);
    }
  }

  lemma CommentStep(kept: string, pending: string, rest: string, whole: string)
    requires LoopState(kept, pending, rest, false, whole)
    ensures LineStart(rest) ==> LoopState(kept, pending, AfterLine(rest), false, whole)
    ensures BlockStart(rest) ==> LoopState(kept, pending, AfterBlock(rest[2..]), false, whole)
  {
    hide DropCommas;
    if LineStart(rest) {
      assert rest[1..][1..] == rest[2..];
    }
  }

  lemma EndState(kept: string, pending: string, inString: bool, whole: string)
    requires LoopState(kept, pending, "", inString, whole)
    ensures whole == kept + pending
  {
    assert pending + "" == pending && DropCommas("", inString) == "";
    SettlePending(kept, if inString then "" else pending, "");
    assert kept + pending + "" == kept + pending;
  }

  lemma StartState(text: string)
    ensures LoopState("", "", text, false, Strip(text))
  {
    assert "" + DropComments(text, false) == DropComments(text, false);
  }

  /** The position past the end that an unterminated block comment leaves reads as no text. */
  function Rest(text: string, i: nat): string {
    if i <= |text| then text[i..] else ""
  }

  method SkipLineComment(text: string, start: nat) returns (i: nat)
    requires start <= |text|
    ensures Rest(text, i) == AfterLine(text[start..])
    ensures i >= start && (start < |text| && text[start] != '\n' ==> i > start)
  {
    i := start;
    while i < |text| && text[i] != '\n'
      invariant start <= i <= |text|
      invariant AfterLine(text[i..]) == AfterLine(text[start..])
    {
      assert text[i..][1..] == text[i + 1..];
      i := i + 1;
    }
  }

  method SkipBlockComment(text: string, start: nat) returns (i: nat)
    requires start <= |text|
    ensures i > start && Rest(text, i) == AfterBlock(text[start..])
  {
    i := start;
    while i < |text| && !(text[i] == '*' && i + 1 < |text| && text[i + 1] == '/')
      invariant start <= i <= |text|
      invariant AfterBlock(text[i..]) == AfterBlock(text[start..])
    {
      assert text[i..][1..] == text[i + 1..];
      i := i + 1;
    }
    i := i + 2;
  }

  method StripJsonc(text: string) returns (out: string)
    ensures out == Strip(text)
  {
    out := "";
    var i := 0;
    var inString := false;
    var pendingComma := -1;
    ghost var whole := Strip(text);
    ghost var kept, pending := "", "";
    StartState(text);
    hide LoopState, DropComments, DropCommas, AfterLine, AfterBlock;
    while i < |text|
      invariant 0 <= i
      invariant out == kept + pending && (inString ==> pending == "")
      invariant pendingComma == if pending == "" then -1 else |kept|
      invariant LoopState(kept, pending, Rest(text, i), inString, whole)
      decreases |text| - i
    {
      var ch := text[i];
      ghost var rest := text[i..];
      assert rest[1..] == Rest(text, i + 1);
      if inString {
        StringStep(kept, rest, whole);
        out := out + [ch];
        if ch == '\\' && i + 1 < |text| {
          out := out + [text[i + 1]];
          kept := kept + rest[..2];
          assert rest[2..] == Rest(text, i + 2);
          i := i + 2;
          continue;
        }
        if ch == '"' {
          inString := false;
        }
        kept := kept + [ch];
        i := i + 1;
        continue;
      }
      if ch == '"' {
        PlainStep(kept, pending, rest, whole);
        inString := true;
        pendingComma := -1;
        out := out + [ch];
        kept, pending := kept + pending + [ch], "";
        i := i + 1;
        continue;
      }
      if ch == '/' && i + 1 < |text| && text[i + 1] == '/' {
        CommentStep(kept, pending, rest, whole);
        i := SkipLineComment(text, i);
        continue;
      }
      if ch == '/' && i + 1 < |text| && text[i + 1] == '*' {
        CommentStep(kept, pending, rest, whole);
        assert rest[2..] == text[i + 2..];
        i := SkipBlockComment(text, i + 2);
        continue;
      }
      if ch == ',' {
        CommaStep(kept, pending, rest, whole);
        pendingComma := |out|;
        kept, pending := kept + pending, [ch];
      } else if Closer(ch) {
        CloserStep(kept, pending, rest, whole);
        if pendingComma >= 0 {
          out := out[..pendingComma];
        }
        pendingComma := -1;
        kept, pending := kept + [ch], "";
      } else if !RegexSpace(ch) {
        PlainStep(kept, pending, rest, whole);
        pendingComma := -1;
        kept, pending := kept + pending + [ch], "";
      } else {
        SpaceStep(kept, pending, rest, whole);
        if pending == "" {
          kept := kept + [ch];
        } else {
          pending := pending + [ch];
        }
      }
      out := out + [ch];
      i := i + 1;
    }
    assert Rest(text, i) == "";
    EndState(kept, pending, inString, whole);
  }
}
