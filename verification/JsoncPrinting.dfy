/** Printed documents: JSON tokens with comments, white space and trailing commas
    put between them, and what stripping makes of the printed text. */
module JsoncPrinting {
  import opened Jsonc
  import opened Whitespace
  import opened Wrappers

  // ---------- tokens (RFC 8259, section 2) ----------

  datatype Token =
    | Punct(mark: char)
    | Literal(body: string)  // the text between the quotes, escapes and all
    | Atom(text: string)     // a number, `true`, `false` or `null`

  predicate IsPunct(c: char) {
    c in {'{', '}', '[', ']', ':', ','}
  }

  predicate JsonSpace(c: char) {
    c == ' ' || c == '\t' || c == '\n' || c == '\r'
  }

  predicate AtomChar(c: char) {
    !RegexSpace(c) && !IsPunct(c) && c != '"' && c != '/'
  }

  predicate AllAtom(s: string) {
    s == "" || (AtomChar(s[0]) && AllAtom(s[1..]))
  }

  /** A string body: no bare quote, and every backslash has a character to escape. */
  predicate StringBody(b: string) {
    b == "" ||
    if b[0] == '\\' then |b| > 1 && StringBody(b[2..]) else b[0] != '"' && StringBody(b[1..])
  }

  predicate ValidToken(t: Token) {
    match t
    case Punct(c) => IsPunct(c)
    case Literal(b) => StringBody(b)
    case Atom(a) => a != "" && AllAtom(a)
  }

  function TokenText(t: Token): string {
    match t
    case Punct(c) => [c]
    case Literal(b) => ['"'] + b + ['"']
    case Atom(a) => a
  }

  /** Where the string body at the head of `s` ends, if a closing quote comes. */
  function BodyLength(s: string): (n: Option<nat>)
    ensures n.Some? ==> n.value < |s|
    decreases |s|
  {
    if s == "" then None
    else if s[0] == '"' then Some(0)
    else
      var k := if s[0] == '\\' then 2 else 1;
      if |s| < k then None else
        match BodyLength(s[k..])
        case None => None
        case Some(m) => Some(k + m)
  }

  function AtomLength(s: string): (n: nat)
    ensures n <= |s|
  {
    if s == "" || !AtomChar(s[0]) then 0 else 1 + AtomLength(s[1..])
  }

  function Tokenise(s: string): Option<seq<Token>>
    decreases |s|
  {
    if s == "" then Some([])
    else if JsonSpace(s[0]) then Tokenise(s[1..])
    else if IsPunct(s[0]) then Cons(Punct(s[0]), Tokenise(s[1..]))
    else if s[0] == '"' then
      match BodyLength(s[1..])
      case None => None
      case Some(n) => Cons(Literal(s[1..1 + n]), Tokenise(s[2 + n..]))
    else
      var n := AtomLength(s);
      if n == 0 then None else Cons(Atom(s[..n]), Tokenise(s[n..]))
  }

  function Cons(t: Token, ts: Option<seq<Token>>): Option<seq<Token>> {
    match ts
    case None => None
    case Some(us) => Some([t] + us)
  }

  // ---------- printed documents ----------

  datatype Piece =
    | Space(c: char)
    | LineComment(line: string)
    | OpenLine(open: string)     // a line comment ended by the end of the text
    | BlockComment(block: string)
    | Tok(token: Token)
    | TrailingComma

  function Text(p: Piece): string {
    match p
    case Space(c) => [c]
    case LineComment(b) => "//" + b + "\n"
    case OpenLine(b) => "//" + b
    case BlockComment(b) => "/*" + b + "*/"
    case Tok(t) => TokenText(t)
    case TrailingComma => ","
  }

  function Render(ps: seq<Piece>): string {
    if ps == [] then "" else Text(ps[0]) + Render(ps[1..])
  }

  function TokensOf(ps: seq<Piece>): seq<Token> {
    if ps == [] then []
    else (if ps[0].Tok? then [ps[0].token] else []) + TokensOf(ps[1..])
  }

  predicate NoBlockEnd(b: string) {
    b == "" || (!BlockEnd(b) && NoBlockEnd(b[1..]))
  }

  predicate NoNewline(b: string) {
    b == "" || (b[0] != '\n' && NoNewline(b[1..]))
  }

  predicate ValidPiece(p: Piece) {
    match p
    case Space(c) => JsonSpace(c)
    case LineComment(b) => NoNewline(b)
    case OpenLine(b) => NoNewline(b)
    case BlockComment(b) => NoBlockEnd(b)
    case Tok(t) => ValidToken(t)
    case TrailingComma => true
  }

  predicate Valid(ps: seq<Piece>) {
    ps == [] ||
    (ValidPiece(ps[0]) && (ps[0].OpenLine? ==> |ps| == 1) && Valid(ps[1..]))
  }

  predicate IsTrivia(p: Piece) {
    !p.Tok? && !p.TrailingComma?
  }

  predicate IsCloser(t: Token) {
    t.Punct? && Closer(t.mark)
  }

  /** The first piece that is neither comment nor white space is a closing bracket. */
  predicate CloserNext(ps: seq<Piece>) {
    ps != [] &&
    if IsTrivia(ps[0]) then CloserNext(ps[1..]) else ps[0].Tok? && IsCloser(ps[0].token)
  }

  const COMMA := Punct(',')

  /** A comma stands before a closer exactly when it is an added one. */
  predicate CommasPlaced(ps: seq<Piece>) {
    ps == [] ||
    (CommasPlaced(ps[1..]) && (ps[0].TrailingComma? ==> CloserNext(ps[1..]))
     && (ps[0] == Tok(COMMA) ==> !CloserNext(ps[1..])))
  }

  predicate AtomHead(ps: seq<Piece>) {
    ps != [] && ps[0].Tok? && ps[0].token.Atom?
  }

  /** Only block comments, which leave nothing behind, before an atom. */
  predicate AtomNext(ps: seq<Piece>) {
    ps != [] && if ps[0].BlockComment? then AtomNext(ps[1..]) else AtomHead(ps)
  }

  /** No two atoms have only block comments between them. */
  predicate AtomsApart(ps: seq<Piece>) {
    ps == [] || (AtomsApart(ps[1..]) && (AtomHead(ps) ==> !AtomNext(ps[1..])))
  }

  // ---------- first pass on a printed document ----------

  function Uncommented(ps: seq<Piece>): seq<Piece> {
    if ps == [] then [] else WithoutComment(ps[0]) + Uncommented(ps[1..])
  }

  predicate Commentless(ps: seq<Piece>) {
    forall k :: 0 <= k < |ps| ==> ps[k].Space? || ps[k].Tok? || ps[k].TrailingComma?
  }

  lemma QuoteIsPlain(s: string)
    requires s != "" && s[0] == '"'
    ensures !LineStart(s) && !BlockStart(s) && !Dangling(s)
  {
  }

  lemma AfterLineOver(b: string, t: string)
    requires NoNewline(b)
    requires t == "" || t[0] == '\n'
    ensures AfterLine(b + t) == t
  {
    if b == "" {
      assert b + t == t;
    } else {
      assert (b + t)[1..] == b[1..] + t;
      AfterLineOver(b[1..], t);
    }
  }

  lemma AfterBlockOver(b: string, t: string)
    requires NoBlockEnd(b)
    ensures AfterBlock(b + "*/" + t) == t
  {
    var s := b + "*/" + t;
    if b == "" {
      assert s[2..] == t;
    } else {
      assert s[1..] == b[1..] + "*/" + t;
      AfterBlockOver(b[1..], t);
    }
  }

  lemma {:induction false} CommentsOverAtom(a: string, t: string)
    requires AllAtom(a)
    ensures DropComments(a + t, false) == a + DropComments(t, false)
  {
    if a == "" {
      assert a + t == t && a + DropComments(t, false) == DropComments(t, false);
    } else {
      assert (a + t)[1..] == a[1..] + t && (a + t)[0] == a[0];
      CommentsCopy(a + t, false);
      CommentsOverAtom(a[1..], t);
      hide DropComments;
      assert [a[0]] + (a[1..] + DropComments(t, false)) == a + DropComments(t, false);
    }
  }

  lemma {:induction false} CommentsOverBody(b: string, t: string)
    requires StringBody(b)
    ensures DropComments(b + (['"'] + t), true) == b + (['"'] + DropComments(t, false))
    decreases |b|
  {
    hide DropComments;
    var s := b + (['"'] + t);
    var u := ['"'] + DropComments(t, false);
    if b == "" {
      assert s == ['"'] + t && s[1..] == t && b + u == u;
      CommentsCopy(s, true);
    } else if b[0] == '\\' {
      CommentsOverBody(b[2..], t);
      assert Escape(s) && s[..2] == b[..2] && s[2..] == b[2..] + (['"'] + t);
      EscapeCopied(s);
      assert b[..2] + (b[2..] + u) == b + u;
    } else {
      CommentsOverBody(b[1..], t);
      assert s[0] == b[0] && s[1..] == b[1..] + (['"'] + t);
      CommentsCopy(s, true);
      assert [b[0]] + (b[1..] + u) == b + u;
    }
  }

  lemma CommentsOverLiteral(b: string, t: string)
    requires StringBody(b)
    ensures DropComments(['"'] + b + ['"'] + t, false) == ['"'] + b + ['"'] + DropComments(t, false)
  {
    hide *;
    CommentsOverBody(b, t);
    var s := ['"'] + b + ['"'] + t;
    assert s[0] == '"' && s[1..] == b + (['"'] + t);
    QuoteIsPlain(s);
    CommentsCopy(s, false);
    assert ['"'] + (b + (['"'] + DropComments(t, false))) == ['"'] + b + ['"'] + DropComments(t, false);
  }

  lemma CommentsOverToken(k: Token, t: string)
    requires ValidToken(k)
    ensures DropComments(TokenText(k) + t, false) == TokenText(k) + DropComments(t, false)
  {
    match k
    case Punct(c) =>
      assert ([c] + t)[1..] == t;
      CommentsCopy([c] + t, false);
    case Atom(a) => CommentsOverAtom(a, t);
    case Literal(b) => CommentsOverLiteral(b, t);
  }

  function WithoutComment(p: Piece): seq<Piece> {
    match p
    case LineComment(_) => [Space('\n')]
    case OpenLine(_) => []
    case BlockComment(_) => []
    case _ => [p]
  }

  lemma CommentsOfPiece(p: Piece, t: string)
    requires ValidPiece(p) && (p.OpenLine? ==> t == "")
    ensures DropComments(Text(p) + t, false) == Render(WithoutComment(p)) + DropComments(t, false)
  {
    assert Render([]) == "" && "" + DropComments(t, false) == DropComments(t, false);
    RenderOne(p);
    RenderOne(Space('\n'));
    hide DropComments, Render;
    match p
    case Tok(k) => CommentsOverToken(k, t);
    case Space(c) => CommentsOverPlain(c, t);
    case TrailingComma => CommentsOverPlain(',', t);
    case LineComment(b) =>
      CommentsOverLine(b, "\n" + t);
      assert Text(p) + t == "//" + b + ("\n" + t);
      CommentsOverPlain('\n', t);
    case OpenLine(b) =>
      CommentsOverLine(b, "");
      assert Text(p) + t == "//" + b + "";
    case BlockComment(b) => CommentsOverBlock(b, t);
  }

  lemma RenderOne(p: Piece)
    ensures Render([p]) == Text(p)
  {
    assert Text(p) + Render([]) == Text(p);
  }

  lemma CommentsOverPlain(c: char, t: string)
    requires c != '/' && c != '"'
    ensures DropComments([c] + t, false) == [c] + DropComments(t, false)
  {
    assert ([c] + t)[1..] == t;
    CommentsCopy([c] + t, false);
  }

  lemma CommentsOverLine(b: string, t: string)
    requires NoNewline(b) && (t == "" || t[0] == '\n')
    ensures DropComments("//" + b + t, false) == DropComments(t, false)
  {
    var s := "//" + b + t;
    assert LineStart(s) && s[2..] == b + t;
    AfterLineOver(b, t);
  }

  lemma CommentsOverBlock(b: string, t: string)
    requires NoBlockEnd(b)
    ensures DropComments("/*" + b + "*/" + t, false) == DropComments(t, false)
  {
    var s := "/*" + b + "*/" + t;
    assert BlockStart(s) && s[2..] == b + "*/" + t;
    AfterBlockOver(b, t);
  }

  lemma {:induction false} CommentsOfRender(ps: seq<Piece>)
    requires Valid(ps)
    ensures DropComments(Render(ps), false) == Render(Uncommented(ps))
  {
    if ps != [] {
      CommentsOfRender(ps[1..]);
      CommentsOfPiece(ps[0], Render(ps[1..]));
      var rest := Uncommented(ps[1..]);
      var head := WithoutComment(ps[0]);
      if head == [] {
        assert head + rest == rest && "" + Render(rest) == Render(rest);
      } else {
        RenderCons(head[0], rest);
        RenderCons(head[0], []);
        assert Text(head[0]) + Render([]) == Text(head[0]);
      }
    }
  }

  lemma RenderCons(p: Piece, ps: seq<Piece>)
    ensures Render([p] + ps) == Text(p) + Render(ps)
  {
    assert ([p] + ps)[1..] == ps;
  }

  // ---------- second pass on a printed document ----------

  function SkipSpaces(ps: seq<Piece>): (r: seq<Piece>)
    ensures |r| <= |ps|
  {
    if ps == [] || !ps[0].Space? then ps else SkipSpaces(ps[1..])
  }

  function Trimmed(ps: seq<Piece>): seq<Piece>
    decreases |ps|
  {
    if ps == [] then []
    else if ps[0].TrailingComma? then Trimmed(SkipSpaces(ps[1..]))
    else [ps[0]] + Trimmed(ps[1..])
  }

  lemma {:induction false} RenderSkipSpaces(ps: seq<Piece>)
    requires Valid(ps) && Commentless(ps)
    ensures var r := SkipSpaces(ps);
            && SkipSpace(Render(ps)) == Render(r) && Valid(r) && Commentless(r)
            && (CommasPlaced(ps) ==> CommasPlaced(r))
            && (CloserNext(ps) <==> r != [] && r[0].Tok? && IsCloser(r[0].token))
            && (CloserNext(ps) <==> Render(r) != "" && Closer(Render(r)[0]))
  {
    if ps == [] {
    } else if ps[0].Space? {
      RenderSkipSpaces(ps[1..]);
      assert Render(ps)[1..] == Render(ps[1..]);
    } else {
      assert Text(ps[0]) != "";
      var c := Text(ps[0])[0];
      assert Render(ps)[0] == c && !RegexSpace(c);
    }
  }

  lemma {:induction false} CommasOverAtom(a: string, t: string)
    requires AllAtom(a)
    ensures DropCommas(a + t, false) == a + DropCommas(t, false)
  {
    if a == "" {
      assert a + t == t && a + DropCommas(t, false) == DropCommas(t, false);
    } else {
      assert (a + t)[1..] == a[1..] + t && (a + t)[0] == a[0];
      CommasCopy(a + t, false);
      CommasOverAtom(a[1..], t);
      hide DropCommas;
      assert [a[0]] + (a[1..] + DropCommas(t, false)) == a + DropCommas(t, false);
    }
  }

  lemma {:induction false} CommasOverBody(b: string, t: string)
    requires StringBody(b)
    ensures DropCommas(b + (['"'] + t), true) == b + (['"'] + DropCommas(t, false))
    decreases |b|
  {
    hide DropCommas;
    var s := b + (['"'] + t);
    var u := ['"'] + DropCommas(t, false);
    if b == "" {
      assert s == ['"'] + t && s[1..] == t && b + u == u;
      CommasCopy(s, true);
    } else if b[0] == '\\' {
      CommasOverBody(b[2..], t);
      assert Escape(s) && s[..2] == b[..2] && s[2..] == b[2..] + (['"'] + t);
      CommasEscape(s);
      assert b[..2] + (b[2..] + u) == b + u;
    } else {
      CommasOverBody(b[1..], t);
      assert s[0] == b[0] && s[1..] == b[1..] + (['"'] + t);
      CommasCopy(s, true);
      assert [b[0]] + (b[1..] + u) == b + u;
    }
  }

  lemma CommasOverLiteral(b: string, t: string)
    requires StringBody(b)
    ensures DropCommas(['"'] + b + ['"'] + t, false) == ['"'] + b + ['"'] + DropCommas(t, false)
  {
    hide *;
    CommasOverBody(b, t);
    var s := ['"'] + b + ['"'] + t;
    assert s[0] == '"' && s[1..] == b + (['"'] + t);
    QuoteIsPlain(s);
    CommasCopy(s, false);
    assert ['"'] + (b + (['"'] + DropCommas(t, false))) == ['"'] + b + ['"'] + DropCommas(t, false);
  }

  lemma CommasOverToken(k: Token, t: string)
    requires ValidToken(k)
    requires k == COMMA ==> !Dangling("," + t)
    ensures DropCommas(TokenText(k) + t, false) == TokenText(k) + DropCommas(t, false)
  {
    match k
    case Punct(c) =>
      assert ([c] + t)[1..] == t;
      CommasCopy([c] + t, false);
    case Atom(a) => CommasOverAtom(a, t);
    case Literal(b) => CommasOverLiteral(b, t);
  }

  lemma {:induction false} CommasOfRender(ps: seq<Piece>)
    requires Valid(ps) && Commentless(ps) && CommasPlaced(ps)
    ensures DropCommas(Render(ps), false) == Render(Trimmed(ps))
    decreases |ps|
  {
    if ps == [] {
    } else {
      var t := Render(ps[1..]);
      var s := Text(ps[0]) + t;
      RenderSkipSpaces(ps[1..]);
      RenderCons(ps[0], Trimmed(ps[1..]));
      if ps[0].TrailingComma? {
        assert s[1..] == t;
        CommasOfRender(SkipSpaces(ps[1..]));
      } else {
        CommasOfRender(ps[1..]);
        if ps[0].Space? {
          assert s[1..] == t;
          CommasCopy(s, false);
        } else {
          assert ("," + t)[1..] == t;
          CommasOverToken(ps[0].token, t);
        }
      }
    }
  }
}
