/** Stripping a decorated JSON document leaves its tokens, and so its value. */
module JsoncMeaning {
  import opened Jsonc
  import opened JsoncPrinting
  import opened Whitespace
  import opened Wrappers

  // ---------- what the tokeniser makes of bare pieces ----------

  predicate Bare(ps: seq<Piece>) {
    forall k :: 0 <= k < |ps| ==> ps[k].Space? || ps[k].Tok?
  }

  /** Atoms with nothing between them read as one. */
  function Glue(ps: seq<Piece>): (ts: seq<Token>)
    requires Bare(ps)
    ensures AtomHead(ps) ==> ts != [] && ts[0].Atom?
  {
    if ps == [] then []
    else if ps[0].Space? then Glue(ps[1..])
    else if AtomHead(ps) && AtomHead(ps[1..]) then
      var ts := Glue(ps[1..]);
      [Atom(ps[0].token.text + ts[0].text)] + ts[1..]
    else [ps[0].token] + Glue(ps[1..])
  }

  lemma {:induction false} AtomLengthOver(a: string, t: string)
    requires AllAtom(a)
    ensures AtomLength(a + t) == |a| + AtomLength(t)
  {
    if a == "" {
      assert a + t == t;
    } else {
      assert (a + t)[1..] == a[1..] + t;
      AtomLengthOver(a[1..], t);
    }
  }

  lemma {:induction false} BodyLengthOver(b: string, t: string)
    requires StringBody(b)
    ensures BodyLength(b + (['"'] + t)) == Some(|b|)
    decreases |b|
  {
    var s := b + (['"'] + t);
    if b != "" {
      var k := if b[0] == '\\' then 2 else 1;
      assert s[k..] == b[k..] + (['"'] + t);
      BodyLengthOver(b[k..], t);
    }
  }

  lemma TokeniseLiteral(b: string, t: string)
    requires StringBody(b)
    ensures Tokenise(['"'] + b + ['"'] + t) == Cons(Literal(b), Tokenise(t))
  {
    var s := ['"'] + b + ['"'] + t;
    assert s[1..] == b + (['"'] + t);
    BodyLengthOver(b, t);
    assert s[1..1 + |b|] == b && s[2 + |b|..] == t;
  }

  lemma AtomOpens(s: string)
    requires s != "" && AtomChar(s[0])
    ensures Tokenise(s) == Cons(Atom(s[..AtomLength(s)]), Tokenise(s[AtomLength(s)..]))
  {
  }

  lemma {:induction false} TokeniseAtom(a: string, t: string)
    requires a != "" && AllAtom(a)
    ensures var m := AtomLength(t);
            Tokenise(a + t) == Cons(Atom(a + t[..m]), Tokenise(t[m..]))
  {
    var m := AtomLength(t);
    AtomLengthOver(a, t);
    AtomOpens(a + t);
    hide Tokenise;
    assert (a + t)[..|a| + m] == a + t[..m] && (a + t)[|a| + m..] == t[m..];
  }

  lemma HeadOfRender(ps: seq<Piece>)
    requires Valid(ps) && Bare(ps)
    ensures AtomHead(ps) <==> AtomLength(Render(ps)) > 0
  {
    if ps != [] {
      assert Render(ps)[0] == Text(ps[0])[0];
    }
  }

  lemma {:induction false} TokensOfRender(ps: seq<Piece>)
    requires Valid(ps) && Bare(ps)
    ensures Tokenise(Render(ps)) == Some(Glue(ps))
  {
    if ps != [] {
      var t := Render(ps[1..]);
      TokensOfRender(ps[1..]);
      match ps[0]
      case Space(c) =>
        assert ([c] + t)[1..] == t;
      case Tok(k) =>
        match k
        case Punct(c) => assert ([c] + t)[1..] == t;
        case Literal(b) => TokeniseLiteral(b, t);
        case Atom(a) =>
          TokeniseAtom(a, t);
          HeadOfRender(ps[1..]);
          if AtomHead(ps[1..]) {
            AtomOpens(t);
          } else {
            assert t[..0] == "" && a + "" == a && t[0..] == t;
          }
    }
  }

  lemma {:induction false} GlueCounts(ps: seq<Piece>)
    requires Bare(ps)
    ensures |Glue(ps)| <= |TokensOf(ps)|
    ensures AtomsApart(ps) <==> |Glue(ps)| == |TokensOf(ps)|
    ensures AtomsApart(ps) ==> Glue(ps) == TokensOf(ps)
  {
    if ps != [] {
      GlueCounts(ps[1..]);
    }
  }

  // ---------- both passes keep tokens and distances ----------

  lemma {:induction false} UncommentedKeeps(ps: seq<Piece>)
    requires Valid(ps)
    ensures var qs := Uncommented(ps);
            && Valid(qs) && Commentless(qs) && TokensOf(qs) == TokensOf(ps)
            && CloserNext(qs) == CloserNext(ps) && AtomNext(qs) == AtomNext(ps)
  {
    if ps != [] {
      UncommentedKeeps(ps[1..]);
      var head := WithoutComment(ps[0]);
      var qs := Uncommented(ps);
      var rest := Uncommented(ps[1..]);
      hide Uncommented;
      if head == [] {
        assert qs == rest;
      } else {
        assert qs[0] == head[0] && qs[1..] == rest;
      }
    }
  }

  lemma {:induction false} UncommentedPlaces(ps: seq<Piece>)
    requires Valid(ps)
    ensures CommasPlaced(Uncommented(ps)) == CommasPlaced(ps)
    ensures AtomsApart(Uncommented(ps)) == AtomsApart(ps)
  {
    if ps != [] {
      UncommentedPlaces(ps[1..]);
      UncommentedKeeps(ps[1..]);
      var head := WithoutComment(ps[0]);
      var qs := Uncommented(ps);
      var rest := Uncommented(ps[1..]);
      hide Uncommented, CloserNext, AtomNext, Valid, TokensOf;
      if head == [] {
        assert qs == rest;
      } else {
        assert qs[0] == head[0] && qs[1..] == rest;
      }
    }
  }

  lemma {:induction false} SpacesKeep(ps: seq<Piece>)
    requires Valid(ps) && Commentless(ps) && CommasPlaced(ps)
    ensures var r := SkipSpaces(ps);
            && Valid(r) && Commentless(r) && CommasPlaced(r)
            && TokensOf(r) == TokensOf(ps) && AtomsApart(r) == AtomsApart(ps)
            && (CloserNext(ps) ==> r != [] && r[0].Tok? && IsCloser(r[0].token))
  {
    if ps != [] && ps[0].Space? {
      SpacesKeep(ps[1..]);
    }
  }

  lemma {:induction false} TrimmedKeeps(ps: seq<Piece>)
    requires Valid(ps) && Commentless(ps) && CommasPlaced(ps)
    ensures var qs := Trimmed(ps);
            && Valid(qs) && Bare(qs) && TokensOf(qs) == TokensOf(ps)
            && AtomHead(qs) == AtomHead(ps) && AtomsApart(qs) == AtomsApart(ps)
    decreases |ps|
  {
    if ps != [] {
      if ps[0].TrailingComma? {
        SpacesKeep(ps[1..]);
        TrimmedKeeps(SkipSpaces(ps[1..]));
      } else {
        TrimmedKeeps(ps[1..]);
        assert Trimmed(ps)[1..] == Trimmed(ps[1..]);
      }
    }
  }

  /** Stripped and tokenised, a decorated token list comes back exactly when no two
      of its atoms have only block comments between them. */
  lemma {:induction false} TokensSurvive(ps: seq<Piece>)
    requires Valid(ps) && CommasPlaced(ps)
    ensures Tokenise(Strip(Render(ps))) == Some(TokensOf(ps)) <==> AtomsApart(ps)
  {
    var us := Uncommented(ps);
    CommentsOfRender(ps);
    UncommentedKeeps(ps);
    UncommentedPlaces(ps);
    CommasOfRender(us);
    TrimmedKeeps(us);
    TokensOfRender(Trimmed(us));
    GlueCounts(Trimmed(us));
  }

  /** Why the distance matters: a block comment leaves no gap. */
  lemma GluedExample()
    ensures Strip("1/**/2") == "12"
  {
    var s := "1/**/2";
    CommentsCopy(s, false);
    assert s[1..] == "/**/2" && BlockStart(s[1..]) && s[1..][2..] == "*/2";
    assert AfterBlock("*/2") == "2";
    CommentsCopy("2", false);
    assert DropComments(s, false) == "12";
    CommasCopy("12", false);
    CommasCopy("2", false);
  }

  // ---------- values (RFC 8259, sections 3 to 5) ----------

  datatype Json =
    | Scalar(text: string)
    | Str(body: string)
    | Arr(items: Items)
    | Obj(members: Members)

  datatype Items = NoItems | Item(head: Json, tail: Items)

  datatype Members = NoMembers | Member(key: string, value: Json, rest: Members)

  function Tokens(v: Json): (ts: seq<Token>)
    ensures ts != [] && !IsCloser(ts[0]) && ts[|ts| - 1] != COMMA
  {
    match v
    case Scalar(a) => [Atom(a)]
    case Str(b) => [Literal(b)]
    case Arr(items) => [Punct('[')] + ItemTokens(items) + [Punct(']')]
    case Obj(members) => [Punct('{')] + MemberTokens(members) + [Punct('}')]
  }

  function ItemTokens(items: Items): (ts: seq<Token>)
    ensures items.Item? ==> ts != [] && !IsCloser(ts[0]) && ts[|ts| - 1] != COMMA
  {
    match items
    case NoItems => []
    case Item(v, NoItems) => Tokens(v)
    case Item(v, tail) => Tokens(v) + [COMMA] + ItemTokens(tail)
  }

  function MemberTokens(members: Members): (ts: seq<Token>)
    ensures members.Member? ==> ts != [] && !IsCloser(ts[0]) && ts[|ts| - 1] != COMMA
  {
    match members
    case NoMembers => []
    case Member(k, v, NoMembers) => [Literal(k), Punct(':')] + Tokens(v)
    case Member(k, v, rest) => [Literal(k), Punct(':')] + Tokens(v) + [COMMA] + MemberTokens(rest)
  }

  // ---------- no atoms touch and no comma precedes a closer ----------

  predicate Fits(a: Token, b: Token) {
    !(a.Atom? && b.Atom?) && !(a == COMMA && IsCloser(b))
  }

  predicate WellSpaced(ts: seq<Token>) {
    forall k :: 0 <= k < |ts| - 1 ==> Fits(ts[k], ts[k + 1])
  }

  lemma SpacedConcat(a: seq<Token>, b: seq<Token>)
    requires WellSpaced(a) && WellSpaced(b)
    requires a != [] && b != [] ==> Fits(a[|a| - 1], b[0])
    ensures WellSpaced(a + b)
  {
    var c := a + b;
    forall k | 0 <= k < |c| - 1
      ensures Fits(c[k], c[k + 1])
    {
      if |a| <= k {
        assert Fits(b[k - |a|], b[k - |a| + 1]);
      }
    }
  }

  lemma {:induction false} TokensSpaced(v: Json)
    ensures WellSpaced(Tokens(v))
    decreases v
  {
    match v
    case Scalar(_) =>
    case Str(_) =>
    case Arr(items) =>
      ItemsSpaced(items);
      SpacedConcat([Punct('[')], ItemTokens(items));
      SpacedConcat([Punct('[')] + ItemTokens(items), [Punct(']')]);
    case Obj(members) =>
      MembersSpaced(members);
      SpacedConcat([Punct('{')], MemberTokens(members));
      SpacedConcat([Punct('{')] + MemberTokens(members), [Punct('}')]);
  }

  lemma {:induction false} ItemsSpaced(items: Items)
    ensures WellSpaced(ItemTokens(items))
    decreases items
  {
    if items.Item? {
      TokensSpaced(items.head);
      ItemsSpaced(items.tail);
      SpacedConcat(Tokens(items.head), [COMMA]);
      SpacedConcat(Tokens(items.head) + [COMMA], ItemTokens(items.tail));
    }
  }

  lemma {:induction false} MembersSpaced(members: Members)
    ensures WellSpaced(MemberTokens(members))
    decreases members
  {
    match members
    case NoMembers =>
    case Member(k, v, rest) =>
      var key := [Literal(k), Punct(':')];
      TokensSpaced(v);
      MembersSpaced(rest);
      SpacedConcat(key, Tokens(v));
      SpacedConcat(key + Tokens(v), [COMMA]);
      SpacedConcat(key + Tokens(v) + [COMMA], MemberTokens(rest));
  }

  /** An added comma stands only where a closer comes next. */
  predicate TrailingPlaced(ps: seq<Piece>) {
    ps == [] || (TrailingPlaced(ps[1..]) && (ps[0].TrailingComma? ==> CloserNext(ps[1..])))
  }

  lemma {:induction false} NextToken(ps: seq<Piece>)
    ensures CloserNext(ps) ==> TokensOf(ps) != [] && IsCloser(TokensOf(ps)[0])
    ensures AtomNext(ps) ==> TokensOf(ps) != [] && TokensOf(ps)[0].Atom?
  {
    if ps != [] {
      NextToken(ps[1..]);
    }
  }

  lemma {:induction false} SpacedPieces(ps: seq<Piece>)
    requires TrailingPlaced(ps) && WellSpaced(TokensOf(ps))
    ensures CommasPlaced(ps) && AtomsApart(ps)
  {
    if ps != [] {
      var ts := TokensOf(ps);
      var rest := TokensOf(ps[1..]);
      if ps[0].Tok? {
        assert ts[1..] == rest;
        if rest != [] {
          assert Fits(ts[0], ts[1]);
        }
        forall k | 0 <= k < |rest| - 1
          ensures Fits(rest[k], rest[k + 1])
        {
          assert Fits(ts[k + 1], ts[k + 2]);
        }
      } else {
        assert ts == rest;
      }
      SpacedPieces(ps[1..]);
      NextToken(ps[1..]);
    }
  }

  // ---------- parsing tokens back ----------

  function ParseValue(ts: seq<Token>): (r: Option<(Json, seq<Token>)>)
    ensures r.Some? ==> |r.value.1| < |ts|
    decreases |ts|, 0
  {
    if ts == [] then None
    else match ts[0]
      case Atom(a) => Some((Scalar(a), ts[1..]))
      case Literal(b) => Some((Str(b), ts[1..]))
      case Punct(c) =>
        if c == '[' then
          if |ts| > 1 && ts[1] == Punct(']') then Some((Arr(NoItems), ts[2..]))
          else match ParseItems(ts[1..])
            case None => None
            case Some((items, rest)) => Some((Arr(items), rest))
        else if c == '{' then
          if |ts| > 1 && ts[1] == Punct('}') then Some((Obj(NoMembers), ts[2..]))
          else match ParseMembers(ts[1..])
            case None => None
            case Some((members, rest)) => Some((Obj(members), rest))
        else None
  }

  /** Items up to and including the closing bracket. */
  function ParseItems(ts: seq<Token>): (r: Option<(Items, seq<Token>)>)
    ensures r.Some? ==> |r.value.1| < |ts|
    decreases |ts|, 1
  {
    match ParseValue(ts)
    case None => None
    case Some((v, rest)) =>
      if rest == [] then None
      else if rest[0] == Punct(']') then Some((Item(v, NoItems), rest[1..]))
      else if rest[0] == COMMA then
        match ParseItems(rest[1..])
        case None => None
        case Some((items, after)) => Some((Item(v, items), after))
      else None
  }

  function ParseMembers(ts: seq<Token>): (r: Option<(Members, seq<Token>)>)
    ensures r.Some? ==> |r.value.1| < |ts|
    decreases |ts|, 1
  {
    if |ts| < 2 || !ts[0].Literal? || ts[1] != Punct(':') then None
    else match ParseValue(ts[2..])
      case None => None
      case Some((v, rest)) =>
        if rest == [] then None
        else if rest[0] == Punct('}') then Some((Member(ts[0].body, v, NoMembers), rest[1..]))
        else if rest[0] == COMMA then
          match ParseMembers(rest[1..])
          case None => None
          case Some((members, after)) => Some((Member(ts[0].body, v, members), after))
        else None
  }

  lemma OneItem(ts: seq<Token>, v: Json, rest: seq<Token>)
    requires ParseValue(ts) == Some((v, rest)) && rest != []
    ensures rest[0] == Punct(']') ==> ParseItems(ts) == Some((Item(v, NoItems), rest[1..]))
    ensures rest[0] == COMMA && ParseItems(rest[1..]).Some? ==>
              var (items, after) := ParseItems(rest[1..]).value;
              ParseItems(ts) == Some((Item(v, items), after))
  {
  }

  lemma OneMember(ts: seq<Token>, key: string, v: Json, rest: seq<Token>)
    requires |ts| >= 2 && ts[0] == Literal(key) && ts[1] == Punct(':')
    requires ParseValue(ts[2..]) == Some((v, rest)) && rest != []
    ensures rest[0] == Punct('}') ==> ParseMembers(ts) == Some((Member(key, v, NoMembers), rest[1..]))
    ensures rest[0] == COMMA && ParseMembers(rest[1..]).Some? ==>
              var (members, after) := ParseMembers(rest[1..]).value;
              ParseMembers(ts) == Some((Member(key, v, members), after))
  {
  }

  lemma OpenArray(ts: seq<Token>, items: Items, rest: seq<Token>)
    requires |ts| > 1 && ts[0] == Punct('[') && !IsCloser(ts[1])
    requires ParseItems(ts[1..]) == Some((items, rest))
    ensures ParseValue(ts) == Some((Arr(items), rest))
  {
  }

  lemma OpenObject(ts: seq<Token>, members: Members, rest: seq<Token>)
    requires |ts| > 1 && ts[0] == Punct('{') && !IsCloser(ts[1])
    requires ParseMembers(ts[1..]) == Some((members, rest))
    ensures ParseValue(ts) == Some((Obj(members), rest))
  {
  }

  lemma ParseLeaf(v: Json, rest: seq<Token>)
    requires v.Scalar? || v.Str? || v == Arr(NoItems) || v == Obj(NoMembers)
    ensures ParseValue(Tokens(v) + rest) == Some((v, rest))
  {
    var ts := Tokens(v) + rest;
    if v.Arr? {
      assert Tokens(v) == [Punct('['), Punct(']')] && ts[2..] == rest;
    } else if v.Obj? {
      assert Tokens(v) == [Punct('{'), Punct('}')] && ts[2..] == rest;
    } else {
      assert ts[1..] == rest;
    }
  }

  lemma {:induction false} ParseTokens(v: Json, rest: seq<Token>)
    ensures ParseValue(Tokens(v) + rest) == Some((v, rest))
    decreases v
  {
    hide ParseValue, ParseItems, ParseMembers, ItemTokens, MemberTokens;
    var ts := Tokens(v) + rest;
    if v.Arr? && v.items.Item? {
      ParseItemTokens(v.items, rest);
      assert ts[1..] == ItemTokens(v.items) + ([Punct(']')] + rest);
      OpenArray(ts, v.items, rest);
    } else if v.Obj? && v.members.Member? {
      ParseMemberTokens(v.members, rest);
      assert ts[1..] == MemberTokens(v.members) + ([Punct('}')] + rest);
      OpenObject(ts, v.members, rest);
    } else {
      ParseLeaf(v, rest);
    }
  }

  lemma {:induction false} ParseItemTokens(items: Items, rest: seq<Token>)
    requires items.Item?
    ensures ParseItems(ItemTokens(items) + ([Punct(']')] + rest)) == Some((items, rest))
    decreases items
  {
    hide ParseValue, ParseItems, Tokens;
    var close := [Punct(']')] + rest;
    var ts := ItemTokens(items) + close;
    if items.tail.NoItems? {
      ParseTokens(items.head, close);
      OneItem(ts, items.head, close);
    } else {
      var after := [COMMA] + (ItemTokens(items.tail) + close);
      ParseTokens(items.head, after);
      ParseItemTokens(items.tail, rest);
      assert ts == Tokens(items.head) + after;
      assert after[1..] == ItemTokens(items.tail) + close;
      OneItem(ts, items.head, after);
    }
  }

  lemma {:induction false} ParseMemberTokens(members: Members, rest: seq<Token>)
    requires members.Member?
    ensures ParseMembers(MemberTokens(members) + ([Punct('}')] + rest)) == Some((members, rest))
    decreases members
  {
    hide ParseValue, ParseMembers, Tokens;
    var close := [Punct('}')] + rest;
    var v := members.value;
    var ts := MemberTokens(members) + close;
    if members.rest.NoMembers? {
      ParseTokens(v, close);
      assert ts[2..] == Tokens(v) + close;
      OneMember(ts, members.key, v, close);
    } else {
      var after := [COMMA] + (MemberTokens(members.rest) + close);
      ParseTokens(v, after);
      ParseMemberTokens(members.rest, rest);
      assert ts[2..] == Tokens(v) + after;
      assert after[1..] == MemberTokens(members.rest) + close;
      OneMember(ts, members.key, v, after);
    }
  }

  /** What parsing a stripped text yields. */
  function Meaning(text: string): Option<Json> {
    match Tokenise(Strip(text))
    case None => None
    case Some(ts) =>
      match ParseValue(ts)
      case None => None
      case Some((v, rest)) => if rest == [] then Some(v) else None
  }

  /** However a JSON value is decorated with comments, white space and trailing commas,
      parsing gives that value back. */
  lemma {:induction false} MeaningPreserved(v: Json, ps: seq<Piece>)
    requires Valid(ps) && TrailingPlaced(ps) && TokensOf(ps) == Tokens(v)
    ensures Tokenise(Strip(Render(ps))) == Some(Tokens(v))
    ensures Meaning(Render(ps)) == Some(v)
  {
    TokensSpaced(v);
    SpacedPieces(ps);
    TokensSurvive(ps);
    ParseTokens(v, []);
    assert Tokens(v) + [] == Tokens(v);
  }

  method ParseJsonc(text: string) returns (r: Option<Json>)
    ensures r == Meaning(text)
  {
    var out := StripJsonc(text);
    var ts := Tokenise(out);
    if ts.None? {
      return None;
    }
    var parsed := ParseValue(ts.value);
    r := if parsed.Some? && parsed.value.1 == [] then Some(parsed.value.0) else None;
  }
}
