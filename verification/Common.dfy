module Wrappers {
  datatype Option<+T> = None | Some(value: T)
}

module Numbers {
  /** A number beyond those in use. */
  lemma {:induction false} Unused(keys: set<nat>) returns (k: nat)
    ensures forall i :: i in keys ==> i < k
    decreases |keys|
  {
    if keys == {} {
      k := 0;
    } else {
      var i :| i in keys;
      k := Unused(keys - {i});
      assert forall j :: j in keys ==> j == i || j in keys - {i};
      k := if k <= i then i + 1 else k;
    }
  }
}

/** White space as regular expressions and `trim` see it. */
module Whitespace {
  /** JavaScript's `\s`. */
  predicate RegexSpace(c: char) {
    || c == ' ' || '\t' <= c <= '\r' || c == '\U{00A0}' || c == '\U{1680}'
    || '\U{2000}' <= c <= '\U{200A}' || c == '\U{2028}' || c == '\U{2029}'
    || c == '\U{202F}' || c == '\U{205F}' || c == '\U{3000}' || c == '\U{FEFF}'
  }

  /** They are these twenty-five characters. */
  lemma {:induction false} RegexSpaceExactly(c: char)
    ensures RegexSpace(c) <==>
            c in ['\U{0009}', '\U{000A}', '\U{000B}', '\U{000C}', '\U{000D}', '\U{0020}', '\U{00A0}', '\U{1680}',
                  '\U{2000}', '\U{2001}', '\U{2002}', '\U{2003}', '\U{2004}', '\U{2005}', '\U{2006}', '\U{2007}',
                  '\U{2008}', '\U{2009}', '\U{200A}', '\U{2028}', '\U{2029}', '\U{202F}', '\U{205F}', '\U{3000}',
                  '\U{FEFF}']
  {
    assert '\t' <= c <= '\r' ==> c as int - 9 in {0, 1, 2, 3, 4};
    assert '\U{2000}' <= c <= '\U{200A}' ==> c as int - 0x2000 in {0, 1, 2, 3, 4, 5, 6, 7, 8, 9, 10};
  }

  function TrimStart(s: string): (t: string)
    ensures t == "" || !RegexSpace(t[0])
  {
    if s == "" || !RegexSpace(s[0]) then s else TrimStart(s[1..])
  }

  function TrimEnd(s: string): string {
    if s == "" || !RegexSpace(s[|s| - 1]) then s else TrimEnd(s[..|s| - 1])
  }

  function Trim(s: string): string {
    TrimEnd(TrimStart(s))
  }

  predicate Blank(s: string) {
    Trim(s) == ""
  }

  /** Trimming takes the white space off both ends and nothing else. */
  lemma {:induction false} TrimExactly(s: string)
    ensures exists i, j :: 0 <= i <= j <= |s| && Trim(s) == s[i..j]
                           && (forall k :: 0 <= k < i || j <= k < |s| ==> RegexSpace(s[k]))
    ensures Trim(s) != "" ==> !RegexSpace(Trim(s)[0]) && !RegexSpace(Trim(s)[|Trim(s)| - 1])
  {
    var i := StartTrimmed(s);
    var t := TrimStart(s);
    var j := EndTrimmed(t);
    assert t[..j] == s[i..i + j];
    forall k | 0 <= k < i || i + j <= k < |s| ensures RegexSpace(s[k]) {
      if k >= i + j {
        assert t[k - i] == s[k];
      }
    }
  }

  lemma {:induction false} StartTrimmed(s: string) returns (i: nat)
    ensures i <= |s| && TrimStart(s) == s[i..] && forall k :: 0 <= k < i ==> RegexSpace(s[k])
  {
    if s == "" || !RegexSpace(s[0]) {
      i := 0;
    } else {
      i := StartTrimmed(s[1..]);
      assert forall k :: 0 < k < i + 1 ==> s[k] == s[1..][k - 1];
      i := i + 1;
    }
  }

  lemma {:induction false} EndTrimmed(s: string) returns (j: nat)
    ensures j <= |s| && TrimEnd(s) == s[..j] && forall k :: j <= k < |s| ==> RegexSpace(s[k])
    ensures j > 0 ==> !RegexSpace(s[j - 1])
  {
    if s == "" || !RegexSpace(s[|s| - 1]) {
      j := |s|;
    } else {
      j := EndTrimmed(s[..|s| - 1]);
    }
  }

  lemma TrimTwice(s: string)
    ensures Trim(Trim(s)) == Trim(s) && (Blank(Trim(s)) <==> Blank(s))
  {
    TrimEndIdle(TrimStart(s));
  }

  lemma {:induction false} TrimEndIdle(s: string)
    requires s == "" || !RegexSpace(s[0])
    ensures var t := TrimEnd(s); TrimStart(t) == t && TrimEnd(t) == t
  {
    if s != "" && RegexSpace(s[|s| - 1]) {
      TrimEndIdle(s[..|s| - 1]);
    }
  }
}

/** JSON objects. */
module Records {
  import opened Wrappers

  /** A JSON object: its properties in enumeration order, no name twice. */
  type Record<T> = seq<(string, T)>

  predicate NamesOnce<T>(r: Record<T>) {
    forall i, j :: 0 <= i < j < |r| ==> r[i].0 != r[j].0
  }

  function Names<T>(r: Record<T>): set<string> {
    set k | 0 <= k < |r| :: r[k].0
  }

  /** `record[key] = value` on a JSON object: in place if the key exists, else at the end. */
  function Set<T>(r: Record<T>, key: string, value: T): Record<T> {
    if r == [] then [(key, value)]
    else if r[0].0 == key then [(key, value)] + r[1..]
    else [r[0]] + Set(r[1..], key, value)
  }

  lemma {:induction false} SetAppends<T>(r: Record<T>, key: string, value: T)
    requires forall k :: 0 <= k < |r| ==> r[k].0 != key
    ensures Set(r, key, value) == r + [(key, value)]
  {
    if r != [] {
      SetAppends(r[1..], key, value);
      assert r == [r[0]] + r[1..];
    }
  }

  function Get<T>(r: Record<T>, key: string): Option<T> {
    if r == [] then None else if r[0].0 == key then Some(r[0].1) else Get(r[1..], key)
  }

  /** The value of a property is the one beside its name. */
  lemma {:induction false} GetExactly<T>(r: Record<T>, key: string)
    requires NamesOnce(r)
    ensures forall k :: 0 <= k < |r| && r[k].0 == key ==> Get(r, key) == Some(r[k].1)
    ensures Get(r, key).Some? <==> exists k :: 0 <= k < |r| && r[k].0 == key
  {
    if r != [] {
      GetExactly(r[1..], key);
      forall k | 0 <= k < |r| && r[k].0 == key ensures Get(r, key) == Some(r[k].1) {
        if k > 0 {
          assert r[1..][k - 1] == r[k];
        }
      }
    }
  }

  lemma {:induction false} SetReplaces<T>(r: Record<T>, j: nat, value: T)
    requires j < |r| && forall k :: 0 <= k < j ==> r[k].0 != r[j].0
    ensures Set(r, r[j].0, value) == r[j := (r[j].0, value)]
  {
    if j == 0 {
      assert r[0 := (r[0].0, value)] == [(r[0].0, value)] + r[1..];
    } else {
      SetReplaces(r[1..], j - 1, value);
      assert r[j := (r[j].0, value)] == [r[0]] + r[1..][j - 1 := (r[j].0, value)];
    }
  }

  /** The names of `base`, in its order, are the first names of `r`. */
  predicate StartsLike<T>(r: Record<T>, base: Record<T>) {
    |base| <= |r| && forall k :: 0 <= k < |base| ==> r[k].0 == base[k].0
  }

  lemma StartsLikeChain<T>(r: Record<T>, s: Record<T>, t: Record<T>)
    requires StartsLike(s, r) && StartsLike(t, s)
    ensures StartsLike(t, r)
  {
  }

  lemma SameNames<T>(r: Record<T>, s: Record<T>)
    requires |r| == |s| && StartsLike(s, r)
    ensures Names(r) == Names(s) && (NamesOnce(r) ==> NamesOnce(s))
  {
  }

  /** Setting a property keeps every name where it was and every name unique. */
  lemma SetShape<T>(r: Record<T>, key: string, value: T)
    requires NamesOnce(r)
    ensures var s := Set(r, key, value); NamesOnce(s) && StartsLike(s, r) && Names(s) == Names(r) + {key}
  {
    if j: nat :| j < |r| && r[j].0 == key {
      SetReplaces(r, j, value);
      SameNames(r, r[j := (key, value)]);
    } else {
      SetAppends(r, key, value);
      NamesSnoc(r, (key, value));
    }
  }

  lemma {:induction false} GetSet<T>(r: Record<T>, key: string, value: T, name: string)
    ensures Get(Set(r, key, value), name) == if name == key then Some(value) else Get(r, name)
  {
    if r != [] && r[0].0 != key {
      GetSet(r[1..], key, value, name);
    }
  }

  lemma {:induction false} GetSnoc<T>(r: Record<T>, p: (string, T), name: string)
    ensures Get(r + [p], name) == if Get(r, name).Some? then Get(r, name) else if p.0 == name then Some(p.1) else None
  {
    if r == [] {
      assert r + [p] == [p] && [p][1..] == [];
    } else {
      assert (r + [p])[1..] == r[1..] + [p];
      GetSnoc(r[1..], p, name);
    }
  }

  lemma {:induction false} GetNames<T>(r: Record<T>, name: string)
    ensures Get(r, name).Some? <==> name in Names(r)
  {
    if r != [] {
      GetNames(r[1..], name);
      assert name in Names(r) <==> r[0].0 == name || name in Names(r[1..]);
    }
  }

  /** `{ ...base, ...r }` */
  function Spread<T>(base: Record<T>, r: Record<T>): Record<T> {
    if r == [] then base else Set(Spread(base, r[..|r| - 1]), r[|r| - 1].0, r[|r| - 1].1)
  }

  lemma {:induction false} SpreadShape<T>(base: Record<T>, r: Record<T>)
    requires NamesOnce(base)
    ensures var s := Spread(base, r); NamesOnce(s) && StartsLike(s, base) && Names(s) == Names(base) + Names(r)
  {
    if r == [] {
      assert Names(r) == {};
    } else {
      hide NamesOnce, Names, StartsLike, Set;
      var front, last := r[..|r| - 1], r[|r| - 1];
      SpreadShape(base, front);
      SpreadMore(base, front, Spread(base, front), last);
      assert front + [last] == r;
    }
  }

  lemma {:induction false} SpreadMore<T>(base: Record<T>, front: Record<T>, s: Record<T>, last: (string, T))
    requires NamesOnce(s) && StartsLike(s, base) && Names(s) == Names(base) + Names(front)
    ensures var m := Set(s, last.0, last.1);
            NamesOnce(m) && StartsLike(m, base) && Names(m) == Names(base) + Names(front + [last])
  {
    hide *;
    SetShape(s, last.0, last.1);
    StartsLikeChain(base, s, Set(s, last.0, last.1));
    NamesSnoc(front, last);
    assert Names(base) + Names(front) + {last.0} == Names(base) + (Names(front) + {last.0});
  }

  lemma NamesSnoc<T>(r: Record<T>, p: (string, T))
    ensures Names(r + [p]) == Names(r) + {p.0}
  {
    assert forall k :: 0 <= k < |r| ==> (r + [p])[k] == r[k];
    assert (r + [p])[|r|] == p;
    forall n | n in Names(r)
      ensures n in Names(r + [p])
    {
      var k :| 0 <= k < |r| && r[k].0 == n;
      assert (r + [p])[k].0 == n;
    }
  }

  lemma {:induction false} GetSpread<T>(base: Record<T>, r: Record<T>, name: string)
    requires NamesOnce(r)
    ensures Get(Spread(base, r), name) == if Get(r, name).Some? then Get(r, name) else Get(base, name)
  {
    if r != [] {
      var front, last := r[..|r| - 1], r[|r| - 1];
      GetSpread(base, front, name);
      GetSet(Spread(base, front), last.0, last.1, name);
      GetSnoc(front, last, name);
      assert front + [last] == r;
      GetNames(front, name);
      hide Get, Set;
    }
  }

  /** `base` with its first `n` properties taken from `m`. */
  function Over<T>(base: Record<T>, m: Record<T>, n: nat): Record<T>
    requires n <= |m|
  {
    m[..n] + if n <= |base| then base[n..] else []
  }

  lemma OverStep<T>(base: Record<T>, m: Record<T>, n: nat)
    requires NamesOnce(m) && StartsLike(m, base) && n < |m|
    ensures Set(Over(base, m, n), m[n].0, m[n].1) == Over(base, m, n + 1)
  {
    var s := Over(base, m, n);
    if n < |base| {
      assert s[n] == base[n];
      SetReplaces(s, n, m[n].1);
      assert s[n := m[n]] == Over(base, m, n + 1);
    } else {
      assert s == m[..n];
      SetAppends(s, m[n].0, m[n].1);
      assert s + [m[n]] == Over(base, m, n + 1);
    }
  }

  /** Spreading a record over a base whose names it starts with gives the record. */
  lemma {:induction false} SpreadAgain<T>(base: Record<T>, m: Record<T>, n: nat)
    requires NamesOnce(m) && n <= |m| && StartsLike(m, base)
    ensures Spread(base, m[..n]) == Over(base, m, n)
  {
    if n > 0 {
      SpreadAgain(base, m, n - 1);
      assert m[..n][..n - 1] == m[..n - 1];
      OverStep(base, m, n - 1);
      hide Over, StartsLike, NamesOnce, Set;
    } else {
      assert m[..0] == [] && Over(base, m, 0) == base;
    }
  }
}
