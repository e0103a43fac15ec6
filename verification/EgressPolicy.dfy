/** The egress proxy's policy: compiled into lookup structures, matched against hosts. */
module EgressPolicy {
  import opened Records
  import opened Wrappers

  type Headers = map<string, string>

  /** A rule's transforms, each with the headers it injects; none and empty differ. */
  datatype Rule = Rule(transform: Option<seq<Headers>>)

  /** `trusted` says that the preset of that name is asked for. */
  datatype Policy = Policy(trusted: bool, allow: Option<Record<seq<Rule>>>)

  // ---------- patterns ----------

  predicate StartsWith(s: string, t: string) {
    |t| <= |s| && s[..|t|] == t
  }

  predicate EndsWith(s: string, t: string) {
    |t| <= |s| && s[|s| - |t|..] == t
  }

  /** The anchored expression made from a pattern: a dot is a dot, and a star is one or
      more characters that are not dots. */
  predicate Glob(h: string, p: string)
    decreases |h| + |p|
  {
    if p == "" then h == ""
    else if p[0] == '*' then h != "" && h[0] != '.' && (Glob(h[1..], p[1..]) || Glob(h[1..], p))
    else h != "" && h[0] == p[0] && Glob(h[1..], p[1..])
  }

  predicate MatchesPattern(hostname: string, pattern: string) {
    if StartsWith(pattern, "*.") then EndsWith(hostname, pattern[1..]) && hostname != pattern[2..]
    else if '*' in pattern then Glob(hostname, pattern)
    else false
  }

  // ---------- compiling ----------

  function Preset(domains: seq<string>): Record<seq<Rule>> {
    if domains == [] then [] else Set(Preset(domains[..|domains| - 1]), domains[|domains| - 1], [Rule(None)])
  }

  function Expanded(p: Policy, domains: seq<string>): Policy {
    if p.trusted then
      p.(allow := Some(Spread(Preset(domains), if p.allow.Some? then p.allow.value else [])))
    else p
  }

  predicate HasTransforms(rules: seq<Rule>) {
    exists k :: 0 <= k < |rules| && rules[k].transform.Some? && rules[k].transform.value != []
  }

  function MergedHeaders(ts: seq<Headers>): Headers {
    if ts == [] then map[] else MergedHeaders(ts[..|ts| - 1]) + ts[|ts| - 1]
  }

  /** All transforms of all rules, in order. */
  function Transforms(rules: seq<Rule>): seq<Headers> {
    if rules == [] then [] else
      var t := rules[|rules| - 1].transform;
      Transforms(rules[..|rules| - 1]) + if t.Some? then t.value else []
  }

  datatype Tables = Tables(allowed: seq<string>, tls: set<string>, transforms: map<string, Headers>)

  function AddDomain(t: Tables, domain: string, rules: seq<Rule>): Tables {
    var t1 := if domain in t.allowed then t else t.(allowed := t.allowed + [domain]);
    if HasTransforms(rules) then
      t1.(tls := t1.tls + {domain}, transforms := t1.transforms[domain := MergedHeaders(Transforms(rules))])
    else t1
  }

  function Tabled(allow: Record<seq<Rule>>): Tables {
    if allow == [] then Tables([], {}, map[]) else
      AddDomain(Tabled(allow[..|allow| - 1]), allow[|allow| - 1].0, allow[|allow| - 1].1)
  }

  /** What a proxy holds for a policy: the policy with its preset expanded, and its tables. */
  function Compiled(p: Option<Policy>, domains: seq<string>): (Option<Policy>, Tables) {
    if p.None? then (None, Tabled([])) else
      var e := Expanded(p.value, domains);
      (Some(e), Tabled(if e.allow.Some? then e.allow.value else []))
  }

  /** The first pattern, in the order of insertion, that matches. */
  function FirstMatch(ps: seq<string>, hostname: string): Option<string> {
    if ps == [] then None
    else if MatchesPattern(hostname, ps[0]) then Some(ps[0])
    else FirstMatch(ps[1..], hostname)
  }

  function Winner(ps: seq<string>, hostname: string): Option<string> {
    if hostname in ps then Some(hostname) else FirstMatch(ps, hostname)
  }

  class EgressProxy {
    const trustedDomains: seq<string>
    var networkPolicy: Option<Policy>
    var tlsTerminationDomains: set<string>
    var domainTransforms: map<string, Headers>
    /** A set that keeps the order of insertion. */
    var allowedDomains: seq<string>

    ghost function View(): (Option<Policy>, Tables)
      reads this
    {
      (networkPolicy, Tables(allowedDomains, tlsTerminationDomains, domainTransforms))
    }

    constructor (policy: Option<Policy>, trusted: seq<string>)
      ensures View() == Compiled(policy, trusted) && trustedDomains == trusted
    {
      trustedDomains := trusted;
      networkPolicy := policy;
      tlsTerminationDomains, domainTransforms, allowedDomains := {}, map[], [];
      new;
      ParsePolicy();
    }

    method ParsePolicy()
      requires allowedDomains == [] && tlsTerminationDomains == {} && domainTransforms == map[]
      modifies this
      ensures View() == Compiled(old(networkPolicy), trustedDomains)
    {
      if networkPolicy.None? {
        return;
      }
      var policy := networkPolicy.value;
      if policy.trusted {
        var presetAllow := PresetAllow();
        policy := policy.(allow := Some(Spread(presetAllow, if policy.allow.Some? then policy.allow.value else [])));
      }
      networkPolicy := Some(policy);
      if policy.allow.None? {
        return;
      }
      var allow := policy.allow.value;
      hide Expanded, HasTransforms, MergedHeaders, Transforms;
      for i := 0 to |allow|
        invariant networkPolicy == Some(policy)
        invariant View().1 == Tabled(allow[..i])
      {
        var domain, rules := allow[i].0, allow[i].1;
        if domain !in allowedDomains {
          allowedDomains := allowedDomains + [domain];
        }
        var mergedHeaders, hasTransforms := MergeTransforms(rules);
        if hasTransforms {
          tlsTerminationDomains := tlsTerminationDomains + {domain};
          domainTransforms := domainTransforms[domain := mergedHeaders];
        }
        assert allow[..i + 1][..i] == allow[..i];
      }
      assert allow[..|allow|] == allow;
    }

    method PresetAllow() returns (allow: Record<seq<Rule>>)
      ensures allow == Preset(trustedDomains)
    {
      allow := [];
      for i := 0 to |trustedDomains|
        invariant allow == Preset(trustedDomains[..i])
      {
        allow := Set(allow, trustedDomains[i], [Rule(None)]);
        assert trustedDomains[..i + 1][..i] == trustedDomains[..i];
      }
      assert trustedDomains[..|trustedDomains|] == trustedDomains;
    }

    method UpdateNetworkPolicy(policy: Policy)
      modifies this
      ensures View() == Compiled(Some(policy), trustedDomains)
    {
      networkPolicy := Some(policy);
      tlsTerminationDomains := {};
      domainTransforms := map[];
      allowedDomains := [];
      ParsePolicy();
    }

    method MatchDomain(hostname: string) returns (pattern: Option<string>)
      ensures pattern == Winner(allowedDomains, hostname)
    {
      if hostname in allowedDomains {
        return Some(hostname);
      }
      for i := 0 to |allowedDomains|
        invariant FirstMatch(allowedDomains, hostname) == FirstMatch(allowedDomains[i..], hostname)
      {
        assert allowedDomains[i..][1..] == allowedDomains[i + 1..];
        if MatchesPattern(hostname, allowedDomains[i]) {
          return Some(allowedDomains[i]);
        }
      }
      pattern := None;
    }

    method IsDomainAllowed(hostname: string) returns (allowed: bool)
      ensures allowed == Allowed(View(), hostname)
    {
      if networkPolicy.None? || networkPolicy.value.allow.None? {
        return true;
      }
      if |allowedDomains| == 0 {
        return false;
      }
      var pattern := MatchDomain(hostname);
      allowed := pattern.Some?;
    }

    method GetTransformsForDomain(hostname: string) returns (headers: Option<Headers>)
      ensures headers == Injected(View().1, hostname)
    {
      var pattern := MatchDomain(hostname);
      if pattern.None? || pattern.value == "" || pattern.value !in domainTransforms {
        return None;
      }
      headers := Some(domainTransforms[pattern.value]);
    }

    method RequiresTlsTermination(hostname: string) returns (required: bool)
      ensures required == Intercepted(View().1, hostname)
    {
      var pattern := MatchDomain(hostname);
      if pattern.None? || pattern.value == "" {
        return false;
      }
      required := pattern.value in tlsTerminationDomains;
    }
  }

  lemma MergedSnoc(ts: seq<Headers>, h: Headers)
    ensures MergedHeaders(ts + [h]) == MergedHeaders(ts) + h
  {
    assert (ts + [h])[..|ts|] == ts;
  }

  lemma TransformsSnoc(rules: seq<Rule>, i: nat)
    requires i < |rules|
    ensures var t := rules[i].transform;
            Transforms(rules[..i + 1]) == Transforms(rules[..i]) + if t.Some? then t.value else []
  {
    assert rules[..i + 1][..i] == rules[..i];
  }

  /** A header is injected if some transform of some rule has it, and with the value of the
      last one that does. */
  lemma {:induction false} MergedExactly(ts: seq<Headers>, name: string)
    ensures name in MergedHeaders(ts) <==> exists k :: 0 <= k < |ts| && name in ts[k]
    ensures name in MergedHeaders(ts) ==>
              exists k :: 0 <= k < |ts| && name in ts[k] && MergedHeaders(ts)[name] == ts[k][name]
                          && forall j :: k < j < |ts| ==> name !in ts[j]
  {
    if ts != [] {
      var front, last := ts[..|ts| - 1], ts[|ts| - 1];
      MergedExactly(front, name);
      if name in last {
        assert ts[|ts| - 1] == last;
      } else if name in MergedHeaders(front) {
        var k :| 0 <= k < |front| && name in front[k] && MergedHeaders(front)[name] == front[k][name]
                 && forall j :: k < j < |front| ==> name !in front[j];
        assert ts[k] == front[k];
        forall j | k < j < |ts| ensures name !in ts[j] {
          assert ts[j] == if j < |front| then front[j] else last;
        }
      }
      if k :| 0 <= k < |ts| && name in ts[k] {
        assert ts[k] == if k < |front| then front[k] else last;
      }
    }
  }

  method MergeTransforms(rules: seq<Rule>) returns (merged: Headers, has: bool)
    ensures merged == MergedHeaders(Transforms(rules)) && has == HasTransforms(rules)
  {
    merged, has := map[], false;
    for i := 0 to |rules|
      invariant merged == MergedHeaders(Transforms(rules[..i]))
      invariant has == HasTransforms(rules[..i])
    {
      ghost var before := Transforms(rules[..i]);
      TransformsSnoc(rules, i);
      HasSnoc(rules, i);
      hide MergedHeaders, Transforms, HasTransforms;
      if rules[i].transform.Some? {
        merged := MergeRule(before, merged, rules[i].transform.value);
        has := has || rules[i].transform.value != [];
      } else {
        assert before + [] == before;
      }
    }
    assert rules[..|rules|] == rules;
  }

  /** The inner loop: one rule's transforms, after those in `before`. */
  method MergeRule(ghost before: seq<Headers>, start: Headers, ts: seq<Headers>) returns (merged: Headers)
    requires start == MergedHeaders(before)
    ensures merged == MergedHeaders(before + ts)
  {
    hide MergedHeaders;
    merged := start;
    assert before + ts[..0] == before;
    for j := 0 to |ts|
      invariant merged == MergedHeaders(before + ts[..j])
    {
      MergedSnoc(before + ts[..j], ts[j]);
      assert before + ts[..j + 1] == before + ts[..j] + [ts[j]];
      merged := merged + ts[j];
    }
    assert ts[..|ts|] == ts;
  }

  lemma HasSnoc(rules: seq<Rule>, i: nat)
    requires i < |rules|
    ensures HasTransforms(rules[..i + 1]) <==>
            HasTransforms(rules[..i]) || (rules[i].transform.Some? && rules[i].transform.value != [])
  {
    if HasTransforms(rules[..i]) {
      var k :| 0 <= k < i && rules[..i][k].transform.Some? && rules[..i][k].transform.value != [];
      assert rules[..i + 1][k] == rules[..i][k];
    }
    assert rules[..i + 1][i] == rules[i];
  }

  predicate Allowed(v: (Option<Policy>, Tables), hostname: string) {
    v.0.None? || v.0.value.allow.None? || Winner(v.1.allowed, hostname).Some?
  }

  function Injected(t: Tables, hostname: string): Option<Headers> {
    var w := Winner(t.allowed, hostname);
    if w.Some? && w.value != "" && w.value in t.transforms then Some(t.transforms[w.value]) else None
  }

  predicate Intercepted(t: Tables, hostname: string) {
    var w := Winner(t.allowed, hostname);
    w.Some? && w.value != "" && w.value in t.tls
  }

  // ---------- what a pattern means, label by label ----------

  /** One more character before a list of labels. */
  function Cons(c: char, ls: seq<string>): (r: seq<string>)
    requires |ls| >= 1
    ensures |r| >= 1
  {
    if c == '.' then [""] + ls else [[c] + ls[0]] + ls[1..]
  }

  function Labels(s: string): (ls: seq<string>)
    ensures |ls| >= 1
  {
    if s == "" then [""] else Cons(s[0], Labels(s[1..]))
  }

  /** A star stands for a non-empty piece of the label. */
  predicate LabelMatches(l: string, p: string)
    decreases |p|
  {
    if p == "" then l == ""
    else if p[0] == '*' then exists k :: 1 <= k <= |l| && LabelMatches(l[k..], p[1..])
    else l != "" && l[0] == p[0] && LabelMatches(l[1..], p[1..])
  }

  predicate LabelsMatch(ls: seq<string>, ps: seq<string>) {
    if ls == [] || ps == [] then ls == ps
    else LabelMatches(ls[0], ps[0]) && LabelsMatch(ls[1..], ps[1..])
  }

  lemma StarStep(l: string, p: string)
    requires p != "" && p[0] == '*'
    ensures LabelMatches(l, p) <==> l != "" && (LabelMatches(l[1..], p[1..]) || LabelMatches(l[1..], p))
  {
    if LabelMatches(l, p) {
      var k :| 1 <= k <= |l| && LabelMatches(l[k..], p[1..]);
      if k > 1 {
        assert l[1..][k - 1..] == l[k..];
        assert LabelMatches(l[1..], p);
      }
    }
    if l != "" && LabelMatches(l[1..], p) {
      var k :| 1 <= k <= |l[1..]| && LabelMatches(l[1..][k..], p[1..]);
      assert l[1..][k..] == l[k + 1..];
    }
    if l != "" && LabelMatches(l[1..], p[1..]) {
      assert LabelMatches(l[1..], p[1..]) && 1 <= |l|;
    }
  }

  lemma LabelsMatchCons(l: string, ls: seq<string>, p: string, ps: seq<string>)
    ensures LabelsMatch([l] + ls, [p] + ps) <==> LabelMatches(l, p) && LabelsMatch(ls, ps)
  {
    assert ([l] + ls)[1..] == ls && ([p] + ps)[1..] == ps;
    hide LabelMatches;
  }

  /** A mid-star pattern matches a host exactly when both have equally many labels and
      each label matches. */
  lemma {:induction false} GlobByLabels(h: string, p: string)
    ensures Glob(h, p) <==> LabelsMatch(Labels(h), Labels(p))
    decreases |h| + |p|
  {
    hide LabelMatches, LabelsMatch;
    if p == "" {
      GlobEmpty(h);
    } else if p[0] == '*' {
      GlobStar(h, p);
    } else if p[0] == '.' {
      GlobDot(h, p);
    } else {
      GlobChar(h, p);
    }
  }

  lemma GlobEmpty(h: string)
    ensures h == "" <==> LabelsMatch(Labels(h), [""])
  {
    assert Labels(h)[0] == "" || !LabelMatches(Labels(h)[0], "");
  }

  lemma Split(s: string)
    ensures Labels(s) == [Labels(s)[0]] + Labels(s)[1..]
  {
  }

  lemma {:induction false} GlobDot(h: string, p: string)
    requires p != "" && p[0] == '.'
    ensures Glob(h, p) <==> LabelsMatch(Labels(h), Labels(p))
    decreases |h| + |p|, 0
  {
    if h != "" && h[0] == '.' {
      GlobByLabels(h[1..], p[1..]);
      LabelsMatchCons("", Labels(h[1..]), "", Labels(p[1..]));
      hide LabelsMatch;
    } else {
      Split(h);
      LabelsMatchCons(Labels(h)[0], Labels(h)[1..], "", Labels(p[1..]));
    }
  }

  lemma {:induction false} GlobChar(h: string, p: string)
    requires p != "" && p[0] != '.' && p[0] != '*'
    ensures Glob(h, p) <==> LabelsMatch(Labels(h), Labels(p))
    decreases |h| + |p|, 0
  {
    var ps := Labels(p[1..]);
    Split(h);
    LabelsMatchCons(Labels(h)[0], Labels(h)[1..], [p[0]] + ps[0], ps[1..]);
    if h != "" && h[0] == p[0] {
      var hs := Labels(h[1..]);
      GlobByLabels(h[1..], p[1..]);
      Split(h[1..]);
      Split(p[1..]);
      LabelsMatchCons(hs[0], hs[1..], ps[0], ps[1..]);
      assert ([p[0]] + ps[0])[1..] == ps[0] && ([h[0]] + hs[0])[1..] == hs[0];
      assert LabelMatches([h[0]] + hs[0], [p[0]] + ps[0]) <==> LabelMatches(hs[0], ps[0]);
      hide LabelsMatch;
    }
  }

  lemma {:induction false} GlobStar(h: string, p: string)
    requires p != "" && p[0] == '*'
    ensures Glob(h, p) <==> LabelsMatch(Labels(h), Labels(p))
    decreases |h| + |p|, 0
  {
    var ps := Labels(p[1..]);
    Split(h);
    StarStep(Labels(h)[0], ['*'] + ps[0]);
    LabelsMatchCons(Labels(h)[0], Labels(h)[1..], ['*'] + ps[0], ps[1..]);
    hide LabelsMatch, LabelMatches;
    if h != "" && h[0] != '.' {
      var hs := Labels(h[1..]);
      GlobByLabels(h[1..], p[1..]);
      GlobByLabels(h[1..], p);
      Split(h[1..]);
      Split(p[1..]);
      LabelsMatchCons(hs[0], hs[1..], ps[0], ps[1..]);
      LabelsMatchCons(hs[0], hs[1..], ['*'] + ps[0], ps[1..]);
      assert (['*'] + ps[0])[1..] == ps[0] && ([h[0]] + hs[0])[1..] == hs[0];
    }
  }

  function Join(ls: seq<string>): string
    requires |ls| >= 1
  {
    if |ls| == 1 then ls[0] else ls[0] + "." + Join(ls[1..])
  }

  lemma {:induction false} JoinLabels(s: string)
    ensures Join(Labels(s)) == s
  {
    if s != "" {
      JoinLabels(s[1..]);
      var rest := Labels(s[1..]);
      if s[0] == '.' {
        assert ([""] + rest)[1..] == rest;
        assert "" + "." + Join(rest) == s;
      } else {
        var first := [s[0]] + rest[0];
        assert ([first] + rest[1..])[1..] == rest[1..];
        if |rest| > 1 {
          assert first + "." + Join(rest[1..]) == [s[0]] + (rest[0] + "." + Join(rest[1..]));
        }
        assert Join([first] + rest[1..]) == [s[0]] + Join(rest);
      }
    }
  }

  lemma ConsConcat(c: char, ls: seq<string>, more: seq<string>)
    requires |ls| >= 1
    ensures Cons(c, ls + more) == Cons(c, ls) + more
  {
    assert (ls + more)[1..] == ls[1..] + more;
  }

  lemma {:induction false} LabelsConcat(a: string, b: string)
    ensures Labels(a + "." + b) == Labels(a) + Labels(b)
  {
    var s := a + "." + b;
    if a == "" {
      assert s[1..] == b;
    } else {
      LabelsConcat(a[1..], b);
      assert s[1..] == a[1..] + "." + b;
      assert s[0] == a[0];
      ConsConcat(a[0], Labels(a[1..]), Labels(b));
      hide Cons;
    }
  }

  lemma {:induction false} JoinEndsWith(ls: seq<string>, n: nat)
    requires 1 <= n < |ls|
    ensures EndsWith(Join(ls), "." + Join(ls[n..]))
  {
    var t := Join(ls);
    var tail := "." + Join(ls[1..]);
    assert t == ls[0] + tail;
    assert t[|t| - |tail|..] == tail;
    if n > 1 {
      JoinEndsWith(ls[1..], n - 1);
      assert ls[1..][n - 1..] == ls[n..];
      var want, r := "." + Join(ls[n..]), Join(ls[1..]);
      assert t[|t| - |want|..] == r[|r| - |want|..];
    }
  }

  /** A leading star stands for one label or more: the host's last labels are those of
      the rest, and the host has others before them. Stars in the rest stand for themselves. */
  lemma LeadingStar(h: string, rest: string)
    ensures MatchesPattern(h, "*." + rest) <==>
            exists n :: 1 <= n < |Labels(h)| && Labels(h)[n..] == Labels(rest)
  {
    var pattern := "*." + rest;
    assert StartsWith(pattern, "*.") && pattern[1..] == "." + rest && pattern[2..] == rest;
    if EndsWith(h, "." + rest) {
      var a := h[..|h| - |rest| - 1];
      assert h == a + h[|h| - |rest| - 1..] == a + ("." + rest) == a + "." + rest;
      LabelsConcat(a, rest);
      assert Labels(h)[|Labels(a)|..] == Labels(rest);
    }
    if n: nat :| 1 <= n < |Labels(h)| && Labels(h)[n..] == Labels(rest) {
      JoinEndsWith(Labels(h), n);
      JoinLabels(h);
      JoinLabels(rest);
    }
  }

  /** Any other pattern needs a star somewhere, and then matches label by label; without one
      it matches nothing, not even itself: the host's own name is looked up before. */
  lemma {:induction false} OtherPatterns(h: string, p: string)
    requires !("*." <= p)
    ensures MatchesPattern(h, p) <==> '*' in p && LabelsMatch(Labels(h), Labels(p))
  {
    GlobByLabels(h, p);
    hide Glob, LabelsMatch, Labels;
  }

  lemma {:induction false} MatchesExactly(h: string, p: string)
    ensures MatchesPattern(h, p) <==>
            if "*." <= p then exists n :: 1 <= n < |Labels(h)| && Labels(h)[n..] == Labels(p[2..])
            else '*' in p && LabelsMatch(Labels(h), Labels(p))
  {
    hide MatchesPattern, Labels, LabelsMatch;
    if "*." <= p {
      LeadingStar(h, p[2..]);
      assert p == "*." + p[2..];
    } else {
      OtherPatterns(h, p);
    }
  }

  /** A label is cut at every dot and nowhere else. */
  lemma {:induction false} LabelsExactly(s: string, ls: seq<string>)
    requires |ls| >= 1
    ensures ls == Labels(s) <==> Join(ls) == s && forall k :: 0 <= k < |ls| ==> '.' !in ls[k]
  {
    JoinLabels(s);
    LabelsDotless(s);
    if Join(ls) == s && forall k :: 0 <= k < |ls| ==> '.' !in ls[k] {
      LabelsOfJoin(ls);
    }
  }

  lemma {:induction false} LabelsDotless(s: string)
    ensures forall k :: 0 <= k < |Labels(s)| ==> '.' !in Labels(s)[k]
  {
    if s != "" {
      LabelsDotless(s[1..]);
    }
  }

  lemma {:induction false} LabelsOfDotless(s: string)
    requires '.' !in s
    ensures Labels(s) == [s]
  {
    if s != "" {
      assert s[0] in s && forall c :: c in s[1..] ==> c in s;
      LabelsOfDotless(s[1..]);
      assert [s[0]] + s[1..] == s;
    }
  }

  lemma {:induction false} LabelsOfJoin(ls: seq<string>)
    requires |ls| >= 1 && forall k :: 0 <= k < |ls| ==> '.' !in ls[k]
    ensures Labels(Join(ls)) == ls
  {
    LabelsOfDotless(ls[0]);
    if |ls| == 1 {
      assert ls == [ls[0]];
    } else {
      LabelsOfJoin(ls[1..]);
      LabelsConcat(ls[0], Join(ls[1..]));
      assert ls == [ls[0]] + ls[1..];
    }
  }

  /** A label without a star matches itself; one star in it stands for a character or more. */
  lemma {:induction false} PlainLabel(l: string, p: string)
    requires '*' !in p
    ensures LabelMatches(l, p) <==> l == p
  {
    if p != "" {
      assert p[0] in p && forall c :: c in p[1..] ==> c in p;
      if l != "" {
        PlainLabel(l[1..], p[1..]);
        assert l == [l[0]] + l[1..] && p == [p[0]] + p[1..];
      }
    }
  }

  lemma {:induction false} StarredLabel(l: string, a: string, b: string)
    requires '*' !in a && '*' !in b
    ensures LabelMatches(l, a + "*" + b) <==> |a| + |b| < |l| && a <= l && l[|l| - |b|..] == b
  {
    var p := a + "*" + b;
    if a == "" {
      assert p[0] == '*' && p[1..] == b;
      forall k | 1 <= k <= |l| ensures LabelMatches(l[k..], b) <==> l[k..] == b {
        PlainLabel(l[k..], b);
      }
      if |b| < |l| && l[|l| - |b|..] == b {
        assert LabelMatches(l[|l| - |b|..], p[1..]);
      }
      hide LabelMatches;
      StarMatches(l, p);
    } else {
      assert a[0] in a && forall c :: c in a[1..] ==> c in a;
      assert p[0] == a[0] && p[1..] == a[1..] + "*" + b;
      if l != "" && l[0] == a[0] {
        StarredLabel(l[1..], a[1..], b);
        assert l == [l[0]] + l[1..] && a == [a[0]] + a[1..];
        assert a <= l <==> a[1..] <= l[1..];
        if |a| + |b| < |l| {
          assert l[1..][|l| - 1 - |b|..] == l[|l| - |b|..];
        }
      }
    }
  }

  lemma {:induction false} StarMatches(l: string, p: string)
    requires p != "" && p[0] == '*'
    ensures LabelMatches(l, p) <==> exists k :: 1 <= k <= |l| && LabelMatches(l[k..], p[1..])
  {
  }

  // ---------- decisions agree with the declared policy ----------

  function Declared(p: Policy, domains: seq<string>): set<string> {
    (if p.allow.Some? then Names(p.allow.value) else {}) + if p.trusted then (set d | d in domains) else {}
  }

  lemma {:induction false} PresetShape(domains: seq<string>)
    ensures NamesOnce(Preset(domains)) && Names(Preset(domains)) == set d | d in domains
    ensures forall name :: Get(Preset(domains), name).Some? ==> Get(Preset(domains), name).value == [Rule(None)]
  {
    if domains != [] {
      var front, last := domains[..|domains| - 1], domains[|domains| - 1];
      PresetShape(front);
      SetShape(Preset(front), last, [Rule(None)]);
      assert domains == front + [last];
      forall name | Get(Preset(domains), name).Some?
        ensures Get(Preset(domains), name).value == [Rule(None)]
      {
        GetSet(Preset(front), last, [Rule(None)], name);
      }
      hide Names, NamesOnce, Get, Set;
    } else {
      assert Names(Preset([])) == {};
    }
  }

  lemma {:induction false} TabledNames(r: Record<seq<Rule>>, name: string)
    ensures name in Tabled(r).allowed <==> name in Names(r)
    ensures Tabled(r).tls == Tabled(r).transforms.Keys
  {
    if r != [] {
      TabledNames(r[..|r| - 1], name);
      NamesSnoc(r[..|r| - 1], r[|r| - 1]);
      assert r[..|r| - 1] + [r[|r| - 1]] == r;
      hide Names, HasTransforms, MergedHeaders, Transforms;
    }
  }

  lemma {:induction false} TabledRules(r: Record<seq<Rule>>, name: string)
    requires NamesOnce(r)
    ensures var t, rules := Tabled(r), Get(r, name);
            && (name in t.transforms <==> rules.Some? && HasTransforms(rules.value))
            && (name in t.transforms ==> t.transforms[name] == MergedHeaders(Transforms(rules.value)))
  {
    if r != [] {
      var front, last := r[..|r| - 1], r[|r| - 1];
      TabledRules(front, name);
      GetSnoc(front, last, name);
      assert front + [last] == r;
      GetNames(front, last.0);
      assert last.0 !in Names(front);
      hide Get, HasTransforms, MergedHeaders, Transforms, Names;
    }
  }

  lemma {:induction false} FirstMatchExists(ps: seq<string>, hostname: string)
    ensures FirstMatch(ps, hostname).Some? <==> exists d :: d in ps && MatchesPattern(hostname, d)
    ensures FirstMatch(ps, hostname).Some? ==>
              FirstMatch(ps, hostname).value in ps && MatchesPattern(hostname, FirstMatch(ps, hostname).value)
  {
    if ps != [] {
      FirstMatchExists(ps[1..], hostname);
      if d :| d in ps && MatchesPattern(hostname, d) {
        assert d == ps[0] || d in ps[1..];
      }
    }
    hide MatchesPattern;
  }

  /** With each domain declared once, the patterns are tried in the order of declaration. */
  lemma {:induction false} TabledOrder(r: Record<seq<Rule>>)
    requires NamesOnce(r)
    ensures |Tabled(r).allowed| == |r| && forall k :: 0 <= k < |r| ==> Tabled(r).allowed[k] == r[k].0
  {
    if r != [] {
      var front := r[..|r| - 1];
      TabledOrder(front);
      TabledNames(front, r[|r| - 1].0);
      hide HasTransforms, MergedHeaders, Transforms, MatchesPattern;
    }
  }

  lemma {:induction false} FirstWins(ps: seq<string>, hostname: string, p: string)
    ensures Winner(ps, hostname) == Some(p) <==>
            if hostname in ps then p == hostname
            else exists k :: 0 <= k < |ps| && ps[k] == p && MatchesPattern(hostname, p)
                             && forall j :: 0 <= j < k ==> !MatchesPattern(hostname, ps[j])
  {
    if hostname !in ps && ps != [] {
      FirstWins(ps[1..], hostname, p);
      hide MatchesPattern;
      if MatchesPattern(hostname, ps[0]) {
      } else if k :| 0 <= k < |ps[1..]| && ps[1..][k] == p && MatchesPattern(hostname, p)
                     && forall j :: 0 <= j < k ==> !MatchesPattern(hostname, ps[1..][j]) {
        assert ps[k + 1] == p;
        forall j | 0 <= j < k + 1 ensures !MatchesPattern(hostname, ps[j]) {
          if j > 0 {
            assert ps[1..][j - 1] == ps[j];
          }
        }
      }
    }
  }

  /** The host itself wins if it is listed, otherwise the first pattern that covers it: a
      leading star some first labels, any other pattern with a star each label in turn. */
  lemma {:induction false} WinnerExactly(ps: seq<string>, hostname: string, p: string)
    ensures Winner(ps, hostname) == Some(p) <==>
            if hostname in ps then p == hostname
            else exists k ::
              && 0 <= k < |ps| && ps[k] == p
              && (if "*." <= p then exists n :: 1 <= n < |Labels(hostname)| && Labels(hostname)[n..] == Labels(p[2..])
                  else '*' in p && LabelsMatch(Labels(hostname), Labels(p)))
              && forall j :: 0 <= j < k ==>
                   !(if "*." <= ps[j]
                     then exists n :: 1 <= n < |Labels(hostname)| && Labels(hostname)[n..] == Labels(ps[j][2..])
                     else '*' in ps[j] && LabelsMatch(Labels(hostname), Labels(ps[j])))
  {
    FirstWins(ps, hostname, p);
    forall q ensures MatchesPattern(hostname, q) <==>
              if "*." <= q then exists n :: 1 <= n < |Labels(hostname)| && Labels(hostname)[n..] == Labels(q[2..])
              else '*' in q && LabelsMatch(Labels(hostname), Labels(q))
    {
      MatchesExactly(hostname, q);
    }
    hide MatchesPattern, Labels, LabelsMatch, Winner;
  }

  lemma CompiledNames(p: Policy, domains: seq<string>)
    requires p.trusted || p.allow.Some?
    ensures var e := Expanded(p, domains).allow; e.Some? && Names(e.value) == Declared(p, domains)
  {
    PresetShape(domains);
    var none: Record<seq<Rule>> := [];
    assert Names(none) == {};
    SpreadShape(Preset(domains), if p.allow.Some? then p.allow.value else none);
    hide Names, NamesOnce, Spread, Preset;
  }

  lemma AllowedByPattern(p: Option<Policy>, domains: seq<string>, hostname: string)
    ensures Allowed(Compiled(p, domains), hostname) <==>
            (p.None? || (!p.value.trusted && p.value.allow.None?)
             || exists d :: d in Declared(p.value, domains) && (d == hostname || MatchesPattern(hostname, d)))
  {
    if p.Some? && (p.value.trusted || p.value.allow.Some?) {
      CompiledNames(p.value, domains);
      var e := Expanded(p.value, domains).allow.value;
      var allowed := Tabled(e).allowed;
      FirstMatchExists(allowed, hostname);
      forall d ensures d in allowed <==> d in Declared(p.value, domains) {
        TabledNames(e, d);
      }
      hide MatchesPattern, FirstMatch, Tabled, Declared, Expanded, Names;
    }
  }

  /** A host is allowed exactly when nothing is declared at all, or a declared domain, the
      trusted ones included, is the host or covers it label by label. */
  lemma {:induction false} AllowedExactly(p: Option<Policy>, domains: seq<string>, hostname: string)
    ensures Allowed(Compiled(p, domains), hostname) <==>
            (p.None? || (!p.value.trusted && p.value.allow.None?)
             || exists d :: d in Declared(p.value, domains)
                  && (d == hostname
                      || if "*." <= d
                         then exists n :: 1 <= n < |Labels(hostname)| && Labels(hostname)[n..] == Labels(d[2..])
                         else '*' in d && LabelsMatch(Labels(hostname), Labels(d))))
  {
    AllowedByPattern(p, domains, hostname);
    hide MatchesPattern, Labels, LabelsMatch, Allowed, Compiled, Declared;
    forall q ensures MatchesPattern(hostname, q) <==>
              if "*." <= q then exists n :: 1 <= n < |Labels(hostname)| && Labels(hostname)[n..] == Labels(q[2..])
              else '*' in q && LabelsMatch(Labels(hostname), Labels(q))
    {
      MatchesExactly(hostname, q);
    }
  }

  /** Declared are the domains of the allow list, and the trusted ones if asked for. */
  lemma {:induction false} DeclaredExactly(p: Policy, domains: seq<string>, d: string)
    ensures d in Declared(p, domains) <==>
            (p.allow.Some? && exists k :: 0 <= k < |p.allow.value| && p.allow.value[k].0 == d)
            || (p.trusted && d in domains)
  {
  }

  lemma {:induction false} Starless(p: Policy, domains: seq<string>)
    requires forall d :: d in Declared(p, domains) ==> '*' !in d
    ensures forall d :: d in Declared(p, domains) ==> !("*." <= d)
  {
    hide Declared;
    assert forall d: string :: "*." <= d ==> '*' in d by {
      forall d: string | "*." <= d ensures '*' in d {
        assert d[0] == '*';
      }
    }
  }

  /** A list without stars admits its own domains and no other host. */
  lemma {:induction false} PlainListsAdmitThemselves(p: Policy, domains: seq<string>, hostname: string)
    requires p.trusted || p.allow.Some?
    requires forall d :: d in Declared(p, domains) ==> '*' !in d
    ensures Allowed(Compiled(Some(p), domains), hostname) <==> hostname in Declared(p, domains)
  {
    AllowedExactly(Some(p), domains, hostname);
    hide Labels, LabelsMatch, Allowed, Compiled, Declared;
    Starless(p, domains);
  }

  /** The rules declared for a domain: an explicit entry over the preset's empty rule. */
  function RulesFor(p: Policy, name: string): seq<Rule> {
    var explicit := if p.allow.Some? then Get(p.allow.value, name) else None;
    if explicit.Some? then explicit.value else [Rule(None)]
  }

  /** A domain's rules are those declared for it, and for a trusted one not declared an empty one. */
  lemma {:induction false} RulesExactly(p: Policy, name: string)
    requires p.allow.Some? ==> NamesOnce(p.allow.value)
    ensures forall k :: p.allow.Some? && 0 <= k < |p.allow.value| && p.allow.value[k].0 == name ==>
              RulesFor(p, name) == p.allow.value[k].1
    ensures (p.allow.Some? ==> forall k :: 0 <= k < |p.allow.value| ==> p.allow.value[k].0 != name) ==>
              RulesFor(p, name) == [Rule(None)]
  {
    if p.allow.Some? {
      GetExactly(p.allow.value, name);
    }
  }

  lemma ExpandedRules(p: Policy, domains: seq<string>, name: string)
    requires (p.trusted || p.allow.Some?) && name in Declared(p, domains)
    requires p.allow.Some? ==> NamesOnce(p.allow.value)
    ensures var e := Expanded(p, domains).allow;
            e.Some? && NamesOnce(e.value) && Get(e.value, name) == Some(RulesFor(p, name))
  {
    CompiledNames(p, domains);
    var e := Expanded(p, domains).allow.value;
    GetNames(e, name);
    if p.trusted {
      PresetShape(domains);
      var none: Record<seq<Rule>> := [];
      var own := if p.allow.Some? then p.allow.value else none;
      SpreadShape(Preset(domains), own);
      GetSpread(Preset(domains), own, name);
      assert p.allow.None? ==> Get(own, name).None?;
    }
    hide Names, NamesOnce, Spread, Preset, Declared;
  }

  /** TLS is intercepted exactly when headers are to be injected, which is when the rules
      declared for the matching domain have a transform; the headers are all of theirs
      merged in order. */
  lemma InjectedExactly(p: Policy, domains: seq<string>, hostname: string)
    requires p.allow.Some? ==> NamesOnce(p.allow.value)
    ensures var t := Compiled(Some(p), domains).1;
            var w := Winner(t.allowed, hostname);
            && (Intercepted(t, hostname) <==> Injected(t, hostname).Some?)
            && (Intercepted(t, hostname) <==>
                 w.Some? && w.value != "" &&
                 exists k :: 0 <= k < |RulesFor(p, w.value)| && RulesFor(p, w.value)[k].transform.Some?
                             && RulesFor(p, w.value)[k].transform.value != [])
            && (w.Some? ==> w.value in Declared(p, domains) && (w.value == hostname || MatchesPattern(hostname, w.value)))
            && (w.Some? && hostname in t.allowed ==> w.value == hostname)
            && Injected(t, hostname) ==
               if w.Some? && w.value != "" && HasTransforms(RulesFor(p, w.value))
               then Some(MergedHeaders(Transforms(RulesFor(p, w.value)))) else None
  {
    if p.trusted || p.allow.Some? {
      CompiledNames(p, domains);
      var e := Expanded(p, domains).allow.value;
      var t := Tabled(e);
      TabledNames(e, "");
      FirstMatchExists(t.allowed, hostname);
      hide MatchesPattern, FirstMatch, Tabled, Declared, Expanded, Names, MergedHeaders, Transforms, RulesFor;
      var w := Winner(t.allowed, hostname);
      if w.Some? {
        TabledNames(e, w.value);
        ExpandedRules(p, domains, w.value);
        TabledRules(e, w.value);
      }
    }
  }

  /** Updating with the policy a proxy already holds changes nothing, though the preset
      is expanded into it a second time. */
  lemma HeldPolicyIsStable(p: Policy, domains: seq<string>)
    ensures var c := Compiled(Some(p), domains); Compiled(c.0, domains) == c
  {
    if p.trusted {
      var preset := Preset(domains);
      PresetShape(domains);
      var own: Record<seq<Rule>> := if p.allow.Some? then p.allow.value else [];
      SpreadShape(preset, own);
      var m := Spread(preset, own);
      SpreadAgain(preset, m, |m|);
      assert m[..|m|] == m && Over(preset, m, |m|) == m;
      hide Names, NamesOnce, Spread, Preset, Tabled;
    }
  }
}
