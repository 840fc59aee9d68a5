/**
  Configuration records and keyword matching (src/models.py).

  `Route.matches` normalises the configured keywords into groups, computes a
  hit vector per group (one substring test per keyword, optionally case
  folded), reduces each vector with ALL or ANY, and requires every group to
  pass.
 */
module Models {
  import opened Wrappers
  import opened Utils

  /** The `keywords` field: a flat list of strings, or a list of groups. */
  datatype Keywords = Flat(words: seq<string>) | Grouped(groups: seq<seq<string>>)

  datatype WebhookConfig = WebhookConfig(
    url: string,
    token: string,
    routes: seq<string>,
    sendUnmatched: bool,
    timeout: int)

  /** `matchMode` is the source's `match` field ("all", anything else meaning any). */
  datatype Route = Route(
    name: string,
    mode: string,
    target: Ref,
    matchMode: string,
    keywords: Keywords,
    caseSensitive: bool)

  /** An absent `default_target` is `NoneRef`. */
  datatype DefaultRoute = DefaultRoute(defaultTarget: Ref, defaultMode: string)

  datatype AccountConfig = AccountConfig(
    name: string,
    session: string,
    apiId: int,
    apiHash: string,
    skipOwn: bool,
    sources: seq<Ref>,
    routes: seq<Route>,
    defaultRoute: DefaultRoute,
    webhook: Option<WebhookConfig>)

  /** The record defaults of the source: no default target, copy mode. */
  const NoDefaultRoute := DefaultRoute(NoneRef, "copy")

  /** `str.lower()` on one character, for the ASCII letters. */
  function LowerChar(c: char): char {
    if 'A' <= c <= 'Z' then (c as int + 32) as char else c
  }

  function Lower(s: string): string {
    seq(|s|, i requires 0 <= i < |s| => LowerChar(s[i]))
  }

  /** The text or keyword as compared: case folded unless `caseSensitive`. */
  function Fold(s: string, caseSensitive: bool): string {
    if caseSensitive then s else Lower(s)
  }

  /** Python's `k in t` for strings: `k` occurs in `t` at some offset. */
  predicate Contains(t: string, k: string) {
    if k <= t then true else if t == [] then false else Contains(t[1..], k)
  }

  /** `k` occurs in `t` starting at offset `i`. */
  predicate OccursAt(t: string, k: string, i: int) {
    0 <= i <= |t| - |k| && t[i..i + |k|] == k
  }

  /** `Contains` agrees with the offset definition of a substring. */
  lemma ContainsIff(t: string, k: string)
    ensures Contains(t, k) <==> exists i :: OccursAt(t, k, i)
  {
    if Contains(t, k) {
      ContainsOccurs(t, k);
    }
    if exists i :: OccursAt(t, k, i) {
      var i :| OccursAt(t, k, i);
      OccursAtContains(t, k, i);
    }
  }

  /** A positive substring test has an offset where the keyword occurs. */
  lemma {:induction false} ContainsOccurs(t: string, k: string)
    requires Contains(t, k)
    ensures exists i :: OccursAt(t, k, i)
  {
    if k <= t {
      assert OccursAt(t, k, 0);
    } else {
      ContainsOccurs(t[1..], k);
      var i :| OccursAt(t[1..], k, i);
      assert OccursAt(t, k, i + 1);
    }
  }

  /** An occurrence at a known offset is enough for `Contains`. */
  lemma {:induction false} OccursAtContains(t: string, k: string, i: int)
    requires OccursAt(t, k, i)
    ensures Contains(t, k)
  {
    if i > 0 && !(k <= t) {
      assert OccursAt(t[1..], k, i - 1);
      OccursAtContains(t[1..], k, i - 1);
    }
  }

  /** `_as_groups`: no keywords give no groups, a flat list is one group,
      a grouped list is taken as it is. */
  function AsGroups(keys: Keywords): (gs: seq<seq<string>>)
    ensures gs == [] <==> (keys.Flat? && keys.words == []) || (keys.Grouped? && keys.groups == [])
    ensures keys.Flat? ==> |gs| <= 1 && (gs != [] ==> gs[0] == keys.words)
    ensures keys.Grouped? ==> gs == keys.groups
  {
    match keys
    case Flat(ws) => if ws == [] then [] else [ws]
    case Grouped(gs) => gs
  }

  /** `_hits_substrings_group`: one entry per keyword, position by position,
      telling whether the (folded) keyword occurs in the (folded) text. */
  function Hits(text: string, group: seq<string>, caseSensitive: bool): (hits: seq<bool>)
    ensures |hits| == |group|
    ensures forall i :: 0 <= i < |group| ==>
              hits[i] == Contains(Fold(text, caseSensitive), Fold(group[i], caseSensitive))
  {
    if group == [] then []
    else [Contains(Fold(text, caseSensitive), Fold(group[0], caseSensitive))]
         + Hits(text, group[1..], caseSensitive)
  }

  /** Python's `all(hits)`. */
  function All(hits: seq<bool>): (b: bool)
    ensures b <==> forall i :: 0 <= i < |hits| ==> hits[i]
  {
    hits == [] || (hits[0] && All(hits[1..]))
  }

  /** Python's `any(hits)`. */
  function Any(hits: seq<bool>): (b: bool)
    ensures b <==> exists i :: 0 <= i < |hits| && hits[i]
  {
    if hits == [] then false
    else if hits[0] then true
    else
      assert forall i :: 1 <= i < |hits| ==> hits[i] == hits[1..][i - 1];
      Any(hits[1..])
  }

  /** `_eval_hits`: an empty vector fails; otherwise every hit is needed
      when `how` is "all", and one hit is enough for any other `how`. */
  function EvalHits(hits: seq<bool>, how: string): (b: bool)
    ensures hits == [] ==> !b
    ensures hits != [] && how == "all" ==> (b <==> forall i :: 0 <= i < |hits| ==> hits[i])
    ensures hits != [] && how != "all" ==> (b <==> exists i :: 0 <= i < |hits| && hits[i])
  {
    if hits == [] then false else if how == "all" then All(hits) else Any(hits)
  }

  /** One group's verdict under a route's settings. */
  predicate GroupPasses(r: Route, text: string, group: seq<string>) {
    EvalHits(Hits(text, group, r.caseSensitive), r.matchMode)
  }

  /** The `for g in groups` loop of `matches`, returning false at the first
      failing group. */
  function AllGroupsPass(r: Route, text: string, gs: seq<seq<string>>): (b: bool)
    ensures b <==> forall i :: 0 <= i < |gs| ==> GroupPasses(r, text, gs[i])
  {
    if gs == [] then true
    else if !GroupPasses(r, text, gs[0]) then false
    else
      assert forall i :: 1 <= i < |gs| ==> gs[i] == gs[1..][i - 1];
      AllGroupsPass(r, text, gs[1..])
  }

  /** `Route.matches`: true exactly when the text is non-empty, there is at
      least one keyword group, and every group passes. */
  function Matches(r: Route, text: string): (b: bool)
    ensures text == [] ==> !b
    ensures AsGroups(r.keywords) == [] ==> !b
    ensures b <==> text != [] && AsGroups(r.keywords) != []
                   && forall i :: 0 <= i < |AsGroups(r.keywords)| ==>
                        GroupPasses(r, text, AsGroups(r.keywords)[i])
  {
    if text == [] then false
    else
      var gs := AsGroups(r.keywords);
      if gs == [] then false else AllGroupsPass(r, text, gs)
  }

  /** A flat list `[a, b, ...]` and the single group `[[a, b, ...]]` match
      the same texts, in every mode and case setting (an empty flat list and
      a single empty group both never match). */
  lemma {:induction false} FlatIsOneGroup(r: Route, ks: seq<string>, text: string)
    ensures Matches(r.(keywords := Flat(ks)), text) == Matches(r.(keywords := Grouped([ks])), text)
  {
    var rf := r.(keywords := Flat(ks));
    var rg := r.(keywords := Grouped([ks]));
    assert GroupPasses(rf, text, ks) == GroupPasses(rg, text, ks);
    if ks == [] {
      assert Hits(text, ks, r.caseSensitive) == [];
      assert !GroupPasses(rg, text, ks);
    }
  }

  /** Without case sensitivity only the case-folded text matters: two texts
      equal up to ASCII case are matched alike by every route. */
  lemma {:induction false} CaseInsensitiveIgnoresTextCase(r: Route, t1: string, t2: string)
    requires !r.caseSensitive
    requires Lower(t1) == Lower(t2)
    ensures Matches(r, t1) == Matches(r, t2)
  {
    assert |t1| == |Lower(t1)| == |Lower(t2)| == |t2|;
    var gs := AsGroups(r.keywords);
    forall i | 0 <= i < |gs|
      ensures GroupPasses(r, t1, gs[i]) == GroupPasses(r, t2, gs[i])
    {
      assert Hits(t1, gs[i], false) == Hits(t2, gs[i], false);
    }
  }

  /** Grouped keywords `[[a, b], [c]]` in "any" mode: (a or b) and c. */
  lemma {:induction false} GroupedAnyIsAndOfOrs(r: Route, a: string, b: string, c: string, text: string)
    requires r.keywords == Grouped([[a, b], [c]]) && r.matchMode == "any"
    ensures var t, cs := Fold(text, r.caseSensitive), r.caseSensitive;
            Matches(r, text) <==>
              text != [] && (Contains(t, Fold(a, cs)) || Contains(t, Fold(b, cs))) && Contains(t, Fold(c, cs))
  {
    var t, cs := Fold(text, r.caseSensitive), r.caseSensitive;
    var gs := AsGroups(r.keywords);
    assert gs[0] == [a, b] && gs[1] == [c] && |gs| == 2;
    var h0, h1 := Hits(text, [a, b], cs), Hits(text, [c], cs);
    assert GroupPasses(r, text, [a, b]) <==> h0[0] || h0[1];
    assert GroupPasses(r, text, [c]) <==> h1[0];
  }

  /** A flat `[a, b]` in "all" mode needs both keywords. */
  lemma {:induction false} FlatAllNeedsBoth(r: Route, a: string, b: string, text: string)
    requires r.keywords == Flat([a, b]) && r.matchMode == "all"
    ensures var t, cs := Fold(text, r.caseSensitive), r.caseSensitive;
            Matches(r, text) <==> text != [] && Contains(t, Fold(a, cs)) && Contains(t, Fold(b, cs))
  {
    var cs := r.caseSensitive;
    var h := Hits(text, [a, b], cs);
    assert AsGroups(r.keywords) == [[a, b]];
    assert GroupPasses(r, text, [a, b]) <==> h[0] && h[1];
  }
}
