/** The "Tags:" line kept as the last line of an entry's notes (backend/icp/keychain/tagline.py).

    Unicode tables are not modelled: `canon` and `fold` are the two functions of a `Grammar`, about
    which only `Valid` is assumed. Everything else, the line grammar and the splices over LF, CRLF
    and lone-CR text, is written out. */
module Tagline {
  import opened Wrappers

  const MAX_TAGS: nat := 16

  /** `canon` gives the display form of one tag, `fold` its comparison key. */
  datatype Grammar = Grammar(canon: string -> Option<string>, fold: string -> string)

  predicate IsWs(c: char) { c == ' ' || c == '\t' }

  predicate TagChar(c: char) { !IsWs(c) && c != '#' && c != '\r' && c != '\n' }

  predicate TagText(t: string) { t != "" && forall i :: 0 <= i < |t| ==> TagChar(t[i]) }

  /** What the source's Unicode tables guarantee of one text: a tag, before and after `canon`, is
      non-empty and holds no white space, "#" or line break, and a canonical tag is its own
      canonical form. */
  ghost predicate CanonOk(g: Grammar, t: string) {
    g.canon(t).Some? ==>
      TagText(t) && TagText(g.canon(t).value) && g.canon(g.canon(t).value) == g.canon(t)
  }

  ghost predicate Valid(g: Grammar) {
    forall t: string :: CanonOk(g, t)
  }

  function Folds(g: Grammar, tags: seq<string>): set<string> {
    set t | t in tags :: g.fold(t)
  }

  ghost predicate Distinct(g: Grammar, tags: seq<string>) {
    forall i, j :: 0 <= i < j < |tags| ==> g.fold(tags[i]) != g.fold(tags[j])
  }

  ghost predicate AllCanonical(g: Grammar, tags: seq<string>) {
    forall t | t in tags :: g.canon(t) == Some(t)
  }

  /** What a tag line may hold: canonical tags, no two with one key, at most MAX_TAGS. */
  ghost predicate Canonical(g: Grammar, tags: seq<string>) {
    AllCanonical(g, tags) && Distinct(g, tags) && |tags| <= MAX_TAGS
  }

  /** `tags` with `c` appended unless a tag with its key is there already. */
  function Add(g: Grammar, tags: seq<string>, c: string): seq<string> {
    if g.fold(c) in Folds(g, tags) then tags else tags + [c]
  }

  lemma AddKeeps(g: Grammar, tags: seq<string>, c: string)
    requires Distinct(g, tags) && AllCanonical(g, tags) && g.canon(c) == Some(c)
    ensures Distinct(g, Add(g, tags, c)) && AllCanonical(g, Add(g, tags, c))
    ensures |tags| <= |Add(g, tags, c)| <= |tags| + 1 && tags <= Add(g, tags, c)
    ensures Folds(g, Add(g, tags, c)) == Folds(g, tags) + {g.fold(c)}
  {
  }

  // --- the line grammar ----------------------------------------------------------------------

  /** "Tags:" in ASCII, any case. */
  predicate HasLabel(s: string) {
    && |s| >= 5 && (s[0] == 'T' || s[0] == 't') && (s[1] == 'A' || s[1] == 'a')
    && (s[2] == 'G' || s[2] == 'g') && (s[3] == 'S' || s[3] == 's') && s[4] == ':'
  }

  function DropCR(s: string): string {
    if s != "" && s[|s| - 1] == '\r' then s[..|s| - 1] else s
  }

  function SkipWs(s: string): string {
    if s != "" && IsWs(s[0]) then SkipWs(s[1..]) else s
  }

  function WordLen(s: string): (n: nat)
    ensures n <= |s| && (forall i :: 0 <= i < n ==> !IsWs(s[i])) && (n < |s| ==> IsWs(s[n]))
  {
    if s == "" || IsWs(s[0]) then 0 else 1 + WordLen(s[1..])
  }

  /** The maximal runs of characters that are not blanks. */
  function Words(s: string): seq<string> {
    if s == "" then []
    else if IsWs(s[0]) then Words(s[1..])
    else [s[..WordLen(s)]] + Words(s[WordLen(s)..])
  }

  /** The tags of the tokens of a line, appended to `tags`; None at the first bad token. */
  function AddTokens(g: Grammar, tokens: seq<string>, tags: seq<string>): Option<seq<string>> {
    if tokens == [] then Some(tags)
    else if tokens[0] == "" || tokens[0][0] != '#' then None
    else
      match g.canon(tokens[0][1..])
      case None => None
      case Some(c) => AddTokens(g, tokens[1..], Add(g, tags, c))
  }

  function ParseLine(g: Grammar, text: string): Option<seq<string>> {
    var s := SkipWs(DropCR(text));
    if !HasLabel(s) || |s| == 5 || !IsWs(s[5]) then None
    else
      var tokens := Words(s[5..]);
      if tokens == [] || |tokens| > MAX_TAGS then None else AddTokens(g, tokens, [])
  }

  lemma {:induction false} AddTokensCanonical(g: Grammar, tokens: seq<string>, tags: seq<string>)
    requires Valid(g) && Distinct(g, tags) && AllCanonical(g, tags)
    ensures AddTokens(g, tokens, tags).Some? ==>
      var r := AddTokens(g, tokens, tags).value;
      Distinct(g, r) && AllCanonical(g, r) && tags <= r && |r| <= |tags| + |tokens| &&
      (tokens != [] ==> r != [])
  {
    if tokens != [] && tokens[0] != "" && tokens[0][0] == '#' && g.canon(tokens[0][1..]).Some? {
      assert CanonOk(g, tokens[0][1..]);
      var c := g.canon(tokens[0][1..]).value;
      AddKeeps(g, tags, c);
      AddTokensCanonical(g, tokens[1..], Add(g, tags, c));
      assert Add(g, tags, c) != [];
    }
  }

  lemma ParseLineCanonical(g: Grammar, text: string)
    requires Valid(g)
    ensures ParseLine(g, text).Some? ==>
      Canonical(g, ParseLine(g, text).value) && ParseLine(g, text).value != []
  {
    var s := SkipWs(DropCR(text));
    if |s| >= 5 { AddTokensCanonical(g, Words(s[5..]), []); }
  }

  /** parse_line as the source runs it: one pass over the tokens, stopping at the first bad one. */
  method ParseLineLoop(g: Grammar, text: string) returns (r: Option<seq<string>>)
    ensures r == ParseLine(g, text)
  {
    var s := SkipWs(DropCR(text));
    if !HasLabel(s) || |s| == 5 || !IsWs(s[5]) { return None; }
    var tokens := Words(s[5..]);
    if tokens == [] || |tokens| > MAX_TAGS { return None; }
    var out: seq<string>, seen: set<string> := [], {};
    var i := 0;
    while i < |tokens|
      invariant 0 <= i <= |tokens| && seen == Folds(g, out)
      invariant AddTokens(g, tokens, []) == AddTokens(g, tokens[i..], out)
    {
      assert tokens[i..][0] == tokens[i] && tokens[i..][1..] == tokens[i + 1..];
      if tokens[i] == "" || tokens[i][0] != '#' { return None; }
      var c := g.canon(tokens[i][1..]);
      if c.None? { return None; }
      if g.fold(c.value) !in seen {
        ghost var was := out;
        seen := seen + {g.fold(c.value)};
        out := out + [c.value];
        assert forall t :: t in out <==> t in was || t == c.value;
      }
      i := i + 1;
    }
    assert tokens[i..] == [];
    return Some(out);
  }

  /** canon_list: tags from a client, with or without one leading "#", or an error. */
  function CanonTags(g: Grammar, raw: seq<string>, tags: seq<string>): Option<seq<string>> {
    if raw == [] then Some(tags)
    else
      match g.canon(if raw[0] != "" && raw[0][0] == '#' then raw[0][1..] else raw[0])
      case None => None
      case Some(c) => CanonTags(g, raw[1..], Add(g, tags, c))
  }

  lemma {:induction false} CanonTagsCanonical(g: Grammar, raw: seq<string>, tags: seq<string>)
    requires Valid(g) && Distinct(g, tags) && AllCanonical(g, tags)
    ensures CanonTags(g, raw, tags).Some? ==>
      var r := CanonTags(g, raw, tags).value;
      Distinct(g, r) && AllCanonical(g, r) && |r| <= |tags| + |raw|
  {
    if raw != [] {
      var t := if raw[0] != "" && raw[0][0] == '#' then raw[0][1..] else raw[0];
      if g.canon(t).Some? {
        assert CanonOk(g, t);
        AddKeeps(g, tags, g.canon(t).value);
        CanonTagsCanonical(g, raw[1..], Add(g, tags, g.canon(t).value));
      }
    }
  }

  lemma {:induction false} CanonTagsFixed(g: Grammar, raw: seq<string>, tags: seq<string>)
    requires Valid(g) && AllCanonical(g, raw) && Distinct(g, tags + raw)
    ensures CanonTags(g, raw, tags) == Some(tags + raw)
  {
    if raw != [] {
      assert raw[0] in raw && CanonOk(g, raw[0]) ;
      forall t | t in tags ensures g.fold(t) != g.fold(raw[0]) {
        var i :| 0 <= i < |tags| && tags[i] == t;
        assert (tags + raw)[i] == t && (tags + raw)[|tags|] == raw[0];
      }
      assert tags + raw == (tags + [raw[0]]) + raw[1..];
      CanonTagsFixed(g, raw[1..], tags + [raw[0]]);
    } else {
      assert tags + raw == tags;
    }
  }

  /** What canon_list returns is canonical, and a canonical list comes back unchanged. */
  lemma CanonListFixpoint(g: Grammar, raw: seq<string>)
    requires Valid(g) && |raw| <= MAX_TAGS
    ensures CanonTags(g, raw, []).Some? ==> Canonical(g, CanonTags(g, raw, []).value)
    ensures CanonTags(g, raw, []) == Some(raw) <==> Canonical(g, raw)
  {
    CanonTagsCanonical(g, raw, []);
    if AllCanonical(g, raw) && Distinct(g, raw) {
      assert [] + raw == raw;
      CanonTagsFixed(g, raw, []);
    }
  }

  /** canon_list as the source runs it. */
  method CanonList(g: Grammar, raw: seq<string>) returns (r: Option<seq<string>>)
    ensures r == if |raw| > MAX_TAGS then None else CanonTags(g, raw, [])
  {
    if |raw| > MAX_TAGS { return None; }
    var out: seq<string>, seen: set<string> := [], {};
    var i := 0;
    while i < |raw|
      invariant 0 <= i <= |raw| && seen == Folds(g, out)
      invariant CanonTags(g, raw, []) == CanonTags(g, raw[i..], out)
    {
      assert raw[i..][0] == raw[i] && raw[i..][1..] == raw[i + 1..];
      var c := g.canon(if raw[i] != "" && raw[i][0] == '#' then raw[i][1..] else raw[i]);
      if c.None? { return None; }
      if g.fold(c.value) !in seen {
        ghost var was := out;
        seen := seen + {g.fold(c.value)};
        out := out + [c.value];
        assert forall t :: t in out <==> t in was || t == c.value;
      }
      i := i + 1;
    }
    assert raw[i..] == [];
    return Some(out);
  }

  // --- the parser accepts exactly the documented line ------------------------------------------

  predicate Word(t: string) { t != "" && forall i :: 0 <= i < |t| ==> !IsWs(t[i]) }

  predicate AllWs(s: string) { forall i :: 0 <= i < |s| ==> IsWs(s[i]) }

  predicate Has(s: string, c: char) { exists i :: 0 <= i < |s| && s[i] == c }

  /** WS1 token *(WS1 token) [WS] */
  ghost predicate Spaced(s: string, tokens: seq<string>) {
    if tokens == [] then AllWs(s)
    else exists k: nat :: Gap(s, k, tokens[0]) && Spaced(s[k + |tokens[0]|..], tokens[1..])
  }

  ghost predicate Gap(s: string, k: nat, token: string) {
    1 <= k && k + |token| <= |s| && AllWs(s[..k]) && s[k..k + |token|] == token
  }

  /** [WS] "Tags:" `rest` ["\r"] */
  predicate Framed(text: string, lead: string, name: string, rest: string, cr: string) {
    && text == lead + name + rest + cr
    && AllWs(lead) && |name| == 5 && HasLabel(name) && (cr == "" || cr == "\r")
  }

  ghost predicate GoodToken(g: Grammar, t: string) {
    t != "" && t[0] == '#' && g.canon(t[1..]).Some?
  }

  ghost predicate GoodTokens(g: Grammar, tokens: seq<string>) {
    forall i :: 0 <= i < |tokens| ==> GoodToken(g, tokens[i])
  }

  /** [WS] "Tags:" WS1 tag *(WS1 tag) [WS] ["\r"], with at most MAX_TAGS tokens, each "#" and a tag. */
  ghost predicate TagLine(g: Grammar, text: string, lead: string, name: string, rest: string,
                          cr: string, tokens: seq<string>) {
    && Framed(text, lead, name, rest, cr)
    && Spaced(rest, tokens) && GoodTokens(g, tokens) && 1 <= |tokens| <= MAX_TAGS
  }

  lemma {:induction false} WordsSkip(s: string, k: nat)
    requires k <= |s| && AllWs(s[..k])
    ensures Words(s) == Words(s[k..])
  {
    if k > 0 {
      assert IsWs(s[..k][0]);
      assert s[1..][..k - 1] == s[..k][1..] && s[1..][k - 1..] == s[k..];
      WordsSkip(s[1..], k - 1);
    } else {
      assert s[0..] == s;
    }
  }

  lemma {:induction false} WordLenIs(s: string, n: nat)
    requires n <= |s| && (forall i :: 0 <= i < n ==> !IsWs(s[i])) && (n < |s| ==> IsWs(s[n]))
    ensures WordLen(s) == n
  {
  }

  lemma {:induction false} WordsOfSpaced(s: string, tokens: seq<string>)
    requires Spaced(s, tokens) && forall i :: 0 <= i < |tokens| ==> Word(tokens[i])
    ensures Words(s) == tokens
    decreases |tokens|
  {
    if tokens == [] {
      WordsSkip(s, |s|);
      assert s[..|s|] == s && s[|s|..] == "";
    } else {
      var t := tokens[0];
      var k: nat :| Gap(s, k, t) && Spaced(s[k + |t|..], tokens[1..]);
      var w, rest := s[k..], s[k + |t|..];
      assert w[..|t|] == t && w[|t|..] == rest;
      if rest != "" { SpacedStartsWs(rest, tokens[1..]); }
      forall i | 0 <= i < |t| ensures !IsWs(w[i]) { assert w[i] == t[i]; }
      WordLenIs(w, |t|);
      WordsSkip(s, k);
      WordsOfSpaced(rest, tokens[1..]);
    }
  }

  lemma SpacedStartsWs(s: string, tokens: seq<string>)
    requires Spaced(s, tokens) && (s != "" || tokens != [])
    ensures s != "" && IsWs(s[0])
  {
  }

  lemma {:induction false} SpacedWords(s: string)
    requires s == "" || IsWs(s[0])
    ensures Spaced(s, Words(s))
    decreases |s|
  {
    if s != "" {
      if |s| == 1 || IsWs(s[1]) {
        SpacedWords(s[1..]);
        SpacedMore(s, Words(s[1..]));
      } else {
        var w := s[1..];
        var n := WordLen(w);
        assert n > 0 && Words(w) == [w[..n]] + Words(w[n..]);
        SpacedWords(w[n..]);
        assert s[1 + n..] == w[n..] && s[1..1 + n] == w[..n];
        assert Gap(s, 1, w[..n]);
        assert Words(s)[0] == w[..n] && Words(s)[1..] == Words(w[n..]);
      }
    }
  }

  lemma GapMore(s: string, k: nat, t: string)
    requires s != "" && IsWs(s[0]) && Gap(s[1..], k, t)
    ensures Gap(s, k + 1, t) && s[k + 1 + |t|..] == s[1..][k + |t|..]
  {
  }

  lemma SpacedMore(s: string, tokens: seq<string>)
    requires s != "" && IsWs(s[0]) && Spaced(s[1..], tokens)
    ensures Spaced(s, tokens)
  {
    if tokens == [] {
      assert s == [s[0]] + s[1..];
    } else {
      var k: nat :| Gap(s[1..], k, tokens[0]) && Spaced(s[1..][k + |tokens[0]|..], tokens[1..]);
      GapMore(s, k, tokens[0]);
    }
  }

  lemma {:induction false} SkipWsOver(lead: string, s: string)
    requires AllWs(lead) && (s == "" || !IsWs(s[0]))
    ensures SkipWs(lead + s) == s
  {
    if lead == "" {
      assert lead + s == s;
    } else {
      assert IsWs(lead[0]) && (lead + s)[1..] == lead[1..] + s;
      SkipWsOver(lead[1..], s);
    }
  }

  lemma {:induction false} SkipWsLead(s: string) returns (k: nat)
    ensures k <= |s| && AllWs(s[..k]) && SkipWs(s) == s[k..]
  {
    if s != "" && IsWs(s[0]) {
      k := SkipWsLead(s[1..]);
      assert s[..k + 1] == [s[0]] + s[1..][..k] && s[k + 1..] == s[1..][k..];
      k := k + 1;
    } else {
      k := 0;
    }
  }

  lemma {:induction false} TokensGood(g: Grammar, tokens: seq<string>, tags: seq<string>)
    ensures AddTokens(g, tokens, tags).Some? <==> GoodTokens(g, tokens)
  {
    if tokens != [] && GoodToken(g, tokens[0]) {
      var rest := tokens[1..];
      TokensGood(g, rest, Add(g, tags, g.canon(tokens[0][1..]).value));
      assert forall i :: 0 <= i < |rest| ==> rest[i] == tokens[i + 1];
      assert forall i :: 0 < i < |tokens| ==> tokens[i] == rest[i - 1];
    }
  }

  lemma HashWord(g: Grammar, t: string)
    requires Valid(g) && GoodToken(g, t)
    ensures Word(t) && t[|t| - 1] != '\r'
  {
    assert t == ['#'] + t[1..] && CanonOk(g, t[1..]);
  }

  lemma SkipFrame(text: string, lead: string, name: string, rest: string, cr: string)
    requires Framed(text, lead, name, rest, cr) && rest != "" && rest[|rest| - 1] != '\r'
    ensures SkipWs(DropCR(text)) == name + rest
  {
    assert DropCR(text) == lead + (name + rest);
    assert !IsWs(name[0]);
    SkipWsOver(lead, name + rest);
  }

  lemma {:induction false} SpacedEnd(g: Grammar, s: string, tokens: seq<string>)
    requires Valid(g) && Spaced(s, tokens) && s != "" && GoodTokens(g, tokens)
    ensures s[|s| - 1] != '\r'
    decreases |tokens|
  {
    if tokens == [] {
      assert IsWs(s[|s| - 1]);
    } else {
      var t := tokens[0];
      var k: nat :| Gap(s, k, t) && Spaced(s[k + |t|..], tokens[1..]);
      var rest := s[k + |t|..];
      if rest == "" {
        HashWord(g, t);
        assert s[|s| - 1] == t[|t| - 1];
      } else {
        SpacedEnd(g, rest, tokens[1..]);
        assert s[|s| - 1] == rest[|rest| - 1];
      }
    }
  }

  lemma TagLineParses(g: Grammar, text: string, lead: string, name: string, rest: string,
                      cr: string, tokens: seq<string>)
    requires Valid(g) && TagLine(g, text, lead, name, rest, cr, tokens)
    ensures ParseLine(g, text) == AddTokens(g, tokens, []) && ParseLine(g, text).Some?
  {
    forall i | 0 <= i < |tokens| ensures Word(tokens[i]) { HashWord(g, tokens[i]); }
    WordsOfSpaced(rest, tokens);
    SpacedStartsWs(rest, tokens);
    SpacedEnd(g, rest, tokens);
    SkipFrame(text, lead, name, rest, cr);
    assert (name + rest)[5..] == rest && (name + rest)[..5] == name;
    TokensGood(g, tokens, []);
  }

  lemma Pieces(text: string)
    returns (lead: string, name: string, rest: string, cr: string)
    requires HasLabel(SkipWs(DropCR(text)))
    ensures Framed(text, lead, name, rest, cr) && SkipWs(DropCR(text)) == name + rest
  {
    var d := DropCR(text);
    var k := SkipWsLead(d);
    lead, name, rest, cr := d[..k], d[k..k + 5], d[k + 5..], text[|d|..];
    assert d[k..] == name + rest && d[k..][..5] == name;
    assert lead + name + rest == d;
  }

  /** parse_line accepts a line exactly when it is a tag line of the documented grammar. */
  lemma ParseLineExactly(g: Grammar, text: string)
    requires Valid(g)
    ensures ParseLine(g, text).Some? <==>
      exists lead, name, rest, cr, tokens :: TagLine(g, text, lead, name, rest, cr, tokens)
  {
    if ParseLine(g, text).Some? {
      var lead, name, rest, cr := Pieces(text);
      assert (name + rest)[5..] == rest;
      SpacedWords(rest);
      TokensGood(g, Words(rest), []);
      assert TagLine(g, text, lead, name, rest, cr, Words(rest));
    } else if lead, name, rest, cr, tokens :| TagLine(g, text, lead, name, rest, cr, tokens) {
      TagLineParses(g, text, lead, name, rest, cr, tokens);
    }
  }

  // --- printing a line ---------------------------------------------------------------------------

  /** " ".join("#" + t for t in tags) */
  function Joined(tags: seq<string>): string {
    if tags == [] then "" else if |tags| == 1 then "#" + tags[0]
    else "#" + tags[0] + " " + Joined(tags[1..])
  }

  function Line(tags: seq<string>): string {
    if tags == [] then "" else "Tags: " + Joined(tags)
  }

  function Hashed(tags: seq<string>): (r: seq<string>)
    ensures |r| == |tags| && forall i :: 0 <= i < |r| ==> r[i] == "#" + tags[i]
  {
    if tags == [] then [] else ["#" + tags[0]] + Hashed(tags[1..])
  }

  lemma {:induction false} JoinedSpaced(tags: seq<string>)
    requires tags != []
    ensures Spaced(" " + Joined(tags), Hashed(tags))
  {
    var s, t, tokens := " " + Joined(tags), "#" + tags[0], Hashed(tags);
    var rest := if |tags| == 1 then "" else " " + Joined(tags[1..]);
    assert s == " " + t + rest;
    assert s[..1] == " " && s[1..1 + |t|] == t && s[1 + |t|..] == rest;
    assert Gap(s, 1, t) && tokens[0] == t && tokens[1..] == Hashed(tags[1..]);
    if |tags| > 1 { JoinedSpaced(tags[1..]); }
  }

  lemma {:induction false} AddCanonical(g: Grammar, tokens: seq<string>, tags: seq<string>, more: seq<string>)
    requires Valid(g) && AllCanonical(g, more) && Distinct(g, tags + more) && tokens == Hashed(more)
    ensures AddTokens(g, tokens, tags) == Some(tags + more)
  {
    if more == [] {
      assert tags + more == tags;
    } else {
      var t := more[0];
      assert t in more && tokens[0] == "#" + t && tokens[0][1..] == t;
      forall u | u in tags ensures g.fold(u) != g.fold(t) {
        var i :| 0 <= i < |tags| && tags[i] == u;
        assert (tags + more)[i] == u && (tags + more)[|tags|] == t;
      }
      assert tags + more == (tags + [t]) + more[1..];
      AddCanonical(g, tokens[1..], tags + [t], more[1..]);
    }
  }

  lemma {:induction false} JoinedClean(tags: seq<string>)
    requires forall t | t in tags :: TagText(t)
    ensures !Has(Joined(tags), '\n') && !Has(Joined(tags), '\r')
  {
    if tags != [] {
      assert tags[0] in tags && TagText(tags[0]);
      if |tags| > 1 { JoinedClean(tags[1..]); }
    }
  }

  lemma HashedGood(g: Grammar, tags: seq<string>)
    requires Canonical(g, tags)
    ensures GoodTokens(g, Hashed(tags))
  {
  }

  lemma LineFramed(j: string)
    ensures Framed("Tags: " + j, "", "Tags:", " " + j, "")
  {
  }

  lemma LineIsTagLine(g: Grammar, tags: seq<string>)
    requires Canonical(g, tags) && tags != []
    ensures TagLine(g, Line(tags), "", "Tags:", " " + Joined(tags), "", Hashed(tags))
  {
    JoinedSpaced(tags);
    HashedGood(g, tags);
    LineFramed(Joined(tags));
  }

  lemma LineClean(g: Grammar, tags: seq<string>)
    requires Valid(g) && Canonical(g, tags)
    ensures OneLine(Line(tags))
  {
    forall t | t in tags ensures TagText(t) { assert CanonOk(g, t); }
    JoinedClean(tags);
    NoNl(Line(tags));
  }

  /** The printed line reads back as its tags. */
  lemma LineParses(g: Grammar, tags: seq<string>)
    requires Valid(g) && Canonical(g, tags) && tags != []
    ensures ParseLine(g, Line(tags)) == Some(tags)
  {
    LineIsTagLine(g, tags);
    TagLineParses(g, Line(tags), "", "Tags:", " " + Joined(tags), "", Hashed(tags));
    assert [] + tags == tags;
    AddCanonical(g, Hashed(tags), [], tags);
  }

  // --- body, separator and line ------------------------------------------------------------------

  /** raw == body + sep + line, where `line` reads as a tag line. */
  datatype Notes = Notes(body: string, sep: string, line: string, tags: seq<string>)

  /** The text after the last "\n", or all of it. */
  function LastLine(raw: string): (line: string)
    ensures |line| <= |raw| && raw[|raw| - |line|..] == line
    ensures |line| < |raw| ==> raw[|raw| - |line| - 1] == '\n'
  {
    if raw == "" || raw[|raw| - 1] == '\n' then ""
    else LastLine(raw[..|raw| - 1]) + [raw[|raw| - 1]]
  }

  /** One line: no "\n" in it. */
  predicate OneLine(s: string) { LastLine(s) == s }

  /** The text before the last "\n" without the rest of that line break and one more. */
  function TrimBreak(h: string): (b: string)
    ensures b <= h
  {
    var b := DropCR(h);
    if b != "" && b[|b| - 1] == '\n' then DropCR(b[..|b| - 1]) else b
  }

  function Parts(g: Grammar, raw: string): Option<Notes> {
    var line := LastLine(raw);
    var i := |raw| - |line| - 1;           // raw.rfind("\n")
    match ParseLine(g, line)
    case None => None
    case Some(tags) =>
      if i < 0 then Some(Notes("", "", line, tags))
      else
        var body := TrimBreak(raw[..i]);
        Some(Notes(body, raw[|body|..i + 1], line, tags))
  }

  function Split(g: Grammar, raw: string): (string, seq<string>) {
    match Parts(g, raw)
    case None => (raw, [])
    case Some(p) => (p.body, p.tags)
  }

  predicate EndsCR(s: string) { s != "" && s[|s| - 1] == '\r' }

  /** Every "\n" of `s` follows a "\r", and there is one. */
  predicate CrlfOnly(s: string) {
    && (exists i :: 0 <= i < |s| && s[i] == '\n')
    && (forall i :: 0 <= i < |s| && s[i] == '\n' ==> i > 0 && s[i - 1] == '\r')
  }

  function Sep(body: string): string {
    if EndsCR(body) || CrlfOnly(body) then "\r\n" else "\n"
  }

  function Compose(body: string, tags: seq<string>): string {
    if tags == [] then body
    else if body == "" then Line(tags)
    else body + Sep(body) + Sep(body) + Line(tags)
  }

  function HoldOpen(g: Grammar, body: string): string {
    if Parts(g, body).None? then body else body + Sep(body)
  }

  function ReplaceTags(g: Grammar, raw: string, tags: seq<string>): string {
    match Parts(g, raw)
    case None => Compose(raw, tags)
    case Some(p) => if tags == [] then HoldOpen(g, p.body) else p.body + p.sep + Line(tags)
  }

  /** str.rstrip(cs) */
  function RStrip(s: string, cs: set<char>): (r: string)
    ensures r <= s
  {
    if s != "" && s[|s| - 1] in cs then RStrip(s[..|s| - 1], cs) else s
  }

  /** str.lstrip("\n") */
  function LStripNl(s: string): string {
    if s != "" && s[0] == '\n' then LStripNl(s[1..]) else s
  }

  /** str.strip("\n") */
  function StripNl(s: string): string { LStripNl(RStrip(s, {'\n'})) }

  function StoredLastLine(g: Grammar, body: string): Option<string> {
    match Parts(g, RStrip(body, {'\r', '\n'}))
    case None => None
    case Some(q) => Some(RStrip(q.line, {'\r'}))
  }

  /** `tags`, then those of `typed` whose key is not there already. */
  function AddAll(g: Grammar, tags: seq<string>, typed: seq<string>): seq<string>
    decreases |typed|
  {
    if typed == [] then tags else AddAll(g, Add(g, tags, typed[0]), typed[1..])
  }

  function Merge(g: Grammar, tags: seq<string>, typed: seq<string>): Option<seq<string>> {
    var out := AddAll(g, tags, typed);
    if |out| <= MAX_TAGS then Some(out) else None
  }

  /** _merge as the source runs it. */
  method MergeLoop(g: Grammar, tags: seq<string>, typed: seq<string>) returns (r: Option<seq<string>>)
    ensures r == Merge(g, tags, typed)
  {
    var out, seen := tags, Folds(g, tags);
    var i := 0;
    while i < |typed|
      invariant 0 <= i <= |typed| && seen == Folds(g, out)
      invariant AddAll(g, tags, typed) == AddAll(g, out, typed[i..])
    {
      assert typed[i..][0] == typed[i] && typed[i..][1..] == typed[i + 1..];
      if g.fold(typed[i]) !in seen {
        ghost var was := out;
        seen := seen + {g.fold(typed[i])};
        out := out + [typed[i]];
        assert forall t :: t in out <==> t in was || t == typed[i];
      }
      i := i + 1;
    }
    assert typed[i..] == [];
    return if |out| <= MAX_TAGS then Some(out) else None;
  }

  /** The body with `sep` (or a blank line of its own) and the tag line after it. */
  function Attach(g: Grammar, body: string, sep: string, line: string, tags: seq<string>): string {
    if body == "" then line
    else
      var out := body + sep + line;
      if sep != "" && Split(g, out) == (body, tags) then out
      else body + Sep(body) + Sep(body) + line
  }

  function ReplaceBody(g: Grammar, raw: string, body: string): string {
    var p := Parts(g, raw);
    var typed := if body == "" then None else Parts(g, body);
    var stored := StoredLastLine(g, if p.None? then raw else p.value.body);
    var again := typed.Some? && stored == Some(RStrip(typed.value.line, {'\r'}));
    if p.None? then
      if !again then body
      else if body == StripNl(raw) then raw
      else HoldOpen(g, body)
    else
      var merged := if typed.None? || again then None else Merge(g, p.value.tags, typed.value.tags);
      if merged.Some? then
        Attach(g, typed.value.body, p.value.sep, Line(merged.value), merged.value)
      else
        Attach(g, body, p.value.sep, p.value.line, p.value.tags)
  }

  lemma Assoc(a: string, b: string, c: string)
    ensures a + (b + c) == a + b + c
  {
  }

  // --- reading back ------------------------------------------------------------------------------

  lemma {:induction false} LastLineIs(h: string, line: string)
    requires OneLine(line)
    ensures LastLine(h + "\n" + line) == line
    decreases |line|
  {
    var s := h + "\n" + line;
    if line != "" {
      var shorter := line[..|line| - 1];
      assert s[..|s| - 1] == h + "\n" + shorter;
      assert LastLine(shorter) == shorter;
      LastLineIs(h, shorter);
    }
  }

  lemma {:induction false} NoNl(line: string)
    requires !Has(line, '\n')
    ensures OneLine(line)
  {
  }

  lemma {:induction false} LastLineOne(raw: string)
    ensures OneLine(LastLine(raw))
  {
    if raw != "" && raw[|raw| - 1] != '\n' {
      var line := LastLine(raw[..|raw| - 1]);
      LastLineOne(raw[..|raw| - 1]);
      assert (line + [raw[|raw| - 1]])[..|line|] == line;
    }
  }

  lemma LastLineSplit(s: string) returns (h: string)
    requires !OneLine(s)
    ensures s == h + "\n" + LastLine(s) && |h| == |s| - |LastLine(s)| - 1
  {
    h := s[..|s| - |LastLine(s)| - 1];
  }

  /** Notes that end in "\n" and a tag line are split at the break before that line. */
  lemma PartsAt(g: Grammar, h: string, line: string)
    requires OneLine(line) && ParseLine(g, line).Some?
    ensures Parts(g, h + "\n" + line) ==
      Some(Notes(TrimBreak(h), (h + "\n")[|TrimBreak(h)|..], line, ParseLine(g, line).value))
  {
    hide ParseLine, LastLine, TrimBreak;
    var raw := h + "\n" + line;
    LastLineIs(h, line);
    assert raw[..|h|] == h;
    assert raw[|TrimBreak(h)|..|h| + 1] == (h + "\n")[|TrimBreak(h)|..];
  }

  lemma PartsAlone(g: Grammar, line: string)
    requires OneLine(line) && ParseLine(g, line).Some?
    ensures Parts(g, line) == Some(Notes("", "", line, ParseLine(g, line).value))
  {
  }

  /** Notes with a separator are some text, a "\n" and the tag line. */
  lemma PartsHead(g: Grammar, raw: string) returns (h: string)
    requires Parts(g, raw).Some? && Parts(g, raw).value.sep != ""
    ensures var p := Parts(g, raw).value;
      p.body == TrimBreak(h) && p.sep == (h + "\n")[|TrimBreak(h)|..] && raw == h + "\n" + p.line
  {
    h := LastLineSplit(raw);
    var i := |raw| - |LastLine(raw)| - 1;
    assert raw[..i] == h && raw[..i + 1] == h + "\n";
  }

  /** What Parts says of notes with a tag line: they are rebuilt from it. */
  lemma PartsOf(g: Grammar, raw: string)
    requires Valid(g) && Parts(g, raw).Some?
    ensures var p := Parts(g, raw).value;
      && raw == p.body + p.sep + p.line && OneLine(p.line) && ParseLine(g, p.line) == Some(p.tags)
      && Canonical(g, p.tags) && p.tags != [] && (p.sep == "" ==> p.body == "")
  {
    hide ParseLine, LastLine, TrimBreak, DropCR, Canonical;
    var p := Parts(g, raw).value;
    LastLineOne(raw);
    ParseLineCanonical(g, LastLine(raw));
    if p.sep != "" {
      var h := PartsHead(g, raw);
      assert p.body <= h && p.body + p.sep == h + "\n";
    }
  }

  /** Another tag line in the same place reads back with the same body and separator. */
  lemma Reline(g: Grammar, raw: string, line: string)
    requires Valid(g) && Parts(g, raw).Some? && OneLine(line) && ParseLine(g, line).Some?
    ensures var p := Parts(g, raw).value;
      Parts(g, p.body + p.sep + line) == Some(Notes(p.body, p.sep, line, ParseLine(g, line).value))
  {
    hide Parts, ParseLine, LastLine, TrimBreak;
    var p := Parts(g, raw).value;
    if p.sep == "" {
      PartsOf(g, raw);
      assert p.body + p.sep + line == line;
      PartsAlone(g, line);
    } else {
      var h := PartsHead(g, raw);
      assert p.body + p.sep == h + "\n";
      PartsAt(g, h, line);
    }
  }

  lemma TrimLf(body: string)
    requires !EndsCR(body)
    ensures TrimBreak(body + "\n") == body
  {
  }

  lemma TrimCrlf(body: string)
    ensures TrimBreak(body + "\r\n" + "\r") == body
  {
  }

  /** Two line breaks after a body end in "\n", and the text before it trims to the body. */
  lemma BlankHead(body: string) returns (h: string)
    ensures body + Sep(body) + Sep(body) == h + "\n" && TrimBreak(h) == body
  {
    if Sep(body) == "\n" {
      h := body + "\n";
      TrimLf(body);
    } else {
      h := body + "\r\n" + "\r";
      TrimCrlf(body);
      assert "\r\n" == "\r" + "\n";
      Assoc(body + "\r\n", "\r", "\n");
    }
  }

  /** A blank line between a body and a tag line reads back as exactly that body. */
  lemma BlankLine(g: Grammar, body: string, line: string)
    requires OneLine(line) && ParseLine(g, line).Some?
    ensures Parts(g, body + Sep(body) + Sep(body) + line) ==
      Some(Notes(body, Sep(body) + Sep(body), line, ParseLine(g, line).value))
  {
    hide Parts, ParseLine, TrimBreak, LastLine, Sep, OneLine;
    var h := BlankHead(body);
    PartsAt(g, h, line);
    Assoc(body, Sep(body), Sep(body));
    assert (body + (Sep(body) + Sep(body)))[|body|..] == Sep(body) + Sep(body);
  }

  lemma NoTagsAfterBreak(g: Grammar, h: string)
    ensures Parts(g, h + "\n").None?
  {
  }

  lemma OpenBody(g: Grammar, body: string)
    ensures Parts(g, HoldOpen(g, body)).None?
    ensures HoldOpen(g, body) == body || HoldOpen(g, body) == body + Sep(body)
  {
    hide Parts;
    if Sep(body) == "\n" {
      NoTagsAfterBreak(g, body);
    } else {
      assert "\r\n" == "\r" + "\n";
      Assoc(body, "\r", "\n");
      NoTagsAfterBreak(g, body + "\r");
    }
  }

  // --- the laws of the tag line ------------------------------------------------------------------

  /** Replacing tags depends on the notes' parts only. */
  lemma ReplaceByParts(g: Grammar, raw: string, p: Notes, tags: seq<string>)
    requires Parts(g, raw) == Some(p)
    ensures ReplaceTags(g, raw, tags) ==
      if tags == [] then HoldOpen(g, p.body) else p.body + p.sep + Line(tags)
  {
  }

  lemma ComposedParts(g: Grammar, body: string, tags: seq<string>)
    requires Valid(g) && Canonical(g, tags) && tags != []
    ensures Parts(g, Compose(body, tags)) ==
      Some(Notes(body, if body == "" then "" else Sep(body) + Sep(body), Line(tags), tags))
  {
    LineParses(g, tags);
    LineClean(g, tags);
    if body == "" { PartsAlone(g, Line(tags)); } else { BlankLine(g, body, Line(tags)); }
  }

  /** compose() reads back as the body and the tags it was given. */
  lemma ComposeReadsBack(g: Grammar, body: string, tags: seq<string>)
    requires Valid(g) && Canonical(g, tags) && tags != []
    ensures Split(g, Compose(body, tags)) == (body, tags)
  {
    ComposedParts(g, body, tags);
  }

  /** Setting tags keeps the body and, when there was a line, the bytes of the separator. Setting
      none leaves no tag line: at most one line break is added, to keep a line of the body from
      becoming one. */
  lemma ReplaceTagsReadsBack(g: Grammar, raw: string, tags: seq<string>)
    requires Valid(g) && Canonical(g, tags)
    ensures var out, body := ReplaceTags(g, raw, tags), Split(g, raw).0;
      && (tags != [] ==> Split(g, out) == (body, tags))
      && (tags != [] && Parts(g, raw).Some? ==> Parts(g, out).value.sep == Parts(g, raw).value.sep)
      && (tags == [] ==> Parts(g, out).None? && (out == body || out == body + Sep(body)))
  {
    if Parts(g, raw).None? {
      if tags != [] { ComposeReadsBack(g, raw, tags); }
    } else if tags == [] {
      OpenBody(g, Parts(g, raw).value.body);
    } else {
      LineParses(g, tags);
      LineClean(g, tags);
      Reline(g, raw, Line(tags));
    }
  }

  lemma ComposeAgain(g: Grammar, body: string, tags: seq<string>, tags': seq<string>)
    requires Valid(g) && Canonical(g, tags) && tags != [] && Parts(g, body).None?
    ensures ReplaceTags(g, Compose(body, tags), tags') == Compose(body, tags')
  {
    hide Parts, ParseLine, ReplaceTags, Sep, Line;
    var sep := if body == "" then "" else Sep(body) + Sep(body);
    ComposedParts(g, body, tags);
    ReplaceByParts(g, Compose(body, tags), Notes(body, sep, Line(tags), tags), tags');
    if body == "" {
      assert body + sep + Line(tags') == Line(tags');
    } else {
      Assoc(body, Sep(body), Sep(body));
    }
  }


  /** After a first non-empty write, only the last write shows, byte for byte. */
  lemma LastTagWriteWins(g: Grammar, raw: string, tags: seq<string>, tags': seq<string>)
    requires Valid(g) && Canonical(g, tags) && tags != []
    ensures ReplaceTags(g, ReplaceTags(g, raw, tags), tags') == ReplaceTags(g, raw, tags')
  {
    if Parts(g, raw).None? {
      ComposeAgain(g, raw, tags, tags');
    } else {
      var p := Parts(g, raw).value;
      LineParses(g, tags);
      LineClean(g, tags);
      Reline(g, raw, Line(tags));
      ReplaceByParts(g, raw, p, tags);
      ReplaceByParts(g, raw, p, tags');
      ReplaceByParts(g, ReplaceTags(g, raw, tags), p.(line := Line(tags), tags := tags), tags');
    }
  }

  /** Adding tags to notes without any and removing them again restores the exact text. */
  lemma AddThenRemove(g: Grammar, raw: string, tags: seq<string>)
    requires Valid(g) && Canonical(g, tags) && Parts(g, raw).None?
    ensures ReplaceTags(g, ReplaceTags(g, raw, tags), []) == raw
  {
    if tags != [] { LastTagWriteWins(g, raw, tags, []); }
  }

  lemma AttachReadsBack(g: Grammar, body: string, sep: string, line: string, tags: seq<string>)
    requires OneLine(line) && ParseLine(g, line) == Some(tags)
    ensures Split(g, Attach(g, body, sep, line, tags)) == (body, tags)
  {
    if body == "" { PartsAlone(g, line); } else { BlankLine(g, body, line); }
  }

  lemma {:induction false} AddAllCanonical(g: Grammar, tags: seq<string>, typed: seq<string>)
    requires AllCanonical(g, tags) && Distinct(g, tags) && AllCanonical(g, typed)
    ensures AllCanonical(g, AddAll(g, tags, typed)) && Distinct(g, AddAll(g, tags, typed))
    ensures tags <= AddAll(g, tags, typed)
    decreases |typed|
  {
    if typed != [] {
      assert typed[0] in typed;
      AddKeeps(g, tags, typed[0]);
      AddAllCanonical(g, Add(g, tags, typed[0]), typed[1..]);
    }
  }

  /** The tags a last line of `body` adds when it is typed over the notes `raw`: None when `body`
      ends in no tag line, or in the very line the stored body ended in. */
  function Typed(g: Grammar, raw: string, body: string): Option<Notes> {
    var typed := if body == "" then None else Parts(g, body);
    if typed.Some? && StoredLastLine(g, Split(g, raw).0) == Some(RStrip(typed.value.line, {'\r'}))
    then None else typed
  }

  /** What replace_body builds on notes with a tag line. */
  lemma TaggedEdit(g: Grammar, raw: string, body: string)
    requires Parts(g, raw).Some?
    ensures var p, typed := Parts(g, raw).value, Typed(g, raw, body);
      ReplaceBody(g, raw, body) ==
        if typed.Some? && Merge(g, p.tags, typed.value.tags).Some? then
          var merged := Merge(g, p.tags, typed.value.tags).value;
          Attach(g, typed.value.body, p.sep, Line(merged), merged)
        else Attach(g, body, p.sep, p.line, p.tags)
  {
  }

  lemma TypedParts(g: Grammar, raw: string, body: string)
    ensures Typed(g, raw, body).Some? ==> Parts(g, body) == Typed(g, raw, body)
  {
  }

  /** The tags after a body edit, and the body. */
  function AfterEdit(g: Grammar, raw: string, body: string): (string, seq<string>) {
    var tags, typed := Split(g, raw).1, Typed(g, raw, body);
    if typed.Some? && Merge(g, tags, typed.value.tags).Some?
    then (typed.value.body, Merge(g, tags, typed.value.tags).value)
    else (body, tags)
  }

  /** A body edit never drops tags: either the new body is there whole and the tags are as they
      were, or its last line was a tag line typed by the user and its tags follow the old ones. */
  lemma BodyEditKeepsTags(g: Grammar, raw: string, body: string)
    requires Valid(g) && Parts(g, raw).Some?
    ensures Split(g, ReplaceBody(g, raw, body)) == AfterEdit(g, raw, body)
    ensures Split(g, raw).1 <= Split(g, ReplaceBody(g, raw, body)).1
  {
    hide Parts, Attach, ParseLine, ReplaceBody, Line, Typed, AddAll, OneLine;
    var p, typed := Parts(g, raw).value, Typed(g, raw, body);
    PartsOf(g, raw);
    TaggedEdit(g, raw, body);
    if typed.Some? && Merge(g, p.tags, typed.value.tags).Some? {
      var merged := Merge(g, p.tags, typed.value.tags).value;
      TypedParts(g, raw, body);
      PartsOf(g, body);
      AddAllCanonical(g, p.tags, typed.value.tags);
      LineParses(g, merged);
      LineClean(g, merged);
      AttachReadsBack(g, typed.value.body, p.sep, Line(merged), merged);
    } else {
      AttachReadsBack(g, body, p.sep, p.line, p.tags);
    }
  }

  /** On notes without a tag line a body edit makes one only of a line the user typed; a stored last
      line saved again stays body text. */
  lemma BodyEditUntagged(g: Grammar, raw: string, body: string)
    requires Valid(g) && Parts(g, raw).None?
    ensures Typed(g, raw, body).Some? ==> ReplaceBody(g, raw, body) == body
    ensures Typed(g, raw, body).None? ==> Parts(g, ReplaceBody(g, raw, body)).None?
  {
    hide Parts, ParseLine, StoredLastLine, RStrip, Merge, HoldOpen, StripNl, Attach;
    OpenBody(g, body);
    NoTagsInNothing(g);
  }

  lemma NoTagsInNothing(g: Grammar)
    ensures Parts(g, "").None?
  {
  }

  // --- saving notes unedited -----------------------------------------------------------------------

  lemma {:induction false} RStripTail(s: string, tail: string, cs: set<char>)
    requires forall i :: 0 <= i < |tail| ==> tail[i] in cs
    ensures RStrip(s + tail, cs) == RStrip(s, cs)
    decreases |tail|
  {
    if tail == "" {
      assert s + tail == s;
    } else {
      var shorter := tail[..|tail| - 1];
      assert (s + tail)[..|s + tail| - 1] == s + shorter;
      RStripTail(s, shorter, cs);
    }
  }

  lemma {:induction false} RStripCut(s: string, cs: set<char>) returns (tail: string)
    ensures s == RStrip(s, cs) + tail && forall i :: 0 <= i < |tail| ==> tail[i] in cs
    ensures RStrip(s, cs) != "" ==> RStrip(s, cs)[|RStrip(s, cs)| - 1] !in cs
  {
    if s != "" && s[|s| - 1] in cs {
      tail := RStripCut(s[..|s| - 1], cs);
      tail := tail + [s[|s| - 1]];
    } else {
      tail := "";
    }
  }

  lemma {:induction false} LStripCut(s: string) returns (lead: string)
    ensures s == lead + LStripNl(s) && forall i :: 0 <= i < |lead| ==> lead[i] == '\n'
  {
    if s != "" && s[0] == '\n' {
      lead := LStripCut(s[1..]);
      lead := "\n" + lead;
    } else {
      lead := "";
    }
  }

  /** A tag line is text that ends in no "\r", and at most one "\r". */
  lemma TagLineEnd(g: Grammar, line: string) returns (d: string, cr: string)
    requires Valid(g) && ParseLine(g, line).Some?
    ensures line == d + cr && (cr == "" || cr == "\r") && d != "" && !EndsCR(d)
  {
    ParseLineExactly(g, line);
    hide ParseLine, Valid;
    var lead, name, rest, cr', tokens :| TagLine(g, line, lead, name, rest, cr', tokens);
    SpacedStartsWs(rest, tokens);
    SpacedEnd(g, rest, tokens);
    d, cr := lead + name + rest, cr';
  }

  /** A line that parses keeps parsing without its "\r", and holds no other at its end. */
  lemma LineWithoutCR(g: Grammar, line: string)
    requires Valid(g) && ParseLine(g, line).Some?
    ensures ParseLine(g, DropCR(line)) == ParseLine(g, line)
    ensures DropCR(line) != "" && !EndsCR(DropCR(line)) && RStrip(line, {'\r'}) == DropCR(line)
  {
    hide Words, AddTokens, SkipWs, HasLabel;
    var d, cr := TagLineEnd(g, line);
    assert DropCR(line) == d && DropCR(d) == d;
    RStripTail(d, cr, {'\r'});
  }

  /** Line breaks put before a text do not change its last line. */
  lemma LastLineAfter(lead: string, s: string)
    requires forall i :: 0 <= i < |lead| ==> lead[i] == '\n'
    ensures LastLine(lead + s) == LastLine(s)
  {
    hide LastLine;
    LastLineOne(s);
    if !OneLine(s) {
      var h := LastLineSplit(s);
      Assoc(lead, h + "\n", LastLine(s));
      Assoc(lead, h, "\n");
      LastLineIs(lead + h, LastLine(s));
    } else if lead != "" {
      var h := lead[..|lead| - 1];
      assert lead == h + "\n";
      LastLineIs(h, s);
    } else {
      assert lead + s == s;
    }
  }

  /** What stored text is to its trimmed body `b`, when `b` is not blank: line breaks, `b`, and line
      breaks. */
  lemma StripNlCut(stored: string) returns (lead: string, tail: string)
    ensures stored == lead + StripNl(stored) + tail
    ensures forall i :: 0 <= i < |lead| ==> lead[i] == '\n'
    ensures forall i :: 0 <= i < |tail| ==> tail[i] == '\n'
  {
    tail := RStripCut(stored, {'\n'});
    lead := LStripCut(RStrip(stored, {'\n'}));
  }

  lemma BreaksOnly(cr: string, tail: string)
    requires forall i :: 0 <= i < |cr| ==> cr[i] == '\r'
    requires forall i :: 0 <= i < |tail| ==> tail[i] == '\n'
    ensures forall i :: 0 <= i < |cr + tail| ==> (cr + tail)[i] in {'\r', '\n'}
  {
  }

  lemma LastChar(s: string)
    requires LastLine(s) != ""
    ensures s != "" && s[|s| - 1] == LastLine(s)[|LastLine(s)| - 1]
  {
  }

  /** A text whose last line parses, without the "\r" at its end. */
  lemma CutCR(g: Grammar, b: string) returns (cut: string, cr: string)
    requires Valid(g) && ParseLine(g, LastLine(b)).Some?
    ensures b == cut + cr && (forall i :: 0 <= i < |cr| ==> cr[i] == '\r')
    ensures LastLine(cut) == DropCR(LastLine(b))
    ensures cut != "" && cut[|cut| - 1] !in {'\r', '\n'}
  {
    hide ParseLine, LastLine, RStrip, DropCR, OneLine, Valid;
    LastLineOne(b);
    LineEnd(g, LastLine(b));
    var line, cr' := DropCRCut(LastLine(b));
    CutLastLine(b, line, cr');
    cut, cr := b[..|b| - |cr'|], cr';
    LastChar(cut);
  }

  lemma DropCRCut(s: string) returns (line: string, cr: string)
    ensures line == DropCR(s) && s == line + cr && forall i :: 0 <= i < |cr| ==> cr[i] == '\r'
  {
    line := DropCR(s);
    cr := s[|line|..];
  }

  /** Stored text whose trimmed body ends in a tag line: line breaks, that body without the "\r" at
      its end, and line breaks. */
  lemma StoredShape(g: Grammar, stored: string) returns (lead: string, cut: string, rest: string)
    requires Valid(g) && ParseLine(g, LastLine(StripNl(stored))).Some?
    ensures stored == (lead + cut) + rest && LastLine(cut) == DropCR(LastLine(StripNl(stored)))
    ensures forall i :: 0 <= i < |lead| ==> lead[i] == '\n'
    ensures forall i :: 0 <= i < |rest| ==> rest[i] in {'\r', '\n'}
    ensures cut != "" && cut[|cut| - 1] !in {'\r', '\n'}
  {
    hide ParseLine, LastLine, DropCR, StripNl, OneLine, Valid;
    var cr, tail;
    cut, cr := CutCR(g, StripNl(stored));
    lead, tail := StripNlCut(stored);
    rest := cr + tail;
    Assoc(lead, cut, cr);
    Assoc(lead + cut, cr, tail);
    BreaksOnly(cr, tail);
  }

  /** The last line StoredLastLine looks at, when the trimmed body ends in a tag line. */
  lemma StoredCut(g: Grammar, stored: string)
    requires Valid(g) && ParseLine(g, LastLine(StripNl(stored))).Some?
    ensures LastLine(RStrip(stored, {'\r', '\n'})) == DropCR(LastLine(StripNl(stored)))
  {
    hide ParseLine, LastLine, RStrip, DropCR, StripNl, OneLine, Valid;
    var lead, cut, rest := StoredShape(g, stored);
    RStripTail(lead + cut, rest, {'\r', '\n'});
    NoStrip(lead, cut, {'\r', '\n'});
    LastLineAfter(lead, cut);
  }

  lemma NoStrip(lead: string, cut: string, cs: set<char>)
    requires cut != "" && cut[|cut| - 1] !in cs
    ensures RStrip(lead + cut, cs) == lead + cut
  {
  }

  lemma DropCRTail(s: string)
    ensures DropCR(s) <= s && forall i :: |DropCR(s)| <= i < |s| ==> s[i] == '\r'
  {
  }

  lemma LineEnd(g: Grammar, line: string)
    requires Valid(g) && ParseLine(g, line).Some? && OneLine(line)
    ensures DropCR(line) != "" && DropCR(line)[|DropCR(line)| - 1] !in {'\r', '\n'}
  {
    hide ParseLine, RStrip, DropCR;
    LineWithoutCR(g, line);
    DropCRTail(line);
    var d := DropCR(line);
    NoNlPrefix(line, |d|);
    assert line[..|d|] == d;
    OneLineEnd(d);
  }

  lemma OneLineEnd(s: string)
    requires OneLine(s) && s != ""
    ensures s[|s| - 1] != '\n'
  {
  }

  /** The body of stored notes, trimmed of outer line breaks, is never taken for a typed line. */
  lemma TrimmedIsStored(g: Grammar, stored: string)
    requires Valid(g)
    ensures var b := StripNl(stored);
      b != "" && Parts(g, b).Some? ==>
        StoredLastLine(g, stored) == Some(RStrip(Parts(g, b).value.line, {'\r'}))
  {
    var b := StripNl(stored);
    if Parts(g, b).Some? {
      StoredCut(g, stored);
      LineWithoutCR(g, LastLine(b));
      RStripIdle(DropCR(LastLine(b)));
    }
  }

  lemma RStripIdle(s: string)
    requires !EndsCR(s)
    ensures RStrip(s, {'\r'}) == s
  {
  }

  lemma {:induction false} NoNlPrefix(line: string, n: nat)
    requires OneLine(line) && n <= |line|
    ensures OneLine(line[..n])
  {
    if n == |line| {
      assert line[..n] == line;
    } else {
      var shorter := line[..|line| - 1];
      assert shorter[..n] == line[..n];
      NoNlPrefix(shorter, n);
    }
  }

  /** Cutting the end off the last line cuts just that line. */
  lemma CutLastLine(b: string, line: string, tail: string)
    requires LastLine(b) == line + tail
    ensures b == b[..|b| - |tail|] + tail && LastLine(b[..|b| - |tail|]) == line
  {
    hide LastLine;
    LastLineOne(b);
    NoNlPrefix(line + tail, |line|);
    assert (line + tail)[..|line|] == line;
    if !OneLine(b) {
      var h := LastLineSplit(b);
      Assoc(h + "\n", line, tail);
      LastLineIs(h, line);
    }
  }

  /** Saving notes unedited (callers trim outer line breaks) never changes the tags, and leaves
      notes without a tag line byte for byte when their last line was held open. */
  lemma SaveUnedited(g: Grammar, raw: string)
    requires Valid(g)
    ensures var b := StripNl(Split(g, raw).0);
      && Split(g, ReplaceBody(g, raw, b)).1 == Split(g, raw).1
      && (Parts(g, raw).Some? ==> Split(g, ReplaceBody(g, raw, b)).0 == b)
      && (Parts(g, raw).None? ==> ReplaceBody(g, raw, b) == (if Parts(g, b).Some? then raw else b))
  {
    hide Parts, StoredLastLine, RStrip, StripNl, Merge;
    var body := Split(g, raw).0;
    var b := StripNl(body);
    TrimmedIsStored(g, body);
    NoTagsInNothing(g);
    assert Typed(g, raw, b).None?;
    if Parts(g, raw).Some? { UneditedTagged(g, raw, b); } else { UneditedUntagged(g, raw); }
  }

  lemma UneditedTagged(g: Grammar, raw: string, b: string)
    requires Valid(g) && Parts(g, raw).Some? && Typed(g, raw, b).None?
    ensures Split(g, ReplaceBody(g, raw, b)) == (b, Split(g, raw).1)
  {
    hide Parts, Typed, ReplaceBody, Merge;
    BodyEditKeepsTags(g, raw, b);
  }

  lemma UneditedUntagged(g: Grammar, raw: string)
    requires Valid(g) && Parts(g, raw).None?
    ensures var b := StripNl(raw); Typed(g, raw, b).None? ==>
      && ReplaceBody(g, raw, b) == (if Parts(g, b).Some? then raw else b)
      && Parts(g, ReplaceBody(g, raw, b)).None?
  {
    hide Parts, StoredLastLine, RStrip, StripNl, Merge, HoldOpen, Attach;
    NoTagsInNothing(g);
    BodyEditUntagged(g, raw, StripNl(raw));
  }

  /** The splice of an edit that sets tags, a body, or both (backend/icp/keychain/update.py). */
  function EditNotes(g: Grammar, raw: string, body: Option<string>, tags: Option<seq<string>>): string {
    var text := if tags.Some? then ReplaceTags(g, raw, tags.value) else raw;
    if body.Some? then ReplaceBody(g, text, StripNl(body.value)) else text
  }

  /** An edit that sets tags and a body keeps every tag it set, in front of those typed. */
  lemma EditKeepsTags(g: Grammar, raw: string, body: string, tags: seq<string>)
    requires Valid(g) && Canonical(g, tags) && tags != []
    ensures tags <= Split(g, EditNotes(g, raw, Some(body), Some(tags))).1
  {
    ReplaceTagsReadsBack(g, raw, tags);
    BodyEditKeepsTags(g, ReplaceTags(g, raw, tags), StripNl(body));
  }
}
