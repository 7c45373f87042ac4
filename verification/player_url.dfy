/**
 * `getPlayerUrl`: discovers the video front-end's current domain from a page.
 * Tier 1 searches the whole page for
 *   const\s+AwsIndStreamDomain\s*=\s*['"]([^'"]+)['"]   (case-insensitive)
 * and strips one trailing slash from the capture; tier 2 searches each script
 * body in document order for the same pattern without `const\s+` and returns
 * the capture verbatim; on any error a configured default is returned verbatim.
 * The fetch and the DOM are inputs: a success flag, the page text and the
 * script bodies.
 */
module PlayerUrl {
  import opened Wrappers
  import opened Text
  import opened Seqs

  const ConstKeyword: string := "const"
  const Marker: string := "AwsIndStreamDomain"

  /** The keywords as the case-insensitive comparison sees them. */
  const FoldedConst: string := "const"
  const FoldedMarker: string := "awsindstreamdomain"

  /** `const` folds to itself. */
  lemma FoldedConstKeyword()
    ensures Lower(ConstKeyword) == FoldedConst
  {
    FoldsTo(ConstKeyword, FoldedConst);
  }

  /** `AwsIndStreamDomain` folds to the all-lower-case marker. */
  lemma FoldedMarkerKeyword()
    ensures Lower(Marker) == FoldedMarker
  {
    assert LowerChar('A') == 'a' && LowerChar('I') == 'i' && LowerChar('S') == 's' && LowerChar('D') == 'd';
    FoldsTo(Marker, FoldedMarker);
  }

  /** `\s`: the ECMAScript WhiteSpace and LineTerminator characters. None of the characters
      that may follow a run of them in the pattern (`=`, a quote, a letter) is one, so the
      greedy runs never give anything back. */
  predicate IsSpace(c: char)
    ensures c == ' ' || c == '\t' || c == '\n' || c == '\r' || c == '\U{00A0}' || c == '\U{3000}' ==> IsSpace(c)
    ensures IsSpace(c) ==> c != '=' && !IsQuote(c) && !('a' <= c <= 'z') && !('A' <= c <= 'Z')
  {
    var n := c as int;
    n == 0x09 || n == 0x0A || n == 0x0B || n == 0x0C || n == 0x0D || n == 0x20
    || n == 0xA0 || n == 0x1680 || (0x2000 <= n <= 0x200A) || n == 0x2028 || n == 0x2029
    || n == 0x202F || n == 0x205F || n == 0x3000 || n == 0xFEFF
  }

  /** `['"]` */
  predicate IsQuote(c: char)
  {
    c == '\'' || c == '"'
  }

  ghost predicate AllSpace(s: string)
  {
    forall k :: 0 <= k < |s| ==> IsSpace(s[k])
  }

  /** Every character lies in `[^'"]`. */
  ghost predicate QuoteFree(s: string)
  {
    forall k :: 0 <= k < |s| ==> !IsQuote(s[k])
  }

  // ----- Anchored matching at the start of a suffix of the text -----

  /** Length of the `\s*` run at the start of `t`. */
  function SpaceRun(t: string): (n: nat)
    ensures n <= |t|
    ensures forall k :: 0 <= k < n ==> IsSpace(t[k])
    ensures n == |t| || !IsSpace(t[n])
  {
    if t != [] && IsSpace(t[0]) then SpaceRun(t[1..]) + 1 else 0
  }

  /** Length of the `[^'"]*` run at the start of `t`. */
  function QuoteRun(t: string): (n: nat)
    ensures n <= |t|
    ensures forall k :: 0 <= k < n ==> !IsQuote(t[k])
    ensures n == |t| || IsQuote(t[n])
  {
    if t != [] && !IsQuote(t[0]) then QuoteRun(t[1..]) + 1 else 0
  }

  /** `\s*['"]([^'"]+)['"]` at the start of `u`, yielding the capture. */
  function MatchQuoted(u: string): (r: Option<string>)
    ensures r.Some? ==> r.value != "" && QuoteFree(r.value)
  {
    var j := SpaceRun(u);
    if j == |u| || !IsQuote(u[j]) then None
    else
      var body := u[j + 1..];
      var n := QuoteRun(body);
      if n == 0 || n == |body| then None else Some(body[..n])
  }

  /** `\s*=\s*['"]([^'"]+)['"]` at the start of `t`, yielding the capture. */
  function MatchValue(t: string): (r: Option<string>)
    ensures r.Some? ==> r.value != "" && QuoteFree(r.value)
  {
    var i := SpaceRun(t);
    if i == |t| || t[i] != '=' then None else MatchQuoted(t[i + 1..])
  }

  /** `AwsIndStreamDomain` (any ASCII case) followed by the value part. */
  function MatchName(t: string): (r: Option<string>)
    ensures r.Some? ==> r.value != "" && QuoteFree(r.value)
  {
    if |t| >= |FoldedMarker| && Lower(t[..|FoldedMarker|]) == FoldedMarker then MatchValue(t[|FoldedMarker|..])
    else None
  }

  /** The strict (`strict`) or relaxed pattern anchored at the start of `t`. */
  function MatchHere(t: string, strict: bool): (r: Option<string>)
    ensures r.Some? ==> r.value != "" && QuoteFree(r.value)
  {
    if !strict then MatchName(t)
    else if |t| >= |FoldedConst| && Lower(t[..|FoldedConst|]) == FoldedConst then
      var u := t[|FoldedConst|..];
      var n := SpaceRun(u);
      if n == 0 then None else MatchName(u[n..])
    else None
  }

  // ----- The language of the pattern, as text built from its parts -----

  /** The pieces of one matching assignment; `keyword` and `gap` are used by the strict pattern only. */
  datatype Assignment = Assignment(
    keyword: string, gap: string, name: string, before: string, after: string,
    open: char, value: string, close: char)

  /** The parts obey the pattern: folded keywords, white-space gaps, quotes, a non-empty quote-free value. */
  ghost predicate WellFormed(a: Assignment, strict: bool)
  {
    && (strict ==> Lower(a.keyword) == FoldedConst && a.gap != [] && AllSpace(a.gap))
    && Lower(a.name) == FoldedMarker
    && AllSpace(a.before) && AllSpace(a.after)
    && IsQuote(a.open) && IsQuote(a.close)
    && a.value != [] && QuoteFree(a.value)
  }

  /** The text of an assignment followed by arbitrary `rest`. */
  function Render(a: Assignment, strict: bool, rest: string): string
  {
    var tail := a.name + (a.before + ("=" + (a.after + ([a.open] + (a.value + ([a.close] + rest))))));
    if strict then a.keyword + (a.gap + tail) else tail
  }

  lemma {:induction false} SpaceRunOver(gap: string, v: string)
    requires AllSpace(gap)
    requires v == [] || !IsSpace(v[0])
    ensures SpaceRun(gap + v) == |gap|
  {
    if gap != [] {
      assert (gap + v)[1..] == gap[1..] + v;
      SpaceRunOver(gap[1..], v);
    }
  }

  lemma {:induction false} QuoteRunOver(value: string, q: char, rest: string)
    requires QuoteFree(value) && IsQuote(q)
    ensures QuoteRun(value + ([q] + rest)) == |value|
  {
    if value != [] {
      assert (value + ([q] + rest))[1..] == value[1..] + ([q] + rest);
      QuoteRunOver(value[1..], q, rest);
    }
  }

  lemma QuotedRendered(after: string, open: char, value: string, close: char, rest: string)
    requires AllSpace(after) && IsQuote(open) && IsQuote(close)
    requires value != [] && QuoteFree(value)
    ensures MatchQuoted(after + ([open] + (value + ([close] + rest)))) == Some(value)
  {
    var body := value + ([close] + rest);
    var u := after + ([open] + body);
    SpaceRunOver(after, [open] + body);
    assert u[|after| + 1..] == body;
    QuoteRunOver(value, close, rest);
    assert body[..|value|] == value;
  }

  lemma ValueRendered(before: string, u: string)
    requires AllSpace(before)
    ensures MatchValue(before + ("=" + u)) == MatchQuoted(u)
  {
    var t := before + ("=" + u);
    SpaceRunOver(before, "=" + u);
    assert t[|before| + 1..] == u;
  }

  lemma NameRendered(name: string, v: string)
    requires Lower(name) == FoldedMarker
    ensures MatchName(name + v) == MatchValue(v)
  {
    assert |name| == |FoldedMarker|;
    assert (name + v)[..|FoldedMarker|] == name;
    assert (name + v)[|FoldedMarker|..] == v;
  }

  /** A character that folds to a letter is not white space. */
  lemma LetterNotSpace(c: char)
    requires 'a' <= LowerChar(c) <= 'z'
    ensures !IsSpace(c)
  {
  }

  lemma KeywordRendered(keyword: string, gap: string, tail: string)
    requires Lower(keyword) == FoldedConst && gap != [] && AllSpace(gap)
    requires tail == [] || !IsSpace(tail[0])
    ensures MatchHere(keyword + (gap + tail), true) == MatchName(tail)
  {
    var t := keyword + (gap + tail);
    assert |keyword| == |FoldedConst|;
    assert t[..|FoldedConst|] == keyword;
    assert t[|FoldedConst|..] == gap + tail;
    SpaceRunOver(gap, tail);
    assert (gap + tail)[|gap|..] == tail;
  }

  /** Every well-formed assignment is matched, and its value is the capture. */
  lemma RenderMatches(a: Assignment, strict: bool, rest: string)
    requires WellFormed(a, strict)
    ensures MatchHere(Render(a, strict, rest), strict) == Some(a.value)
  {
    var v := a.before + ("=" + (a.after + ([a.open] + (a.value + ([a.close] + rest)))));
    QuotedRendered(a.after, a.open, a.value, a.close, rest);
    ValueRendered(a.before, a.after + ([a.open] + (a.value + ([a.close] + rest))));
    NameRendered(a.name, v);
    if strict {
      var tail := a.name + v;
      assert Lower(a.name)[0] == FoldedMarker[0];
      LetterNotSpace(a.name[0]);
      KeywordRendered(a.keyword, a.gap, tail);
    }
  }

  /** Cutting a string in two. */
  lemma CutAt(s: string, k: int)
    requires 0 <= k <= |s|
    ensures s == s[..k] + s[k..]
  {
  }

  /** Cutting a string around one of its characters. */
  lemma SplitAt(s: string, k: int)
    requires 0 <= k < |s|
    ensures s == s[..k] + ([s[k]] + s[k + 1..])
  {
  }

  /** The parts of a value match: white space, `=`, white space, a quote, the capture, a quote, the rest. */
  lemma QuotedParts(u: string) returns (after: string, open: char, value: string, close: char, rest: string)
    requires MatchQuoted(u).Some?
    ensures MatchQuoted(u) == Some(value)
    ensures AllSpace(after) && IsQuote(open) && IsQuote(close)
    ensures u == after + ([open] + (value + ([close] + rest)))
  {
    var j := SpaceRun(u);
    var body := u[j + 1..];
    var n := QuoteRun(body);
    after, open, value, close, rest := u[..j], u[j], body[..n], body[n], body[n + 1..];
    SplitAt(body, n);
    SplitAt(u, j);
  }

  lemma ValueParts(t: string) returns (before: string, u: string)
    requires MatchValue(t).Some?
    ensures MatchQuoted(u) == MatchValue(t)
    ensures AllSpace(before)
    ensures t == before + ("=" + u)
  {
    var i := SpaceRun(t);
    before, u := t[..i], t[i + 1..];
    SplitAt(t, i);
  }

  lemma NameParts(t: string) returns (name: string, v: string)
    requires MatchName(t).Some?
    ensures Lower(name) == FoldedMarker && t == name + v && MatchValue(v) == MatchName(t)
  {
    name, v := t[..|FoldedMarker|], t[|FoldedMarker|..];
  }

  lemma KeywordParts(t: string) returns (keyword: string, gap: string, tail: string)
    requires MatchHere(t, true).Some?
    ensures MatchName(tail) == MatchHere(t, true)
    ensures Lower(keyword) == FoldedConst && gap != [] && AllSpace(gap)
    ensures t == keyword + (gap + tail)
  {
    var u := t[|FoldedConst|..];
    var n := SpaceRun(u);
    keyword, gap, tail := t[..|FoldedConst|], u[..n], u[n..];
    CutAt(u, n);
    CutAt(t, |FoldedConst|);
  }

  /** The relaxed pattern's text, taken apart. */
  lemma NameValueParts(tail: string) returns (a: Assignment, rest: string)
    requires MatchName(tail).Some?
    ensures a.keyword == [] && a.gap == []
    ensures WellFormed(a, false) && Some(a.value) == MatchName(tail)
    ensures tail == Render(a, false, rest)
  {
    var name, v := NameParts(tail);
    var before, u := ValueParts(v);
    var after, open, value, close, quotedRest := QuotedParts(u);
    a, rest := Assignment([], [], name, before, after, open, value, close), quotedRest;
  }

  /** The strict text is the keyword and the gap before the relaxed text. */
  lemma RenderStrict(a: Assignment, rest: string)
    ensures Render(a, true, rest) == a.keyword + (a.gap + Render(a, false, rest))
  {
  }

  /** Every match is a well-formed assignment whose value is the capture. */
  lemma MatchIsRendered(t: string, strict: bool)
    requires MatchHere(t, strict).Some?
    ensures exists a, rest :: WellFormed(a, strict) && a.value == MatchHere(t, strict).value
                           && t == Render(a, strict, rest)
  {
    if strict {
      var keyword, gap, tail := KeywordParts(t);
      var a, rest := NameValueParts(tail);
      var b := a.(keyword := keyword, gap := gap);
      RenderStrict(b, rest);
      assert Render(b, false, rest) == Render(a, false, rest);
      assert WellFormed(b, true) && b.value == MatchHere(t, true).value && t == Render(b, true, rest);
    } else {
      var a, rest := NameValueParts(t);
      assert WellFormed(a, false) && a.value == MatchHere(t, false).value && t == Render(a, false, rest);
    }
  }

  /** Once the match position is fixed the capture is determined. */
  lemma CaptureDetermined(a1: Assignment, rest1: string, a2: Assignment, rest2: string, strict: bool)
    requires WellFormed(a1, strict) && WellFormed(a2, strict)
    requires Render(a1, strict, rest1) == Render(a2, strict, rest2)
    ensures a1.value == a2.value
  {
    RenderMatches(a1, strict, rest1);
    RenderMatches(a2, strict, rest2);
  }

  // ----- Leftmost search -----

  /** A match: where it starts and what it captured. */
  datatype Hit = Hit(at: nat, capture: string)

  /** The anchored matcher of one pattern. */
  function Matcher(strict: bool): string -> Option<string>
  {
    (t: string) => MatchHere(t, strict)
  }

  /** Tries every start position from `i` on, as `String.prototype.match` does. */
  function SearchFrom(s: string, i: nat, m: string -> Option<string>): (r: Option<Hit>)
    requires i <= |s|
    ensures r.Some? ==> i <= r.value.at <= |s| && m(s[r.value.at..]) == Some(r.value.capture)
    ensures r.Some? ==> forall p :: i <= p < r.value.at ==> m(s[p..]).None?
    ensures r.None? ==> forall p :: i <= p <= |s| ==> m(s[p..]).None?
    decreases |s| - i
  {
    match m(s[i..])
    case Some(c) => Some(Hit(i, c))
    case None => if i == |s| then None else SearchFrom(s, i + 1, m)
  }

  /** The leftmost match of the pattern in `s`. */
  function FirstMatch(s: string, strict: bool): (r: Option<Hit>)
    ensures r.Some? ==> r.value.at <= |s| && MatchHere(s[r.value.at..], strict) == Some(r.value.capture)
    ensures r.Some? ==> forall p :: 0 <= p < r.value.at ==> MatchHere(s[p..], strict).None?
    ensures r.None? ==> forall p :: 0 <= p <= |s| ==> MatchHere(s[p..], strict).None?
    ensures r.Some? ==> r.value.capture != "" && QuoteFree(r.value.capture)
  {
    SearchFrom(s, 0, Matcher(strict))
  }

  /** A script body in which the relaxed pattern occurs. */
  predicate ScriptMatches(body: string)
  {
    FirstMatch(body, false).Some?
  }

  /** Tier 2: the capture from the first script body that matches; later bodies are never read. */
  function ScriptMatch(scripts: seq<string>): (r: Option<string>)
    ensures r.None? <==> NoneMatch(scripts, ScriptMatches)
    ensures forall k :: IsFirst(scripts, ScriptMatches, k) ==> r == Some(FirstMatch(scripts[k], false).value.capture)
  {
    match FindIndex(scripts, ScriptMatches)
    case None => None
    case Some(k) =>
      assert forall k' :: IsFirst(scripts, ScriptMatches, k') ==> k' == k by {
        forall k' | IsFirst(scripts, ScriptMatches, k') ensures k' == k { FindIndexIsFirst(scripts, ScriptMatches, k'); }
      }
      Some(FirstMatch(scripts[k], false).value.capture)
  }

  /** Drops the final character when it is a slash, and changes nothing otherwise. */
  function StripTrailingSlash(u: string): (r: string)
    ensures r <= u && |u| - 1 <= |r|
    ensures |r| < |u| <==> (u != [] && u[|u| - 1] == '/')
  {
    if u != [] && u[|u| - 1] == '/' then u[..|u| - 1] else u
  }

  /** Only one slash goes: `"a//"` becomes `"a/"`. */
  lemma StripRemovesOneSlash()
    ensures StripTrailingSlash("a//") == "a/"
  {
  }

  // ----- The three tiers -----

  datatype DiscoveryError = FetchFailed | PlayerUrlNotFound

  /** The body of the `try` once the page is in hand: tier 1, then tier 2. */
  function Discover(page: string, scripts: seq<string>): (r: Result<string, DiscoveryError>)
    ensures r.Failure? ==> r.error == PlayerUrlNotFound
    ensures r.Success? ==> QuoteFree(r.value)
  {
    match FirstMatch(page, true)
    case Some(hit) => Success(StripTrailingSlash(hit.capture))
    case None =>
      match ScriptMatch(scripts)
      case Some(url) => Success(url)
      case None => Failure(PlayerUrlNotFound)
  }

  /** `getPlayerUrl`: on any error a truthy default is returned verbatim, otherwise the error propagates. */
  function GetPlayerUrl(fetchOk: bool, page: string, scripts: seq<string>, defaultUrl: Option<string>): (r: Result<string, DiscoveryError>)
    ensures r.Failure? ==> !Truthy(defaultUrl)
    ensures r.Failure? ==> r.error == if fetchOk then PlayerUrlNotFound else FetchFailed
    ensures r.Success? ==> QuoteFree(r.value) || (Truthy(defaultUrl) && r.value == defaultUrl.value)
    ensures !fetchOk && r.Success? ==> Truthy(defaultUrl) && r.value == defaultUrl.value
  {
    var attempt := if fetchOk then Discover(page, scripts) else Failure(FetchFailed);
    if attempt.Failure? && Truthy(defaultUrl) then Success(defaultUrl.value) else attempt
  }

  /** A match at `q` with none before it is the first match. */
  lemma FirstMatchAt(s: string, q: nat, c: string, strict: bool)
    requires q <= |s| && MatchHere(s[q..], strict) == Some(c)
    requires forall p :: 0 <= p < q ==> MatchHere(s[p..], strict).None?
    ensures FirstMatch(s, strict) == Some(Hit(q, c))
  {
  }

  /** The first match in a text made of a match-free stretch and then an assignment is that assignment. */
  lemma FirstMatchRendered(pre: string, a: Assignment, rest: string, strict: bool)
    requires WellFormed(a, strict)
    requires forall p :: 0 <= p < |pre| ==> MatchHere((pre + Render(a, strict, rest))[p..], strict).None?
    ensures FirstMatch(pre + Render(a, strict, rest), strict) == Some(Hit(|pre|, a.value))
  {
    var s := pre + Render(a, strict, rest);
    assert s[|pre|..] == Render(a, strict, rest);
    RenderMatches(a, strict, rest);
    FirstMatchAt(s, |pre|, a.value, strict);
  }

  /** Tier 1: the leftmost strict assignment in the page wins, slash-stripped, whatever
      the scripts and the default are. */
  lemma PageAssignmentWins(pre: string, a: Assignment, rest: string, scripts: seq<string>, defaultUrl: Option<string>)
    requires WellFormed(a, true)
    requires forall p :: 0 <= p < |pre| ==> MatchHere((pre + Render(a, true, rest))[p..], true).None?
    ensures GetPlayerUrl(true, pre + Render(a, true, rest), scripts, defaultUrl) == Success(StripTrailingSlash(a.value))
  {
    FirstMatchRendered(pre, a, rest, true);
  }

  /** Tier 2: when the page has no strict match and no earlier script has a relaxed one,
      the first relaxed assignment of this script is returned verbatim; later scripts
      and the default play no part. */
  lemma ScriptAssignmentWins(page: string, pre: seq<string>, bodyPre: string, a: Assignment, bodyRest: string,
                             post: seq<string>, defaultUrl: Option<string>)
    requires FirstMatch(page, true).None?
    requires forall k :: 0 <= k < |pre| ==> FirstMatch(pre[k], false).None?
    requires WellFormed(a, false)
    requires forall p :: 0 <= p < |bodyPre| ==> MatchHere((bodyPre + Render(a, false, bodyRest))[p..], false).None?
    ensures GetPlayerUrl(true, page, pre + [bodyPre + Render(a, false, bodyRest)] + post, defaultUrl) == Success(a.value)
  {
    var body := bodyPre + Render(a, false, bodyRest);
    FirstMatchRendered(bodyPre, a, bodyRest, false);
    var scripts := pre + [body] + post;
    assert forall k :: 0 <= k < |pre| ==> scripts[k] == pre[k];
    assert scripts[|pre|] == body;
    assert IsFirst(scripts, ScriptMatches, |pre|);
    assert ScriptMatch(scripts) == Some(a.value);
  }

  /** Tier 3: with nothing to find (or no page at all) the default decides, verbatim;
      without one the error propagates. */
  lemma DefaultDecides(fetchOk: bool, page: string, scripts: seq<string>, defaultUrl: Option<string>)
    requires !fetchOk || (FirstMatch(page, true).None? && forall k :: 0 <= k < |scripts| ==> FirstMatch(scripts[k], false).None?)
    ensures GetPlayerUrl(fetchOk, page, scripts, defaultUrl)
      == if Truthy(defaultUrl) then Success(defaultUrl.value)
         else Failure(if fetchOk then PlayerUrlNotFound else FetchFailed)
  {
    if fetchOk {
      assert NoneMatch(scripts, ScriptMatches);
    }
  }
}
