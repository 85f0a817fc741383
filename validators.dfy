/**
 * The response validators: a keyword check, a regular-expression check and a
 * JSON check. Each validator carries a name, a description and a failure
 * message; `validate` is a pure test of the content.
 */
module Validators {
  import opened Wrappers
  import opened Text
  import opened Document

  /**
   * The regular-expression engine, left abstract: `m(pattern, content, i, j)`
   * holds when `pattern`, compiled with MULTILINE and DOTALL, matches the span
   * `content[i..j]` in the context of the whole content.
   */
  type Matcher = (string, string, nat, nat) -> bool

  /** `json.loads`, left abstract: None when it raises. */
  type JsonParser = string -> Option<Value>

  /** What distinguishes the three validator classes. */
  datatype Rule =
    | Regex(pattern: string)
    | Keyword(keywords: seq<string>, mustInclude: bool)
    | JsonSchema(schema: Option<Value>)

  datatype Validator = Validator(name: string, description: string, failureMessage: string, rule: Rule)

  /** The constructors, with their default arguments. */
  function RegexValidator(pattern: string, name: string := "Regex Check", description: string := "",
                          failureMessage: string := "Format mismatch"): Validator {
    Validator(name, description, failureMessage, Regex(pattern))
  }

  function KeywordValidator(keywords: seq<string>, mustInclude: bool := true, name: string := "Keyword Check",
                            description: string := "", failureMessage: string := "Keyword validation failed"): Validator {
    Validator(name, description, failureMessage, Keyword(keywords, mustInclude))
  }

  function JsonSchemaValidator(schema: Option<Value> := None, name: string := "JSON Check", description: string := "",
                               failureMessage: string := "Invalid JSON"): Validator {
    Validator(name, description, failureMessage, JsonSchema(schema))
  }

  /** `self.__class__.__name__`. */
  function ClassName(r: Rule): string {
    match r
    case Regex(_) => "RegexValidator"
    case Keyword(_, _) => "KeywordValidator"
    case JsonSchema(_) => "JsonSchemaValidator"
  }

  /** `get_error_message`. */
  function ErrorMessage(v: Validator): string {
    v.failureMessage
  }

  /** `to_dict`: name, class name and description, and nothing of the rule's own settings. */
  function ToDict(v: Validator): (d: seq<(string, Value)>)
    ensures |d| == 3 && d[0].0 == "name" && d[1].0 == "type" && d[2].0 == "description"
  {
    [("name", Str(v.name)), ("type", Str(ClassName(v.rule))), ("description", Str(v.description))]
  }

  /** Two validators serialise alike exactly when they agree on name, class and description. */
  lemma ToDictDeterminedBy(v: Validator, w: Validator)
    ensures ToDict(v) == ToDict(w) <==>
      v.name == w.name && v.description == w.description && ClassName(v.rule) == ClassName(w.rule)
  {
    if ToDict(v) == ToDict(w) {
      assert ToDict(v)[0] == ToDict(w)[0];
      assert ToDict(v)[1] == ToDict(w)[1];
      assert ToDict(v)[2] == ToDict(w)[2];
    }
  }

  /** The error message is the configured failure message, whatever the rule. */
  lemma ErrorMessageIsFailureMessage(k: seq<string>, must: bool, message: string)
    ensures ErrorMessage(KeywordValidator(k, must, failureMessage := message)) == message
    ensures ErrorMessage(KeywordValidator(k, must)) == "Keyword validation failed"
    ensures ErrorMessage(RegexValidator("", failureMessage := message)) == message
    ensures ErrorMessage(JsonSchemaValidator()) == "Invalid JSON"
  {
  }

  // ---------------------------------------------------------------------
  // KeywordValidator

  /** `[k for k in keywords if k.lower() in contentLower]`. */
  function FoundKeywords(keywords: seq<string>, contentLower: string): (found: seq<string>)
    ensures |found| <= |keywords|
    ensures forall k | k in found :: k in keywords && Contains(contentLower, Lower(k))
  {
    if keywords == [] then []
    else
      var rest := FoundKeywords(keywords[1..], contentLower);
      if Contains(contentLower, Lower(keywords[0])) then [keywords[0]] + rest else rest
  }

  /** `KeywordValidator.validate`: every keyword found, or none found. */
  predicate KeywordValid(keywords: seq<string>, mustInclude: bool, content: string) {
    var found := FoundKeywords(keywords, Lower(content));
    if mustInclude then |found| == |keywords| else |found| == 0
  }

  /** Every keyword is found exactly when the filter keeps the whole list. */
  lemma {:induction false} FoundAll(keywords: seq<string>, h: string)
    ensures |FoundKeywords(keywords, h)| == |keywords| <==>
      forall i | 0 <= i < |keywords| :: Contains(h, Lower(keywords[i]))
  {
    if keywords != [] {
      FoundAll(keywords[1..], h);
      if forall i | 0 <= i < |keywords| :: Contains(h, Lower(keywords[i])) {
        forall i | 0 <= i < |keywords[1..]| ensures Contains(h, Lower(keywords[1..][i])) {
          assert keywords[1..][i] == keywords[i + 1];
        }
      }
      if |FoundKeywords(keywords, h)| == |keywords| {
        assert Contains(h, Lower(keywords[0]));
        forall i | 0 <= i < |keywords| ensures Contains(h, Lower(keywords[i])) {
          if i > 0 {
            assert keywords[i] == keywords[1..][i - 1];
          }
        }
      }
    }
  }

  /** No keyword is found exactly when the filter keeps nothing. */
  lemma {:induction false} FoundNone(keywords: seq<string>, h: string)
    ensures |FoundKeywords(keywords, h)| == 0 <==>
      forall i | 0 <= i < |keywords| :: !Contains(h, Lower(keywords[i]))
  {
    if keywords != [] {
      FoundNone(keywords[1..], h);
      if |FoundKeywords(keywords, h)| == 0 {
        forall i | 0 <= i < |keywords| ensures !Contains(h, Lower(keywords[i])) {
          if i > 0 {
            assert keywords[i] == keywords[1..][i - 1];
          }
        }
      }
      if forall i | 0 <= i < |keywords| :: !Contains(h, Lower(keywords[i])) {
        forall i | 0 <= i < |keywords[1..]| ensures !Contains(h, Lower(keywords[1..][i])) {
          assert keywords[1..][i] == keywords[i + 1];
        }
      }
    }
  }

  /** With `must_include`, the check passes exactly when every lowercased keyword occurs in the lowercased content. */
  lemma MustIncludeIff(keywords: seq<string>, content: string)
    ensures KeywordValid(keywords, true, content) <==>
      forall i | 0 <= i < |keywords| :: Contains(Lower(content), Lower(keywords[i]))
  {
    FoundAll(keywords, Lower(content));
  }

  /** Without `must_include`, the check passes exactly when no keyword occurs. */
  lemma MustExcludeIff(keywords: seq<string>, content: string)
    ensures KeywordValid(keywords, false, content) <==>
      forall i | 0 <= i < |keywords| :: !Contains(Lower(content), Lower(keywords[i]))
  {
    FoundNone(keywords, Lower(content));
  }

  /** An empty keyword list passes in both modes. */
  lemma EmptyKeywordsPass(content: string)
    ensures KeywordValid([], true, content) && KeywordValid([], false, content)
  {
  }

  /** For one keyword, the two modes disagree on every content. */
  lemma {:induction false} SingleKeywordOpposite(k: string, content: string)
    ensures KeywordValid([k], true, content) <==> !KeywordValid([k], false, content)
  {
    MustIncludeIff([k], content);
    MustExcludeIff([k], content);
  }

  // ---------------------------------------------------------------------
  // RegexValidator: `re.search` succeeds when some span matches.

  /** Some span starting at `i` and ending at `j` or later matches. */
  function MatchEndingFrom(m: Matcher, pattern: string, content: string, i: nat, j: nat): (r: bool)
    requires i <= j <= |content|
    ensures r <==> exists e | j <= e <= |content| :: m(pattern, content, i, e)
    decreases |content| - j
  {
    if m(pattern, content, i, j) then true
    else if j == |content| then false
    else MatchEndingFrom(m, pattern, content, i, j + 1)
  }

  /** `re.search` from position `i` on: the scan over start positions. */
  function SearchFrom(m: Matcher, pattern: string, content: string, i: nat): (r: bool)
    requires i <= |content|
    ensures r <==> exists s, e | i <= s <= e <= |content| :: m(pattern, content, s, e)
    decreases |content| - i
  {
    MatchEndingFrom(m, pattern, content, i, i)
    || (i < |content| && SearchFrom(m, pattern, content, i + 1))
  }

  /** `RegexValidator.validate`. */
  function RegexValid(m: Matcher, pattern: string, content: string): (r: bool)
    ensures r <==> exists s, e | 0 <= s <= e <= |content| :: m(pattern, content, s, e)
  {
    SearchFrom(m, pattern, content, 0)
  }

  // ---------------------------------------------------------------------
  // JsonSchemaValidator: the text given to `json.loads` is the body of the
  // first fenced block matched by the pattern ```json\s*(.*?)\s*``` (with
  // DOTALL), or else the whole content.

  const JsonFenceOpen := "```json"
  const FenceClose := "```"

  /** The first occurrence of `p` at or after `from`. */
  function IndexFrom(s: string, p: string, from: nat): (r: Option<nat>)
    ensures r.Some? ==> from <= r.value && OccursAt(s, p, r.value)
    ensures r.Some? ==> forall j | from <= j < r.value :: !OccursAt(s, p, j)
    ensures r.None? ==> forall j | from <= j :: !OccursAt(s, p, j)
    decreases |s| - from
  {
    if from + |p| > |s| then None
    else if OccursAt(s, p, from) then Some(from)
    else IndexFrom(s, p, from + 1)
  }

  /** The end of the whitespace run starting at `i` (`\s*`, greedy). */
  function SkipSpaces(s: string, i: nat): (r: nat)
    requires i <= |s|
    ensures i <= r <= |s|
    ensures forall j | i <= j < r :: IsSpace(s[j])
    ensures r < |s| ==> !IsSpace(s[r])
    decreases |s| - i
  {
    if i < |s| && IsSpace(s[i]) then SkipSpaces(s, i + 1) else i
  }

  /** The start of the whitespace run ending at `k`, no earlier than `lo`. */
  function SpaceRunStart(s: string, lo: nat, k: nat): (g: nat)
    requires lo <= k <= |s|
    ensures lo <= g <= k
    ensures forall j | g <= j < k :: IsSpace(s[j])
    ensures g > lo ==> !IsSpace(s[g - 1])
    decreases k
  {
    if k > lo && IsSpace(s[k - 1]) then SpaceRunStart(s, lo, k - 1) else k
  }

  /**
   * The captured group of the fence pattern. A match can only start at the
   * first opening fence: a later one lies past its whitespace, so a closing
   * fence that serves the later one serves the first as well. The lazy group
   * then stops at the whitespace before the first closing fence.
   */
  function JsonFence(content: string): Option<string> {
    match IndexFrom(content, JsonFenceOpen, 0)
    case None => None
    case Some(i) =>
      var start := SkipSpaces(content, i + |JsonFenceOpen|);
      match IndexFrom(content, FenceClose, start)
      case None => None
      case Some(k) => Some(content[start..SpaceRunStart(content, start, k)])
  }

  /** The text handed to `json.loads`. */
  function JsonText(content: string): string {
    match JsonFence(content)
    case Some(body) => body
    case None => content
  }

  /** `JsonSchemaValidator.validate`: whether the chosen text parses; every exception means false. */
  predicate JsonValid(parse: JsonParser, content: string) {
    parse(JsonText(content)).Some?
  }

  /** Without an opening fence the whole content is parsed. */
  lemma UnfencedIsWhole(content: string)
    requires !Contains(content, JsonFenceOpen)
    ensures JsonText(content) == content
  {
  }

  predicate NoBacktick(s: string) {
    forall j | 0 <= j < |s| :: s[j] != '`'
  }

  predicate AllSpace(s: string) {
    forall j | 0 <= j < |s| :: IsSpace(s[j])
  }

  /** A body fit to be fenced: no backtick, and no whitespace at either end. */
  predicate FenceableBody(body: string) {
    NoBacktick(body) && (body != [] ==> !IsSpace(body[0]) && !IsSpace(body[|body| - 1]))
  }

  lemma IsSpaceNotBacktick(c: char)
    requires IsSpace(c)
    ensures c != '`'
  {
  }

  /** When no character between `from` and `p` starts `pat`, its first occurrence from `from` on is at `p`. */
  lemma FirstOccurrenceAt(s: string, pat: string, p: nat, from: nat)
    requires from <= p && OccursAt(s, pat, p) && pat != []
    requires forall j | from <= j < p :: s[j] != pat[0]
    ensures IndexFrom(s, pat, from) == Some(p)
  {
    forall j | from <= j <= p && OccursAt(s, pat, j)
      ensures s[j] == pat[0]
    {
      assert s[j..j + |pat|][0] == s[j];
    }
  }

  /**
   * The fenced layout of `s`: text `pre` up to `p`, the opening fence, the
   * padding `s[o..b]`, the body `s[b..e]`, the padding `s[e..k]`, then the
   * closing fence at `k`.
   */
  predicate Fenced(s: string, p: nat, b: nat, e: nat, k: nat) {
    p + |JsonFenceOpen| <= b <= e <= k && k + |FenceClose| <= |s|
    && NoBacktick(s[..p]) && s[p..p + |JsonFenceOpen|] == JsonFenceOpen
    && AllSpace(s[p + |JsonFenceOpen|..b]) && FenceableBody(s[b..e]) && AllSpace(s[e..k])
    && s[k..k + |FenceClose|] == FenceClose
  }

  lemma FencedLayout(pre: string, w1: string, body: string, w2: string, post: string)
    requires NoBacktick(pre) && AllSpace(w1) && AllSpace(w2) && FenceableBody(body)
    ensures var s := pre + (JsonFenceOpen + (w1 + (body + (w2 + (FenceClose + post)))));
      var b := |pre| + |JsonFenceOpen| + |w1|;
      Fenced(s, |pre|, b, b + |body|, b + |body| + |w2|) && s[b..b + |body|] == body
  {
    var s := pre + (JsonFenceOpen + (w1 + (body + (w2 + (FenceClose + post)))));
    var o := |pre| + |JsonFenceOpen|;
    var b := o + |w1|;
    var e := b + |body|;
    var k := e + |w2|;
    assert s[..|pre|] == pre;
    assert s[|pre|..o] == JsonFenceOpen;
    assert s[o..b] == w1;
    assert s[b..e] == body;
    assert s[e..k] == w2;
    assert s[k..k + |FenceClose|] == FenceClose;
  }

  lemma OpenFenceFound(s: string, p: nat, b: nat, e: nat, k: nat)
    requires Fenced(s, p, b, e, k)
    ensures IndexFrom(s, JsonFenceOpen, 0) == Some(p)
  {
    forall j | 0 <= j < p ensures s[j] != '`' {
      assert s[j] == s[..p][j];
    }
    FirstOccurrenceAt(s, JsonFenceOpen, p, 0);
  }

  /** The whitespace after the opening fence ends where the body starts, or at the closing fence for an empty body. */
  lemma SkipToBody(s: string, p: nat, b: nat, e: nat, k: nat)
    requires Fenced(s, p, b, e, k)
    ensures SkipSpaces(s, p + |JsonFenceOpen|) == if b == e then k else b
  {
    var o := p + |JsonFenceOpen|;
    var want := if b == e then k else b;
    assert s[k] == s[k..k + |FenceClose|][0];
    if b < e {
      assert s[b] == s[b..e][0];
    }
    forall j | o <= j < want ensures IsSpace(s[j]) {
      if j < b {
        assert s[j] == s[o..b][j - o];
      } else {
        assert s[j] == s[e..k][j - e];
      }
    }
  }

  /** From any point of the body on, the first closing fence is at `k`. */
  lemma CloseFenceFound(s: string, p: nat, b: nat, e: nat, k: nat, from: nat)
    requires Fenced(s, p, b, e, k) && b <= from <= k
    ensures IndexFrom(s, FenceClose, from) == Some(k)
  {
    forall j | from <= j < k ensures s[j] != '`' {
      if j < e {
        assert s[j] == s[b..e][j - b];
      } else {
        assert s[j] == s[e..k][j - e];
        IsSpaceNotBacktick(s[j]);
      }
    }
    FirstOccurrenceAt(s, FenceClose, k, from);
  }

  /** The whitespace run before the closing fence starts right after the body. */
  lemma RunStartAfterBody(s: string, p: nat, b: nat, e: nat, k: nat)
    requires Fenced(s, p, b, e, k) && b < e
    ensures SpaceRunStart(s, b, k) == e
  {
  }

  /** A fenced layout yields its body. */
  lemma FencedBody(s: string, p: nat, b: nat, e: nat, k: nat)
    requires Fenced(s, p, b, e, k)
    ensures JsonFence(s) == Some(s[b..e])
  {
    OpenFenceFound(s, p, b, e, k);
    SkipToBody(s, p, b, e, k);
    var start := if b == e then k else b;
    CloseFenceFound(s, p, b, e, k, start);
    if b < e {
      RunStartAfterBody(s, p, b, e, k);
    } else {
      assert SpaceRunStart(s, k, k) == k;
      assert s[k..k] == s[b..e] == [];
    }
  }

  /**
   * Fencing a body and extracting it gives the body back: for any text
   * before the fence free of backticks, any whitespace padding, and anything
   * after the closing fence.
   */
  lemma FenceRoundTrip(pre: string, w1: string, body: string, w2: string, post: string)
    requires NoBacktick(pre) && AllSpace(w1) && AllSpace(w2) && FenceableBody(body)
    ensures JsonText(pre + (JsonFenceOpen + (w1 + (body + (w2 + (FenceClose + post)))))) == body
  {
    var s := pre + (JsonFenceOpen + (w1 + (body + (w2 + (FenceClose + post)))));
    var b := |pre| + |JsonFenceOpen| + |w1|;
    FencedLayout(pre, w1, body, w2, post);
    FencedBody(s, |pre|, b, b + |body|, b + |body| + |w2|);
  }

  // ---------------------------------------------------------------------
  // `validate`, by class.

  function Validate(v: Validator, content: string, m: Matcher, parse: JsonParser): bool {
    match v.rule
    case Regex(pattern) => RegexValid(m, pattern, content)
    case Keyword(keywords, mustInclude) => KeywordValid(keywords, mustInclude, content)
    case JsonSchema(_) => JsonValid(parse, content)
  }

  /** The schema is never consulted: the JSON check depends on the content alone. */
  lemma SchemaIgnored(v: Validator, w: Validator, content: string, m: Matcher, parse: JsonParser)
    requires v.rule.JsonSchema? && w.rule.JsonSchema?
    ensures Validate(v, content, m, parse) == Validate(w, content, m, parse)
    ensures Validate(v, content, m, parse) <==> parse(JsonText(content)).Some?
  {
  }

  /** A fenced JSON body is judged by whether the body alone parses. */
  lemma FencedJsonJudgedByBody(v: Validator, body: string, m: Matcher, parse: JsonParser)
    requires v.rule.JsonSchema? && FenceableBody(body)
    ensures Validate(v, JsonFenceOpen + "\n" + body + "\n" + FenceClose, m, parse) <==> parse(body).Some?
  {
    var content := JsonFenceOpen + "\n" + body + "\n" + FenceClose;
    assert content == [] + (JsonFenceOpen + ("\n" + (body + ("\n" + (FenceClose + [])))));
    FenceRoundTrip([], "\n", body, "\n", []);
  }
}
