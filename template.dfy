/**
 * Python's `str.format(**variables)` on a template, and the literal
 * `template.replace("{key}", value)` fallback that the critique generator
 * uses when formatting raises `KeyError`.
 */
module Template {
  import opened Wrappers
  import opened Text
  import Assoc

  type Variables = seq<(string, string)>

  // ---------------------------------------------------------------------
  // The formatter.

  /** Index of the first `c` in `s`. */
  function IndexOf(s: string, c: char): (r: Option<nat>)
    ensures r.Some? ==> r.value < |s| && s[r.value] == c && forall k | 0 <= k < r.value :: s[k] != c
    ensures r.None? ==> forall k | 0 <= k < |s| :: s[k] != c
  {
    if s == [] then None
    else if s[0] == c then Some(0)
    else match IndexOf(s[1..], c)
      case Some(i) => Some(i + 1)
      case None => None
  }

  predicate IsNameEnd(c: char) { c == ':' || c == '!' || c == '.' || c == '[' }

  /** Length of the field name: up to a format spec, a conversion, or an attribute or index access. */
  function NameLength(field: string): (n: nat)
    ensures n <= |field|
    ensures forall k | 0 <= k < n :: !IsNameEnd(field[k])
    ensures n < |field| ==> IsNameEnd(field[n])
  {
    if field == [] || IsNameEnd(field[0]) then 0 else 1 + NameLength(field[1..])
  }

  predicate AllDigits(s: string) {
    forall k | 0 <= k < |s| :: IsDigit(s[k])
  }

  /**
   * The value of one replacement field `{field}` when formatting with keyword
   * arguments only: an empty or numeric name asks for a positional argument
   * (`IndexError`), an unknown name raises `KeyError`.
   */
  function FieldValue(field: string, vars: Variables): Result<string> {
    var name := field[..NameLength(field)];
    if '{' in name then Failure(ValueError("unexpected '{' in field name"))
    else if name == [] || AllDigits(name) then Failure(IndexError("Replacement index out of range"))
    else match Assoc.Lookup(vars, name)
      case None => Failure(KeyError(name))
      case Some(v) =>
        if NameLength(field) < |field| then Failure(NotImplementedError("format spec, conversion or attribute access"))
        else Success(v)
  }

  function Prepend(p: string, r: Result<string>): Result<string> {
    match r
    case Success(s) => Success(p + s)
    case Failure(e) => Failure(e)
  }

  /** `template.format(**vars)`, scanned left to right; the first error met is raised. */
  function Format(t: string, vars: Variables): Result<string>
    decreases |t|
  {
    if t == [] then Success([])
    else if t[0] == '{' then
      if |t| >= 2 && t[1] == '{' then Prepend("{", Format(t[2..], vars))
      else match IndexOf(t[1..], '}')
        case None => Failure(ValueError("expected '}' before end of string"))
        case Some(close) =>
          match FieldValue(t[1..1 + close], vars)
          case Failure(e) => Failure(e)
          case Success(v) => Prepend(v, Format(t[2 + close..], vars))
    else if t[0] == '}' then
      if |t| >= 2 && t[1] == '}' then Prepend("}", Format(t[2..], vars))
      else Failure(ValueError("Single '}' encountered in format string"))
    else Prepend([t[0]], Format(t[1..], vars))
  }

  /** `for key, value in variables.items(): template = template.replace(f"{{{key}}}", str(value))`. */
  function ReplaceEach(t: string, vars: Variables): string
    decreases |vars|
  {
    if vars == [] then t
    else ReplaceEach(ReplaceAll(t, "{" + vars[0].0 + "}", vars[0].1), vars[1..])
  }

  /** The replacement loop of the fallback. */
  method ReplaceVariables(template: string, vars: Variables) returns (r: string)
    ensures r == ReplaceEach(template, vars)
  {
    r := template;
    var i := 0;
    while i < |vars|
      invariant 0 <= i <= |vars|
      invariant ReplaceEach(r, vars[i..]) == ReplaceEach(template, vars)
    {
      assert vars[i..][1..] == vars[i + 1..];
      r := ReplaceAll(r, "{" + vars[i].0 + "}", vars[i].1);
      i := i + 1;
    }
  }

  /**
   * `try: return template.format(**variables) except KeyError: <fallback>`:
   * any other formatting error propagates.
   */
  function RenderTemplate(t: string, vars: Variables): (r: Result<string>)
    ensures Format(t, vars).Success? ==> r == Format(t, vars)
    ensures Format(t, vars).Failure? && Format(t, vars).error.KeyError? ==> r == Success(ReplaceEach(t, vars))
    ensures Format(t, vars).Failure? && !Format(t, vars).error.KeyError? ==> r == Format(t, vars)
  {
    match Format(t, vars)
    case Success(s) => Success(s)
    case Failure(KeyError(_)) => Success(ReplaceEach(t, vars))
    case Failure(e) => Failure(e)
  }

  // ---------------------------------------------------------------------
  // Templates made of literal text and `{name}` fields.

  datatype Segment = Lit(text: string) | Field(name: string)

  predicate BraceFree(s: string) {
    '{' !in s && '}' !in s
  }

  /** A plain keyword field name: no braces, no spec/conversion/access, not positional. */
  predicate ValidName(n: string) {
    BraceFree(n) && ':' !in n && '!' !in n && '.' !in n && '[' !in n && n != [] && !AllDigits(n)
  }

  /** A name of lower-case letters and underscores is a plain keyword field. */
  lemma LowerName(n: string)
    requires n != [] && forall k | 0 <= k < |n| :: 'a' <= n[k] <= 'z' || n[k] == '_'
    ensures ValidName(n)
  {
    assert !IsDigit(n[0]);
  }

  predicate WellFormed(segs: seq<Segment>) {
    forall k | 0 <= k < |segs| :: if segs[k].Lit? then BraceFree(segs[k].text) else ValidName(segs[k].name)
  }

  /** The template's text. */
  function TemplateText(segs: seq<Segment>): string {
    if segs == [] then ""
    else (match segs[0] case Lit(s) => s case Field(n) => "{" + n + "}") + TemplateText(segs[1..])
  }

  /** Every known field replaced by its value, every unknown field left verbatim. */
  function Substitute(segs: seq<Segment>, vars: Variables): string {
    if segs == [] then ""
    else
      (match segs[0]
       case Lit(s) => s
       case Field(n) => Assoc.Lookup(vars, n).GetOr("{" + n + "}"))
      + Substitute(segs[1..], vars)
  }

  predicate AllKnown(segs: seq<Segment>, vars: Variables) {
    forall k | 0 <= k < |segs| && segs[k].Field? :: Assoc.HasKey(vars, segs[k].name)
  }

  predicate ValuesBraceFree(vars: Variables) {
    forall k | 0 <= k < |vars| :: BraceFree(vars[k].0) && BraceFree(vars[k].1)
  }

  // ---------------------------------------------------------------------
  // The formatter on such templates.

  lemma FormatPlainChar(t: string, vars: Variables)
    requires t != [] && t[0] != '{' && t[0] != '}'
    ensures Format(t, vars) == Prepend([t[0]], Format(t[1..], vars))
  {
  }

  lemma PrependPrepend(a: string, b: string, r: Result<string>)
    ensures Prepend(a, Prepend(b, r)) == Prepend(a + b, r)
  {
    if r.Success? {
      assert a + (b + r.value) == (a + b) + r.value;
    }
  }

  lemma {:induction false} FormatLiteral(s: string, rest: string, vars: Variables)
    requires BraceFree(s)
    ensures Format(s + rest, vars) == Prepend(s, Format(rest, vars))
    decreases |s|
  {
    if s != [] {
      var t := s + rest;
      assert t[0] == s[0];
      assert t[1..] == s[1..] + rest;
      FormatPlainChar(t, vars);
      assert s == [s[0]] + s[1..];
      FormatLiteral(s[1..], rest, vars);
      PrependPrepend([s[0]], s[1..], Format(rest, vars));
      assert [s[0]] + s[1..] == s;
    } else {
      assert s + rest == rest;
      assert Prepend([], Format(rest, vars)) == Format(rest, vars) by {
        if Format(rest, vars).Success? {
          assert [] + Format(rest, vars).value == Format(rest, vars).value;
        }
      }
    }
  }

  lemma FieldSplit(n: string, rest: string)
    requires BraceFree(n)
    ensures var t := "{" + n + "}" + rest;
      IndexOf(t[1..], '}') == Some(|n|) && t[1..1 + |n|] == n && t[2 + |n|..] == rest
  {
    var t := "{" + n + "}" + rest;
    assert t[1..] == n + "}" + rest;
    var r := IndexOf(t[1..], '}');
    assert t[1..][|n|] == '}';
    assert forall k | 0 <= k < |n| :: t[1..][k] == n[k];
  }

  lemma FormatKnownField(n: string, v: string, rest: string, vars: Variables)
    requires ValidName(n) && Assoc.Lookup(vars, n) == Some(v)
    ensures Format("{" + n + "}" + rest, vars) == Prepend(v, Format(rest, vars))
  {
    FieldSplit(n, rest);
    assert NameLength(n) == |n|;
    assert n[..NameLength(n)] == n;
  }

  lemma FormatUnknownField(n: string, rest: string, vars: Variables)
    requires ValidName(n) && Assoc.Lookup(vars, n) == None
    ensures Format("{" + n + "}" + rest, vars) == Failure(KeyError(n))
  {
    FieldSplit(n, rest);
    assert NameLength(n) == |n|;
    assert n[..NameLength(n)] == n;
  }

  lemma TemplateTextCons(segs: seq<Segment>)
    requires segs != []
    ensures TemplateText(segs) == (match segs[0] case Lit(s) => s case Field(n) => "{" + n + "}") + TemplateText(segs[1..])
  {
  }

  lemma WellFormedTail(segs: seq<Segment>)
    requires segs != [] && WellFormed(segs)
    ensures WellFormed(segs[1..])
  {
    forall k | 0 <= k < |segs[1..]| ensures if segs[1..][k].Lit? then BraceFree(segs[1..][k].text) else ValidName(segs[1..][k].name) {
      assert segs[1..][k] == segs[k + 1];
    }
  }

  /** When every field is known, formatting is plain substitution. */
  lemma {:induction false} FormatAllKnown(segs: seq<Segment>, vars: Variables)
    requires WellFormed(segs) && AllKnown(segs, vars)
    ensures Format(TemplateText(segs), vars) == Success(Substitute(segs, vars))
    decreases |segs|
  {
    if segs != [] {
      WellFormedTail(segs);
      assert AllKnown(segs[1..], vars) by {
        forall k | 0 <= k < |segs[1..]| && segs[1..][k].Field? ensures Assoc.HasKey(vars, segs[1..][k].name) {
          assert segs[1..][k] == segs[k + 1];
        }
      }
      FormatAllKnown(segs[1..], vars);
      var rest := TemplateText(segs[1..]);
      match segs[0]
      case Lit(s) =>
        assert BraceFree(s) by { assert segs[0] == segs[0]; }
        FormatLiteral(s, rest, vars);
      case Field(n) =>
        assert ValidName(n) && Assoc.HasKey(vars, n);
        Assoc.LookupFound(vars, n);
        FormatKnownField(n, Assoc.Lookup(vars, n).value, rest, vars);
        assert "{" + n + "}" + rest == ("{" + n + "}") + rest;
    }
  }

  /** With an unknown field, formatting raises `KeyError`. */
  lemma {:induction false} FormatSomeUnknown(segs: seq<Segment>, vars: Variables)
    requires WellFormed(segs) && !AllKnown(segs, vars)
    ensures Format(TemplateText(segs), vars).Failure?
    ensures Format(TemplateText(segs), vars).error.KeyError?
    decreases |segs|
  {
    WellFormedTail(segs);
    var rest := TemplateText(segs[1..]);
    var unknownHere := segs[0].Field? && !Assoc.HasKey(vars, segs[0].name);
    if !unknownHere {
      assert !AllKnown(segs[1..], vars) by {
        var k :| 0 <= k < |segs| && segs[k].Field? && !Assoc.HasKey(vars, segs[k].name);
        assert k != 0;
        assert segs[1..][k - 1] == segs[k];
      }
      FormatSomeUnknown(segs[1..], vars);
    }
    match segs[0]
    case Lit(s) =>
      assert BraceFree(s) by { assert segs[0] == segs[0]; }
      FormatLiteral(s, rest, vars);
    case Field(n) =>
      assert ValidName(n);
      Assoc.LookupFound(vars, n);
      assert "{" + n + "}" + rest == ("{" + n + "}") + rest;
      if unknownHere {
        FormatUnknownField(n, rest, vars);
      } else {
        FormatKnownField(n, Assoc.Lookup(vars, n).value, rest, vars);
      }
  }

  // ---------------------------------------------------------------------
  // The literal replacement on such templates.

  predicate OpenFree(s: string) {
    '{' !in s
  }

  /** A character that cannot start the pattern is copied through. */
  lemma ReplaceStep(t: string, p: string, r: string)
    requires p != [] && t != [] && t[0] != p[0]
    ensures ReplaceAll(t, p, r) == [t[0]] + ReplaceAll(t[1..], p, r)
  {
    if |t| >= |p| {
      assert t[..|p|][0] != p[0];
    } else {
      assert [t[0]] + t[1..] == t;
    }
  }

  lemma {:induction false} ReplaceLiteral(s: string, rest: string, p: string, r: string)
    requires p != [] && p[0] == '{' && OpenFree(s)
    ensures ReplaceAll(s + rest, p, r) == s + ReplaceAll(rest, p, r)
    decreases |s|
  {
    if s != [] {
      var t := s + rest;
      assert t[0] == s[0];
      assert t[1..] == s[1..] + rest;
      ReplaceStep(t, p, r);
      assert s == [s[0]] + s[1..];
      ReplaceLiteral(s[1..], rest, p, r);
      assert [s[0]] + (s[1..] + ReplaceAll(rest, p, r)) == s + ReplaceAll(rest, p, r);
    } else {
      assert s + rest == rest;
    }
  }

  lemma ReplaceMatchingField(k: string, rest: string, r: string)
    ensures ReplaceAll("{" + k + "}" + rest, "{" + k + "}", r) == r + ReplaceAll(rest, "{" + k + "}", r)
  {
    var p := "{" + k + "}";
    var t := p + rest;
    assert t[..|p|] == p;
    assert t[|p|..] == rest;
  }

  /** `{n}` does not start with `{k}` for distinct brace-free names. */
  lemma FieldNotPrefix(n: string, k: string, rest: string)
    requires BraceFree(n) && BraceFree(k) && n != k
    ensures var t := "{" + n + "}" + rest; var p := "{" + k + "}"; !(|p| <= |t| && t[..|p|] == p)
  {
    var p := "{" + k + "}";
    var t := "{" + n + "}" + rest;
    if |n| == |k| && |p| <= |t| {
      if t[..|p|] == p {
        forall j | 0 <= j < |n| ensures n[j] == k[j] {
          assert t[..|p|][j + 1] == n[j] && p[j + 1] == k[j];
        }
      }
    } else if |n| < |k| && |p| <= |t| {
      assert t[..|p|][1 + |n|] == '}';
    } else if |p| <= |t| {
      assert p[1 + |k|] == '}';
    }
  }

  lemma ReplaceOtherField(n: string, k: string, rest: string, r: string)
    requires BraceFree(n) && BraceFree(k) && n != k
    ensures ReplaceAll("{" + n + "}" + rest, "{" + k + "}", r) == "{" + n + "}" + ReplaceAll(rest, "{" + k + "}", r)
  {
    var p := "{" + k + "}";
    var t := "{" + n + "}" + rest;
    FieldNotPrefix(n, k, rest);
    assert t[1..] == n + ("}" + rest);
    assert OpenFree(n);
    ReplaceLiteral(n, "}" + rest, p, r);
    ReplaceLiteral("}", rest, p, r);
    if |p| <= |t| {
      assert ReplaceAll(t, p, r) == [t[0]] + ReplaceAll(t[1..], p, r);
    } else {
      assert |ReplaceAll(t[1..], p, r)| == |t[1..]|;
      assert ReplaceAll(t, p, r) == t;
    }
    assert t == ['{'] + (n + ("}" + rest));
  }

  /** Replace the fields named `k` by the literal `v`. */
  function SubstOne(segs: seq<Segment>, k: string, v: string): (r: seq<Segment>)
    ensures |r| == |segs|
    ensures forall j | 0 <= j < |segs| :: r[j] == if segs[j] == Field(k) then Lit(v) else segs[j]
  {
    if segs == [] then []
    else [if segs[0] == Field(k) then Lit(v) else segs[0]] + SubstOne(segs[1..], k, v)
  }

  /** One `replace` turns the fields named `k` into `v` and touches nothing else. */
  lemma {:induction false} ReplaceOnSegments(segs: seq<Segment>, k: string, v: string)
    requires WellFormed(segs) && BraceFree(k)
    ensures ReplaceAll(TemplateText(segs), "{" + k + "}", v) == TemplateText(SubstOne(segs, k, v))
    decreases |segs|
  {
    if segs != [] {
      WellFormedTail(segs);
      ReplaceOnSegments(segs[1..], k, v);
      var rest := TemplateText(segs[1..]);
      var p := "{" + k + "}";
      var subst := SubstOne(segs, k, v);
      assert subst[1..] == SubstOne(segs[1..], k, v);
      match segs[0]
      case Lit(s) =>
        assert BraceFree(s) by { assert segs[0] == segs[0]; }
        ReplaceLiteral(s, rest, p, v);
      case Field(n) =>
        assert ValidName(n);
        assert "{" + n + "}" + rest == ("{" + n + "}") + rest;
        if n == k {
          ReplaceMatchingField(k, rest, v);
        } else {
          ReplaceOtherField(n, k, rest, v);
        }
    }
  }

  lemma {:induction false} SubstOneWellFormed(segs: seq<Segment>, k: string, v: string)
    requires WellFormed(segs) && BraceFree(v)
    ensures WellFormed(SubstOne(segs, k, v))
  {
  }

  /** Substituting the first variable literally, then the rest, is substituting all of them. */
  lemma {:induction false} SubstituteAfterSubstOne(segs: seq<Segment>, vars: Variables)
    requires vars != []
    ensures Substitute(SubstOne(segs, vars[0].0, vars[0].1), vars[1..]) == Substitute(segs, vars)
    decreases |segs|
  {
    if segs != [] {
      var s := SubstOne(segs, vars[0].0, vars[0].1);
      assert s[1..] == SubstOne(segs[1..], vars[0].0, vars[0].1);
      SubstituteAfterSubstOne(segs[1..], vars);
      match segs[0]
      case Lit(_) =>
      case Field(n) =>
    }
  }

  /**
   * The fallback on a well-formed template with brace-free names and values:
   * each known field is replaced, each unknown one stays verbatim.
   */
  lemma {:induction false} ReplaceEachSubstitutes(segs: seq<Segment>, vars: Variables)
    requires WellFormed(segs) && ValuesBraceFree(vars)
    ensures ReplaceEach(TemplateText(segs), vars) == Substitute(segs, vars)
    decreases |vars|
  {
    if vars == [] {
      NoVariables(segs);
    } else {
      var (k, v) := vars[0];
      ReplaceOnSegments(segs, k, v);
      SubstOneWellFormed(segs, k, v);
      assert ValuesBraceFree(vars[1..]) by {
        forall j | 0 <= j < |vars[1..]| ensures BraceFree(vars[1..][j].0) && BraceFree(vars[1..][j].1) {
          assert vars[1..][j] == vars[j + 1];
        }
      }
      ReplaceEachSubstitutes(SubstOne(segs, k, v), vars[1..]);
      SubstituteAfterSubstOne(segs, vars);
    }
  }

  lemma {:induction false} NoVariables(segs: seq<Segment>)
    ensures Substitute(segs, []) == TemplateText(segs)
  {
    if segs != [] {
      NoVariables(segs[1..]);
    }
  }

  /**
   * Either way the custom template renders as substitution: formatting
   * succeeds when every field is known, and otherwise the fallback leaves
   * exactly the unknown fields verbatim.
   */
  lemma RenderSubstitutes(segs: seq<Segment>, vars: Variables)
    requires WellFormed(segs) && ValuesBraceFree(vars)
    ensures RenderTemplate(TemplateText(segs), vars) == Success(Substitute(segs, vars))
    ensures Format(TemplateText(segs), vars).Success? <==> AllKnown(segs, vars)
  {
    if AllKnown(segs, vars) {
      FormatAllKnown(segs, vars);
    } else {
      FormatSomeUnknown(segs, vars);
      ReplaceEachSubstitutes(segs, vars);
    }
  }

  /** The variables of the example below: the first value is itself a field of the second name. */
  const Chained: Variables := [("a", "{b}"), ("b", "x")]

  lemma ChainedFormat()
    ensures Format("{a}{c}", Chained) == Failure(KeyError("c"))
  {
    assert ValidName("a") by { assert !IsDigit("a"[0]); }
    assert ValidName("c") by { assert !IsDigit("c"[0]); }
    FormatUnknownField("c", "", Chained);
    FormatKnownField("a", "{b}", "{c}", Chained);
    ChainedPieces();
  }

  /** The example template as a field followed by the rest. */
  lemma ChainedPieces()
    ensures "{a}{c}" == "{" + "a" + "}" + "{c}"
    ensures "{b}{c}" == "{" + "b" + "}" + "{c}"
    ensures "{c}" == "{" + "c" + "}" + ""
  {
  }

  lemma ChainedReplace()
    ensures ReplaceEach("{a}{c}", Chained) == "x{c}"
  {
    ReplaceMatchingField("a", "{c}", "{b}");
    ReplaceOtherField("c", "a", "", "{b}");
    ChainedPieces();
    assert ReplaceAll("{a}{c}", "{a}", "{b}") == "{b}{c}";
    ReplaceMatchingField("b", "{c}", "x");
    ReplaceOtherField("c", "b", "", "x");
    assert ReplaceAll("{b}{c}", "{b}", "x") == "x{c}";
    assert Chained[1..][1..] == [];
  }

  /**
   * Without the brace-free restriction the fallback is not substitution: a
   * value inserted by one replacement is rewritten by a later one.
   */
  lemma FallbackRewritesInsertedText()
    ensures RenderTemplate("{a}{c}", Chained) == Success("x{c}")
    ensures Substitute([Field("a"), Field("c")], Chained) == "{b}{c}"
  {
    ChainedFormat();
    ChainedReplace();
    var segs := [Field("a"), Field("c")];
    assert segs[1..][1..] == [];
  }
}
