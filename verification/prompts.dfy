/** Preparation of the contract text for the language-model prompt
    (truncation and brace escaping), Python's `str.format` on a one-field
    template, and the lookup of the system and user prompts by contract type.
    The long prompt texts themselves are parameters: a user template is its
    literal text before and after the `{contract_text}` field. */
module Prompts {
  import opened Wrappers

  // ---------------------------------------------------------------------------
  // Truncation
  // ---------------------------------------------------------------------------

  const DefaultMaxChars := 7000

  const TruncationMarker := "\n\n[... Text gekürzt ...]"

  /** Keep at most `maxChars` characters; a longer text is cut and marked. */
  function Truncate(s: string, maxChars: nat): (r: string)
    ensures |s| <= maxChars ==> r == s
    ensures |s| > maxChars ==> r == s[..maxChars] + TruncationMarker
    ensures |r| <= maxChars + |TruncationMarker|
  {
    if |s| > maxChars then s[..maxChars] + TruncationMarker else s
  }

  // ---------------------------------------------------------------------------
  // Brace escaping
  // ---------------------------------------------------------------------------

  predicate IsBrace(c: char)
  {
    c == '{' || c == '}'
  }

  /** How many braces a text holds. */
  function Braces(s: string): nat
  {
    if s == [] then 0 else (if IsBrace(s[0]) then 1 else 0) + Braces(s[1..])
  }

  /** Every brace doubled, nothing else changed. */
  function Escape(s: string): (r: string)
    ensures |r| == |s| + Braces(s)
  {
    if s == [] then []
    else (if IsBrace(s[0]) then [s[0], s[0]] else [s[0]]) + Escape(s[1..])
  }

  /** A text without braces is left as it is. */
  lemma {:induction false} EscapeNoBraces(s: string)
    requires Braces(s) == 0
    ensures Escape(s) == s
  {
    if s != [] {
      EscapeNoBraces(s[1..]);
    }
  }

  /** Collapse every doubled brace, reading left to right. */
  function Unescape(s: string): (r: string)
    ensures |r| <= |s|
  {
    if |s| >= 2 && IsBrace(s[0]) && s[1] == s[0] then [s[0]] + Unescape(s[2..])
    else if s == [] then []
    else [s[0]] + Unescape(s[1..])
  }

  /** Collapsing doubled braces recovers the escaped text. */
  lemma {:induction false} UnescapeEscape(s: string)
    ensures Unescape(Escape(s)) == s
  {
    if s != [] {
      UnescapeEscape(s[1..]);
      var e := Escape(s);
      if IsBrace(s[0]) {
        assert e == [s[0], s[0]] + Escape(s[1..]);
        assert e[2..] == Escape(s[1..]);
      } else {
        assert e == [s[0]] + Escape(s[1..]);
        assert e[1..] == Escape(s[1..]);
      }
    }
  }

  /** Python's `s.replace(c, repl)` for a single character `c`. */
  function ReplaceChar(s: string, c: char, repl: string): (r: string)
  {
    if s == [] then [] else (if s[0] == c then repl else [s[0]]) + ReplaceChar(s[1..], c, repl)
  }

  lemma {:induction false} ReplaceCharConcat(a: string, b: string, c: char, repl: string)
    ensures ReplaceChar(a + b, c, repl) == ReplaceChar(a, c, repl) + ReplaceChar(b, c, repl)
  {
    if a == [] {
      assert a + b == b;
    } else {
      assert (a + b)[0] == a[0] && (a + b)[1..] == a[1..] + b;
      ReplaceCharConcat(a[1..], b, c, repl);
    }
  }

  /** The two successive replacements of the source double every brace in
      one pass: the first introduces no closing brace for the second to see. */
  lemma {:induction false} TwoPassIsEscape(s: string)
    ensures ReplaceChar(ReplaceChar(s, '{', "{{"), '}', "}}") == Escape(s)
  {
    if s != [] {
      var head := if s[0] == '{' then "{{" else [s[0]];
      assert ReplaceChar(s, '{', "{{") == head + ReplaceChar(s[1..], '{', "{{");
      ReplaceCharConcat(head, ReplaceChar(s[1..], '{', "{{"), '}', "}}");
      TwoPassIsEscape(s[1..]);
      if s[0] == '{' {
        assert ReplaceChar("{{", '}', "}}") == "{{" by {
          assert "{{"[1..] == "{";
          assert "{"[1..] == "";
        }
      } else {
        assert ReplaceChar([s[0]], '}', "}}") == (if s[0] == '}' then "}}" else [s[0]]) by {
          assert [s[0]][1..] == [];
        }
      }
    }
  }

  /** `_prepare_contract_text`: truncate, then double every brace. */
  function PrepareContractText(s: string, maxChars: nat): (r: string)
    ensures r == Escape(Truncate(s, maxChars))
    ensures |r| == |Truncate(s, maxChars)| + Braces(Truncate(s, maxChars))
    ensures Unescape(r) == Truncate(s, maxChars)
  {
    var t := Truncate(s, maxChars);
    TwoPassIsEscape(t);
    UnescapeEscape(t);
    ReplaceChar(ReplaceChar(t, '{', "{{"), '}', "}}")
  }

  // ---------------------------------------------------------------------------
  // str.format with one keyword argument
  // ---------------------------------------------------------------------------

  /** Position of the first `}` in `s`, if any. */
  function FirstClose(s: string): (r: Option<nat>)
    ensures r.Some? ==> r.value < |s| && s[r.value] == '}' && forall i | 0 <= i < r.value :: s[i] != '}'
    ensures r.None? ==> forall i | 0 <= i < |s| :: s[i] != '}'
  {
    if s == [] then None
    else if s[0] == '}' then Some(0)
    else match FirstClose(s[1..]) case Some(j) => Some(j + 1) case None => None
  }

  function PrependTo(p: string, r: Option<string>): Option<string>
  {
    match r case Some(x) => Some(p + x) case None => None
  }

  /** `t.format(**{key: value})`: `{{` and `}}` stand for single braces and
      `{key}` for the value, inserted as it is. A lone `}`, an unclosed `{`, or
      a field other than `key` is an error (`None`). Format specifications and
      conversions are not modelled. */
  function Format(t: string, key: string, value: string): (r: Option<string>)
    ensures Braces(t) == 0 ==> r == Some(t)
    ensures t != [] && t[0] == '}' && (|t| < 2 || t[1] != '}') ==> r.None?
    decreases |t|
  {
    if t == [] then Some([])
    else if t[0] == '{' then
      if |t| >= 2 && t[1] == '{' then PrependTo("{", Format(t[2..], key, value))
      else
        match FirstClose(t[1..])
        case None => None
        case Some(j) =>
          var name := t[1..j + 1];
          if name == key && '{' !in name then PrependTo(value, Format(t[j + 2..], key, value)) else None
    else if t[0] == '}' then
      if |t| >= 2 && t[1] == '}' then PrependTo("}", Format(t[2..], key, value)) else None
    else
      assert [t[0]] + t[1..] == t;
      PrependTo([t[0]], Format(t[1..], key, value))
  }

  /** One escaped character formats back to itself. */
  lemma FormatStep(c: char, tail: string, key: string, value: string)
    ensures Format(Escape([c]) + tail, key, value) == PrependTo([c], Format(tail, key, value))
  {
    assert [c][1..] == [];
    var t := Escape([c]) + tail;
    if IsBrace(c) {
      assert Escape([c]) == [c, c];
      assert t[0] == c && t[1] == c && t[2..] == tail;
    } else {
      assert Escape([c]) == [c];
      assert t[0] == c && t[1..] == tail;
    }
  }

  lemma PrependToTwice(p: string, q: string, r: Option<string>)
    ensures PrependTo(p, PrependTo(q, r)) == PrependTo(p + q, r)
  {
    match r
    case Some(x) => assert p + (q + x) == (p + q) + x;
    case None =>
  }

  lemma {:induction false} EscapeConcat(a: string, b: string)
    ensures Escape(a + b) == Escape(a) + Escape(b)
  {
    if a == [] {
      assert a + b == b;
    } else {
      assert (a + b)[0] == a[0] && (a + b)[1..] == a[1..] + b;
      EscapeConcat(a[1..], b);
    }
  }

  /** An escaped literal formats back to itself. */
  lemma {:induction false} FormatEscapedLiteral(lit: string, rest: string, key: string, value: string)
    ensures Format(Escape(lit) + rest, key, value) == PrependTo(lit, Format(rest, key, value))
  {
    if lit == [] {
      assert Escape(lit) + rest == rest;
      assert PrependTo([], Format(rest, key, value)) == Format(rest, key, value) by {
        match Format(rest, key, value) case Some(x) => assert [] + x == x; case None =>
      }
    } else {
      var c := lit[0];
      assert lit == [c] + lit[1..];
      EscapeConcat([c], lit[1..]);
      assert Escape(lit) + rest == Escape([c]) + (Escape(lit[1..]) + rest);
      FormatStep(c, Escape(lit[1..]) + rest, key, value);
      FormatEscapedLiteral(lit[1..], rest, key, value);
      PrependToTwice([c], lit[1..], Format(rest, key, value));
    }
  }

  /** A plain field name: non-empty and brace-free. */
  predicate PlainName(key: string)
  {
    key != [] && forall i | 0 <= i < |key| :: !IsBrace(key[i])
  }

  /** A `{key}` field formats to the value, inserted as it is. */
  lemma FormatField(key: string, rest: string, value: string)
    requires PlainName(key)
    ensures Format("{" + key + "}" + rest, key, value) == PrependTo(value, Format(rest, key, value))
  {
    var t := "{" + key + "}" + rest;
    assert t[0] == '{' && t[1] == key[0];
    assert t[1..] == key + "}" + rest;
    assert FirstClose(key + "}" + rest) == Some(|key|) by {
      var u := key + "}" + rest;
      assert u[|key|] == '}';
      assert forall i | 0 <= i < |key| :: u[i] == key[i];
    }
    assert t[1..|key| + 1] == key;
    assert t[|key| + 2..] == rest;
  }

  // ---------------------------------------------------------------------------
  // User prompts
  // ---------------------------------------------------------------------------

  const ContractTextField := "contract_text"

  /** A user template: its literal text around the single contract-text field.
      The template string is the escaped literal text with the field between. */
  datatype UserTemplate = UserTemplate(before: string, after: string)

  function TemplateText(u: UserTemplate): string
  {
    Escape(u.before) + "{" + ContractTextField + "}" + Escape(u.after)
  }

  /** The field followed by escaped literal text formats to the value followed
      by that text. */
  lemma FormatFieldThenLiteral(after: string, value: string)
    ensures Format("{" + ContractTextField + "}" + Escape(after), ContractTextField, value) == Some(value + after)
  {
    assert PlainName(ContractTextField);
    FormatField(ContractTextField, Escape(after), value);
    FormatEscapedLiteral(after, [], ContractTextField, value);
    assert Escape(after) + [] == Escape(after);
    assert after + [] == after;
  }

  /** Formatting a template puts the argument between the literal texts, as
      given. */
  lemma FormatTemplate(u: UserTemplate, value: string)
    ensures Format(TemplateText(u), ContractTextField, value) == Some(u.before + value + u.after)
  {
    var field := "{" + ContractTextField + "}" + Escape(u.after);
    assert TemplateText(u) == Escape(u.before) + field;
    FormatEscapedLiteral(u.before, field, ContractTextField, value);
    FormatFieldThenLiteral(u.after, value);
    assert u.before + (value + u.after) == u.before + value + u.after;
  }

  /** The user prompt as the source builds it: the escaped text formatted into
      the template. */
  function UserPromptAsWritten(u: UserTemplate, contractText: string): (r: Option<string>)
    ensures r == Some(u.before + Escape(Truncate(contractText, DefaultMaxChars)) + u.after)
  {
    FormatTemplate(u, PrepareContractText(contractText, DefaultMaxChars));
    Format(TemplateText(u), ContractTextField, PrepareContractText(contractText, DefaultMaxChars))
  }

  /** `str.format` does not unescape its arguments, so a contract quoting
      `{x}` reaches the model as `{{x}}`. */
  lemma AsWrittenDoublesBraces(u: UserTemplate)
    ensures UserPromptAsWritten(u, "{x}") == Some(u.before + "{{x}}" + u.after)
    ensures UserPromptAsWritten(u, "{x}") != Some(u.before + "{x}" + u.after)
  {
    assert Truncate("{x}", DefaultMaxChars) == "{x}";
    assert Escape("{x}") == "{{x}}" by {
      assert "{x}"[1..] == "x}" && "x}"[1..] == "}" && "}"[1..] == "";
    }
    var a := u.before + "{{x}}" + u.after;
    var b := u.before + "{x}" + u.after;
    assert |a| != |b|;
  }

  /** The user prompt with the text passed as it is: the truncated contract
      text appears verbatim between the template's literal texts. */
  function UserPrompt(u: UserTemplate, contractText: string): (r: string)
    ensures Format(TemplateText(u), ContractTextField, Truncate(contractText, DefaultMaxChars)) == Some(r)
    ensures r == u.before + Truncate(contractText, DefaultMaxChars) + u.after
  {
    FormatTemplate(u, Truncate(contractText, DefaultMaxChars));
    u.before + Truncate(contractText, DefaultMaxChars) + u.after
  }

  // ---------------------------------------------------------------------------
  // Prompt lookup by contract type
  // ---------------------------------------------------------------------------

  /** The contract types with their own prompts; "general" is the fallback. */
  const PromptTypes: set<string> := {"employment", "saas", "nda", "vendor", "service", "rental", "purchase", "general"}

  /** The two prompt tables: system prompt and user template per type. */
  datatype PromptTables = PromptTables(system: map<string, string>, user: map<string, UserTemplate>)

  /** Both tables are keyed by exactly the eight prompt types. */
  predicate TablesComplete(t: PromptTables)
  {
    t.system.Keys == PromptTypes && t.user.Keys == PromptTypes
  }

  /** The type a lookup uses: the given one if it has prompts, else "general". */
  function ResolveType(contractType: string): (r: string)
    ensures r in PromptTypes
    ensures contractType in PromptTypes ==> r == contractType
    ensures contractType !in PromptTypes ==> r == "general"
  {
    if contractType in PromptTypes then contractType else "general"
  }

  /** `get_prompt_for_type` as written: the system prompt of the resolved
      type, and its user prompt built from the escaped contract text, so the
      text's braces arrive doubled. */
  function GetPromptForType(t: PromptTables, contractType: string, contractText: string): (r: (string, string))
    requires TablesComplete(t)
    ensures r.0 == t.system[ResolveType(contractType)]
    ensures var u := t.user[ResolveType(contractType)];
      r.1 == u.before + Escape(Truncate(contractText, DefaultMaxChars)) + u.after
    ensures Some(r.1) == UserPromptAsWritten(t.user[ResolveType(contractType)], contractText)
  {
    var ty := ResolveType(contractType);
    (t.system[ty], UserPromptAsWritten(t.user[ty], contractText).value)
  }

  /** The corrected lookup: the same system prompt, and a user prompt that
      carries the truncated contract text verbatim. */
  function GetCorrectedPromptForType(t: PromptTables, contractType: string, contractText: string): (r: (string, string))
    requires TablesComplete(t)
    ensures r.0 == GetPromptForType(t, contractType, contractText).0
    ensures var u := t.user[ResolveType(contractType)];
      r.1 == u.before + Truncate(contractText, DefaultMaxChars) + u.after
  {
    var ty := ResolveType(contractType);
    (t.system[ty], UserPrompt(t.user[ty], contractText))
  }

  /** The two lookups differ exactly by the escaping: they agree on a text
      without braces. */
  lemma CorrectedAgreesWithoutBraces(t: PromptTables, contractType: string, contractText: string)
    requires TablesComplete(t) && Braces(Truncate(contractText, DefaultMaxChars)) == 0
    ensures GetCorrectedPromptForType(t, contractType, contractText) == GetPromptForType(t, contractType, contractText)
  {
    EscapeNoBraces(Truncate(contractText, DefaultMaxChars));
  }

  /** An unknown type is served the general prompts. */
  lemma UnknownTypeIsGeneral(t: PromptTables, contractType: string, contractText: string)
    requires TablesComplete(t) && contractType !in PromptTypes
    ensures GetPromptForType(t, contractType, contractText) == GetPromptForType(t, "general", contractText)
    ensures GetCorrectedPromptForType(t, contractType, contractText) == GetCorrectedPromptForType(t, "general", contractText)
  {
  }
}
