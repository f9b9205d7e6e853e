/** The deterministic parts of the language-model client: extracting the JSON
    text from a reply wrapped in Markdown code fences, the constant reply of
    dummy mode, the dummy-mode switch and the contract-type fallback. The API
    call itself is a parameter (its reply or its failure); `json.loads` is not
    modelled, only the text handed to it. */
module LlmClient {
  import opened Wrappers
  import opened Models
  import Scoring
  import Text
  import Prompts

  // ---------------------------------------------------------------------------
  // Splitting and joining on a separator
  // ---------------------------------------------------------------------------

  const Fence := "```"

  /** An occurrence one position further into `s` is an occurrence in `s[1..]`. */
  lemma OccursShift(s: string, sep: string, i: int)
    requires 1 <= i && s != []
    ensures Text.OccursAt(s, sep, i) == Text.OccursAt(s[1..], sep, i - 1)
  {
    if i + |sep| <= |s| {
      assert s[1..][i - 1..i - 1 + |sep|] == s[i..i + |sep|];
    }
  }

  /** Position of the leftmost occurrence of `sep` in `s`. */
  function FindFirst(s: string, sep: string): (r: Option<nat>)
    requires sep != []
    ensures r.Some? ==> Text.OccursAt(s, sep, r.value) && forall i | 0 <= i < r.value :: !Text.OccursAt(s, sep, i)
    ensures r.None? ==> !Text.Contains(s, sep)
    decreases |s|
  {
    if |s| < |sep| then None
    else if s[..|sep|] == sep then Some(0)
    else
      match FindFirst(s[1..], sep)
      case Some(j) =>
        assert Text.OccursAt(s, sep, j + 1) by { OccursShift(s, sep, j + 1); }
        assert forall i | 1 <= i <= j :: !Text.OccursAt(s, sep, i) by {
          forall i | 1 <= i <= j ensures !Text.OccursAt(s, sep, i) { OccursShift(s, sep, i); }
        }
        Some(j + 1)
      case None =>
        assert forall i | 1 <= i <= |s| - |sep| :: !Text.OccursAt(s, sep, i) by {
          forall i | 1 <= i <= |s| - |sep| ensures !Text.OccursAt(s, sep, i) { OccursShift(s, sep, i); }
        }
        None
  }

  /** Python's `s.split(sep)` for a non-empty separator. */
  function Split(s: string, sep: string): (parts: seq<string>)
    requires sep != []
    ensures |parts| >= 1
    decreases |s|
  {
    match FindFirst(s, sep)
    case None => [s]
    case Some(i) => [s[..i]] + Split(s[i + |sep|..], sep)
  }

  /** No piece contains the separator. */
  lemma {:induction false} SplitPiecesSeparatorFree(s: string, sep: string)
    requires sep != []
    ensures forall p | p in Split(s, sep) :: !Text.Contains(p, sep)
    decreases |s|
  {
    match FindFirst(s, sep)
    case None =>
    case Some(i) =>
      var head := s[..i];
      var rest := s[i + |sep|..];
      assert !Text.Contains(head, sep) by {
        forall k | 0 <= k <= |head| - |sep|
          ensures !Text.OccursAt(head, sep, k)
        {
          SliceOfPrefix(s, i, k, k + |sep|);
          assert !Text.OccursAt(s, sep, k);
        }
      }
      SplitPiecesSeparatorFree(rest, sep);
      assert Split(s, sep) == [head] + Split(rest, sep);
  }

  /** A slice of a prefix is the same slice of the whole. */
  lemma SliceOfPrefix(s: string, i: int, a: int, b: int)
    requires 0 <= a <= b <= i <= |s|
    ensures s[..i][a..b] == s[a..b]
  {
    assert forall n | 0 <= n < b - a :: s[..i][a..b][n] == s[a + n];
  }

  /** `sep.join(parts)`. */
  function Join(parts: seq<string>, sep: string): string
  {
    if parts == [] then [] else if |parts| == 1 then parts[0] else parts[0] + sep + Join(parts[1..], sep)
  }

  lemma JoinCons(h: string, t: seq<string>, sep: string)
    requires t != []
    ensures Join([h] + t, sep) == h + sep + Join(t, sep)
  {
    assert ([h] + t)[0] == h;
    assert ([h] + t)[1..] == t;
  }

  /** Joining the pieces with the separator gives back the text. */
  lemma {:induction false} JoinSplit(s: string, sep: string)
    requires sep != []
    ensures Join(Split(s, sep), sep) == s
    decreases |s|
  {
    match FindFirst(s, sep)
    case None =>
    case Some(i) =>
      var head := s[..i];
      var rest := s[i + |sep|..];
      var tail := Split(rest, sep);
      assert Split(s, sep) == [head] + tail;
      JoinSplit(rest, sep);
      JoinCons(head, tail, sep);
      Recompose(s, i, i + |sep|);
  }

  /** A text is its three slices around `[i, j)` put back together. */
  lemma Recompose(s: string, i: int, j: int)
    requires 0 <= i <= j <= |s|
    ensures s == s[..i] + s[i..j] + s[j..]
  {
  }

  /** A text with no separator is a single piece. */
  lemma SplitWithoutSeparator(s: string, sep: string)
    requires sep != [] && !Text.Contains(s, sep)
    ensures Split(s, sep) == [s]
  {
  }

  // ---------------------------------------------------------------------------
  // Stripping
  // ---------------------------------------------------------------------------

  /** The characters Python's `str.isspace` accepts, the ones `strip` removes:
      the ASCII controls tab to carriage return and the file, group, record
      and unit separators, the space, and the Unicode spaces and line and
      paragraph separators. */
  predicate IsSpace(c: char)
  {
    || ('\t' <= c <= '\r')
    || ('\U{001C}' <= c <= '\U{001F}')
    || c == ' ' || c == '\U{0085}' || c == '\U{00A0}' || c == '\U{1680}'
    || ('\U{2000}' <= c <= '\U{200A}')
    || c == '\U{2028}' || c == '\U{2029}' || c == '\U{202F}' || c == '\U{205F}' || c == '\U{3000}'
  }

  function StripLeft(s: string): string
  {
    if s != [] && IsSpace(s[0]) then StripLeft(s[1..]) else s
  }

  function StripRight(s: string): string
  {
    if s != [] && IsSpace(s[|s| - 1]) then StripRight(s[..|s| - 1]) else s
  }

  /** Stripping the left end drops a run of whitespace and keeps a suffix that
      starts with a non-space. */
  lemma {:induction false} StripLeftSuffix(s: string)
    ensures var r := StripLeft(s); |r| <= |s| && r == s[|s| - |r|..] && (r == [] || !IsSpace(r[0]))
    ensures forall k | 0 <= k < |s| - |StripLeft(s)| :: IsSpace(s[k])
  {
    if s != [] && IsSpace(s[0]) {
      StripLeftSuffix(s[1..]);
      assert forall k | 1 <= k < |s| - |StripLeft(s)| :: s[k] == s[1..][k - 1];
    }
  }

  /** Stripping the right end drops a run of whitespace and keeps a prefix
      that ends with a non-space. */
  lemma {:induction false} StripRightPrefix(s: string)
    ensures var r := StripRight(s); |r| <= |s| && r == s[..|r|] && (r == [] || !IsSpace(r[|r| - 1]))
    ensures forall k | |StripRight(s)| <= k < |s| :: IsSpace(s[k])
  {
    if s != [] && IsSpace(s[|s| - 1]) {
      StripRightPrefix(s[..|s| - 1]);
      assert forall k | |StripRight(s)| <= k < |s| - 1 :: s[k] == s[..|s| - 1][k];
    }
  }

  /** `s.strip()`: no leading or trailing whitespace is left, and nothing is
      left exactly when the text is all whitespace. */
  function Strip(s: string): (r: string)
    ensures r == [] || (!IsSpace(r[0]) && !IsSpace(r[|r| - 1]))
    ensures |r| <= |s|
    ensures r == [] <==> forall k | 0 <= k < |s| :: IsSpace(s[k])
  {
    var l := StripLeft(s);
    StripLeftSuffix(s);
    StripRightPrefix(l);
    assert StripRight(l) != [] ==> StripRight(l)[0] == l[0];
    StripRight(l)
  }

  /** A prefix of a suffix is a slice. */
  lemma PrefixOfSuffix(s: string, i: nat, n: nat)
    requires i + n <= |s|
    ensures s[i..][..n] == s[i..i + n]
  {
  }

  /** What `strip` keeps is the piece of the text between a leading and a
      trailing run of whitespace, and it starts and ends with a non-space. */
  lemma StripIsSlice(s: string) returns (i: nat, j: nat)
    ensures i <= j <= |s| && Strip(s) == s[i..j]
    ensures forall k | 0 <= k < i :: IsSpace(s[k])
    ensures forall k | j <= k < |s| :: IsSpace(s[k])
    ensures i < j ==> !IsSpace(s[i]) && !IsSpace(s[j - 1])
  {
    var l := StripLeft(s);
    StripLeftSuffix(s);
    var r := StripRight(l);
    StripRightPrefix(l);
    assert Strip(s) == r;
    i, j := |s| - |l|, |s| - |l| + |r|;
    PrefixOfSuffix(s, i, |r|);
    forall k | j <= k < |s|
      ensures IsSpace(s[k])
    {
      assert s[k] == l[k - i];
    }
    if i < j {
      assert s[i] == r[0] && s[j - 1] == r[|r| - 1];
    }
  }

  /** Stripping twice is stripping once. */
  lemma StripIdempotent(s: string)
    ensures Strip(Strip(s)) == Strip(s)
  {
  }

  // ---------------------------------------------------------------------------
  // Fence extraction
  // ---------------------------------------------------------------------------

  /** A fenced piece as the parser reads it: stripped, with a leading "json"
      language tag removed and stripped again. */
  function Candidate(part: string): (r: string)
    ensures |r| <= |part|
    ensures r == [] || (!IsSpace(r[0]) && !IsSpace(r[|r| - 1]))
    ensures !Text.StartsWith(Strip(part), "json") ==> r == Strip(part)
  {
    var p := Strip(part);
    if Text.StartsWith(p, "json") then Strip(p[4..]) else p
  }

  /** A candidate that looks like a JSON object. */
  predicate LooksLikeObject(c: string): (b: bool)
    ensures b <==> c != [] && c[0] == '{' && c[|c| - 1] == '}'
  {
    Text.StartsWith(c, "{") && Text.EndsWith(c, "}")
  }

  /** The loop over the fenced pieces: the candidate of the first piece that
      looks like an object, or the whole reply when none does. */
  function FirstObject(parts: seq<string>, response: string): (r: string)
    ensures r == response || LooksLikeObject(r)
    ensures forall k | 0 <= k < |parts| ::
              LooksLikeObject(Candidate(parts[k])) && (forall j | 0 <= j < k :: !LooksLikeObject(Candidate(parts[j])))
              ==> r == Candidate(parts[k])
    ensures (forall j | 0 <= j < |parts| :: !LooksLikeObject(Candidate(parts[j]))) ==> r == response
  {
    if parts == [] then response
    else if LooksLikeObject(Candidate(parts[0])) then Candidate(parts[0])
    else
      var tail := parts[1..];
      assert forall k | 1 <= k < |parts| :: tail[k - 1] == parts[k];
      FirstObject(tail, response)
  }

  /** The text `_parse_llm_response` hands to the JSON parser: a reply without
      a fence is passed unchanged; otherwise the candidate of the first fenced
      piece that looks like an object, and the whole reply if none does. */
  function ExtractJsonText(response: string): (r: string)
    ensures !Text.Contains(response, Fence) ==> r == response
    ensures r == response || LooksLikeObject(r)
    ensures Text.Contains(response, Fence) ==>
      var p := Split(response, Fence);
      && (forall k | 0 <= k < |p| ::
            LooksLikeObject(Candidate(p[k])) && (forall j | 0 <= j < k :: !LooksLikeObject(Candidate(p[j])))
            ==> r == Candidate(p[k]))
      && ((forall j | 0 <= j < |p| :: !LooksLikeObject(Candidate(p[j]))) ==> r == response)
  {
    if Text.Contains(response, Fence) then FirstObject(Split(response, Fence), response) else response
  }

  /** The leftmost occurrence is the one `FindFirst` reports. */
  lemma FindFirstAt(s: string, sep: string, k: nat)
    requires sep != [] && Text.OccursAt(s, sep, k)
    requires forall i | 0 <= i < k :: !Text.OccursAt(s, sep, i)
    ensures FindFirst(s, sep) == Some(k)
  {
  }

  /** One step of splitting: the text before the first separator, then the
      pieces of the rest. */
  lemma SplitStep(s: string, sep: string, i: nat)
    requires sep != [] && FindFirst(s, sep) == Some(i)
    ensures Split(s, sep) == [s[..i]] + Split(s[i + |sep|..], sep)
  {
  }

  /** In `body + Fence` the first fence is the appended one, when `body` has no
      fence and does not end in a backtick. */
  lemma FirstFenceAtEnd(body: string)
    requires body != [] && body[|body| - 1] != '`' && !Text.Contains(body, Fence)
    ensures FindFirst(body + Fence, Fence) == Some(|body|)
  {
    var t := body + Fence;
    assert t[|body|..|body| + 3] == Fence;
    forall i | 0 <= i < |body|
      ensures !Text.OccursAt(t, Fence, i)
    {
      if i + 3 <= |body| {
        assert t[i..i + 3] == body[i..i + 3];
        assert !Text.OccursAt(body, Fence, i);
      } else {
        assert t[i..i + 3][|body| - 1 - i] == body[|body| - 1];
      }
    }
    FindFirstAt(t, Fence, |body|);
  }

  /** A leading separator contributes an empty first piece. */
  lemma SplitLeading(t: string, sep: string)
    requires sep != []
    ensures Split(sep + t, sep) == [""] + Split(t, sep)
  {
    var s := sep + t;
    assert s[..|sep|] == sep;
    FindFirstAt(s, sep, 0);
    SplitStep(s, sep, 0);
    assert s[|sep|..] == t;
  }

  /** A trailing separator that is the first one contributes an empty last piece. */
  lemma SplitTrailing(body: string)
    requires body != [] && body[|body| - 1] != '`' && !Text.Contains(body, Fence)
    ensures var p := Split(body + Fence, Fence); |p| == 2 && p[0] == body && p[1] == []
  {
    var t := body + Fence;
    FirstFenceAtEnd(body);
    SplitStep(t, Fence, |body|);
    assert t[..|body|] == body && t[|body| + 3..] == [];
    assert Split([], Fence) == [[]];
  }

  /** A text wrapped in one pair of fences splits into an empty piece, the
      text, and an empty piece. */
  lemma SplitWrapped(body: string)
    requires body != [] && body[|body| - 1] != '`' && !Text.Contains(body, Fence)
    ensures var p := Split(Fence + (body + Fence), Fence); |p| == 3 && p[0] == [] && p[1] == body && p[2] == []
  {
    SplitTrailing(body);
    SplitLeading(body + Fence, Fence);
  }

  /** A text with no whitespace at either end is left alone by `strip`. */
  lemma StripFixed(o: string)
    requires o != [] && !IsSpace(o[0]) && !IsSpace(o[|o| - 1])
    ensures Strip(o) == o
  {
  }

  /** The candidate of a bare object is the object. */
  lemma CandidateOfBareObject(o: string)
    requires LooksLikeObject(o)
    ensures Candidate(o) == o
  {
    assert o[0] == '{' && o[|o| - 1] == '}';
    StripFixed(o);
    assert !Text.StartsWith(o, "json") by { assert o[0] != 'j'; }
  }

  /** The candidate of a json-tagged object is the object. */
  lemma CandidateOfTaggedObject(o: string)
    requires LooksLikeObject(o)
    ensures Candidate("json" + o) == o
  {
    var body := "json" + o;
    assert o[0] == '{' && o[|o| - 1] == '}';
    assert body[0] == 'j' && body[|body| - 1] == '}';
    StripFixed(body);
    StripFixed(o);
    assert body[..4] == "json";
    assert body[4..] == o;
  }

  lemma CandidateOfEmpty()
    ensures Candidate([]) == []
  {
    assert StripLeft([]) == [];
    assert StripRight([]) == [];
    assert !Text.StartsWith([], "json");
  }

  /** A JSON object wrapped in a fence, with or without the "json" tag, is
      what the parser receives. */
  lemma FencedObjectExtracted(tag: string, o: string)
    requires tag == "" || tag == "json"
    requires LooksLikeObject(o) && !Text.Contains(tag + o, Fence)
    ensures ExtractJsonText(Fence + (tag + o + Fence)) == o
  {
    var body := tag + o;
    var s := Fence + (body + Fence);
    assert body[|body| - 1] == '}';
    SplitWrapped(body);
    var parts := Split(s, Fence);
    assert Text.Contains(s, Fence) by {
      assert s[..3] == Fence;
      assert Text.OccursAt(s, Fence, 0);
    }
    assert Candidate(parts[1]) == o by {
      if tag == "" {
        assert body == o;
        CandidateOfBareObject(o);
      } else {
        CandidateOfTaggedObject(o);
      }
    }
    assert Candidate(parts[0]) == [] by {
      CandidateOfEmpty();
    }
    assert !LooksLikeObject([]);
    ExtractSecond(s);
  }

  /** When the first piece is not an object and the second is, the second is
      extracted. */
  lemma ExtractSecond(s: string)
    requires Text.Contains(s, Fence)
    requires var p := Split(s, Fence);
      |p| >= 2 && !LooksLikeObject(Candidate(p[0])) && LooksLikeObject(Candidate(p[1]))
    ensures ExtractJsonText(s) == Candidate(Split(s, Fence)[1])
  {
  }

  // ---------------------------------------------------------------------------
  // Dummy mode and the analysis call
  // ---------------------------------------------------------------------------

  /** The fields of an analysis reply the callers read. */
  datatype LlmReply = LlmReply(summary: string, extractedFields: seq<(string, string)>, riskFlags: seq<string>,
                               overallRiskLevel: string, overallRiskScore: int)

  const DummySummary := "Dummy-Analyse: Vertrag wurde im Test-Modus verarbeitet."

  /** `_get_dummy_response`: no fields, no flags, level "low", score 25. */
  function DummyResponse(): (r: LlmReply)
    ensures r.extractedFields == [] && r.riskFlags == []
    ensures r.overallRiskLevel == RiskLevelValue(Low)
    ensures r.overallRiskScore == 25
  {
    LlmReply(DummySummary, [], [], "low", 25)
  }

  /** The dummy reply agrees with the engines' own ladder: 25 is LOW. */
  lemma DummyConsistentWithLadder()
    ensures ParseRiskLevel(DummyResponse().overallRiskLevel) == Some(Scoring.ScoreToLevel(DummyResponse().overallRiskScore))
  {
  }

  /** Dummy mode is on unless the variable is set to something other than
      "true" in any letter case; it is on when the variable is unset. */
  predicate DummyMode(env: Option<string>): (b: bool)
    ensures env.None? ==> b
    ensures env.Some? ==> (b <==> Text.Lower(env.value) == "true")
  {
    Text.Lower(env.GetOr("true")) == "true"
  }

  lemma DummyModeDefault()
    ensures DummyMode(None)
    ensures !DummyMode(Some("false"))
  {
    assert Text.Lower("true") == "true" by {
      var l := Text.Lower("true");
      assert forall i | 0 <= i < 4 :: l[i] == "true"[i];
    }
    assert Text.Lower("false")[0] == 'f';
  }

  /** What the analysis call yields: the dummy reply, the text handed to the
      JSON parser, or the error raised for a failed API call. */
  datatype Outcome = Dummy(reply: LlmReply) | ParseJson(text: string) | ApiFailure(message: string)

  /** `call_llm_analysis`, given the dummy-mode variable and the API's reply
      (or failure). */
  function CallLlmAnalysis(env: Option<string>, apiReply: Result<string, string>): (r: Outcome)
    ensures DummyMode(env) ==> r == Dummy(DummyResponse())
    ensures !DummyMode(env) && apiReply.Success? ==> r == ParseJson(ExtractJsonText(Strip(apiReply.value)))
    ensures !DummyMode(env) && apiReply.Failure? ==> r.ApiFailure?
  {
    if DummyMode(env) then Dummy(DummyResponse())
    else match apiReply
      case Success(text) => ParseJson(ExtractJsonText(Strip(text)))
      case Failure(e) => ApiFailure(e)
  }

  /** Outside dummy mode, a reply that is a JSON object wrapped in a code fence
      (tagged "json" or not) reaches the parser as the bare object. */
  lemma FencedReplyParsed(env: Option<string>, tag: string, o: string)
    requires !DummyMode(env)
    requires tag == "" || tag == "json"
    requires LooksLikeObject(o) && !Text.Contains(tag + o, Fence)
    ensures CallLlmAnalysis(env, Success(Fence + (tag + o + Fence))) == ParseJson(o)
  {
    var reply := Fence + (tag + o + Fence);
    assert reply[0] == '`' && reply[|reply| - 1] == '`';
    StripFixed(reply);
    FencedObjectExtracted(tag, o);
  }

  // ---------------------------------------------------------------------------
  // Contract-type fallback
  // ---------------------------------------------------------------------------

  /** The keys of the model-function table. */
  const ModelTypes: set<string> := {"employment", "saas", "nda", "vendor", "service", "rental", "purchase", "general"}

  /** The client and the prompt tables know the same eight types. */
  lemma ModelTypesArePromptTypes()
    ensures ModelTypes == Prompts.PromptTypes
  {
  }

  function ResolveModelType(contractType: string): (r: string)
    ensures r in ModelTypes
    ensures contractType in ModelTypes ==> r == contractType
    ensures contractType !in ModelTypes ==> r == "general"
  {
    if contractType in ModelTypes then contractType else "general"
  }

  /** `analyze_contract`: resolve the type, build both prompts, call the model. */
  function AnalyzeContract(tables: Prompts.PromptTables, contractType: string, contractText: string,
                           env: Option<string>, apiReply: Result<string, string>): (r: ((string, string), Outcome))
    requires Prompts.TablesComplete(tables)
    ensures r.0 == Prompts.GetPromptForType(tables, contractType, contractText)
    ensures r.1 == CallLlmAnalysis(env, apiReply)
  {
    var ty := ResolveModelType(contractType);
    ModelTypesArePromptTypes();
    (Prompts.GetPromptForType(tables, ty, contractText), CallLlmAnalysis(env, apiReply))
  }

  /** The client's fallback and the prompt lookup's fallback agree, so
      resolving twice changes nothing. */
  lemma FallbacksAgree(contractType: string)
    ensures Prompts.ResolveType(ResolveModelType(contractType)) == Prompts.ResolveType(contractType)
  {
  }
}
