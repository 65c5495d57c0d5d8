/** The business-analyst agent: request validation, whitespace
    canonicalisation, extraction of the JSON payload from a fenced reply,
    and the classification of the analysis as clarify, complete or error.
    The language model and the JSON decoder are inputs. */
module Ba {
  import opened Wrappers
  import opened Text
  import opened Schemas

  const MaxRequestLength: nat := 10000
  const EmptyRequestError: string := "Request text cannot be empty"
  const LongRequestError: string := "Request text exceeds maximum length of 10000 characters"
  const MissingKeyError: string := "OPENROUTER_API_KEY not configured"
  const Fence: string := "```"

  // ---------------------------------------------------------------------------
  // Validation
  // ---------------------------------------------------------------------------

  /** `validate_request`: the pair (is valid, error text). Length counts
      code points. */
  function ValidateRequest(text: string): (r: (bool, Option<string>))
    ensures r.0 <==> 0 < |text| <= MaxRequestLength
    ensures r.0 <==> r.1.None?
    ensures |text| == 0 ==> r.1 == Some(EmptyRequestError)
    ensures |text| > MaxRequestLength ==> r.1 == Some(LongRequestError)
  {
    if |text| == 0 then (false, Some(EmptyRequestError))
    else if |text| > MaxRequestLength then (false, Some(LongRequestError))
    else (true, None)
  }

  // ---------------------------------------------------------------------------
  // Whitespace canonicalisation
  // ---------------------------------------------------------------------------

  /** Replaces every maximal run of whitespace by one ASCII space. */
  function Collapse(s: string): (r: string)
    ensures NonSpace(r) == NonSpace(s)
    decreases |s|
  {
    if |s| == 0 then ""
    else if !IsSpace(s[0]) then
      NonSpaceAppend([s[0]], Collapse(s[1..]));
      [s[0]] + Collapse(s[1..])
    else
      NonSpaceStripLeft(s[1..]);
      NonSpaceAppend(" ", Collapse(StripLeft(s[1..])));
      " " + Collapse(StripLeft(s[1..]))
  }

  /** `canonicalize_whitespace`: the result is canonical and keeps every
      non-whitespace character in order. */
  function CanonicalizeWhitespace(s: string): (r: string)
    ensures Canonical(r)
    ensures NonSpace(r) == NonSpace(s)
  {
    StripCollapsed(s);
    Strip(Collapse(s))
  }

  /** Every whitespace character is an ASCII space followed by a
      non-space. */
  predicate SingleSpaced(s: string) {
    forall i :: 0 <= i < |s| && IsSpace(s[i]) ==> s[i] == ' ' && (i + 1 < |s| ==> !IsSpace(s[i + 1]))
  }

  /** The canonical form: single spaces between words, none at the ends. */
  predicate Canonical(s: string) {
    SingleSpaced(s) && NoOuterSpace(s)
  }

  /** The characters of `s` that are not whitespace, in order. */
  function NonSpace(s: string): (r: string)
    ensures |r| <= |s|
    decreases |s|
  {
    if |s| == 0 then "" else (if IsSpace(s[0]) then "" else [s[0]]) + NonSpace(s[1..])
  }

  lemma {:induction false} NonSpaceAppend(a: string, b: string)
    ensures NonSpace(a + b) == NonSpace(a) + NonSpace(b)
    decreases |a|
  {
    if |a| > 0 {
      assert (a + b)[1..] == a[1..] + b;
      NonSpaceAppend(a[1..], b);
      var h := if IsSpace(a[0]) then "" else [a[0]];
      assert NonSpace(a + b) == h + NonSpace(a[1..] + b);
      assert h + (NonSpace(a[1..]) + NonSpace(b)) == (h + NonSpace(a[1..])) + NonSpace(b);
    } else {
      assert a + b == b;
    }
  }

  lemma {:induction false} NonSpaceStripLeft(s: string)
    ensures NonSpace(StripLeft(s)) == NonSpace(s)
    decreases |s|
  {
    if |s| > 0 && IsSpace(s[0]) {
      NonSpaceStripLeft(s[1..]);
    }
  }

  lemma {:induction false} NonSpaceStripRight(s: string)
    ensures NonSpace(StripRight(s)) == NonSpace(s)
    decreases |s|
  {
    if |s| > 0 && IsSpace(s[|s| - 1]) {
      NonSpaceStripRight(s[..|s| - 1]);
      assert s == s[..|s| - 1] + [s[|s| - 1]];
      NonSpaceAppend(s[..|s| - 1], [s[|s| - 1]]);
    }
  }

  /** A collapsed string is empty exactly when the input is, and starts
      with the input's first character when that is not whitespace. */
  lemma {:induction false} CollapseHead(s: string)
    ensures |Collapse(s)| == 0 <==> |s| == 0
    ensures |s| > 0 && !IsSpace(s[0]) ==> Collapse(s)[0] == s[0]
    ensures |s| > 0 && IsSpace(s[0]) ==> Collapse(s)[0] == ' '
  {
  }

  lemma {:induction false} CollapseSingleSpaced(s: string)
    ensures SingleSpaced(Collapse(s))
    decreases |s|
  {
    if |s| > 0 {
      if !IsSpace(s[0]) {
        CollapseSingleSpaced(s[1..]);
        var c := Collapse(s[1..]);
        assert Collapse(s) == [s[0]] + c;
        forall i | 0 <= i < |Collapse(s)| && IsSpace(Collapse(s)[i])
          ensures Collapse(s)[i] == ' ' && (i + 1 < |Collapse(s)| ==> !IsSpace(Collapse(s)[i + 1]))
        {
          assert i > 0 && Collapse(s)[i] == c[i - 1];
        }
      } else {
        var rest := StripLeft(s[1..]);
        StripLeftProps(s[1..]);
        CollapseSingleSpaced(rest);
        CollapseHead(rest);
        var c := Collapse(rest);
        assert Collapse(s) == " " + c;
        forall i | 0 <= i < |Collapse(s)| && IsSpace(Collapse(s)[i])
          ensures Collapse(s)[i] == ' ' && (i + 1 < |Collapse(s)| ==> !IsSpace(Collapse(s)[i + 1]))
        {
          if i > 0 {
            assert Collapse(s)[i] == c[i - 1];
          }
        }
      }
    }
  }

  /** A contiguous piece of a single-spaced string is single-spaced. */
  lemma SingleSpacedSlice(s: string, a: nat, b: nat)
    requires SingleSpaced(s) && a <= b <= |s|
    ensures SingleSpaced(s[a..b])
  {
    forall i | 0 <= i < b - a && IsSpace(s[a..b][i])
      ensures s[a..b][i] == ' ' && (i + 1 < b - a ==> !IsSpace(s[a..b][i + 1]))
    {
      assert s[a..b][i] == s[a + i];
    }
  }

  /** `Strip(s)` is the slice of `s` between its outer whitespace. */
  lemma StripIsSlice(s: string) returns (a: nat, b: nat)
    ensures a <= b <= |s| && Strip(s) == s[a..b]
  {
    var l := StripLeft(s);
    StripLeftProps(s);
    StripRightProps(l);
    a := |s| - |l|;
    b := a + |StripRight(l)|;
    assert l == s[a..];
    assert StripRight(l) == l[..|StripRight(l)|];
  }

  /** Stripping a collapsed string leaves it canonical, with the same
      non-whitespace characters. */
  lemma StripCollapsed(s: string)
    ensures Canonical(Strip(Collapse(s)))
    ensures NonSpace(Strip(Collapse(s))) == NonSpace(s)
  {
    var c := Collapse(s);
    CollapseSingleSpaced(s);
    var a, b := StripIsSlice(c);
    SingleSpacedSlice(c, a, b);
    StripProps(c);
    NonSpaceStripLeft(c);
    NonSpaceStripRight(StripLeft(c));
  }

  /** A single-spaced string is its own collapse. */
  lemma {:induction false} CollapseSingleSpacedFixed(s: string)
    requires SingleSpaced(s)
    ensures Collapse(s) == s
    decreases |s|
  {
    if |s| > 0 {
      SingleSpacedSlice(s, 1, |s|);
      CollapseSingleSpacedFixed(s[1..]);
      if IsSpace(s[0]) {
        StripLeftNoSpace(s[1..]);
      }
    }
  }

  /** Canonical text is left alone, so canonicalising twice is the same as
      canonicalising once. */
  lemma CanonicalizeIdempotent(s: string)
    ensures Canonical(s) ==> CanonicalizeWhitespace(s) == s
    ensures CanonicalizeWhitespace(CanonicalizeWhitespace(s)) == CanonicalizeWhitespace(s)
  {
    if Canonical(s) {
      CollapseSingleSpacedFixed(s);
      StripIdentity(s);
    }
    var c := CanonicalizeWhitespace(s);
    CollapseSingleSpacedFixed(c);
    StripIdentity(c);
  }

  /** A request of only whitespace passes validation, which looks at the
      raw text, and reaches the model as the empty string. */
  lemma WhitespaceOnlyRequest(text: string)
    requires 0 < |text| <= MaxRequestLength
    requires forall i :: 0 <= i < |text| ==> IsSpace(text[i])
    ensures ValidateRequest(text).0
    ensures CanonicalizeWhitespace(text) == ""
  {
    var c := CanonicalizeWhitespace(text);
    NonSpaceAllSpace(text);
    if |c| > 0 {
      NonSpaceKeepsFirst(c);
    }
  }

  lemma {:induction false} NonSpaceAllSpace(s: string)
    requires forall i :: 0 <= i < |s| ==> IsSpace(s[i])
    ensures NonSpace(s) == ""
    decreases |s|
  {
    if |s| > 0 {
      NonSpaceAllSpace(s[1..]);
    }
  }

  lemma NonSpaceKeepsFirst(s: string)
    requires |s| > 0 && !IsSpace(s[0])
    ensures |NonSpace(s)| > 0
  {
  }

  // ---------------------------------------------------------------------------
  // Extracting the payload from a fenced reply
  // ---------------------------------------------------------------------------

  /** An occurrence inside a piece of `s` is an occurrence in `s`, shifted
      by where the piece starts. */
  lemma AtShift(s: string, pat: string, q: nat, r: string, k: nat)
    requires q + |r| <= |s| && s[q..q + |r|] == r
    requires q <= k && k + |pat| <= q + |r|
    ensures At(s, pat, k) <==> At(r, pat, k - q)
  {
    forall x | k <= x < k + |pat|
      ensures s[x] == r[x - q]
    {
      assert s[q..q + |r|][x - q] == s[x];
    }
    assert s[k..k + |pat|] == r[k - q..k - q + |pat|];
  }

  /** A piece of `s` lying in a stretch without occurrences of `pat` does
      not contain `pat`. */
  lemma NoneInside(s: string, pat: string, q: nat, j: nat, r: string)
    requires |pat| > 0 && q + |r| <= j <= |s| && s[q..q + |r|] == r
    requires forall k :: q <= k < j ==> !At(s, pat, k)
    ensures !Contains(r, pat)
  {
    if Contains(r, pat) {
      var k := ContainsWitness(r, pat);
      AtShift(s, pat, q, r, q + k);
    }
  }

  /** The first position at or after `from` that is not whitespace. */
  function SkipSpaces(s: string, from: nat): (r: nat)
    requires from <= |s|
    ensures from <= r <= |s|
    ensures forall k :: from <= k < r ==> IsSpace(s[k])
    ensures r < |s| ==> !IsSpace(s[r])
    decreases |s| - from
  {
    if from < |s| && IsSpace(s[from]) then SkipSpaces(s, from + 1) else from
  }

  /** The group of the first match of the fenced-block pattern (three
      backticks, an optional "json", whitespace, the shortest body,
      whitespace, three backticks), or `None` when there is no match. */
  function ExtractFence(s: string): (r: Option<string>)
    // An extracted body is a piece of the reply with no fence inside it.
    ensures r.Some? ==> Contains(s, r.value) && !Contains(r.value, Fence)
  {
    match FindFrom(s, Fence, 0)
    case None => None
    case Some(i) =>
      var p := i + 3;
      var q := SkipSpaces(s, if At(s, "json", p) then p + 4 else p);
      match FindFrom(s, Fence, q)
      case None => None
      case Some(j) =>
        FencedPiece(s, q, j);
        Some(StripRight(s[q..j]))
  }

  /** The text handed to the JSON decoder. */
  function ParseInput(raw: string): string {
    match ExtractFence(raw)
    case Some(body) => Strip(body)
    case None => Strip(raw)
  }

  /** The stripped slice `s[q..j]` of a stretch without fences is a piece
      of `s` with no fence inside it. */
  lemma FencedPiece(s: string, q: nat, j: nat)
    requires q <= j <= |s|
    requires forall k :: q <= k < j ==> !At(s, Fence, k)
    ensures Contains(s, StripRight(s[q..j])) && !Contains(StripRight(s[q..j]), Fence)
  {
    StrippedPiece(s, q, j);
    NoneInside(s, Fence, q, j, StripRight(s[q..j]));
  }

  /** The stripped slice `s[q..j]` sits at `q` in `s`. */
  lemma StrippedPiece(s: string, q: nat, j: nat)
    requires q <= j <= |s|
    ensures var r := StripRight(s[q..j]);
      q + |r| <= j && s[q..q + |r|] == r && Contains(s, r)
  {
    var r := StripRight(s[q..j]);
    StripRightProps(s[q..j]);
    assert s[q..j][..|r|] == s[q..q + |r|];
    ContainsAt(s, r, q);
  }

  /** A reply without any fence is decoded as a whole, stripped. */
  lemma UnfencedReply(raw: string)
    requires !Contains(raw, Fence)
    ensures ParseInput(raw) == Strip(raw)
  {
    if FindFrom(raw, Fence, 0).Some? {
      ContainsAt(raw, Fence, FindFrom(raw, Fence, 0).value);
    }
  }

  /** The text a caller gets when it wraps `body` in a json-tagged fence. */
  function Wrapped(body: string): (s: string)
    ensures |s| == |body| + 12
  {
    Fence + "json\n" + body + "\n" + Fence
  }

  /** No fence starts between the start of a fence-free `body` placed at
      position 8 and the newline that follows it. */
  lemma NoEarlyFence(s: string, body: string, k: nat)
    requires |s| >= 9 + |body| && s[8..8 + |body|] == body && s[8 + |body|] == '\n'
    requires !Contains(body, Fence) && 8 <= k < 9 + |body|
    ensures !At(s, Fence, k)
  {
    var n := |body|;
    if k + 3 <= 8 + n {
      AtShift(s, Fence, 8, body, k);
      if At(s, Fence, k) {
        ContainsAt(body, Fence, k - 8);
      }
    } else if k + 3 <= |s| {
      assert s[k..k + 3][8 + n - k] == s[8 + n];
    }
  }

  /** Where the pieces of a wrapped body sit. */
  lemma WrappedParts(body: string)
    ensures var s, n := Wrapped(body), |body|;
      && s[..3] == Fence && s[3..7] == "json" && s[7] == '\n'
      && s[8..8 + n] == body && s[8 + n] == '\n' && s[9 + n..] == Fence
  {
  }

  /** No fence starts anywhere from the body's start up to the closing
      fence. */
  lemma NoFenceBeforeClosing(s: string, body: string)
    requires |s| >= 9 + |body| && s[8..8 + |body|] == body && s[8 + |body|] == '\n'
    requires !Contains(body, Fence)
    ensures forall k :: 8 <= k < 9 + |body| ==> !At(s, Fence, k)
  {
    forall k | 8 <= k < 9 + |body|
      ensures !At(s, Fence, k)
    {
      NoEarlyFence(s, body, k);
    }
  }

  /** After a fence-free body placed at position 8 and a newline, the
      first fence is the closing one. */
  lemma ClosingFence(s: string, body: string)
    requires |s| == 12 + |body| && s[8..8 + |body|] == body && s[8 + |body|] == '\n'
    requires s[9 + |body|..] == Fence && !Contains(body, Fence)
    ensures FindFrom(s, Fence, 8) == Some(9 + |body|)
  {
    NoFenceBeforeClosing(s, body);
    assert At(s, Fence, 9 + |body|);
    FindFromFirst(s, Fence, 8, 9 + |body|);
  }

  /** The wrapped text opens with the fence and its "json" tag. */
  lemma WrappedOpening(body: string)
    ensures FindFrom(Wrapped(body), Fence, 0) == Some(0)
    ensures At(Wrapped(body), "json", 3)
  {
    var s := Wrapped(body);
    WrappedParts(body);
    assert At(s, Fence, 0);
    FindFromFirst(s, Fence, 0, 0);
  }

  /** The body of a wrapped text starts right after the tag's newline, or at
      the newline that follows an empty body. */
  lemma WrappedBodyStart(body: string)
    requires NoOuterSpace(body)
    ensures SkipSpaces(Wrapped(body), 8) == if |body| == 0 then 9 else 8
  {
    var s := Wrapped(body);
    WrappedParts(body);
    if |body| == 0 {
      assert SkipSpaces(s, 9) == 9;
    } else {
      assert s[8] == body[0];
    }
  }

  /** The fenced block of a wrapped body is the body itself. */
  lemma WrappedExtract(body: string)
    requires NoOuterSpace(body) && !Contains(body, Fence)
    ensures ExtractFence(Wrapped(body)) == Some(body)
  {
    var s := Wrapped(body);
    var n := |body|;
    WrappedParts(body);
    WrappedOpening(body);
    WrappedBodyStart(body);
    ClosingFence(s, body);
    if n == 0 {
      assert s[9..9] == "";
    } else {
      assert s[8..9 + n] == body + "\n";
      assert StripRight(body + "\n") == body by {
        assert (body + "\n")[..n] == body;
        StripRightNoSpace(body);
      }
    }
  }

  /** Wrapping a payload in a json-tagged fence and extracting it gives the
      payload back. */
  lemma FenceRoundTrip(body: string)
    requires NoOuterSpace(body) && !Contains(body, Fence)
    ensures ParseInput(Wrapped(body)) == body
  {
    WrappedExtract(body);
    StripIdentity(body);
  }

  // ---------------------------------------------------------------------------
  // The analysis
  // ---------------------------------------------------------------------------

  /** The dict the BA analysis returns; `None` marks an absent key. */
  datatype BaReply = BaReply(
    status: Option<string>,
    response: Option<BAResponse>,
    questions: Option<seq<string>>,
    userStories: Option<seq<UserStory>>,
    error: Option<string>)

  function ErrorReply(msg: string): BaReply {
    BaReply(Some("error"), None, None, None, Some(msg))
  }

  /** Why the decoder rejected a payload: bad JSON, or a shape that does
      not fit the response schema. */
  datatype DecodeError = JsonInvalid(msg: string) | SchemaInvalid(msg: string)

  /** `parse_ba_response`: unwraps the payload and decodes it. */
  function ParseBaResponse(raw: string, decode: string -> Result<BAResponse, DecodeError>): (r: Result<BAResponse, string>)
    ensures r.Success? <==> decode(ParseInput(raw)).Success?
    ensures r.Success? ==> r.value == decode(ParseInput(raw)).value
  {
    match decode(ParseInput(raw))
    case Success(v) => Success(v)
    case Failure(JsonInvalid(m)) => Failure("Failed to parse JSON response: " + m)
    case Failure(SchemaInvalid(m)) => Failure("Failed to validate response structure: " + m)
  }

  /** `run_ba_analysis`. `llm` maps the prompt text to the model's reply
      or to the text of the exception it raised. */
  function RunBaAnalysis(text: string, hasApiKey: bool, llm: string -> Result<string, string>,
                         decode: string -> Result<BAResponse, DecodeError>): (r: BaReply)
    ensures r.status == Some("error") || r.status == Some("clarify") || r.status == Some("complete")
    ensures r.status == Some("error") <==> r.error.Some?
    ensures r.status == Some("error") <==> r.response.None?
    // validation and the key check come before any model call
    ensures !ValidateRequest(text).0 ==> r == ErrorReply(ValidateRequest(text).1.value)
    ensures ValidateRequest(text).0 && !hasApiKey ==> r == ErrorReply(MissingKeyError)
    // a model failure is reported, not raised
    ensures ValidateRequest(text).0 && hasApiKey && llm(CanonicalizeWhitespace(text)).Failure? ==>
      r == ErrorReply("LLM call failed: " + llm(CanonicalizeWhitespace(text)).error)
    // questions decide between clarify and complete
    ensures r.status == Some("clarify") ==>
      |r.response.value.questions| > 0 && r.questions == Some(r.response.value.questions)
      && r.userStories.None?
    ensures r.status == Some("complete") ==>
      |r.response.value.questions| == 0 && r.userStories == Some(r.response.value.userStories)
      && r.questions.None?
  {
    var (valid, err) := ValidateRequest(text);
    if !valid then ErrorReply(err.value)
    else
      var cleaned := CanonicalizeWhitespace(text);
      if !hasApiKey then ErrorReply(MissingKeyError)
      else match llm(cleaned)
        case Failure(e) => ErrorReply("LLM call failed: " + e)
        case Success(raw) =>
          match ParseBaResponse(raw, decode)
          case Failure(e) => ErrorReply("Failed to parse LLM response: " + e)
          case Success(resp) =>
            if |resp.questions| > 0 then
              BaReply(Some("clarify"), Some(resp), Some(resp.questions), None, None)
            else
              BaReply(Some("complete"), Some(resp), None, Some(resp.userStories), None)
  }

  /** The model only ever sees the canonical form of the request: two
      models that agree on it give the same analysis. */
  lemma AnalysisSeesCanonicalText(text: string, hasApiKey: bool,
                                  llm1: string -> Result<string, string>, llm2: string -> Result<string, string>,
                                  decode: string -> Result<BAResponse, DecodeError>)
    requires llm1(CanonicalizeWhitespace(text)) == llm2(CanonicalizeWhitespace(text))
    ensures RunBaAnalysis(text, hasApiKey, llm1, decode) == RunBaAnalysis(text, hasApiKey, llm2, decode)
  {
  }

  /** Requests that canonicalise to the same text get the same analysis. */
  lemma AnalysisIgnoresSpacing(t1: string, t2: string, hasApiKey: bool,
                               llm: string -> Result<string, string>,
                               decode: string -> Result<BAResponse, DecodeError>)
    requires ValidateRequest(t1).0 && ValidateRequest(t2).0
    requires CanonicalizeWhitespace(t1) == CanonicalizeWhitespace(t2)
    ensures RunBaAnalysis(t1, hasApiKey, llm, decode) == RunBaAnalysis(t2, hasApiKey, llm, decode)
  {
  }
}
