/**
 * The report-analysis client: the two exported calls `analyzeMedicalReport` and
 * `generateReportSummary`, with the network reply given as a parameter, and the
 * extraction of the JSON text from the model's free-text reply.
 *
 * The extraction trims the reply, then looks for a triple-backtick fence with the
 * regular expressions /```json\n?([\s\S]*?)\n?```/ and, failing that,
 * /```\n?([\s\S]*?)\n?```/, and trims again. The regexes are modelled as the
 * backtracking search a JavaScript engine performs: leftmost start position,
 * greedy optional newline, lazy body.
 */
module AiAnalysis {
  import opened Wrappers
  import opened Text

  const KeyNotConfigured := "Gemini API key not configured"
  const AnalysisFailed := "Failed to analyze report"
  const NoContent := "No content received from Gemini API"
  const SummaryUnavailable := "AI analysis is currently unavailable. Please configure your API key."
  const SummaryMissing := "Unable to generate summary."
  const SummaryFailed := "Unable to generate summary. Please review the full report details."
  const DefaultMimeType := "image/jpeg"
  const VisionModel := "gemini-pro-vision"
  const TextModel := "gemini-pro"

  const VisionInstruction :=
    "You are a medical AI assistant specialized in analyzing medical reports. Your role is to:\n"
    + "1. Extract and interpret key medical data from report images\n"
    + "2. Identify abnormal values and flag them\n"
    + "3. Provide clear, patient-friendly explanations\n"
    + "4. Classify severity: normal, warning, or critical\n"
    + "5. Suggest next steps (always recommend consulting a doctor)\n\n"
    + "Analyze this medical report image and provide your response in VALID JSON format with this exact structure:\n"
    + "{\n"
    + "  \"summary\": \"Brief 2-3 sentence overview of the report\",\n"
    + "  \"keyFindings\": [\"Finding 1\", \"Finding 2\", \"Finding 3\"],\n"
    + "  \"recommendations\": [\"Recommendation 1\", \"Recommendation 2\"],\n"
    + "  \"severity\": \"normal\"\n"
    + "}\n\n"
    + "IMPORTANT: \n"
    + "- Return ONLY valid JSON, no markdown formatting\n"
    + "- Always include a disclaimer that this is AI analysis and professional medical consultation is required\n"
    + "- severity must be exactly one of: \"normal\", \"warning\", or \"critical\""

  const SummaryPreamble :=
    "You are a medical AI that creates brief, patient-friendly summaries of medical reports. "
    + "Keep it concise (2-3 sentences) and always remind users to consult their doctor.\n\n"
    + "Summarize this "

  // ---------------------------------------------------------------------------
  // The fence regexes
  // ---------------------------------------------------------------------------

  /** Three backticks start at position `i`. */
  predicate FenceAt(s: string, i: int) {
    0 <= i && i + 3 <= |s| && s[i] == '`' && s[i + 1] == '`' && s[i + 2] == '`'
  }

  ghost predicate FenceFree(s: string) {
    forall i :: !FenceAt(s, i)
  }

  /** Two fences that do not overlap: an opening and a closing one. */
  ghost predicate HasClosedFence(s: string) {
    exists p, q :: FenceAt(s, p) && FenceAt(s, q) && p + 3 <= q
  }

  /** The lazy body `([\s\S]*?)` followed by `\n?` and the closing fence, with the body
      ending at `e` or later: the position where the captured body ends. */
  function CloseFrom(s: string, e: nat): (r: Option<nat>)
    requires e <= |s|
    ensures r.Some? ==> e <= r.value <= |s|
    ensures r.Some? ==> FenceAt(s, r.value) || (r.value < |s| && s[r.value] == '\n' && FenceAt(s, r.value + 1))
    ensures r.Some? ==> forall i :: e <= i < r.value ==> !FenceAt(s, i)
    ensures r.None? ==> forall i :: e <= i ==> !FenceAt(s, i)
    decreases |s| - e
  {
    if e < |s| && s[e] == '\n' && FenceAt(s, e + 1) then Some(e)
    else if FenceAt(s, e) then Some(e)
    else if e == |s| then None
    else CloseFrom(s, e + 1)
  }

  lemma FenceFreeSlice(s: string, x: nat, y: nat)
    requires x <= y <= |s|
    requires forall i :: x <= i < y ==> !FenceAt(s, i)
    ensures FenceFree(s[x..y])
  {
    forall i ensures !FenceAt(s[x..y], i) {
      if 0 <= i && i + 3 <= y - x {
        assert !FenceAt(s, x + i);
      }
    }
  }

  /** The regex `/```TAG\n?([\s\S]*?)\n?```/` tried at position `p`: its capture group. */
  function MatchAt(s: string, tag: string, p: nat): (r: Option<string>)
    requires p <= |s|
    ensures r.Some? ==> FenceFree(r.value)
  {
    if !OccursAt(s, "```" + tag, p) then None
    else
      var b := p + 3 + |tag|;
      var withNewline := if b < |s| && s[b] == '\n' then CloseFrom(s, b + 1) else None;
      if withNewline.Some? then
        FenceFreeSlice(s, b + 1, withNewline.value);
        Some(s[b + 1..withNewline.value])
      else
        match CloseFrom(s, b)
        case Some(e) =>
          FenceFreeSlice(s, b, e);
          Some(s[b..e])
        case None => None
  }

  /** The leftmost match at position `p` or later. */
  function FirstMatch(s: string, tag: string, p: nat): (r: Option<string>)
    requires p <= |s|
    ensures r.Some? ==> FenceFree(r.value)
    decreases |s| - p
  {
    match MatchAt(s, tag, p)
    case Some(g) => Some(g)
    case None => if p == |s| then None else FirstMatch(s, tag, p + 1)
  }

  /** `s.match(jsonFence) || s.match(plainFence)`, reduced to the capture group. */
  function FenceBody(s: string): (r: Option<string>)
    ensures r.Some? ==> FenceFree(r.value)
  {
    var json := FirstMatch(s, "json", 0);
    if json.Some? then json else FirstMatch(s, "", 0)
  }

  /** The text handed to `JSON.parse`: the reply trimmed, unwrapped from its first
      fence when there is one, and trimmed again. */
  function ExtractJsonText(content: string): (r: string)
    ensures Trimmed(r)
    ensures FenceBody(Trim(content)).Some? ==> FenceFree(r)
    ensures FenceBody(Trim(content)).None? ==> r == Trim(content)
  {
    var jsonString := Trim(content);
    var jsonMatch := FenceBody(jsonString);
    var unwrapped := if jsonMatch.Some? then jsonMatch.value else jsonString;
    if jsonMatch.Some? then
      TrimKeepsFenceFree(unwrapped);
      Trim(unwrapped)
    else
      TrimIdempotent(content);
      Trim(unwrapped)
  }

  lemma TrimKeepsFenceFree(g: string)
    requires FenceFree(g)
    ensures FenceFree(Trim(g))
  {
    var i, j := TrimIsInfix(g);
    forall k ensures !FenceAt(Trim(g), k) {
      assert !FenceAt(g, i + k);
    }
  }

  // ---------------------------------------------------------------------------
  // When the regexes match
  // ---------------------------------------------------------------------------

  lemma FenceOpensMatch(s: string, tag: string, p: nat)
    requires p <= |s| && OccursAt(s, "```" + tag, p)
    ensures FenceAt(s, p)
  {
    assert s[p..p + 3 + |tag|][..3] == "```";
  }

  lemma MatchAtNeedsClosedFence(s: string, tag: string, p: nat)
    requires p <= |s| && MatchAt(s, tag, p).Some?
    ensures HasClosedFence(s)
  {
    FenceOpensMatch(s, tag, p);
    var b := p + 3 + |tag|;
    var e :| e >= b && (FenceAt(s, e) || FenceAt(s, e + 1)) by {
      var withNewline := if b < |s| && s[b] == '\n' then CloseFrom(s, b + 1) else None;
      if withNewline.Some? {
      } else {
        assert CloseFrom(s, b).Some?;
      }
    }
  }

  lemma {:induction false} FirstMatchNeedsClosedFence(s: string, tag: string, p: nat)
    requires p <= |s| && FirstMatch(s, tag, p).Some?
    ensures HasClosedFence(s)
    decreases |s| - p
  {
    if MatchAt(s, tag, p).Some? {
      MatchAtNeedsClosedFence(s, tag, p);
    } else {
      FirstMatchNeedsClosedFence(s, tag, p + 1);
    }
  }

  lemma {:induction false} FirstMatchReaches(s: string, tag: string, p0: nat, p: nat)
    requires p0 <= p <= |s| && MatchAt(s, tag, p).Some?
    ensures FirstMatch(s, tag, p0).Some?
    decreases p - p0
  {
    if MatchAt(s, tag, p0).None? {
      FirstMatchReaches(s, tag, p0 + 1, p);
    }
  }

  /** A fence followed, not overlapping, by another makes the plain-fence regex match. */
  lemma ClosedFenceMatches(s: string)
    requires HasClosedFence(s)
    ensures FirstMatch(s, "", 0).Some?
  {
    var p, q :| FenceAt(s, p) && FenceAt(s, q) && p + 3 <= q;
    assert OccursAt(s, "```" + "", p) by {
      assert s[p..p + 3] == "```";
    }
    assert CloseFrom(s, p + 3).Some?;
    FirstMatchReaches(s, "", 0, p);
  }

  /** A fence is unwrapped exactly when the trimmed reply holds two non-overlapping fences. */
  lemma FenceBodyFoundIff(s: string)
    ensures FenceBody(s).Some? <==> HasClosedFence(s)
  {
    if HasClosedFence(s) {
      ClosedFenceMatches(s);
    }
    if FirstMatch(s, "json", 0).Some? {
      FirstMatchNeedsClosedFence(s, "json", 0);
    }
    if FirstMatch(s, "", 0).Some? {
      FirstMatchNeedsClosedFence(s, "", 0);
    }
  }

  /** A reply without two non-overlapping fences is only trimmed. */
  lemma NoFenceOnlyTrims(reply: string)
    requires !HasClosedFence(reply)
    ensures ExtractJsonText(reply) == Trim(reply)
  {
    var i, j := TrimIsInfix(reply);
    var t := Trim(reply);
    if HasClosedFence(t) {
      var p, q :| FenceAt(t, p) && FenceAt(t, q) && p + 3 <= q;
      FenceInInfix(reply, i, j, p);
      FenceInInfix(reply, i, j, q);
      assert HasClosedFence(reply);
    }
    FenceBodyFoundIff(t);
  }

  lemma FenceInInfix(s: string, i: nat, j: nat, p: int)
    requires i <= j <= |s| && FenceAt(s[i..j], p)
    ensures FenceAt(s, i + p)
  {
    assert s[i..j][p] == s[i + p] && s[i..j][p + 1] == s[i + p + 1] && s[i..j][p + 2] == s[i + p + 2];
  }

  /** What is unwrapped holds no fence, so extracting again changes nothing. */
  lemma ExtractIdempotent(reply: string)
    ensures ExtractJsonText(ExtractJsonText(reply)) == ExtractJsonText(reply)
  {
    var y := ExtractJsonText(reply);
    TrimOfTrimmed(y);
    FenceBodyFoundIff(y);
    if FenceBody(Trim(reply)).None? {
      FenceBodyFoundIff(Trim(reply));
    }
  }

  /** The lazy body stops at the first closing fence, leaving a newline just before it out. */
  lemma {:induction false} CloseAtFirstFence(s: string, e: nat, q: nat)
    requires e <= q && FenceAt(s, q)
    requires forall i :: e <= i < q ==> !FenceAt(s, i)
    ensures CloseFrom(s, e) == Some(if e < q && s[q - 1] == '\n' then q - 1 else q)
    decreases q - e
  {
    if e < q - 1 {
      CloseAtFirstFence(s, e + 1, q);
    } else if e == q - 1 && !(s[e] == '\n') {
      CloseAtFirstFence(s, e + 1, q);
    }
  }

  lemma MatchAtAfterNewline(s: string, tag: string, p: nat, e: nat)
    requires OccursAt(s, "```" + tag, p) && p + 3 + |tag| < |s| && s[p + 3 + |tag|] == '\n'
    requires p + 4 + |tag| <= |s| && CloseFrom(s, p + 4 + |tag|) == Some(e)
    ensures MatchAt(s, tag, p) == Some(s[p + 4 + |tag|..e])
  {
  }

  lemma MatchAtNoNewline(s: string, tag: string, p: nat, e: nat)
    requires OccursAt(s, "```" + tag, p) && !(p + 3 + |tag| < |s| && s[p + 3 + |tag|] == '\n')
    requires p + 3 + |tag| <= |s| && CloseFrom(s, p + 3 + |tag|) == Some(e)
    ensures MatchAt(s, tag, p) == Some(s[p + 3 + |tag|..e])
  {
  }

  /** The regex matched at `p`, with the first closing fence after the opener at `q`,
      captures the text in between up to whitespace at its ends. */
  lemma MatchAtCaptures(s: string, tag: string, p: nat, q: nat) returns (w1: string, w2: string)
    requires OccursAt(s, "```" + tag, p) && p + 3 + |tag| <= q && FenceAt(s, q)
    requires forall i :: p + 3 + |tag| <= i < q ==> !FenceAt(s, i)
    ensures MatchAt(s, tag, p).Some?
    ensures AllWhitespace(w1) && AllWhitespace(w2)
    ensures s[p + 3 + |tag|..q] == w1 + MatchAt(s, tag, p).value + w2
  {
    var b := p + 3 + |tag|;
    var start := if b < |s| && s[b] == '\n' then b + 1 else b;
    assert start <= q by {
      if start == b + 1 {
        assert !FenceAt(s, b) || b < q;
      }
    }
    CloseAtFirstFence(s, start, q);
    var end := if start < q && s[q - 1] == '\n' then q - 1 else q;
    if start == b + 1 {
      MatchAtAfterNewline(s, tag, p, end);
    } else {
      MatchAtNoNewline(s, tag, p, end);
    }
    w1, w2 := s[b..start], s[end..q];
    NewlinePadding(s, b, start, end, q);
    ThreeSlices(s, b, start, end, q);
  }

  lemma ThreeSlices(s: string, a: nat, b: nat, c: nat, d: nat)
    requires a <= b <= c <= d <= |s|
    ensures s[a..d] == s[a..b] + s[b..c] + s[c..d]
  {
  }

  lemma NewlinePadding(s: string, b: nat, start: nat, end: nat, q: nat)
    requires b <= start <= end <= q <= |s|
    requires start == b || (start == b + 1 && s[b] == '\n')
    requires end == q || (end == q - 1 && s[end] == '\n')
    ensures AllWhitespace(s[b..start]) && AllWhitespace(s[end..q])
  {
  }

  lemma {:induction false} FirstMatchSkipsToOpener(s: string, tag: string, p0: nat, p: nat)
    requires p0 <= p <= |s| && MatchAt(s, tag, p).Some?
    requires forall i :: p0 <= i < p ==> !OccursAt(s, "```" + tag, i)
    ensures FirstMatch(s, tag, p0) == MatchAt(s, tag, p)
    decreases p - p0
  {
    if p0 < p {
      FirstMatchSkipsToOpener(s, tag, p0 + 1, p);
    }
  }

  /** A `json`-tagged fence wins over plain fences, even ones that come earlier; its body
      runs to the first following fence. */
  lemma JsonFenceWins(reply: string, p: nat, q: nat)
    requires OccursAt(Trim(reply), "```json", p)
    requires forall i :: 0 <= i < p ==> !OccursAt(Trim(reply), "```json", i)
    requires p + 7 <= q && FenceAt(Trim(reply), q)
    requires forall i :: p + 7 <= i < q ==> !FenceAt(Trim(reply), i)
    ensures ExtractJsonText(reply) == Trim(Trim(reply)[p + 7..q])
  {
    var t := Trim(reply);
    assert "```" + "json" == "```json";
    var w1, w2 := MatchAtCaptures(t, "json", p, q);
    var body := MatchAt(t, "json", p).value;
    FirstMatchSkipsToOpener(t, "json", 0, p);
    assert FenceBody(t) == Some(body);
    TrimIgnoresPadding(w1, body, w2);
    assert t[p + 7..q] == w1 + body + w2;
    assert ExtractJsonText(reply) == Trim(body);
  }

  lemma {:induction false} NoOpenerNoMatch(s: string, tag: string, p: nat)
    requires p <= |s|
    requires forall i :: p <= i ==> !OccursAt(s, "```" + tag, i)
    ensures FirstMatch(s, tag, p).None?
    decreases |s| - p
  {
    if p < |s| {
      NoOpenerNoMatch(s, tag, p + 1);
    }
  }

  /** A word of visible characters, none of them a backtick. */
  predicate PlainWord(tag: string) {
    tag != [] && forall i :: 0 <= i < |tag| ==> !IsWhitespace(tag[i]) && tag[i] != '`'
  }

  /** A fence tagged with a plain word opening the text: the plain-fence regex matches
      there and its capture starts with the tag. */
  lemma TaggedOpenerCaptures(s: string, tag: string, q: nat)
    requires PlainWord(tag) && 3 + |tag| <= q && FenceAt(s, q)
    requires s[..3] == "```" && s[3..3 + |tag|] == tag
    ensures MatchAt(s, "", 0).Some?
    ensures StartsWith(MatchAt(s, "", 0).value, tag)
  {
    assert OccursAt(s, "```" + "", 0);
    assert s[3] == tag[0];
    var e := CloseFrom(s, 3);
    assert e.Some?;
    forall i | 3 <= i < 3 + |tag| ensures !IsWhitespace(s[i]) && s[i] != '`' {
      assert s[i] == tag[i - 3];
    }
  }

  lemma TrimKeepsLeadingWord(g: string, tag: string)
    requires PlainWord(tag) && StartsWith(g, tag)
    ensures StartsWith(Trim(g), tag)
  {
    TrimStartOfTrimmed(g);
    assert g == tag + g[|tag|..];
    TrimEndKeepsPrefix(tag, g[|tag|..]);
  }

  /** The `json` tag is matched case-sensitively: a fence tagged otherwise (`JSON`, say)
      is unwrapped by the plain-fence regex and its tag stays at the start of the text. */
  lemma OtherTagKept(reply: string, tag: string, body: string)
    requires reply == "```" + tag + body + "```"
    requires PlainWord(tag) && !Contains(reply, "```json")
    ensures StartsWith(ExtractJsonText(reply), tag)
  {
    assert reply[0] == '`' && reply[|reply| - 1] == '`';
    TrimOfTrimmed(reply);
    assert "```" + "json" == "```json";
    NoOpenerNoMatch(reply, "json", 0);
    assert reply[..3] == "```" && reply[3..3 + |tag|] == tag;
    assert FenceAt(reply, |reply| - 3);
    TaggedOpenerCaptures(reply, tag, |reply| - 3);
    var g := MatchAt(reply, "", 0).value;
    assert FenceBody(reply) == Some(g);
    TrimKeepsLeadingWord(g, tag);
  }

  // ---------------------------------------------------------------------------
  // The two exported calls
  // ---------------------------------------------------------------------------

  /** The uploaded image: the browser's `file.type` and the data URL the file reader produced. */
  datatype ImageFile = ImageFile(mimeType: string, dataUrl: string)

  datatype VisionRequest = VisionRequest(model: string, instruction: string, mimeType: string, data: Option<string>)

  /** What came back from the vision endpoint: a thrown fetch or body error, a non-2xx
      status with the body's `error.message`, or a 2xx body with the first candidate's text. */
  datatype VisionReply = FetchFailed(message: string) | HttpError(errorMessage: Option<string>) | HttpOk(text: Option<string>)

  /** The request sent (if any) and either the text handed to `JSON.parse` or the thrown message. */
  datatype Analysis = Analysis(request: Option<VisionRequest>, outcome: Result<string, string>)

  /** `base64Image.split(',')[1]`: the data-URL payload after the first comma; absent
      (`undefined`) when there is no comma. */
  function DataPayload(dataUrl: string): (r: Option<string>)
    ensures r.Some? <==> ',' in dataUrl
    ensures r.Some? ==> ',' !in r.value && Contains(dataUrl, r.value)
  {
    SplitShape(dataUrl, ',');
    var parts := Split(dataUrl, ',');
    if |parts| > 1 then
      PayloadShape(dataUrl);
      Some(parts[1])
    else None
  }

  /** The second part of a string with a comma is the comma-free text right after the
      first comma. */
  lemma PayloadShape(dataUrl: string)
    requires ',' in dataUrl
    ensures |Split(dataUrl, ',')| > 1
    ensures ',' !in Split(dataUrl, ',')[1] && Contains(dataUrl, Split(dataUrl, ',')[1])
  {
    var header := FirstPart(dataUrl, ',');
    var rest := dataUrl[|header| + 1..];
    var data := FirstPart(rest, ',');
    assert Split(dataUrl, ',') == [header] + Split(rest, ',') by {
      assert dataUrl == header + [','] + rest;
      SplitAfterSeparator(header, ',', rest);
    }
    assert OccursAt(dataUrl, data, |header| + 1) by {
      assert rest[..|data|] == data;
      assert dataUrl[|header| + 1..|header| + 1 + |data|] == rest[..|data|];
    }
  }

  /** With the RFC 2397 shape `header,data`, the payload is the data, up to any second comma. */
  lemma PayloadAfterFirstComma(header: string, data: string, rest: string)
    requires ',' !in header && ',' !in data
    requires rest == [] || rest[0] == ','
    ensures DataPayload(header + "," + data + rest) == Some(data)
  {
    var s := header + "," + data + rest;
    assert s == header + [','] + (data + rest);
    SplitAfterSeparator(header, ',', data + rest);
    var r := FirstPart(data + rest, ',');
    assert Split(data + rest, ',')[0] == r;
    assert r == (data + rest)[..|data|] == data;
  }

  /** `file.type || 'image/jpeg'`. */
  function MimeTypeOf(fileType: string): (r: string)
    ensures r != ""
    ensures fileType != "" ==> r == fileType
  {
    if fileType == "" then DefaultMimeType else fileType
  }

  /** `analyzeMedicalReport`: without a key it throws before building a request; otherwise
      it sends the payload and either throws or hands the extracted text to the parser. */
  function AnalyzeMedicalReport(apiKey: Option<string>, file: ImageFile, reply: VisionReply): (a: Analysis)
    ensures !Truthy(apiKey) ==> a == Analysis(None, Err(KeyNotConfigured))
    ensures Truthy(apiKey) ==> a.request == Some(VisionRequest(VisionModel, VisionInstruction, MimeTypeOf(file.mimeType), DataPayload(file.dataUrl)))
    ensures a.outcome.Ok? <==> Truthy(apiKey) && reply.HttpOk? && Truthy(reply.text)
    ensures a.outcome.Ok? ==> a.outcome.value == ExtractJsonText(reply.text.value)
    ensures Truthy(apiKey) && reply.HttpError? ==> a.outcome == Err(OrElse(reply.errorMessage, AnalysisFailed))
    ensures Truthy(apiKey) && reply.HttpOk? && !Truthy(reply.text) ==> a.outcome == Err(NoContent)
    ensures Truthy(apiKey) && reply.FetchFailed? ==> a.outcome == Err(reply.message)
  {
    if !Truthy(apiKey) then Analysis(None, Err(KeyNotConfigured))
    else
      var base64Data := DataPayload(file.dataUrl);
      var mimeType := MimeTypeOf(file.mimeType);
      var request := VisionRequest(VisionModel, VisionInstruction, mimeType, base64Data);
      var outcome :=
        match reply
        case FetchFailed(message) => Err(message)
        case HttpError(errorMessage) => Err(OrElse(errorMessage, AnalysisFailed))
        case HttpOk(text) => if !Truthy(text) then Err(NoContent) else Ok(ExtractJsonText(text.value));
      Analysis(Some(request), outcome)
  }

  /** What came back from the text endpoint: a thrown fetch or body error, or a body
      with the first candidate's text if it has one. */
  datatype SummaryReply = SummaryFetchFailed | SummaryBody(text: Option<string>)

  datatype Summary = Summary(prompt: Option<string>, text: string)

  function SummaryPrompt(reportType: string, extractedText: string): string {
    SummaryPreamble + reportType + " report in patient-friendly language:\n\n" + extractedText
  }

  /** `generateReportSummary`: never throws. Without a key it returns the fixed notice and
      sends nothing; otherwise the model's text, or one of two fixed fallbacks. */
  function GenerateReportSummary(apiKey: Option<string>, reportType: string, extractedText: string, reply: SummaryReply): (s: Summary)
    ensures !Truthy(apiKey) ==> s == Summary(None, SummaryUnavailable)
    ensures Truthy(apiKey) ==> s.prompt == Some(SummaryPrompt(reportType, extractedText))
    ensures Truthy(apiKey) && reply.SummaryFetchFailed? ==> s.text == SummaryFailed
    ensures Truthy(apiKey) && reply.SummaryBody? && !Truthy(reply.text) ==> s.text == SummaryMissing
    ensures Truthy(apiKey) && reply.SummaryBody? && Truthy(reply.text) ==> s.text == reply.text.value
  {
    if !Truthy(apiKey) then Summary(None, SummaryUnavailable)
    else
      var prompt := SummaryPrompt(reportType, extractedText);
      match reply
      case SummaryFetchFailed => Summary(Some(prompt), SummaryFailed)
      case SummaryBody(text) => Summary(Some(prompt), OrElse(text, SummaryMissing))
  }
}
