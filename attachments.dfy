/**
 * The e-mail attachment analyzer (`AttachmentAnalyzer`): long texts are
 * cut into chunks of at most 15000 characters, each chunk is summarised by
 * the first enabled model that answers, and the summaries are combined by
 * one more call; the content type decides which extractor feeds that text.
 *
 * The remote models are the parameter `server`, which maps the generation
 * call number, the position of the model in the enabled list and the
 * request to what comes back.  The PDF, Word and Excel readers are
 * parameters too (`Extractors`): only the text they hand over is used.
 */
module Attachments {
  import opened Wrappers
  import opened Text
  import opened Encoding
  import opened AIProviders
  import opened ModelRegistry

  /** `self.max_chunk_size`. */
  const MaxChunkSize: nat := 15000
  /** The characters of a single-chunk text that go into its prompt. */
  const SinglePreview: nat := 10000

  const AllModelsFailed := "No se pudo generar an\U{00E1}lisis: todos los modelos AI fallaron"

  function Min(a: nat, b: nat): nat { if a <= b then a else b }

  /** `''.join(ss)`. */
  function Concat(ss: seq<string>): string {
    if |ss| == 0 then "" else ss[0] + Concat(ss[1..])
  }

  // ---------------------------------------------------------------------
  // Chunking (`_chunk_text`)
  // ---------------------------------------------------------------------

  /** The slices `text[pos:pos + max]` for `pos` = 0, max, 2·max, … below `len(text)`. */
  function Pieces(text: string, max: nat): seq<string>
    requires max > 0
    decreases |text|
  {
    if |text| == 0 then [] else [text[..Min(max, |text|)]] + Pieces(text[Min(max, |text|)..], max)
  }

  /** `_chunk_text(text, max)`: a text that fits is its own single chunk, even when empty. */
  function Chunks(text: string, max: nat): seq<string>
    requires max > 0
  {
    if |text| <= max then [text] else Pieces(text, max)
  }

  lemma {:induction false} PiecesConcat(text: string, max: nat)
    requires max > 0
    ensures Concat(Pieces(text, max)) == text
    decreases |text|
  {
    if |text| > 0 {
      var k := Min(max, |text|);
      PiecesConcat(text[k..], max);
      assert Pieces(text, max)[1..] == Pieces(text[k..], max);
      assert text[..k] + text[k..] == text;
    }
  }

  /**
   * There are ⌈len(text) / max⌉ pieces: the smallest count whose pieces of
   * `max` characters hold the whole text.
   */
  lemma {:induction false} PiecesCount(text: string, max: nat)
    requires max > 0
    ensures |text| == 0 <==> |Pieces(text, max)| == 0
    ensures |text| > 0 ==> (|Pieces(text, max)| - 1) * max < |text| <= |Pieces(text, max)| * max
    decreases |text|
  {
    if |text| > max {
      var rest := text[max..];
      assert Pieces(text, max) == [text[..max]] + Pieces(rest, max);
      var n := |Pieces(rest, max)|;
      PiecesCount(rest, max);
      assert n > 0;
      MulSucc(n, max);
      MulSucc(n - 1, max);
    }
  }

  /** `(a + 1) · m = a · m + m`. */
  lemma MulSucc(a: nat, m: nat)
    ensures (a + 1) * m == a * m + m
  {}

  /** Every piece but the last has exactly `max` characters; the last has between 1 and `max`. */
  lemma {:induction false} PiecesSizes(text: string, max: nat)
    requires max > 0
    ensures forall i :: 0 <= i < |Pieces(text, max)| - 1 ==> |Pieces(text, max)[i]| == max
    ensures |text| > 0 ==> 0 < |Pieces(text, max)[|Pieces(text, max)| - 1]| <= max
    decreases |text|
  {
    var p := Pieces(text, max);
    if |text| > 0 {
      var k := Min(max, |text|);
      var rest := Pieces(text[k..], max);
      PiecesSizes(text[k..], max);
      assert p == [text[..k]] + rest;
      if |text| > max {
        forall i | 0 <= i < |p| - 1 ensures |p[i]| == max {
          if i > 0 { assert p[i] == rest[i - 1]; }
        }
      }
    }
  }

  /** What `_chunk_text` promises: the chunks put back together are the text, cut at every `max` characters. */
  lemma ChunksSpec(text: string, max: nat)
    requires max > 0
    ensures Concat(Chunks(text, max)) == text
    ensures |text| <= max ==> Chunks(text, max) == [text]
    ensures |text| > max ==> |Chunks(text, max)| >= 2
    ensures |text| > max ==> (|Chunks(text, max)| - 1) * max < |text| <= |Chunks(text, max)| * max
    ensures forall i :: 0 <= i < |Chunks(text, max)| - 1 ==> |Chunks(text, max)[i]| == max
    ensures forall i :: 0 <= i < |Chunks(text, max)| ==> |Chunks(text, max)[i]| <= max
  {
    if |text| <= max {
      assert Concat([text]) == text + Concat([]);
    } else {
      PiecesConcat(text, max);
      PiecesCount(text, max);
      PiecesSizes(text, max);
      var p := Pieces(text, max);
      PiecesCount(text[max..], max);
      assert |p| == 1 + |Pieces(text[max..], max)|;
      forall i | 0 <= i < |p| ensures |p[i]| <= max {
        if i < |p| - 1 {
        }
      }
    }
  }

  /** `_chunk_text`: the `while` loop advancing `current_pos` by `max`. */
  method ChunkText(text: string, max: nat) returns (chunks: seq<string>)
    requires max > 0
    ensures chunks == Chunks(text, max)
  {
    if |text| <= max {
      return [text];
    }
    chunks := [];
    var pos := 0;
    while pos < |text|
      invariant chunks + Pieces(text[Min(pos, |text|)..], max) == Pieces(text, max)
      decreases |text| - pos
    {
      var end := Min(pos + max, |text|);
      var rest := text[pos..];
      assert rest[..Min(max, |rest|)] == text[pos..end];
      assert rest[Min(max, |rest|)..] == text[Min(pos + max, |text|)..];
      chunks := chunks + [text[pos..end]];
      pos := pos + max;
    }
    assert text[Min(pos, |text|)..] == [];
  }

  // ---------------------------------------------------------------------
  // Generation with fallback (`_generate_with_fallback`)
  // ---------------------------------------------------------------------

  /**
   * One model's try on generation call `c`: the factory must know its
   * provider tag, and the reply, stripped, is the answer (an empty one
   * included); a refusal or an error is `None`.
   */
  function Attempt(m: ModelConfig, c: nat, j: nat, prompt: string, server: (nat, nat, Request) -> Outcome): Option<string>
  {
    match ProviderKind(Some(m.provider))
    case Err(_) => None
    case Ok(k) =>
      match server(c, j, TextRequestOf(k, m.modelId, prompt, None))
      case Success(t) => Some(Strip(t))
      case Failure(_) => None
  }

  /** Model `j` is the first, from position `from` on, whose attempt gives an answer. */
  predicate AnswersFirst(ms: seq<ModelConfig>, from: nat, j: nat, c: nat, prompt: string,
                         server: (nat, nat, Request) -> Outcome)
  {
    from <= j < |ms| && Attempt(ms[j], c, j, prompt, server).Some?
    && forall i :: from <= i < j ==> Attempt(ms[i], c, i, prompt, server).None?
  }

  /** The answer of the models from position `from` on, in list order. */
  function FirstReply(ms: seq<ModelConfig>, from: nat, c: nat, prompt: string,
                      server: (nat, nat, Request) -> Outcome): string
    requires from <= |ms|
    decreases |ms| - from
  {
    if from == |ms| then AllModelsFailed
    else match Attempt(ms[from], c, from, prompt, server)
      case Some(t) => t
      case None => FirstReply(ms, from + 1, c, prompt, server)
  }

  /** When model `j` is the first to answer, its answer is the reply. */
  lemma {:induction false} FirstReplyAnswered(ms: seq<ModelConfig>, from: nat, j: nat, c: nat, prompt: string,
                                              server: (nat, nat, Request) -> Outcome)
    requires AnswersFirst(ms, from, j, c, prompt, server)
    ensures FirstReply(ms, from, c, prompt, server) == Attempt(ms[j], c, j, prompt, server).value
    decreases j - from
  {
    var a := Attempt(ms[from], c, from, prompt, server);
    if from < j {
      assert a.None?;
      assert FirstReply(ms, from, c, prompt, server) == FirstReply(ms, from + 1, c, prompt, server);
      FirstReplyAnswered(ms, from + 1, j, c, prompt, server);
    } else {
      assert a.Some?;
      assert FirstReply(ms, from, c, prompt, server) == a.value;
    }
  }

  /** When no model answers, the reply is the fixed failure text. */
  lemma {:induction false} FirstReplyAllFailed(ms: seq<ModelConfig>, from: nat, c: nat, prompt: string,
                                               server: (nat, nat, Request) -> Outcome)
    requires from <= |ms|
    requires forall i :: from <= i < |ms| ==> Attempt(ms[i], c, i, prompt, server).None?
    ensures FirstReply(ms, from, c, prompt, server) == AllModelsFailed
    decreases |ms| - from
  {
    if from < |ms| {
      FirstReplyAllFailed(ms, from + 1, c, prompt, server);
    }
  }

  /**
   * `_generate_with_fallback(prompt)` as generation call `c`: the enabled
   * models are tried in list order through the factory and a configured
   * driver, and the first one that does not raise wins.
   */
  method GenerateWithFallback(registry: seq<ModelConfig>, c: nat, prompt: string,
                              server: (nat, nat, Request) -> Outcome) returns (r: string)
    ensures r == FirstReply(EnabledByDefault(registry), 0, c, prompt, server)
  {
    var models := EnabledByDefault(registry);
    for j := 0 to |models|
      invariant FirstReply(models, j, c, prompt, server) == FirstReply(models, 0, c, prompt, server)
    {
      var m := models[j];
      var p := GetProvider(Some(m.provider));
      if p.Ok? {
        var provider := p.value;
        provider.Configure(m.apiKey.GetOr(""), m.modelId, m.baseUrl);
        var reply := provider.GenerateText(prompt, None, req => server(c, j, req));
        if reply.Ok? {
          return Strip(reply.value);
        }
      }
    }
    return AllModelsFailed;
  }

  // ---------------------------------------------------------------------
  // Text attachments (`analyze_text_attachment`)
  // ---------------------------------------------------------------------

  /** The prompt for a text that fits in one chunk: its first 10000 characters. */
  function SinglePrompt(filename: string, content: string): string {
    "Analiza el siguiente archivo adjunto: " + filename + "\n\nContenido:\n"
    + content[..Min(SinglePreview, |content|)]
    + "\n\nProporciona un resumen conciso en espa\U{00F1}ol de:\n1. Tipo de documento\n2. Contenido principal\n"
    + "3. Informaci\U{00F3}n relevante o importante\n"
  }

  /** The prompt for part `i` (from 0) of `k`. */
  function PartPrompt(i: nat, k: nat, filename: string, chunk: string): string {
    "Analiza la parte " + NatToString(i + 1) + "/" + NatToString(k) + " del archivo: " + filename
    + "\n\nContenido:\n" + chunk + "\n\nProporciona un resumen breve de esta secci\U{00F3}n."
  }

  /** The prompt that combines the part summaries, one per line. */
  function CombinedPrompt(filename: string, summaries: seq<string>): string {
    "Resume el siguiente an\U{00E1}lisis del archivo " + filename + ":\n\n" + Join(summaries, "\n")
    + "\n\nProporciona un resumen final conciso y coherente en espa\U{00F1}ol."
  }

  /** The line kept for part `i`: its label and the answer to its prompt (call number `i`). */
  function PartSummary(ms: seq<ModelConfig>, chunks: seq<string>, i: nat, filename: string,
                       server: (nat, nat, Request) -> Outcome): string
    requires i < |chunks|
  {
    "Parte " + NatToString(i + 1) + ": " + FirstReply(ms, 0, i, PartPrompt(i, |chunks|, filename, chunks[i]), server)
  }

  function PartSummaries(ms: seq<ModelConfig>, chunks: seq<string>, filename: string,
                         server: (nat, nat, Request) -> Outcome): (r: seq<string>)
    ensures |r| == |chunks|
    ensures forall i :: 0 <= i < |chunks| ==> r[i] == PartSummary(ms, chunks, i, filename, server)
  {
    seq(|chunks|, i requires 0 <= i < |chunks| => PartSummary(ms, chunks, i, filename, server))
  }

  /** The prompts the analysis sends, in order. */
  function TextPrompts(ms: seq<ModelConfig>, content: string, filename: string,
                       server: (nat, nat, Request) -> Outcome): seq<string>
  {
    var chunks := Chunks(content, MaxChunkSize);
    if |chunks| == 1 then [SinglePrompt(filename, content)]
    else seq(|chunks|, i requires 0 <= i < |chunks| => PartPrompt(i, |chunks|, filename, chunks[i]))
         + [CombinedPrompt(filename, PartSummaries(ms, chunks, filename, server))]
  }

  /** The analysis of a text: the answer to the last prompt sent. */
  function AnalyzeText(ms: seq<ModelConfig>, content: string, filename: string,
                       server: (nat, nat, Request) -> Outcome): string
  {
    var prompts := TextPrompts(ms, content, filename, server);
    FirstReply(ms, 0, |prompts| - 1, prompts[|prompts| - 1], server)
  }

  /**
   * One call for a text of at most 15000 characters, carrying at most its
   * first 10000; otherwise one call per chunk, each carrying its chunk,
   * and one combining call.
   */
  lemma TextPromptsSpec(ms: seq<ModelConfig>, content: string, filename: string,
                        server: (nat, nat, Request) -> Outcome)
    ensures |content| <= MaxChunkSize ==> TextPrompts(ms, content, filename, server) == [SinglePrompt(filename, content)]
    ensures |content| > MaxChunkSize ==>
      var k := |TextPrompts(ms, content, filename, server)| - 1;
      && k >= 2
      && (k - 1) * MaxChunkSize < |content| <= k * MaxChunkSize
      && (forall i :: 0 <= i < k ==>
            TextPrompts(ms, content, filename, server)[i]
              == PartPrompt(i, k, filename, content[i * MaxChunkSize..Min((i + 1) * MaxChunkSize, |content|)]))
  {
    if |content| <= MaxChunkSize {
      SingleChunkPrompts(ms, content, filename, server);
    } else {
      ManyChunkPrompts(ms, content, filename, server);
    }
  }

  lemma SingleChunkPrompts(ms: seq<ModelConfig>, content: string, filename: string,
                           server: (nat, nat, Request) -> Outcome)
    requires |content| <= MaxChunkSize
    ensures TextPrompts(ms, content, filename, server) == [SinglePrompt(filename, content)]
  {
    assert Chunks(content, MaxChunkSize) == [content];
  }

  lemma ManyChunkPrompts(ms: seq<ModelConfig>, content: string, filename: string,
                         server: (nat, nat, Request) -> Outcome)
    requires |content| > MaxChunkSize
    ensures var k := |TextPrompts(ms, content, filename, server)| - 1;
      && k >= 2
      && (k - 1) * MaxChunkSize < |content| <= k * MaxChunkSize
      && (forall i :: 0 <= i < k ==>
            TextPrompts(ms, content, filename, server)[i]
              == PartPrompt(i, k, filename, content[i * MaxChunkSize..Min((i + 1) * MaxChunkSize, |content|)]))
  {
    ChunksSpec(content, MaxChunkSize);
    var chunks := Chunks(content, MaxChunkSize);
    var k := |chunks|;
    var parts := seq(k, i requires 0 <= i < k => PartPrompt(i, k, filename, chunks[i]));
    assert TextPrompts(ms, content, filename, server) == parts + [CombinedPrompt(filename, PartSummaries(ms, chunks, filename, server))];
    forall i | 0 <= i < k
      ensures TextPrompts(ms, content, filename, server)[i]
                == PartPrompt(i, k, filename, content[i * MaxChunkSize..Min((i + 1) * MaxChunkSize, |content|)])
    {
      PiecesAt(content, MaxChunkSize, i);
    }
  }

  /** Piece `i` is the slice starting at `i · max`. */
  lemma {:induction false} PiecesAt(text: string, max: nat, i: nat)
    requires max > 0 && i < |Pieces(text, max)|
    ensures i * max <= Min((i + 1) * max, |text|) <= |text|
    ensures Pieces(text, max)[i] == text[i * max..Min((i + 1) * max, |text|)]
    decreases |text|
  {
    MulSucc(i, max);
    if i > 0 {
      var rest := text[Min(max, |text|)..];
      assert Pieces(text, max) == [text[..Min(max, |text|)]] + Pieces(rest, max);
      assert |rest| > 0;
      assert rest == text[max..];
      PiecesAt(rest, max, i - 1);
      var lo, hi := (i - 1) * max, Min(i * max, |rest|);
      MulSucc(i - 1, max);
      assert i * max == lo + max;
      assert Min((i + 1) * max, |text|) == hi + max;
      assert rest[lo..hi] == text[lo + max..hi + max];
    }
  }

  /** `analyze_text_attachment`: the per-chunk loop collects the part summaries, then combines them. */
  method AnalyzeTextAttachment(registry: seq<ModelConfig>, content: string, filename: string,
                               server: (nat, nat, Request) -> Outcome) returns (r: string)
    ensures r == AnalyzeText(EnabledByDefault(registry), content, filename, server)
  {
    var ms := EnabledByDefault(registry);
    var chunks := ChunkText(content, MaxChunkSize);
    if |chunks| == 1 {
      r := GenerateWithFallback(registry, 0, SinglePrompt(filename, content), server);
      return;
    }
    var summaries := SummarizeParts(registry, chunks, filename, server);
    r := GenerateWithFallback(registry, |chunks|, CombinedPrompt(filename, summaries), server);
    CombinedIsLast(ms, content, filename, server);
  }

  /** The loop over the chunks: one labelled summary per chunk, call `i` for chunk `i`. */
  method SummarizeParts(registry: seq<ModelConfig>, chunks: seq<string>, filename: string,
                        server: (nat, nat, Request) -> Outcome) returns (summaries: seq<string>)
    ensures summaries == PartSummaries(EnabledByDefault(registry), chunks, filename, server)
  {
    var ms := EnabledByDefault(registry);
    summaries := [];
    for i := 0 to |chunks|
      invariant |summaries| == i
      invariant forall j :: 0 <= j < i ==> summaries[j] == PartSummary(ms, chunks, j, filename, server)
    {
      var summary := GenerateWithFallback(registry, i, PartPrompt(i, |chunks|, filename, chunks[i]), server);
      var line := "Parte " + NatToString(i + 1) + ": " + summary;
      assert line == PartSummary(ms, chunks, i, filename, server);
      summaries := summaries + [line];
    }
  }

  /** With several chunks, the analysis is the answer to the combining prompt, sent as call number `|chunks|`. */
  lemma CombinedIsLast(ms: seq<ModelConfig>, content: string, filename: string,
                       server: (nat, nat, Request) -> Outcome)
    requires |Chunks(content, MaxChunkSize)| != 1
    ensures var chunks := Chunks(content, MaxChunkSize);
            AnalyzeText(ms, content, filename, server)
              == FirstReply(ms, 0, |chunks|, CombinedPrompt(filename, PartSummaries(ms, chunks, filename, server)), server)
  {
    var prompts := TextPrompts(ms, content, filename, server);
    assert prompts[|prompts| - 1] == CombinedPrompt(filename, PartSummaries(ms, Chunks(content, MaxChunkSize), filename, server));
  }

  // ---------------------------------------------------------------------
  // Dispatch (`analyze_attachment`)
  // ---------------------------------------------------------------------

  /**
   * `bytes.decode('utf-8', errors='ignore')`: well-formed sequences are
   * decoded and every other byte is dropped.  The bytes of an ill-formed
   * sequence after its first are continuation bytes, which never start a
   * character, so dropping one byte at a time drops the same bytes as
   * Python's maximal-subpart rule.
   */
  function DecodeIgnore(b: seq<byte>): string
    decreases |b|
  {
    if |b| == 0 then ""
    else match DecodeFirst(b)
      case Some((c, n)) => [c] + DecodeIgnore(b[n..])
      case None => DecodeIgnore(b[1..])
  }

  /** On well-formed UTF-8 nothing is dropped. */
  lemma {:induction false} DecodeIgnoreWellFormed(b: seq<byte>)
    requires WellFormedUtf8(b)
    ensures DecodeIgnore(b) == DecodeUtf8(b).value
    decreases |b|
  {
    if |b| > 0 {
      var n := DecodeFirst(b).value.1;
      DecodeIgnoreWellFormed(b[n..]);
    }
  }

  /** The analyzers `analyze_attachment` can hand an attachment to. */
  datatype Route = TextRoute | PdfRoute | ImageRoute | DocumentRoute | UnsupportedRoute

  predicate IsTextType(contentType: string) {
    Contains(contentType, "text") || Contains(contentType, "json") || Contains(contentType, "csv")
  }

  predicate IsDocxFile(filename: string, contentType: string) {
    Contains(contentType, "wordprocessingml") || EndsWith(filename, ".docx")
  }

  predicate IsXlsxFile(filename: string, contentType: string) {
    Contains(contentType, "spreadsheetml") || EndsWith(filename, ".xlsx")
  }

  /** The branch `analyze_attachment` takes: the tests are tried in this order. */
  function RouteOf(filename: string, contentType: string): (r: Route)
    ensures r == TextRoute <==> IsTextType(contentType)
    ensures r == PdfRoute <==> !IsTextType(contentType) && Contains(contentType, "pdf")
    ensures r == ImageRoute <==> !IsTextType(contentType) && !Contains(contentType, "pdf") && Contains(contentType, "image")
    ensures r == DocumentRoute ==> IsDocxFile(filename, contentType) || IsXlsxFile(filename, contentType)
    ensures r == UnsupportedRoute <==>
      !IsTextType(contentType) && !Contains(contentType, "pdf") && !Contains(contentType, "image")
      && !IsDocxFile(filename, contentType) && !IsXlsxFile(filename, contentType)
  {
    if IsTextType(contentType) then TextRoute
    else if Contains(contentType, "pdf") then PdfRoute
    else if Contains(contentType, "image") then ImageRoute
    else if Contains(contentType, "wordprocessingml") || Contains(contentType, "spreadsheetml")
         || EndsWith(filename, ".docx") || EndsWith(filename, ".xlsx") then DocumentRoute
    else UnsupportedRoute
  }

  /** The text the foreign readers extract, or the message of the exception they raise. */
  datatype Extractors = Extractors(
    pdf: seq<byte> -> Result<string>,
    docx: seq<byte> -> Result<string>,
    xlsx: seq<byte> -> Result<string>)

  /** `analyze_pdf`. */
  function AnalyzePdf(ms: seq<ModelConfig>, content: seq<byte>, filename: string, ex: Extractors,
                      server: (nat, nat, Request) -> Outcome): string
  {
    match ex.pdf(content)
    case Err(e) => "PDF '" + filename + "': Error al analizar - " + e
    case Ok(t) =>
      if Strip(t) == "" then "PDF '" + filename + "': No se pudo extraer texto (puede ser un PDF de im\U{00E1}genes)"
      else AnalyzeText(ms, t, filename, server)
  }

  /** `analyze_image`: a fixed note with the size; no model is called. */
  function AnalyzeImage(content: seq<byte>, filename: string, contentType: string): string {
    "Imagen '" + filename + "' (" + contentType + "): An\U{00E1}lisis de im\U{00E1}genes requiere modelo con visi\U{00F3}n "
    + "(Gemini Vision/GPT-4 Vision) - Tama\U{00F1}o: " + NatToString(|content|) + " bytes"
  }

  /** `analyze_document`: Word first, then Excel, else a refusal. */
  function AnalyzeDocument(ms: seq<ModelConfig>, content: seq<byte>, filename: string, contentType: string,
                           ex: Extractors, server: (nat, nat, Request) -> Outcome): string
  {
    if IsDocxFile(filename, contentType) then ReadDocument(ms, ex.docx(content), filename, server)
    else if IsXlsxFile(filename, contentType) then ReadDocument(ms, ex.xlsx(content), filename, server)
    else UnsupportedDocument(filename, contentType)
  }

  /** The Word or Excel branch once its reader has run. */
  function ReadDocument(ms: seq<ModelConfig>, extracted: Result<string>, filename: string,
                        server: (nat, nat, Request) -> Outcome): string
  {
    match extracted
    case Err(e) => "Documento '" + filename + "': Error al analizar - " + e
    case Ok(t) => AnalyzeText(ms, t, filename, server)
  }

  function UnsupportedDocument(filename: string, contentType: string): string {
    "Documento '" + filename + "' (" + contentType + "): Tipo no soportado para an\U{00E1}lisis autom\U{00E1}tico"
  }

  function UnsupportedFile(content: seq<byte>, filename: string, contentType: string): string {
    "Archivo '" + filename + "' (" + contentType + "): Tipo no soportado para an\U{00E1}lisis - Tama\U{00F1}o: "
    + NatToString(|content|) + " bytes"
  }

  /** `analyze_attachment`: every branch yields a text; nothing propagates. */
  function AnalyzeAttachment(registry: seq<ModelConfig>, content: seq<byte>, filename: string, contentType: string,
                             ex: Extractors, server: (nat, nat, Request) -> Outcome): string
  {
    var ms := EnabledByDefault(registry);
    match RouteOf(filename, contentType)
    case TextRoute => AnalyzeText(ms, DecodeIgnore(content), filename, server)
    case PdfRoute => AnalyzePdf(ms, content, filename, ex, server)
    case ImageRoute => AnalyzeImage(content, filename, contentType)
    case DocumentRoute => AnalyzeDocument(ms, content, filename, contentType, ex, server)
    case UnsupportedRoute => UnsupportedFile(content, filename, contentType)
  }

  /**
   * The document analyzer's own refusal is never reached from
   * `analyze_attachment`: the route to it already requires a Word or
   * Excel type or extension, so a document is always read by one of them.
   */
  lemma DocumentRouteIsRead(registry: seq<ModelConfig>, content: seq<byte>, filename: string, contentType: string,
                            ex: Extractors, server: (nat, nat, Request) -> Outcome)
    requires RouteOf(filename, contentType) == DocumentRoute
    ensures IsDocxFile(filename, contentType) ==>
              (AnalyzeAttachment(registry, content, filename, contentType, ex, server)
               == ReadDocument(EnabledByDefault(registry), ex.docx(content), filename, server))
    ensures !IsDocxFile(filename, contentType) ==>
              (AnalyzeAttachment(registry, content, filename, contentType, ex, server)
               == ReadDocument(EnabledByDefault(registry), ex.xlsx(content), filename, server))
  {}

  /** A well-formed UTF-8 text attachment is analysed on exactly the text it encodes. */
  lemma TextAttachmentAnalysed(registry: seq<ModelConfig>, s: string, filename: string, contentType: string,
                               ex: Extractors, server: (nat, nat, Request) -> Outcome)
    requires IsTextType(contentType)
    ensures AnalyzeAttachment(registry, EncodeUtf8(s), filename, contentType, ex, server)
      == AnalyzeText(EnabledByDefault(registry), s, filename, server)
  {
    DecodeOfEncode(s);
    DecodeIgnoreWellFormed(EncodeUtf8(s));
  }
}
