/**
 * The pure parts of the analysis service (services/geminiService.ts):
 * taking the base64 payload out of a data URL, the directory summary sent as
 * context, the request parts, and the parse-or-fallback handling of the
 * model's reply. The model itself is a foreign service: its reply is an
 * input here.
 */
module Gemini {
  import opened Types
  import opened Constants

  /** JavaScript's `s.split(sep)` for a one-character separator. */
  function Split(s: string, sep: char): (r: seq<string>)
    ensures |r| >= 1
    ensures (|r| == 1) == (sep !in s)
    ensures forall piece :: piece in r ==> sep !in piece
  {
    if s == [] then [""]
    else
      var rest := Split(s[1..], sep);
      assert sep in s <==> s[0] == sep || sep in s[1..];
      if s[0] == sep then [""] + rest
      else
        assert forall piece :: piece in rest[1..] ==> piece in rest;
        [[s[0]] + rest[0]] + rest[1..]
  }

  /** Text free of the separator splits into itself alone. */
  lemma {:induction false} SplitWithout(s: string, sep: char)
    requires sep !in s
    ensures Split(s, sep) == [s]
  {
    // Split's own contract gives a single piece; its pieces concatenate back to s.
    if s != [] {
      SplitWithout(s[1..], sep);
      assert [s[0]] + s[1..] == s;
    }
  }

  /** The first separator ends the first piece; the rest is split on its own. */
  lemma {:induction false} SplitAtFirst(before: string, sep: char, after: string)
    requires sep !in before
    ensures Split(before + [sep] + after, sep) == [before] + Split(after, sep)
  {
    var s := before + [sep] + after;
    if before == [] {
      assert s == [sep] + after && s[1..] == after;
    } else {
      assert s[0] == before[0] && s[1..] == before[1..] + [sep] + after;
      SplitAtFirst(before[1..], sep, after);
      assert [before[0]] + before[1..] == before;
    }
  }

  /**
   * `dataUrl.split(',')[1]` (services/geminiService.ts:17): the text between
   * the first comma and the next one, or `None` (JavaScript's `undefined`)
   * when there is no comma.
   */
  function Payload(dataUrl: string): (r: Option<string>)
    ensures r.None? <==> ',' !in dataUrl
    ensures r.Some? ==> ',' !in r.value
  {
    var parts := Split(dataUrl, ',');
    if |parts| > 1 then Some(parts[1]) else None
  }

  /** With a single comma, the payload is everything after it. */
  lemma PayloadAfterComma(header: string, data: string)
    requires ',' !in header && ',' !in data
    ensures Payload(header + [','] + data) == Some(data)
  {
    SplitAtFirst(header, ',', data);
    SplitWithout(data, ',');
  }

  /**
   * A picked file as the browser hands it over: its MIME type and what
   * `FileReader.readAsDataURL` produced, `None` when the reader failed.
   */
  datatype LocalFile = LocalFile(mimeType: string, readResult: Option<string>)

  /**
   * `fileToGenerativePart` (services/geminiService.ts:12-23): the payload of
   * the data URL and the file's own type; `None` when the promise rejects.
   * A data URL without a comma is taken as a failed read.
   */
  function FileToGenerativePart(file: LocalFile): (r: Option<InspirationImage>)
    ensures r.Some? <==> file.readResult.Some? && ',' in file.readResult.value
    ensures r.Some? ==> r.value.mimeType == file.mimeType
                        && Payload(file.readResult.value) == Some(r.value.data)
  {
    match file.readResult
    case None => None
    case Some(url) =>
      match Payload(url)
      case None => None
      case Some(data) => Some(InspirationImage(data, file.mimeType))
  }

  /** The fields of a photographer sent to the model as matching context. */
  datatype PhotographerSummary = PhotographerSummary(
    id: string, name: string, style: string, tags: seq<string>, description: string)

  /** `databaseContext` (services/geminiService.ts:33-39): one summary per entry, in order. */
  function Summaries(directory: seq<Photographer>): (r: seq<PhotographerSummary>)
    ensures |r| == |directory|
    ensures forall i :: 0 <= i < |r| ==>
      r[i].id == directory[i].id && r[i].name == directory[i].name && r[i].style == directory[i].style
      && r[i].tags == directory[i].tags && r[i].description == directory[i].description
  {
    if directory == [] then []
    else
      var p := directory[0];
      [PhotographerSummary(p.id, p.name, p.style, p.tags, p.description)] + Summaries(directory[1..])
  }

  /** The context built from the mock directory. */
  function DatabaseContext(): (r: seq<PhotographerSummary>)
    ensures |r| == |MockPhotographers|
    ensures forall i :: 0 <= i < |r| ==> r[i].id == MockPhotographers[i].id && r[i].tags == MockPhotographers[i].tags
  {
    Summaries(MockPhotographers)
  }

  /**
   * The instruction text. Its wording is fixed; what varies is the image
   * count and the serialized directory summary interpolated into it.
   */
  datatype Prompt = Prompt(imageCount: nat, photographers: seq<PhotographerSummary>)

  /** One part of the request: an inline image or the instruction text. */
  datatype Part = InlineData(mimeType: string, data: string) | Text(prompt: Prompt)

  /** `imageParts` (services/geminiService.ts:95-100): one inline part per image, in order. */
  function ImageParts(images: seq<InspirationImage>): (r: seq<Part>)
    ensures |r| == |images|
    ensures forall i :: 0 <= i < |r| ==> r[i] == InlineData(images[i].mimeType, images[i].data)
  {
    if images == [] then []
    else [InlineData(images[0].mimeType, images[0].data)] + ImageParts(images[1..])
  }

  /** `parts` (services/geminiService.ts:105): the image parts followed by the instruction. */
  function Parts(images: seq<InspirationImage>): (r: seq<Part>)
    ensures |r| == |images| + 1
    ensures r[|images|] == Text(Prompt(|images|, DatabaseContext()))
    ensures forall i :: 0 <= i < |images| ==> r[i].InlineData?
  {
    ImageParts(images) + [Text(Prompt(|images|, DatabaseContext()))]
  }

  /** The images a receiver reads back from the inline parts of a request. */
  function InlineImages(parts: seq<Part>): (images: seq<InspirationImage>)
  {
    if parts == [] then []
    else match parts[0]
      case InlineData(mimeType, data) => [InspirationImage(data, mimeType)] + InlineImages(parts[1..])
      case Text(_) => InlineImages(parts[1..])
  }

  /** The request carries every image unchanged, in order, and nothing else as inline data. */
  lemma {:induction false} PartsCarryImages(images: seq<InspirationImage>)
    ensures InlineImages(Parts(images)) == images
  {
    InlineImagesOfImageParts(images);
    InlineImagesAppend(ImageParts(images), [Text(Prompt(|images|, DatabaseContext()))]);
  }

  lemma {:induction false} InlineImagesOfImageParts(images: seq<InspirationImage>)
    ensures InlineImages(ImageParts(images)) == images
  {
    if images != [] {
      var parts := ImageParts(images);
      assert parts[0] == InlineData(images[0].mimeType, images[0].data);
      assert parts[1..] == ImageParts(images[1..]);
      InlineImagesOfImageParts(images[1..]);
      assert [images[0]] + images[1..] == images;
    }
  }

  lemma {:induction false} InlineImagesAppend(first: seq<Part>, second: seq<Part>)
    ensures InlineImages(first + second) == InlineImages(first) + InlineImages(second)
  {
    if first == [] {
      assert first + second == second;
    } else {
      assert (first + second)[0] == first[0];
      assert (first + second)[1..] == first[1..] + second;
      InlineImagesAppend(first[1..], second);
    }
  }

  /** The single call made to the model (services/geminiService.ts:102-112). */
  datatype GenerateRequest = GenerateRequest(
    model: string, parts: seq<Part>, responseMimeType: string, temperature: real)

  function BuildRequest(images: seq<InspirationImage>): (r: GenerateRequest)
    ensures r.parts == Parts(images)
    ensures InlineImages(r.parts) == images
    ensures r.model == "gemini-2.5-flash" && r.responseMimeType == "application/json" && r.temperature == 0.4
  {
    PartsCarryImages(images);
    GenerateRequest("gemini-2.5-flash", Parts(images), "application/json", 0.4)
  }

  /**
   * What came back from the model: the call failed (`Failed`), or it answered
   * with a text (`""` when absent) and `parsed` is what `JSON.parse` of
   * that text gave, `None` when parsing threw.
   */
  datatype Reply = Failed | Answered(text: string, parsed: Option<MoodboardAnalysis>)

  /** The fixed analysis returned on every failure (services/geminiService.ts:123-136). */
  function Fallback(): (r: MoodboardAnalysis)
    ensures r.colorPalette == ["#E6D5C3", "#A58D7F", "#8B5E3C", "#5C4033", "#2C1810"]
    ensures r.vibeKeywords == ["Romantic", "Timeless", "Soft"]
    ensures r.venueType == "Garden / Outdoor" && r.lightingStyle == "Natural Light"
    ensures |r.matches| == 1 && r.matches[0].photographerId == "p2"
    ensures r.matches[0].compatibilityScore == 85 && |r.matches[0].keyElementsDetected| == 2
  {
    MoodboardAnalysis(
      ["#E6D5C3", "#A58D7F", "#8B5E3C", "#5C4033", "#2C1810"],
      ["Romantic", "Timeless", "Soft"],
      "Garden / Outdoor",
      "Natural Light",
      [MatchResult("p2", 85, "Matches the soft, natural light aesthetic seen in your photos.",
                   ["Soft focus", "Pastel tones"])])
  }

  /** The reply is used only when the call succeeded with a non-empty text that parsed. */
  predicate Usable(reply: Reply)
  {
    reply.Answered? && reply.text != "" && reply.parsed.Some?
  }

  /**
   * `findMatchingPhotographers` (services/geminiService.ts:28-137): it sends
   * one request built from the images to the service `generateContent` and
   * never fails; it yields the parsed reply when there is one and the
   * fallback otherwise.
   */
  function FindMatchingPhotographers(images: seq<InspirationImage>, generateContent: GenerateRequest -> Reply): (r: MoodboardAnalysis)
    ensures var reply := generateContent(BuildRequest(images));
      r == Fallback() || (reply.Answered? && reply.text != "" && reply.parsed == Some(r))
    ensures var reply := generateContent(BuildRequest(images));
      reply.Failed? || reply.text == "" || reply.parsed.None? ==> r == Fallback()
    ensures var reply := generateContent(BuildRequest(images));
      Usable(reply) ==> r == reply.parsed.value
  {
    var reply := generateContent(BuildRequest(images));
    match reply
    case Failed => Fallback()
    case Answered(text, parsed) =>
      if text != "" then
        match parsed
        case Some(analysis) => analysis
        case None => Fallback()
      else Fallback()
  }
}
