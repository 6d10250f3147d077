/**
 * The generation client (services/geminiService.ts): the two data-URL helpers,
 * the credential pre-check, assembly of the three-part request, extraction of
 * the image from the model's response, and the rewrite of HTTP failures into
 * user-facing messages. The network call itself is replaced by a `Reply` value:
 * what the remote model answered to the request that was sent.
 */
module GeminiService {
  import opened Wrappers
  import opened JsStrings

  // ---------------------------------------------------------------------------
  // Data-URL helpers: the two regular expressions, written as character classes
  // and a scanner for the longest run of one class.
  // ---------------------------------------------------------------------------

  const DataScheme := "data:"
  const Base64Marker := ";base64,"
  const FallbackMimeType := "image/jpeg"

  predicate IsAsciiLetter(c: char)
  {
    'A' <= c <= 'Z' || 'a' <= c <= 'z'
  }

  predicate IsAsciiAlphaNum(c: char)
  {
    IsAsciiLetter(c) || '0' <= c <= '9'
  }

  /** The media-type class of `cleanBase64`: `[A-Za-z-+\/]`. No digits, no dots. */
  predicate IsMediaTypeChar(c: char)
  {
    IsAsciiLetter(c) || c == '-' || c == '+' || c == '/'
  }

  /** The subtype class of `getMimeType`: `[a-zA-Z0-9-.+]`. */
  predicate IsSubtypeChar(c: char)
  {
    IsAsciiAlphaNum(c) || c == '-' || c == '.' || c == '+'
  }

  /** What the regular-expression `.` matches: anything but a line terminator. */
  predicate IsPayloadChar(c: char)
  {
    !IsLineTerminator(c)
  }

  predicate AllIn(s: string, inClass: char -> bool)
  {
    forall i :: 0 <= i < |s| ==> inClass(s[i])
  }

  /** Length of the longest prefix of `s` whose characters are all in the class. */
  function Span(s: string, inClass: char -> bool): (k: nat)
    ensures k <= |s| && AllIn(s[..k], inClass)
    ensures k < |s| ==> !inClass(s[k])
  {
    if s == [] || !inClass(s[0]) then 0 else 1 + Span(s[1..], inClass)
  }

  /** A run of class characters followed by a character outside the class is exactly what `Span` finds. */
  lemma SpanOfRun(run: string, rest: string, inClass: char -> bool)
    requires AllIn(run, inClass) && rest != [] && !inClass(rest[0])
    ensures Span(run + rest, inClass) == |run|
  {
    var s := run + rest;
    assert s[|run|] == rest[0];
    assert forall i :: 0 <= i < |run| ==> s[i] == run[i];
  }

  /** `dataUrl` matches `^data:([A-Za-z-+\/]+);base64,(.+)$` with the two groups given. */
  predicate MatchesDataUrl(dataUrl: string, mediaType: string, payload: string)
  {
    && mediaType != [] && AllIn(mediaType, IsMediaTypeChar)
    && payload != [] && AllIn(payload, IsPayloadChar)
    && dataUrl == DataScheme + (mediaType + (Base64Marker + payload))
  }

  /** The part of `cleanBase64`'s pattern after `data:`: (media type, payload). */
  function ParseMediaTypeAndPayload(afterScheme: string): (r: Option<(string, string)>)
    ensures r.Some? ==> && r.value.0 != [] && AllIn(r.value.0, IsMediaTypeChar)
                        && r.value.1 != [] && AllIn(r.value.1, IsPayloadChar)
                        && afterScheme == r.value.0 + (Base64Marker + r.value.1)
  {
    var k := Span(afterScheme, IsMediaTypeChar);
    var tail := afterScheme[k..];
    if k == 0 || !(Base64Marker <= tail) then None
    else
      var payload := tail[|Base64Marker|..];
      if payload == [] || !AllIn(payload, IsPayloadChar) then None
      else
        assert tail == Base64Marker + payload;
        assert afterScheme == afterScheme[..k] + tail;
        Some((afterScheme[..k], payload))
  }

  /** The match of `cleanBase64`'s pattern, if any: (media type, payload). */
  function ParseDataUrl(dataUrl: string): (r: Option<(string, string)>)
    ensures r.Some? ==> MatchesDataUrl(dataUrl, r.value.0, r.value.1)
  {
    if !(DataScheme <= dataUrl) then None
    else
      assert dataUrl == DataScheme + dataUrl[|DataScheme|..];
      ParseMediaTypeAndPayload(dataUrl[|DataScheme|..])
  }

  /** The pattern has at most one way to match, and `ParseDataUrl` finds it. */
  lemma ParseDataUrlComplete(dataUrl: string, mediaType: string, payload: string)
    requires MatchesDataUrl(dataUrl, mediaType, payload)
    ensures ParseDataUrl(dataUrl) == Some((mediaType, payload))
  {
    var afterScheme := dataUrl[|DataScheme|..];
    assert DataScheme <= dataUrl;
    assert afterScheme == mediaType + (Base64Marker + payload);
    SpanOfRun(mediaType, Base64Marker + payload, IsMediaTypeChar);
    assert afterScheme[|mediaType|..] == Base64Marker + payload;
    assert afterScheme[..|mediaType|] == mediaType;
  }

  /** `cleanBase64`: the payload of a matching data URL, otherwise the input unchanged. */
  function CleanBase64(dataUrl: string): (r: string)
    ensures r == dataUrl || exists mediaType :: MatchesDataUrl(dataUrl, mediaType, r)
  {
    match ParseDataUrl(dataUrl)
    case Some((_, payload)) => payload
    case None => dataUrl
  }

  lemma CleanBase64StripsPrefix(mediaType: string, payload: string)
    requires mediaType != [] && AllIn(mediaType, IsMediaTypeChar)
    requires payload != [] && AllIn(payload, IsPayloadChar)
    ensures CleanBase64(DataScheme + (mediaType + (Base64Marker + payload))) == payload
  {
    ParseDataUrlComplete(DataScheme + (mediaType + (Base64Marker + payload)), mediaType, payload);
  }

  lemma CleanBase64KeepsUnmatched(dataUrl: string)
    requires forall mediaType, payload :: !MatchesDataUrl(dataUrl, mediaType, payload)
    ensures CleanBase64(dataUrl) == dataUrl
  {
  }

  /** A prefix of `dataUrl` matches `^data:([a-zA-Z0-9]+\/[a-zA-Z0-9-.+]+);base64,`. */
  predicate MatchesMimePrefix(dataUrl: string, topLevel: string, subtype: string, rest: string)
  {
    && topLevel != [] && AllIn(topLevel, IsAsciiAlphaNum)
    && subtype != [] && AllIn(subtype, IsSubtypeChar)
    && dataUrl == DataScheme + (topLevel + ("/" + (subtype + (Base64Marker + rest))))
  }

  /** The part of `getMimeType`'s pattern after the slash: (subtype, unmatched rest). */
  function ParseSubtype(afterSlash: string): (r: Option<(string, string)>)
    ensures r.Some? ==> && r.value.0 != [] && AllIn(r.value.0, IsSubtypeChar)
                        && afterSlash == r.value.0 + (Base64Marker + r.value.1)
  {
    var n := Span(afterSlash, IsSubtypeChar);
    var tail := afterSlash[n..];
    if n == 0 || !(Base64Marker <= tail) then None
    else
      var rest := tail[|Base64Marker|..];
      assert tail == Base64Marker + rest;
      assert afterSlash == afterSlash[..n] + tail;
      Some((afterSlash[..n], rest))
  }

  /** The part of `getMimeType`'s pattern after `data:`: (type, subtype, unmatched rest). */
  function ParseMediaType(afterScheme: string): (r: Option<(string, string, string)>)
    ensures r.Some? ==> && r.value.0 != [] && AllIn(r.value.0, IsAsciiAlphaNum)
                        && r.value.1 != [] && AllIn(r.value.1, IsSubtypeChar)
                        && afterScheme == r.value.0 + ("/" + (r.value.1 + (Base64Marker + r.value.2)))
  {
    var k := Span(afterScheme, IsAsciiAlphaNum);
    if k == 0 || k == |afterScheme| || afterScheme[k] != '/' then None
    else
      var afterSlash := afterScheme[k + 1..];
      match ParseSubtype(afterSlash)
      case None => None
      case Some((subtype, rest)) =>
        assert afterScheme[k..] == "/" + afterSlash;
        assert afterScheme == afterScheme[..k] + afterScheme[k..];
        Some((afterScheme[..k], subtype, rest))
  }

  /** The match of `getMimeType`'s pattern, if any: (type, subtype, unmatched rest). */
  function ParseMimePrefix(dataUrl: string): (r: Option<(string, string, string)>)
    ensures r.Some? ==> MatchesMimePrefix(dataUrl, r.value.0, r.value.1, r.value.2)
  {
    if !(DataScheme <= dataUrl) then None
    else
      assert dataUrl == DataScheme + dataUrl[|DataScheme|..];
      ParseMediaType(dataUrl[|DataScheme|..])
  }

  lemma ParseSubtypeComplete(subtype: string, rest: string)
    requires subtype != [] && AllIn(subtype, IsSubtypeChar)
    ensures ParseSubtype(subtype + (Base64Marker + rest)) == Some((subtype, rest))
  {
    var afterSlash := subtype + (Base64Marker + rest);
    SpanOfRun(subtype, Base64Marker + rest, IsSubtypeChar);
    assert afterSlash[|subtype|..] == Base64Marker + rest;
    assert afterSlash[..|subtype|] == subtype;
  }

  lemma ParseMediaTypeComplete(topLevel: string, subtype: string, rest: string)
    requires topLevel != [] && AllIn(topLevel, IsAsciiAlphaNum)
    requires subtype != [] && AllIn(subtype, IsSubtypeChar)
    ensures ParseMediaType(topLevel + ("/" + (subtype + (Base64Marker + rest)))) == Some((topLevel, subtype, rest))
  {
    var afterSlash := subtype + (Base64Marker + rest);
    var afterScheme := topLevel + ("/" + afterSlash);
    SpanOfRun(topLevel, "/" + afterSlash, IsAsciiAlphaNum);
    assert afterScheme[|topLevel|] == '/';
    assert afterScheme[|topLevel| + 1..] == afterSlash;
    assert afterScheme[..|topLevel|] == topLevel;
    ParseSubtypeComplete(subtype, rest);
  }

  /** The pattern has at most one way to match, and `ParseMimePrefix` finds it. */
  lemma ParseMimePrefixComplete(dataUrl: string, topLevel: string, subtype: string, rest: string)
    requires MatchesMimePrefix(dataUrl, topLevel, subtype, rest)
    ensures ParseMimePrefix(dataUrl) == Some((topLevel, subtype, rest))
  {
    assert DataScheme <= dataUrl;
    assert dataUrl[|DataScheme|..] == topLevel + ("/" + (subtype + (Base64Marker + rest)));
    ParseMediaTypeComplete(topLevel, subtype, rest);
  }

  /** `getMimeType`: the `type/subtype` of a matching prefix, otherwise `image/jpeg`. */
  function GetMimeType(dataUrl: string): (r: string)
    ensures r == FallbackMimeType
         || exists topLevel, subtype, rest :: MatchesMimePrefix(dataUrl, topLevel, subtype, rest) && r == topLevel + "/" + subtype
  {
    match ParseMimePrefix(dataUrl)
    case Some((topLevel, subtype, _)) => topLevel + "/" + subtype
    case None => FallbackMimeType
  }

  lemma GetMimeTypeReadsPrefix(topLevel: string, subtype: string, rest: string)
    requires topLevel != [] && AllIn(topLevel, IsAsciiAlphaNum)
    requires subtype != [] && AllIn(subtype, IsSubtypeChar)
    ensures GetMimeType(DataScheme + (topLevel + ("/" + (subtype + (Base64Marker + rest))))) == topLevel + "/" + subtype
  {
    ParseMimePrefixComplete(DataScheme + (topLevel + ("/" + (subtype + (Base64Marker + rest)))), topLevel, subtype, rest);
  }

  lemma GetMimeTypeFallback(dataUrl: string)
    requires forall topLevel, subtype, rest :: !MatchesMimePrefix(dataUrl, topLevel, subtype, rest)
    ensures GetMimeType(dataUrl) == FallbackMimeType
  {
  }

  /**
   * The two helpers use different character sets. A MIME type that `getMimeType`
   * reads but that holds a character outside `cleanBase64`'s class (a dot or a
   * digit, as in `image/vnd.x` or `image/jp2`) makes `cleanBase64` return the whole
   * data URL unchanged, so the URL itself would be sent as the image data.
   */
  lemma MimeOutsideCleanClassIsNotCleaned(dataUrl: string, topLevel: string, subtype: string, rest: string, j: nat)
    requires MatchesMimePrefix(dataUrl, topLevel, subtype, rest)
    requires j < |topLevel + "/" + subtype| && !IsMediaTypeChar((topLevel + "/" + subtype)[j])
    ensures GetMimeType(dataUrl) == topLevel + "/" + subtype
    ensures CleanBase64(dataUrl) == dataUrl
  {
    ParseMimePrefixComplete(dataUrl, topLevel, subtype, rest);
    CleanClassViolationKeepsUrl(dataUrl, topLevel, subtype, rest, j);
  }

  lemma CleanClassViolationKeepsUrl(dataUrl: string, topLevel: string, subtype: string, rest: string, j: nat)
    requires MatchesMimePrefix(dataUrl, topLevel, subtype, rest)
    requires j < |topLevel + "/" + subtype| && !IsMediaTypeChar((topLevel + "/" + subtype)[j])
    ensures CleanBase64(dataUrl) == dataUrl
  {
    var mime := topLevel + "/" + subtype;
    assert dataUrl == DataScheme + (mime + (Base64Marker + rest));
    MimeTypeHasNoSemicolon(topLevel, subtype);
    StrayCharacterStopsMediaType(mime, Base64Marker + rest, j);
    UnmatchedAfterSchemeIsKept(dataUrl, mime + (Base64Marker + rest));
  }

  lemma UnmatchedAfterSchemeIsKept(dataUrl: string, afterScheme: string)
    requires dataUrl == DataScheme + afterScheme && ParseMediaTypeAndPayload(afterScheme) == None
    ensures CleanBase64(dataUrl) == dataUrl
  {
    assert DataScheme <= dataUrl;
    assert dataUrl[|DataScheme|..] == afterScheme;
  }

  lemma MimeTypeHasNoSemicolon(topLevel: string, subtype: string)
    requires AllIn(topLevel, IsAsciiAlphaNum) && AllIn(subtype, IsSubtypeChar)
    ensures forall i :: 0 <= i < |topLevel + "/" + subtype| ==> (topLevel + "/" + subtype)[i] != ';'
  {
  }

  /** A character outside the media-type class before the first `;` defeats `cleanBase64`'s pattern. */
  lemma StrayCharacterStopsMediaType(head: string, tail: string, j: nat)
    requires j < |head| && !IsMediaTypeChar(head[j])
    requires forall i :: 0 <= i < |head| ==> head[i] != ';'
    ensures ParseMediaTypeAndPayload(head + tail) == None
  {
    var s := head + tail;
    var k := Span(s, IsMediaTypeChar);
    assert s[j] == head[j];
    assert s[k] == head[k];
    assert s[k..][0] == s[k];
  }

  /** Conversely, a media type of letters without a slash is cleaned but not recognised as a MIME type. */
  lemma SlashlessMediaTypeFallsBack(mediaType: string, payload: string)
    requires mediaType != [] && AllIn(mediaType, IsAsciiLetter)
    requires payload != [] && AllIn(payload, IsPayloadChar)
    ensures CleanBase64(DataScheme + (mediaType + (Base64Marker + payload))) == payload
    ensures GetMimeType(DataScheme + (mediaType + (Base64Marker + payload))) == FallbackMimeType
  {
    CleanBase64StripsPrefix(mediaType, payload);
    var url := DataScheme + (mediaType + (Base64Marker + payload));
    assert url[|DataScheme|..] == mediaType + (Base64Marker + payload);
    MissingSlashDefeatsMimePattern(mediaType, Base64Marker + payload);
  }

  lemma MissingSlashDefeatsMimePattern(topLevel: string, tail: string)
    requires AllIn(topLevel, IsAsciiAlphaNum) && tail != [] && tail[0] == ';'
    ensures ParseMediaType(topLevel + tail) == None
  {
    SpanOfRun(topLevel, tail, IsAsciiAlphaNum);
    assert (topLevel + tail)[|topLevel|] == ';';
  }

  // ---------------------------------------------------------------------------
  // Credential pre-check.
  // ---------------------------------------------------------------------------

  const ConfigErrorMessage := "Chave de API não configurada. Verifique as variáveis de ambiente na Vercel (API_KEY)."

  /** `!apiKey || apiKey.includes("undefined")`: the key is missing, empty or a placeholder. */
  predicate KeyRejected(apiKey: Option<string>)
    ensures KeyRejected(apiKey) <==>
      || apiKey.None? || apiKey.value == ""
      || exists i: nat :: i <= |apiKey.value| && OccursAt(apiKey.value, "undefined", i)
  {
    !Truthy(apiKey) || Includes(apiKey.value, "undefined")
  }

  /** Any key with `undefined` anywhere in it is refused, as are a missing and an empty key. */
  lemma PlaceholderKeysRejected(before: string, after: string)
    ensures KeyRejected(Some(before + "undefined" + after))
    ensures KeyRejected(None) && KeyRejected(Some(""))
  {
    IncludesInfix(before, "undefined", after);
  }

  // ---------------------------------------------------------------------------
  // Request assembly.
  // ---------------------------------------------------------------------------

  const Model := "gemini-2.5-flash-image"

  /** One part of the request: the instruction text, or an inline image. */
  datatype RequestPart = TextPart(text: string) | InlinePart(mimeType: string, data: string)

  datatype Request = Request(model: string, parts: seq<RequestPart>)

  // The fixed prose of the instruction, reduced to the labels that precede each
  // interpolated field.
  const PromptOpening := "Atue como um Especialista Sênior em Comunicação Visual. Tipo de Aplicação: "
  const PromptBeforeDescription := "\nInstruções Específicas: \""
  const PromptBeforeBaseMime := "\"\n1. IMAGEM BASE (Mime: "
  const PromptBeforeLogoMime := "): a fotografia.\n2. LOGOTIPO (Mime: "
  const PromptClosing := "): a arte a ser aplicada. Saída esperada: apenas a imagem final tratada."

  /** Template interpolation `${v}`: a missing argument is rendered as the text `undefined`. */
  function Interpolate(v: Option<string>): string
  {
    match v
    case Some(text) => text
    case None => "undefined"
  }

  /**
   * The instruction text: each of the four fields follows its label verbatim, in the
   * order application type, description, base MIME type, logo MIME type.
   */
  function Prompt(mockupType: Option<string>, description: string, mimeBase: string, mimeLogo: string): (r: string)
    ensures var atDescription := |PromptOpening| + |Interpolate(mockupType)| + |PromptBeforeDescription|;
      var atBaseMime := atDescription + |description| + |PromptBeforeBaseMime|;
      var atLogoMime := atBaseMime + |mimeBase| + |PromptBeforeLogoMime|;
      && OccursAt(r, Interpolate(mockupType), |PromptOpening|)
      && OccursAt(r, description, atDescription)
      && OccursAt(r, mimeBase, atBaseMime)
      && OccursAt(r, mimeLogo, atLogoMime)
      && |r| == atLogoMime + |mimeLogo| + |PromptClosing|
  {
    var tail := PromptBeforeLogoMime + (mimeLogo + PromptClosing);
    FieldAfterLabel(PromptBeforeLogoMime, mimeLogo, PromptClosing);
    FieldsInPlace(PromptOpening, Interpolate(mockupType), PromptBeforeDescription, description,
                  PromptBeforeBaseMime, mimeBase, tail, |PromptBeforeLogoMime|, mimeLogo);
    PromptOpening + (Interpolate(mockupType) +
    (PromptBeforeDescription + (description +
    (PromptBeforeBaseMime + (mimeBase + tail)))))
  }

  /** A field right after its label. */
  lemma FieldAfterLabel(lead: string, field: string, rest: string)
    ensures OccursAt(lead + (field + rest), field, |lead|)
  {
    OccursAtStart(field, rest);
    OccursShift(lead, field + rest, field, 0);
  }

  /**
   * Where the fields land in a text of three labelled fields followed by a tail, and
   * where a given occurrence in the tail ends up.
   */
  lemma FieldsInPlace(l0: string, f0: string, l1: string, f1: string, l2: string, f2: string,
                      tail: string, i: nat, sub: string)
    requires OccursAt(tail, sub, i)
    ensures var r := l0 + (f0 + (l1 + (f1 + (l2 + (f2 + tail)))));
      && OccursAt(r, f0, |l0|)
      && OccursAt(r, f1, |l0| + |f0| + |l1|)
      && OccursAt(r, f2, |l0| + |f0| + |l1| + |f1| + |l2|)
      && OccursAt(r, sub, |l0| + |f0| + |l1| + |f1| + |l2| + |f2| + i)
  {
    var inner := l1 + (f1 + (l2 + (f2 + tail)));
    SecondLevelInPlace(l1, f1, l2, f2, tail, i, sub);
    FieldAfterLabel(l0, f0, inner);
    OccursShift(l0 + f0, inner, f1, |l1|);
    OccursShift(l0 + f0, inner, f2, |l1| + |f1| + |l2|);
    OccursShift(l0 + f0, inner, sub, |l1| + |f1| + |l2| + |f2| + i);
    assert l0 + (f0 + inner) == (l0 + f0) + inner;
  }

  lemma SecondLevelInPlace(l1: string, f1: string, l2: string, f2: string, tail: string, i: nat, sub: string)
    requires OccursAt(tail, sub, i)
    ensures var r := l1 + (f1 + (l2 + (f2 + tail)));
      && OccursAt(r, f1, |l1|)
      && OccursAt(r, f2, |l1| + |f1| + |l2|)
      && OccursAt(r, sub, |l1| + |f1| + |l2| + |f2| + i)
  {
    var inner := l2 + (f2 + tail);
    FieldAfterLabel(l2, f2, tail);
    OccursShift(l2 + f2, tail, sub, i);
    assert l2 + (f2 + tail) == (l2 + f2) + tail;
    FieldAfterLabel(l1, f1, inner);
    OccursShift(l1 + f1, inner, f2, |l2|);
    OccursShift(l1 + f1, inner, sub, |l2| + |f2| + i);
    assert l1 + (f1 + inner) == (l1 + f1) + inner;
  }

  /** Every interpolated field occurs verbatim in the instruction text. */
  lemma PromptEmbedsFields(mockupType: Option<string>, description: string, mimeBase: string, mimeLogo: string)
    ensures var p := Prompt(mockupType, description, mimeBase, mimeLogo);
      && Includes(p, Interpolate(mockupType)) && Includes(p, description)
      && Includes(p, mimeBase) && Includes(p, mimeLogo)
  {
  }

  /**
   * The request sent to the model: the instruction, then the base image, then the
   * logo, each image as its MIME type and its cleaned data.
   */
  function BuildRequest(baseImage: string, logoImage: string, description: string, mockupType: Option<string>): (r: Request)
    ensures r.model == Model && |r.parts| == 3
    ensures r.parts[0].TextPart?
    ensures r.parts[1] == InlinePart(GetMimeType(baseImage), CleanBase64(baseImage))
    ensures r.parts[2] == InlinePart(GetMimeType(logoImage), CleanBase64(logoImage))
    ensures Includes(r.parts[0].text, description)
    ensures Includes(r.parts[0].text, Interpolate(mockupType))
    ensures Includes(r.parts[0].text, r.parts[1].mimeType) && Includes(r.parts[0].text, r.parts[2].mimeType)
  {
    var mimeBase := GetMimeType(baseImage);
    var mimeLogo := GetMimeType(logoImage);
    PromptEmbedsFields(mockupType, description, mimeBase, mimeLogo);
    Request(Model, [
      TextPart(Prompt(mockupType, description, mimeBase, mimeLogo)),
      InlinePart(mimeBase, CleanBase64(baseImage)),
      InlinePart(mimeLogo, CleanBase64(logoImage))])
  }

  /** App passes three arguments, so the instruction names the application type as `undefined`. */
  lemma ThreeArgumentCallSaysUndefined(baseImage: string, logoImage: string, description: string)
    ensures Includes(BuildRequest(baseImage, logoImage, description, None).parts[0].text, "undefined")
  {
  }

  // ---------------------------------------------------------------------------
  // The model's answer and its extraction.
  // ---------------------------------------------------------------------------

  /** `inlineData` of a response part. */
  datatype Blob = Blob(mimeType: Option<string>, data: Option<string>)

  datatype Part = Part(text: Option<string>, inlineData: Option<Blob>)

  /** A candidate answer: its finish reason and the parts of its content. */
  datatype Candidate = Candidate(finishReason: Option<string>, parts: seq<Part>)

  datatype Response = Response(candidates: Option<seq<Candidate>>)

  /**
   * An error thrown inside the `try` block: errors from the SDK carry an HTTP status,
   * the ones the client throws itself do not.
   */
  datatype Thrown = Thrown(message: string, status: Option<int>)

  const SafetyReason := "SAFETY"
  const PngDataUrlPrefix := "data:image/png;base64,"
  const TextReplyLimit := 100
  const SafetyMessage := "A imagem foi bloqueada pelos filtros de segurança da IA. Tente uma imagem base diferente."
  const TextReplyPrefix := "A IA não gerou uma imagem. Resposta: "
  const NoResponseMessage := "Não foi possível gerar a imagem. Nenhuma resposta válida da IA."

  /** `part.inlineData && part.inlineData.data`. */
  predicate HasImage(part: Part)
  {
    part.inlineData.Some? && Truthy(part.inlineData.value.data)
  }

  function ImageData(part: Part): string
    requires HasImage(part)
  {
    part.inlineData.value.data.value
  }

  predicate IsFirstImage(parts: seq<Part>, i: nat)
  {
    i < |parts| && HasImage(parts[i]) && forall j :: 0 <= j < i ==> !HasImage(parts[j])
  }

  /** The index of the first part that carries image data, if any. */
  function FirstImage(parts: seq<Part>): (r: Option<nat>)
    ensures r.None? <==> forall i :: 0 <= i < |parts| ==> !HasImage(parts[i])
    ensures r.Some? ==> IsFirstImage(parts, r.value)
  {
    if parts == [] then None
    else if HasImage(parts[0]) then Some(0)
    else
      match FirstImage(parts[1..])
      case None => None
      case Some(i) => Some(i + 1)
  }

  predicate HasCandidate(response: Response)
  {
    response.candidates.Some? && |response.candidates.value| > 0
  }

  /** The message thrown when the model answered with text: at most 100 characters of it. */
  function TextReplyMessage(text: string): string
  {
    TextReplyPrefix + Prefix(text, TextReplyLimit) + "..."
  }

  /**
   * What the response handling yields: the first candidate only is inspected; a
   * safety stop wins over any image; otherwise the first part with image data is
   * returned as a PNG data URL; failing that, a text first part is surfaced, and
   * anything else is an empty answer.
   */
  function Extraction(response: Response): (r: Result<string, Thrown>)
    ensures r.Success? ==> PngDataUrlPrefix < r.value
    ensures r.Failure? ==> r.error.status == None
    ensures r.Failure? ==>
      r.error.message == NoResponseMessage || r.error.message == SafetyMessage || TextReplyPrefix <= r.error.message
  {
    if !HasCandidate(response) then Failure(Thrown(NoResponseMessage, None))
    else
      var candidate := response.candidates.value[0];
      if candidate.finishReason == Some(SafetyReason) then Failure(Thrown(SafetyMessage, None))
      else
        match FirstImage(candidate.parts)
        case Some(i) => Success(PngDataUrlPrefix + ImageData(candidate.parts[i]))
        case None =>
          if candidate.parts != [] && Truthy(candidate.parts[0].text) then
            Failure(Thrown(TextReplyMessage(candidate.parts[0].text.value), None))
          else
            Failure(Thrown(NoResponseMessage, None))
  }

  /** The response handling of `generateMockup`: a scan of the first candidate's parts with early return. */
  method ExtractImage(response: Response) returns (r: Result<string, Thrown>)
    ensures r == Extraction(response)
  {
    if response.candidates.Some? && |response.candidates.value| > 0 {
      var candidate := response.candidates.value[0];
      if candidate.finishReason == Some(SafetyReason) {
        return Failure(Thrown(SafetyMessage, None));
      }
      for i := 0 to |candidate.parts|
        invariant forall j :: 0 <= j < i ==> !HasImage(candidate.parts[j])
      {
        var part := candidate.parts[i];
        if part.inlineData.Some? && part.inlineData.value.data.Some? && part.inlineData.value.data.value != "" {
          return Success(PngDataUrlPrefix + part.inlineData.value.data.value);
        }
      }
      if |candidate.parts| > 0 && candidate.parts[0].text.Some? && candidate.parts[0].text.value != "" {
        return Failure(Thrown(TextReplyMessage(candidate.parts[0].text.value), None));
      }
    }
    return Failure(Thrown(NoResponseMessage, None));
  }

  /** Only the first candidate is inspected. */
  lemma OnlyFirstCandidateCounts(first: Candidate, others: seq<Candidate>)
    ensures Extraction(Response(Some([first] + others))) == Extraction(Response(Some([first])))
  {
  }

  /** A safety stop is reported even when the candidate carries image parts. */
  lemma SafetyStopWinsOverImages(response: Response)
    requires HasCandidate(response) && response.candidates.value[0].finishReason == Some(SafetyReason)
    ensures Extraction(response) == Failure(Thrown(SafetyMessage, None))
  {
  }

  /**
   * Extraction succeeds exactly when the first candidate was not stopped for safety
   * and some part carries image data; the result is then the data of the first such
   * part behind a PNG data-URL prefix, whatever MIME type the part declared.
   */
  lemma ExtractionReturnsFirstImage(response: Response, i: nat)
    requires HasCandidate(response)
    requires response.candidates.value[0].finishReason != Some(SafetyReason)
    requires IsFirstImage(response.candidates.value[0].parts, i)
    ensures Extraction(response) == Success(PngDataUrlPrefix + ImageData(response.candidates.value[0].parts[i]))
  {
  }

  lemma ExtractionSucceedsOnlyWithImage(response: Response)
    ensures Extraction(response).Success? <==>
      && HasCandidate(response)
      && response.candidates.value[0].finishReason != Some(SafetyReason)
      && exists i :: 0 <= i < |response.candidates.value[0].parts| && HasImage(response.candidates.value[0].parts[i])
  {
  }

  /**
   * With no image part and a text first part, the error quotes the first 100
   * characters of that text followed by an ellipsis.
   */
  lemma TextReplyIsQuoted(response: Response)
    requires HasCandidate(response)
    requires response.candidates.value[0].finishReason != Some(SafetyReason)
    requires forall i :: 0 <= i < |response.candidates.value[0].parts| ==> !HasImage(response.candidates.value[0].parts[i])
    requires response.candidates.value[0].parts != [] && Truthy(response.candidates.value[0].parts[0].text)
    ensures var text := response.candidates.value[0].parts[0].text.value;
      Extraction(response) == Failure(Thrown(TextReplyPrefix + Prefix(text, TextReplyLimit) + "...", None))
  {
  }

  /** No candidate, or neither an image part nor a text first part: the generic error. */
  lemma EmptyAnswerIsGeneric(response: Response)
    requires HasCandidate(response) ==>
      && response.candidates.value[0].finishReason != Some(SafetyReason)
      && (forall i :: 0 <= i < |response.candidates.value[0].parts| ==> !HasImage(response.candidates.value[0].parts[i]))
      && (response.candidates.value[0].parts == [] || !Truthy(response.candidates.value[0].parts[0].text))
    ensures Extraction(response) == Failure(Thrown(NoResponseMessage, None))
  {
  }

  /** The PNG data URL the client returns is read back by its own helpers. */
  lemma ResultUrlRoundTrip(data: string)
    requires data != [] && AllIn(data, IsPayloadChar)
    ensures GetMimeType(PngDataUrlPrefix + data) == "image/png"
    ensures CleanBase64(PngDataUrlPrefix + data) == data
  {
    ResultUrlMimeType(data);
    ResultUrlPayload(data);
  }

  lemma ResultUrlMimeType(data: string)
    ensures GetMimeType(PngDataUrlPrefix + data) == "image/png"
  {
    PngDataUrlShape(data);
    assert "image" + "/" + "png" == "image/png";
    GetMimeTypeReadsPrefix("image", "png", data);
  }

  lemma ResultUrlPayload(data: string)
    requires data != [] && AllIn(data, IsPayloadChar)
    ensures CleanBase64(PngDataUrlPrefix + data) == data
  {
    PngMediaTypeShape(data);
    CleanBase64StripsPrefix("image/png", data);
  }

  /** The fixed prefix read as `data:` + `image` + `/` + `png` + `;base64,`. */
  lemma PngDataUrlShape(data: string)
    ensures PngDataUrlPrefix + data == DataScheme + ("image" + ("/" + ("png" + (Base64Marker + data))))
  {
    assert PngDataUrlPrefix == DataScheme + ("image" + ("/" + ("png" + Base64Marker)));
  }

  /** The fixed prefix read as `data:` + `image/png` + `;base64,`. */
  lemma PngMediaTypeShape(data: string)
    ensures PngDataUrlPrefix + data == DataScheme + ("image/png" + (Base64Marker + data))
    ensures AllIn("image/png", IsMediaTypeChar)
  {
    assert PngDataUrlPrefix == DataScheme + ("image/png" + Base64Marker);
  }

  // ---------------------------------------------------------------------------
  // Error rewriting in the `catch` block.
  // ---------------------------------------------------------------------------

  const BadRequestMessage := "Erro na requisição (400). Verifique se as imagens não são muito grandes ou corrompidas."
  const ForbiddenMessage := "Erro de Permissão (403). Verifique sua API Key e se ela tem acesso ao modelo gemini-2.5-flash-image."
  const RateLimitMessage := "Muitas requisições (429). Aguarde um momento e tente novamente."
  const ServerErrorMessage := "Erro no servidor da IA (5xx). Tente novamente em instantes."

  /** The statuses that have a message of their own. */
  predicate IsClassifiedStatus(status: Option<int>)
  {
    status == Some(400) || status == Some(403) || status == Some(429) || status == Some(500) || status == Some(503)
  }

  /** The message of the error the `catch` block rethrows: a fixed text per known status, else the original. */
  function RewriteMessage(e: Thrown): (message: string)
    ensures e.status == Some(400) ==> message == BadRequestMessage
    ensures e.status == Some(403) ==> message == ForbiddenMessage
    ensures e.status == Some(429) ==> message == RateLimitMessage
    ensures e.status == Some(500) || e.status == Some(503) ==> message == ServerErrorMessage
    ensures !IsClassifiedStatus(e.status) ==> message == e.message
  {
    var m0 := e.message;
    var m1 := if e.status == Some(400) then BadRequestMessage else m0;
    var m2 := if e.status == Some(403) then ForbiddenMessage else m1;
    var m3 := if e.status == Some(429) then RateLimitMessage else m2;
    if e.status == Some(500) || e.status == Some(503) then ServerErrorMessage else m3
  }

  // ---------------------------------------------------------------------------
  // One call of `generateMockup`.
  // ---------------------------------------------------------------------------

  /** What `generateContent` did with the request: answered, or threw an SDK error. */
  datatype Reply = Answered(response: Response) | Threw(error: Thrown)

  /** The outcome of the `try` block once a request has been sent. */
  function Settle(reply: Reply): (r: Result<string, string>)
    ensures r.Success? ==> reply.Answered? && Extraction(reply.response) == Success(r.value)
    ensures reply.Answered? && Extraction(reply.response).Failure? ==>
      r == Failure(Extraction(reply.response).error.message)
  {
    match reply
    case Threw(e) => Failure(RewriteMessage(e))
    case Answered(response) =>
      match Extraction(response)
      case Success(url) => Success(url)
      case Failure(e) => Failure(RewriteMessage(e))
  }

  /** The outcome of `generateMockup`: the key check comes first and is outside the `try`. */
  function Generation(apiKey: Option<string>, reply: Reply): (r: Result<string, string>)
    ensures KeyRejected(apiKey) ==> r == Failure(ConfigErrorMessage)
    ensures r.Success? ==> !KeyRejected(apiKey) && reply.Answered? && PngDataUrlPrefix < r.value
  {
    if KeyRejected(apiKey) then Failure(ConfigErrorMessage) else Settle(reply)
  }

  /** Errors the client throws itself carry no status, so the `catch` block passes their message on. */
  lemma ClientErrorsKeepTheirMessage(apiKey: Option<string>, response: Response)
    requires !KeyRejected(apiKey) && Extraction(response).Failure?
    ensures Generation(apiKey, Answered(response)) == Failure(Extraction(response).error.message)
  {
  }

  /** An SDK error is reported by its status when the status is known, else by its own message. */
  lemma SdkErrorsAreClassified(apiKey: Option<string>, e: Thrown)
    requires !KeyRejected(apiKey)
    ensures e.status == Some(429) ==> Generation(apiKey, Threw(e)) == Failure(RateLimitMessage)
    ensures !IsClassifiedStatus(e.status) ==> Generation(apiKey, Threw(e)) == Failure(e.message)
  {
  }

  /**
   * `generateMockup(baseImage, logoImage, description, mockupType)` with the answer
   * of the remote model given as `reply`. Returns the request that was sent (none
   * when the key check fails) and the image data URL or the message of the error
   * thrown to the caller.
   */
  method GenerateMockup(apiKey: Option<string>, baseImage: string, logoImage: string,
                        description: string, mockupType: Option<string>, reply: Reply)
    returns (sent: Option<Request>, result: Result<string, string>)
    ensures sent.None? <==> KeyRejected(apiKey)
    ensures KeyRejected(apiKey) ==> result == Failure(ConfigErrorMessage)
    ensures sent.Some? ==> sent.value == BuildRequest(baseImage, logoImage, description, mockupType)
    ensures result == Generation(apiKey, reply)
  {
    if !Truthy(apiKey) || Includes(apiKey.value, "undefined") {
      return None, Failure(ConfigErrorMessage);
    }
    var request := BuildRequest(baseImage, logoImage, description, mockupType);
    sent := Some(request);
    match reply {
      case Threw(e) =>
        result := Failure(RewriteMessage(e));
      case Answered(response) =>
        var extracted := ExtractImage(response);
        match extracted {
          case Success(url) => result := Success(url);
          case Failure(e) => result := Failure(RewriteMessage(e));
        }
    }
  }
}
