/** Agent call helpers: building the user's multimodal message, reading the
    final text of an agent event, reading an event's token usage, and the
    loop that runs the root agent over a stream of events, keeping running
    token totals and the last final text.
    The agent runner is a parameter `run`: it maps the user id, the session
    id and the message to the events the agent yields, and to whether the
    stream raised after them. */
module AgentUtils {
  import opened Wrappers
  import opened Text

  newtype byte = x: int | 0 <= x < 256

  /** Inline binary data with its MIME type. */
  datatype Blob = Blob(mimeType: string, data: seq<byte>)

  /** A part of a message: text, inline data, either or neither (a part
      holding a function call or a tool response has neither). */
  datatype Part = Part(text: Option<string>, inlineData: Option<Blob>)

  function TextPart(t: string): Part {
    Part(Some(t), None)
  }

  function DataPart(b: Blob): Part {
    Part(None, Some(b))
  }

  datatype Content = Content(role: string, parts: seq<Part>)

  /** An uploaded image; an empty byte string is a missing image. */
  datatype Image = Image(
    contentType: string,
    originalImage: seq<byte>,
    maskImage: seq<byte>,
    maskContentType: string,
    hasOcclusions: bool)

  /** A recorded voice note; an empty byte string is missing audio. */
  datatype VoiceNote = VoiceNote(audioData: seq<byte>, format: Option<string>)

  // ---------------------------------------------------------------------
  // process_user_message

  /** The parts one image adds: a label and a blob for the original, then a
      label and a blob for the mask when there is one and the image has
      occlusions. */
  function ImageParts(img: Image): seq<Part> {
    (if img.originalImage != [] then
       [TextPart("Image: " + img.contentType), DataPart(Blob(img.contentType, img.originalImage))]
     else [])
    + (if img.maskImage != [] && img.hasOcclusions then
         [TextPart("Mask image: " + img.maskContentType), DataPart(Blob(img.maskContentType, img.maskImage))]
       else [])
  }

  /** `f"audio/{note.format}" if note.format else "audio/mp4"`. */
  function VoiceMime(note: VoiceNote): string {
    if note.format.Some? && note.format.value != "" then "audio/" + note.format.value else "audio/mp4"
  }

  /** The parts one voice note adds: a label and a blob, when it has audio. */
  function VoiceParts(note: VoiceNote): seq<Part> {
    if note.audioData != [] then
      [TextPart("Voice note: " + Show(note.format)), DataPart(Blob(VoiceMime(note), note.audioData))]
    else []
  }

  function AllImageParts(imgs: seq<Image>): seq<Part>
    decreases |imgs|
  {
    if imgs == [] then [] else AllImageParts(imgs[..|imgs| - 1]) + ImageParts(imgs[|imgs| - 1])
  }

  function AllVoiceParts(notes: seq<VoiceNote>): seq<Part>
    decreases |notes|
  {
    if notes == [] then [] else AllVoiceParts(notes[..|notes| - 1]) + VoiceParts(notes[|notes| - 1])
  }

  /** The message `process_user_message` builds. A missing list and an empty
      list add nothing alike. */
  function UserContent(message: string, images: Option<seq<Image>>, voiceNotes: Option<seq<VoiceNote>>): Content {
    Content("user", [TextPart(message)] + AllImageParts(images.GetOr([])) + AllVoiceParts(voiceNotes.GetOr([])))
  }

  /** `process_user_message`: the message text first, then a label and a blob
      per image, mask and voice note present, as the loops append them. */
  method ProcessUserMessage(message: string, images: Option<seq<Image>>, voiceNotes: Option<seq<VoiceNote>>)
    returns (content: Content)
    ensures content == UserContent(message, images, voiceNotes)
  {
    var parts := [TextPart(message)];
    if images.Some? && images.value != [] {
      parts := AppendImageParts(parts, images.value);
    }
    if voiceNotes.Some? && voiceNotes.value != [] {
      parts := AppendVoiceParts(parts, voiceNotes.value);
    }
    content := Content("user", parts);
  }

  /** The image loop of `process_user_message`. */
  method AppendImageParts(start: seq<Part>, imgs: seq<Image>) returns (parts: seq<Part>)
    ensures parts == start + AllImageParts(imgs)
  {
    parts := start;
    var i := 0;
    while i < |imgs|
      invariant i <= |imgs|
      invariant parts == start + AllImageParts(imgs[..i])
    {
      var added := ImagePartsOf(imgs[i]);
      assert imgs[..i + 1][..i] == imgs[..i];
      PartsAfter(start, AllImageParts(imgs[..i]), added);
      parts := parts + added;
      i := i + 1;
    }
    assert imgs[..i] == imgs;
  }

  /** The body of the image loop: the parts appended for one image. */
  method ImagePartsOf(img: Image) returns (added: seq<Part>)
    ensures added == ImageParts(img)
  {
    added := [];
    if img.originalImage != [] {
      added := added + [TextPart("Image: " + img.contentType)];
      added := added + [DataPart(Blob(img.contentType, img.originalImage))];
    }
    if img.maskImage != [] && img.hasOcclusions {
      added := added + [TextPart("Mask image: " + img.maskContentType)];
      added := added + [DataPart(Blob(img.maskContentType, img.maskImage))];
    }
  }

  /** The voice-note loop of `process_user_message`. */
  method AppendVoiceParts(start: seq<Part>, notes: seq<VoiceNote>) returns (parts: seq<Part>)
    ensures parts == start + AllVoiceParts(notes)
  {
    parts := start;
    var j := 0;
    while j < |notes|
      invariant j <= |notes|
      invariant parts == start + AllVoiceParts(notes[..j])
    {
      var added := VoicePartsOf(notes[j]);
      assert notes[..j + 1][..j] == notes[..j];
      PartsAfter(start, AllVoiceParts(notes[..j]), added);
      parts := parts + added;
      j := j + 1;
    }
    assert notes[..j] == notes;
  }

  /** The body of the voice-note loop: the parts appended for one note. */
  method VoicePartsOf(note: VoiceNote) returns (added: seq<Part>)
    ensures added == VoiceParts(note)
  {
    added := [];
    if note.audioData != [] {
      added := added + [TextPart("Voice note: " + Show(note.format))];
      var mime := if note.format.Some? && note.format.value != "" then "audio/" + note.format.value else "audio/mp4";
      added := added + [DataPart(Blob(mime, note.audioData))];
    }
  }

  /** Appending to an extended list of parts extends it further. */
  lemma PartsAfter(start: seq<Part>, done: seq<Part>, next: seq<Part>)
    ensures (start + done) + next == start + (done + next)
  {
  }

  predicate IsLabel(p: Part) {
    p.text.Some? && p.inlineData.None?
  }

  predicate IsBlob(p: Part) {
    p.text.None? && p.inlineData.Some?
  }

  /** A run of (label, blob) pairs. */
  predicate LabelledBlobs(ps: seq<Part>)
    decreases |ps|
  {
    ps == [] || (|ps| >= 2 && IsLabel(ps[0]) && IsBlob(ps[1]) && LabelledBlobs(ps[2..]))
  }

  lemma {:induction false} LabelledBlobsAppend(a: seq<Part>, b: seq<Part>)
    requires LabelledBlobs(a) && LabelledBlobs(b)
    ensures LabelledBlobs(a + b)
    decreases |a|
  {
    if a == [] {
      assert a + b == b;
    } else {
      LabelledBlobsAppend(a[2..], b);
      assert (a + b)[2..] == a[2..] + b;
    }
  }

  /** How many originals, and how many masks of occluded images, are present. */
  function Originals(imgs: seq<Image>): nat
    decreases |imgs|
  {
    if imgs == [] then 0
    else Originals(imgs[..|imgs| - 1]) + (if imgs[|imgs| - 1].originalImage != [] then 1 else 0)
  }

  function Masks(imgs: seq<Image>): nat
    decreases |imgs|
  {
    if imgs == [] then 0
    else
      var img := imgs[|imgs| - 1];
      Masks(imgs[..|imgs| - 1]) + (if img.maskImage != [] && img.hasOcclusions then 1 else 0)
  }

  function Recordings(notes: seq<VoiceNote>): nat
    decreases |notes|
  {
    if notes == [] then 0
    else Recordings(notes[..|notes| - 1]) + (if notes[|notes| - 1].audioData != [] then 1 else 0)
  }

  lemma {:induction false} ImagePartsPaired(imgs: seq<Image>)
    ensures LabelledBlobs(AllImageParts(imgs))
    ensures |AllImageParts(imgs)| == 2 * (Originals(imgs) + Masks(imgs))
    decreases |imgs|
  {
    if imgs != [] {
      var img := imgs[|imgs| - 1];
      ImagePartsPaired(imgs[..|imgs| - 1]);
      OneImagePaired(img);
      LabelledBlobsAppend(AllImageParts(imgs[..|imgs| - 1]), ImageParts(img));
    }
  }

  /** One image adds (label, blob) pairs, one for the original and one for
      the mask of an occluded image. */
  lemma OneImagePaired(img: Image)
    ensures LabelledBlobs(ImageParts(img))
    ensures |ImageParts(img)| == 2 * ((if img.originalImage != [] then 1 else 0)
      + (if img.maskImage != [] && img.hasOcclusions then 1 else 0))
  {
    var o := if img.originalImage != [] then
      [TextPart("Image: " + img.contentType), DataPart(Blob(img.contentType, img.originalImage))] else [];
    var m := if img.maskImage != [] && img.hasOcclusions then
      [TextPart("Mask image: " + img.maskContentType), DataPart(Blob(img.maskContentType, img.maskImage))] else [];
    assert LabelledBlobs(o) && LabelledBlobs(m);
    LabelledBlobsAppend(o, m);
  }

  lemma {:induction false} VoicePartsPaired(notes: seq<VoiceNote>)
    ensures LabelledBlobs(AllVoiceParts(notes))
    ensures |AllVoiceParts(notes)| == 2 * Recordings(notes)
    decreases |notes|
  {
    if notes != [] {
      VoicePartsPaired(notes[..|notes| - 1]);
      assert LabelledBlobs(VoiceParts(notes[|notes| - 1]));
      LabelledBlobsAppend(AllVoiceParts(notes[..|notes| - 1]), VoiceParts(notes[|notes| - 1]));
    }
  }

  /** The message is a user message whose first part is the text; after it
      come (label, blob) pairs, one pair per original image, per mask of an
      occluded image and per voice note with audio. With no images and no
      voice notes (missing or empty lists) it is the text alone. */
  lemma UserContentShape(message: string, images: Option<seq<Image>>, voiceNotes: Option<seq<VoiceNote>>)
    ensures var ps := UserContent(message, images, voiceNotes).parts;
      && UserContent(message, images, voiceNotes).role == "user"
      && |ps| >= 1 && ps[0] == TextPart(message)
      && LabelledBlobs(ps[1..])
      && |ps| == 1 + 2 * (Originals(images.GetOr([])) + Masks(images.GetOr([])) + Recordings(voiceNotes.GetOr([])))
    ensures images.GetOr([]) == [] && voiceNotes.GetOr([]) == [] ==>
      UserContent(message, images, voiceNotes).parts == [TextPart(message)]
  {
    var a := AllImageParts(images.GetOr([]));
    var v := AllVoiceParts(voiceNotes.GetOr([]));
    ImagePartsPaired(images.GetOr([]));
    VoicePartsPaired(voiceNotes.GetOr([]));
    LabelledBlobsAppend(a, v);
    TextThenPairs(UserContent(message, images, voiceNotes).parts, TextPart(message), a, v);
  }

  lemma TextThenPairs(ps: seq<Part>, first: Part, a: seq<Part>, v: seq<Part>)
    requires ps == [first] + a + v
    ensures |ps| == 1 + |a| + |v| && ps[0] == first && ps[1..] == a + v
  {
    assert ps == [first] + (a + v);
  }

  /** Every voice note with audio contributes its label, and a blob of its
      audio whose type is `audio/` and the format, or `audio/mp4` when the
      format is missing or empty. */
  lemma {:induction false} VoiceNoteParts(notes: seq<VoiceNote>, j: nat)
    requires j < |notes| && notes[j].audioData != []
    ensures TextPart("Voice note: " + Show(notes[j].format)) in AllVoiceParts(notes)
    ensures var mime := if notes[j].format.Some? && notes[j].format.value != ""
                        then "audio/" + notes[j].format.value else "audio/mp4";
      DataPart(Blob(mime, notes[j].audioData)) in AllVoiceParts(notes)
    decreases |notes|
  {
    var pre := notes[..|notes| - 1];
    if j < |notes| - 1 {
      VoiceNoteParts(pre, j);
      assert pre[j] == notes[j];
    } else {
      assert VoiceParts(notes[j])[0] == TextPart("Voice note: " + Show(notes[j].format));
      assert VoiceParts(notes[j])[1] == DataPart(Blob(VoiceMime(notes[j]), notes[j].audioData));
    }
  }

  // ---------------------------------------------------------------------
  // process_agent_message

  /** The usage part of an event: the attribute is missing, holds None, or
      holds the metadata. */
  datatype UsageAttribute = NoUsageAttribute | UsageNone | Usage(metadata: UsageMetadata)

  /** One item of a modality breakdown; `modality` is the enum's name. */
  datatype ModalityTokenCount = ModalityTokenCount(modality: string, tokenCount: int)

  datatype UsageMetadata = UsageMetadata(
    totalTokenCount: Option<int>,
    promptTokenCount: Option<int>,
    candidatesTokenCount: Option<int>,
    cachedContentTokenCount: Option<int>,
    thoughtsTokenCount: Option<int>,
    cacheTokensDetails: seq<ModalityTokenCount>,
    promptTokensDetails: seq<ModalityTokenCount>)

  /** An agent event. Every ADK event carries an `id` and an `author`, so
      reading them never raises and `getattr` never falls back to 'unknown'. */
  datatype Event = Event(
    id: string,
    author: string,
    isFinal: bool,
    content: Option<Content>,
    usage: UsageAttribute)

  /** `process_agent_message`: the stripped text of the first part of a final
      event, when that text is present and non-empty. What it returns is
      already stripped and never starts or ends with white space. */
  function FinalText(e: Event): (r: Option<string>)
    ensures r.Some? <==> (e.isFinal && e.content.Some? && |e.content.value.parts| > 0
      && e.content.value.parts[0].text.Some? && e.content.value.parts[0].text.value != "")
    ensures r.Some? ==> r.value == Strip(e.content.value.parts[0].text.value)
    ensures r.Some? ==> e.isFinal && Strip(r.value) == r.value
    ensures r.Some? && r.value != "" ==> !IsSpace(r.value[0]) && !IsSpace(r.value[|r.value| - 1])
  {
    if e.isFinal && e.content.Some? && |e.content.value.parts| > 0
       && e.content.value.parts[0].text.Some? && e.content.value.parts[0].text.value != ""
    then
      var t := e.content.value.parts[0].text.value;
      StripIdempotent(t);
      StripTrimsEnds(t);
      Some(Strip(t))
    else None
  }

  /** The event carries text that replaces the response so far: the
      stripped final text is truthy. */
  predicate SetsResponse(e: Event) {
    FinalText(e).Some? && FinalText(e).value != ""
  }

  /** The response after the events `es`: the text of the last event that
      sets it, if any. */
  function LastFinalText(es: seq<Event>): Option<string>
    decreases |es|
  {
    if es == [] then None
    else if SetsResponse(es[|es| - 1]) then FinalText(es[|es| - 1])
    else LastFinalText(es[..|es| - 1])
  }

  /** The index of the last event that sets the response, or -1. */
  function LastSetter(es: seq<Event>): (r: int)
    ensures -1 <= r < |es|
    ensures r >= 0 ==> SetsResponse(es[r])
    ensures forall j :: r < j < |es| ==> !SetsResponse(es[j])
    decreases |es|
  {
    if es == [] then -1
    else if SetsResponse(es[|es| - 1]) then |es| - 1
    else
      var r := LastSetter(es[..|es| - 1]);
      assert forall j :: r < j < |es| - 1 ==> es[..|es| - 1][j] == es[j];
      r
  }

  /** The last final text wins: the response is the text of the last event
      that sets it, and there is none exactly when no event sets one;
      non-final events and events without text never set it. */
  lemma {:induction false} LastFinalTextWins(es: seq<Event>)
    ensures LastFinalText(es) == if LastSetter(es) == -1 then None else FinalText(es[LastSetter(es)])
    ensures LastFinalText(es).None? <==> forall i :: 0 <= i < |es| ==> !SetsResponse(es[i])
    decreases |es|
  {
    if es != [] && !SetsResponse(es[|es| - 1]) {
      var pre := es[..|es| - 1];
      LastFinalTextWins(pre);
      if LastSetter(pre) >= 0 {
        assert pre[LastSetter(pre)] == es[LastSetter(pre)];
      }
    }
  }

  lemma LastFinalTextSnoc(es: seq<Event>, i: nat)
    requires i < |es|
    ensures LastFinalText(es[..i + 1])
         == if SetsResponse(es[i]) then FinalText(es[i]) else LastFinalText(es[..i])
  {
    assert es[..i + 1][..i] == es[..i];
  }

  lemma AccumulateSnoc(es: seq<Event>, i: nat)
    requires i < |es|
    ensures Accumulate(es[..i + 1]) == Step(Accumulate(es[..i]), es[i])
  {
    assert es[..i + 1][..i] == es[..i];
  }

  // ---------------------------------------------------------------------
  // get_token_counts

  /** What `get_token_counts` returns: the error dictionary, or the five
      counters (each as read, possibly None) and the two modality maps,
      present only when the breakdown is non-empty. */
  datatype TokenCounts =
    | TokenError(error: string)
    | Counted(
        totalTokenCount: Option<int>,
        promptTokenCount: Option<int>,
        candidatesTokenCount: Option<int>,
        cachedContentTokenCount: Option<int>,
        thoughtsTokenCount: Option<int>,
        cacheTokensByModality: Option<map<string, int>>,
        promptTokensByModality: Option<map<string, int>>)

  /** The modality map of a breakdown: keyed by the lowercased modality
      name, a later item overwriting an earlier one. */
  function ModalityMap(items: seq<ModalityTokenCount>): map<string, int>
    decreases |items|
  {
    if items == [] then map[]
    else
      var last := items[|items| - 1];
      ModalityMap(items[..|items| - 1])[Lower(last.modality) := last.tokenCount]
  }

  /** `items[i]` is the last item whose lowercased modality is `k`. */
  predicate LastWithKey(items: seq<ModalityTokenCount>, i: nat, k: string)
    requires i < |items|
  {
    Lower(items[i].modality) == k && forall j :: i < j < |items| ==> Lower(items[j].modality) != k
  }

  /** A key of the modality map is the lowercased name of some item, and
      its value is the count of the last item with that name. */
  lemma ModalityMapLastWins(items: seq<ModalityTokenCount>, k: string)
    ensures k in ModalityMap(items) <==> exists i :: 0 <= i < |items| && Lower(items[i].modality) == k
    ensures forall i :: 0 <= i < |items| && LastWithKey(items, i, k) ==>
      k in ModalityMap(items) && ModalityMap(items)[k] == items[i].tokenCount
  {
    ModalityMapKeys(items, k);
    forall i | 0 <= i < |items| && LastWithKey(items, i, k)
      ensures k in ModalityMap(items) && ModalityMap(items)[k] == items[i].tokenCount
    {
      ModalityMapLast(items, i, k);
    }
  }

  lemma {:induction false} ModalityMapKeys(items: seq<ModalityTokenCount>, k: string)
    ensures k in ModalityMap(items) <==> exists i :: 0 <= i < |items| && Lower(items[i].modality) == k
    decreases |items|
  {
    if items != [] {
      var n := |items| - 1;
      var pre := items[..n];
      ModalityMapKeys(pre, k);
      if k in ModalityMap(items) && Lower(items[n].modality) != k {
        var i :| 0 <= i < n && Lower(pre[i].modality) == k;
        assert items[i] == pre[i];
      }
      if i :| 0 <= i < |items| && Lower(items[i].modality) == k {
        if i < n {
          assert pre[i] == items[i];
        }
      }
    }
  }

  lemma {:induction false} ModalityMapLast(items: seq<ModalityTokenCount>, i: nat, k: string)
    requires i < |items| && LastWithKey(items, i, k)
    ensures k in ModalityMap(items) && ModalityMap(items)[k] == items[i].tokenCount
    decreases |items|
  {
    var n := |items| - 1;
    if i < n {
      var pre := items[..n];
      assert forall j :: i <= j < n ==> pre[j] == items[j];
      assert Lower(items[n].modality) != k;
      ModalityMapLast(pre, i, k);
    }
  }

  const AttributeErrorMessage := "Could not extract token counts: 'Event' object has no attribute 'usage_metadata'"

  /** `get_token_counts` of an event with the given usage attribute. A None
      metadata reads every counter as 0 through `getattr`'s default and has
      no breakdown; only a missing attribute is an error. */
  function TokenCountsOf(usage: UsageAttribute): TokenCounts {
    match usage
    case NoUsageAttribute => TokenError(AttributeErrorMessage)
    case UsageNone => Counted(Some(0), Some(0), Some(0), Some(0), Some(0), None, None)
    case Usage(m) =>
      Counted(m.totalTokenCount, m.promptTokenCount, m.candidatesTokenCount,
              m.cachedContentTokenCount, m.thoughtsTokenCount,
              if m.cacheTokensDetails != [] then Some(ModalityMap(m.cacheTokensDetails)) else None,
              if m.promptTokensDetails != [] then Some(ModalityMap(m.promptTokensDetails)) else None)
  }

  /** The loop that fills one modality map. */
  method ModalityCounts(items: seq<ModalityTokenCount>) returns (tokens: map<string, int>)
    ensures tokens == ModalityMap(items)
  {
    tokens := map[];
    var i := 0;
    while i < |items|
      invariant i <= |items|
      invariant tokens == ModalityMap(items[..i])
    {
      var item := items[i];
      tokens := tokens[Lower(item.modality) := item.tokenCount];
      assert items[..i + 1][..i] == items[..i];
      i := i + 1;
    }
    assert items[..i] == items;
  }

  /** `get_token_counts`. */
  method GetTokenCounts(event: Event) returns (tokenCounts: TokenCounts)
    ensures tokenCounts == TokenCountsOf(event.usage)
  {
    match event.usage
    case NoUsageAttribute =>
      tokenCounts := TokenError(AttributeErrorMessage);
    case UsageNone =>
      tokenCounts := Counted(Some(0), Some(0), Some(0), Some(0), Some(0), None, None);
    case Usage(m) =>
      var cacheTokens: Option<map<string, int>> := None;
      if m.cacheTokensDetails != [] {
        var tokens := ModalityCounts(m.cacheTokensDetails);
        cacheTokens := Some(tokens);
      }
      var promptTokens: Option<map<string, int>> := None;
      if m.promptTokensDetails != [] {
        var tokens := ModalityCounts(m.promptTokensDetails);
        promptTokens := Some(tokens);
      }
      tokenCounts := Counted(m.totalTokenCount, m.promptTokenCount, m.candidatesTokenCount,
                             m.cachedContentTokenCount, m.thoughtsTokenCount, cacheTokens, promptTokens);
  }

  // ---------------------------------------------------------------------
  // call_root_agent_async

  /** One entry of `event_details`. */
  datatype EventDetail = EventDetail(eventId: string, author: string, tokenCounts: TokenCounts)

  /** The accumulated token counts `call_root_agent_async` returns. */
  datatype Accumulated = Accumulated(
    totalTokenCount: int,
    promptTokenCount: int,
    candidatesTokenCount: int,
    cachedContentTokenCount: int,
    thoughtsTokenCount: int,
    cacheTokensByModality: map<string, int>,
    promptTokensByModality: map<string, int>,
    eventDetails: seq<EventDetail>)

  const NoTokens := Accumulated(0, 0, 0, 0, 0, map[], map[], [])

  /** Add a counter unless it is None. */
  function Plus(n: int, o: Option<int>): int {
    if o.Some? then n + o.value else n
  }

  /** `d.get(k, 0)`. */
  function Get(m: map<string, int>, k: string): int {
    if k in m then m[k] else 0
  }

  /** Two modality maps merged by adding counts key by key. */
  function Merge(acc: map<string, int>, add: map<string, int>): map<string, int> {
    map k | k in acc.Keys + add.Keys :: Get(acc, k) + Get(add, k)
  }

  /** The loop that merges one event's modality map into the running one. */
  method MergeInto(acc: map<string, int>, add: map<string, int>) returns (out: map<string, int>)
    ensures out == Merge(acc, add)
  {
    out := acc;
    var todo := add.Keys;
    while todo != {}
      invariant todo <= add.Keys
      invariant out.Keys == acc.Keys + (add.Keys - todo)
      invariant forall k :: k in out ==> out[k] == Get(acc, k) + (if k in add && k !in todo then add[k] else 0)
      decreases todo
    {
      var modality :| modality in todo;
      out := out[modality := Get(out, modality) + add[modality]];
      todo := todo - {modality};
    }
    assert forall k :: k in out ==> out[k] == Merge(acc, add)[k];
  }

  /** What one event does to the accumulated counts. */
  function Step(acc: Accumulated, e: Event): Accumulated {
    var tc := TokenCountsOf(e.usage);
    if tc.TokenError? then acc
    else
      Accumulated(
        Plus(acc.totalTokenCount, tc.totalTokenCount),
        Plus(acc.promptTokenCount, tc.promptTokenCount),
        Plus(acc.candidatesTokenCount, tc.candidatesTokenCount),
        Plus(acc.cachedContentTokenCount, tc.cachedContentTokenCount),
        Plus(acc.thoughtsTokenCount, tc.thoughtsTokenCount),
        if tc.cacheTokensByModality.Some? then Merge(acc.cacheTokensByModality, tc.cacheTokensByModality.value)
        else acc.cacheTokensByModality,
        if tc.promptTokensByModality.Some? then Merge(acc.promptTokensByModality, tc.promptTokensByModality.value)
        else acc.promptTokensByModality,
        acc.eventDetails + [EventDetail(e.id, e.author, tc)])
  }

  /** The accumulated counts after the events `es`. */
  function Accumulate(es: seq<Event>): Accumulated
    decreases |es|
  {
    if es == [] then NoTokens else Step(Accumulate(es[..|es| - 1]), es[|es| - 1])
  }

  /** What the agent's event stream produced: the events it yielded, and
      whether it then raised instead of ending. */
  datatype EventStream = EventStream(events: seq<Event>, raised: bool)

  type Runner = (string, string, Content) -> EventStream

  /** The body of the event loop for one event. */
  method AddEvent(acc: Accumulated, event: Event) returns (next: Accumulated)
    ensures next == Step(acc, event)
  {
    next := acc;
    var tokenCounts := GetTokenCounts(event);
    if !tokenCounts.TokenError? {
      next := next.(eventDetails := next.eventDetails
        + [EventDetail(event.id, event.author, tokenCounts)]);
      // the loop over the five counter keys
      next := next.(totalTokenCount := Plus(next.totalTokenCount, tokenCounts.totalTokenCount));
      next := next.(promptTokenCount := Plus(next.promptTokenCount, tokenCounts.promptTokenCount));
      next := next.(candidatesTokenCount := Plus(next.candidatesTokenCount, tokenCounts.candidatesTokenCount));
      next := next.(cachedContentTokenCount := Plus(next.cachedContentTokenCount, tokenCounts.cachedContentTokenCount));
      next := next.(thoughtsTokenCount := Plus(next.thoughtsTokenCount, tokenCounts.thoughtsTokenCount));
      if tokenCounts.cacheTokensByModality.Some? {
        var merged := MergeInto(next.cacheTokensByModality, tokenCounts.cacheTokensByModality.value);
        next := next.(cacheTokensByModality := merged);
      }
      if tokenCounts.promptTokensByModality.Some? {
        var merged := MergeInto(next.promptTokensByModality, tokenCounts.promptTokensByModality.value);
        next := next.(promptTokensByModality := merged);
      }
    }
  }

  /** `call_root_agent_async`: run the agent on the user's message and go
      through every event it yields, accumulating token counts and keeping
      the last final text. An exception from the stream ends the loop and is
      swallowed: what was gathered up to it is returned. */
  method CallRootAgent(
    run: Runner, userId: string, sessionId: string, query: string,
    images: Option<seq<Image>>, voiceNotes: Option<seq<VoiceNote>>)
    returns (finalResponseText: Option<string>, accumulatedTokenCounts: Accumulated)
    ensures var es := run(userId, sessionId, UserContent(query, images, voiceNotes)).events;
      finalResponseText == LastFinalText(es) && accumulatedTokenCounts == Accumulate(es)
  {
    var content := ProcessUserMessage(query, images, voiceNotes);
    finalResponseText := None;
    accumulatedTokenCounts := NoTokens;
    var stream := run(userId, sessionId, content);
    var es := stream.events;
    var i := 0;
    while i < |es|
      invariant i <= |es|
      invariant finalResponseText == LastFinalText(es[..i])
      invariant accumulatedTokenCounts == Accumulate(es[..i])
    {
      var event := es[i];
      accumulatedTokenCounts := AddEvent(accumulatedTokenCounts, event);
      var response := FinalText(event);
      if response.Some? && response.value != "" {
        finalResponseText := response;
      }
      LastFinalTextSnoc(es, i);
      AccumulateSnoc(es, i);
      i := i + 1;
    }
    assert es[..i] == es;
    // When stream.raised holds, the exception is reported and swallowed here.
  }

  // ---------------------------------------------------------------------
  // What the accumulated counts mean

  datatype Counter = Total | Prompt | Candidates | CachedContent | Thoughts

  function CounterOf(tc: TokenCounts, c: Counter): Option<int>
    requires tc.Counted?
  {
    match c
    case Total => tc.totalTokenCount
    case Prompt => tc.promptTokenCount
    case Candidates => tc.candidatesTokenCount
    case CachedContent => tc.cachedContentTokenCount
    case Thoughts => tc.thoughtsTokenCount
  }

  function CounterValue(acc: Accumulated, c: Counter): int {
    match c
    case Total => acc.totalTokenCount
    case Prompt => acc.promptTokenCount
    case Candidates => acc.candidatesTokenCount
    case CachedContent => acc.cachedContentTokenCount
    case Thoughts => acc.thoughtsTokenCount
  }

  /** An event whose token counts could be read. */
  predicate CountsRead(e: Event) {
    !TokenCountsOf(e.usage).TokenError?
  }

  /** What one event adds to a counter: its value, or 0 when it is None or
      the event's counts could not be read. */
  function Contribution(e: Event, c: Counter): int {
    if CountsRead(e) then CounterOf(TokenCountsOf(e.usage), c).GetOr(0) else 0
  }

  /** The sum, over the events in order, of what each adds to a counter. */
  function CounterSum(es: seq<Event>, c: Counter): int
    decreases |es|
  {
    if es == [] then 0 else Contribution(es[0], c) + CounterSum(es[1..], c)
  }

  lemma {:induction false} CounterSumSnoc(es: seq<Event>, c: Counter)
    requires es != []
    ensures CounterSum(es, c) == CounterSum(es[..|es| - 1], c) + Contribution(es[|es| - 1], c)
    decreases |es|
  {
    if |es| > 1 {
      CounterSumSnoc(es[1..], c);
      assert es[1..][..|es[1..]| - 1] == es[..|es| - 1][1..];
    }
  }

  /** Every accumulated counter starts at 0 and ends as the sum, over the
      events whose counts could be read, of that counter, None counting as
      nothing. */
  lemma {:induction false} CountersAreSums(es: seq<Event>, c: Counter)
    ensures CounterValue(Accumulate(es), c) == CounterSum(es, c)
    decreases |es|
  {
    if es != [] {
      CountersAreSums(es[..|es| - 1], c);
      CounterSumSnoc(es, c);
    }
  }

  /** Which of the two modality maps. */
  datatype Breakdown = CacheTokens | PromptTokens

  function EventMap(e: Event, b: Breakdown): Option<map<string, int>>
    requires CountsRead(e)
  {
    match b
    case CacheTokens => TokenCountsOf(e.usage).cacheTokensByModality
    case PromptTokens => TokenCountsOf(e.usage).promptTokensByModality
  }

  function AccumulatedMap(acc: Accumulated, b: Breakdown): map<string, int> {
    match b
    case CacheTokens => acc.cacheTokensByModality
    case PromptTokens => acc.promptTokensByModality
  }

  /** What one event adds to the count of modality `k`. */
  function ModalityContribution(e: Event, b: Breakdown, k: string): int {
    if CountsRead(e) && EventMap(e, b).Some? then Get(EventMap(e, b).value, k) else 0
  }

  predicate HasModality(e: Event, b: Breakdown, k: string) {
    CountsRead(e) && EventMap(e, b).Some? && k in EventMap(e, b).value
  }

  function ModalitySum(es: seq<Event>, b: Breakdown, k: string): int
    decreases |es|
  {
    if es == [] then 0 else ModalityContribution(es[0], b, k) + ModalitySum(es[1..], b, k)
  }

  lemma {:induction false} ModalitySumSnoc(es: seq<Event>, b: Breakdown, k: string)
    requires es != []
    ensures ModalitySum(es, b, k) == ModalitySum(es[..|es| - 1], b, k) + ModalityContribution(es[|es| - 1], b, k)
    decreases |es|
  {
    if |es| > 1 {
      ModalitySumSnoc(es[1..], b, k);
      assert es[1..][..|es[1..]| - 1] == es[..|es| - 1][1..];
    }
  }

  /** The modality maps hold a key exactly when some event whose counts
      could be read reported that modality, and its count is the sum of the
      events' counts for it, a missing key counting as 0. */
  lemma {:induction false} ModalitiesAreSums(es: seq<Event>, b: Breakdown, k: string)
    ensures k in AccumulatedMap(Accumulate(es), b) <==> exists i :: 0 <= i < |es| && HasModality(es[i], b, k)
    ensures Get(AccumulatedMap(Accumulate(es), b), k) == ModalitySum(es, b, k)
    decreases |es|
  {
    if es != [] {
      var pre := es[..|es| - 1];
      ModalitiesAreSums(pre, b, k);
      ModalitySumSnoc(es, b, k);
      forall i | 0 <= i < |pre| ensures pre[i] == es[i] { }
    }
  }

  /** The `event_details` entry of an event whose counts could be read. */
  function DetailOf(e: Event): EventDetail {
    EventDetail(e.id, e.author, TokenCountsOf(e.usage))
  }

  /** The entries for the events whose counts could be read, in order. */
  function Details(es: seq<Event>): seq<EventDetail>
    decreases |es|
  {
    if es == [] then [] else (if CountsRead(es[0]) then [DetailOf(es[0])] else []) + Details(es[1..])
  }

  lemma {:induction false} DetailsSnoc(es: seq<Event>)
    requires es != []
    ensures Details(es) == Details(es[..|es| - 1]) + (if CountsRead(es[|es| - 1]) then [DetailOf(es[|es| - 1])] else [])
    decreases |es|
  {
    if |es| > 1 {
      DetailsSnoc(es[1..]);
      assert es[1..][..|es[1..]| - 1] == es[..|es| - 1][1..];
    }
  }

  /** `event_details` lists exactly the events whose counts could be read,
      in stream order; an event whose metadata could not be read leaves no
      entry. */
  lemma {:induction false} EventDetailsAreCountedEvents(es: seq<Event>)
    ensures Accumulate(es).eventDetails == Details(es)
    decreases |es|
  {
    if es != [] {
      EventDetailsAreCountedEvents(es[..|es| - 1]);
      DetailsSnoc(es);
    }
  }

  /** The events whose counts could be read. */
  function ReadableEvents(es: seq<Event>): (r: seq<Event>)
    ensures forall i :: 0 <= i < |r| ==> CountsRead(r[i])
    decreases |es|
  {
    if es == [] then []
    else ReadableEvents(es[..|es| - 1]) + (if CountsRead(es[|es| - 1]) then [es[|es| - 1]] else [])
  }

  /** Events whose metadata cannot be read change nothing: dropping them all
      leaves the accumulated counts as they are. */
  lemma {:induction false} UnreadableEventsChangeNothing(es: seq<Event>)
    ensures Accumulate(ReadableEvents(es)) == Accumulate(es)
    decreases |es|
  {
    if es != [] {
      var pre := es[..|es| - 1];
      var last := es[|es| - 1];
      UnreadableEventsChangeNothing(pre);
      assert es[..|es| - 1] == pre;
      if CountsRead(last) {
        var r := ReadableEvents(pre) + [last];
        assert ReadableEvents(es) == r;
        assert r[..|r| - 1] == ReadableEvents(pre) && r[|r| - 1] == last;
        assert Accumulate(r) == Step(Accumulate(ReadableEvents(pre)), last);
      } else {
        assert ReadableEvents(es) == ReadableEvents(pre);
        assert Step(Accumulate(pre), last) == Accumulate(pre);
      }
    }
  }
}
