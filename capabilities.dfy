/**
 * The capability fan-out of `fetch_data_for_attachment`: up to five
 * provider calls, in a fixed order, each switched by a toggle, each turning
 * an exception into an `aws-error` value.
 *
 * The provider client is an oracle: one total function per call, whose
 * `Failure(message)` stands for the exception it throws.
 * `method_exists( $client, 'detectText' )` is `supportsDetectText`. The
 * `apply_filters` toggles and the face-attribute filter are the fields of
 * `Config`, with their documented defaults in `DefaultConfig`.
 */
module Capabilities {
  import opened Wrappers
  import opened ImageRef
  import opened PhpArrays

  datatype Capability = Labels | Moderation | Faces | Celebrities | Text

  /** Position in the fixed order of the calls. */
  function Ordinal(c: Capability): nat {
    match c
    case Labels => 0
    case Moderation => 1
    case Faces => 2
    case Celebrities => 3
    case Text => 4
  }

  const MinConfidence := 80
  const DefaultFaceAttributes: seq<string> := ["BoundingBox", "Confidence", "Emotions", "AgeRange", "Gender"]

  /** The values of the `hm.aws.rekognition.*` filters for one attachment. */
  datatype Config = Config(
    labels: bool,
    moderation: bool,
    faces: bool,
    celebrities: bool,
    text: bool,
    faceAttributes: seq<string>)

  const DefaultConfig := Config(true, false, false, false, false, DefaultFaceAttributes)

  // Provider records, reduced to the fields the plugin reads.
  datatype Label = Label(name: string, confidence: real)
  datatype ModerationLabel = ModerationLabel(name: string, confidence: real, parentName: string)
  datatype Gender = Gender(value: string, confidence: real)
  datatype Emotion = Emotion(kind: string, confidence: real)
  datatype FaceDetail = FaceDetail(confidence: real, gender: Option<Gender>, emotions: Option<seq<Emotion>>)
  datatype Celebrity = Celebrity(name: string, matchConfidence: real)
  datatype TextDetection = TextDetection(detectedText: string, confidence: real)

  /** What a successful call leaves in `$responses`: the label names only for
      labels, the provider's record list for the others. */
  datatype Payload =
    | Names(names: seq<string>)
    | ModerationLabels(moderationLabels: seq<ModerationLabel>)
    | FaceDetails(faceDetails: seq<FaceDetail>)
    | CelebrityFaces(celebrityFaces: seq<Celebrity>)
    | TextDetections(textDetections: seq<TextDetection>)

  const AwsErrorCode := "aws-error"

  /** One value of `$responses`: a payload, or `new WP_Error( 'aws-error', $message )`. */
  datatype Response = Ok(payload: Payload) | AwsError(code: string, message: string)

  /** The argument array of one provider call. */
  datatype Request =
    | DetectLabels(image: ImageArgs, minConfidence: int)
    | DetectModerationLabels(image: ImageArgs, minConfidence: int)
    | DetectFaces(image: ImageArgs, attributes: seq<string>)
    | RecognizeCelebrities(image: ImageArgs)
    | DetectText(image: ImageArgs)

  datatype Client = Client(
    detectLabels: (ImageArgs, int) -> Result<seq<Label>, string>,
    detectModerationLabels: (ImageArgs, int) -> Result<seq<ModerationLabel>, string>,
    detectFaces: (ImageArgs, seq<string>) -> Result<seq<FaceDetail>, string>,
    recognizeCelebrities: ImageArgs -> Result<seq<Celebrity>, string>,
    detectText: ImageArgs -> Result<seq<TextDetection>, string>,
    supportsDetectText: bool)

  /** The fields `wp_list_pluck` takes from the response records. */
  function LabelName(l: Label): string { l.name }
  function ModerationName(m: ModerationLabel): string { m.name }
  function EmotionType(e: Emotion): string { e.kind }
  function CelebrityName(c: Celebrity): string { c.name }
  function DetectedText(t: TextDetection): string { t.detectedText }

  function CapabilityOf(req: Request): Capability {
    match req
    case DetectLabels(_, _) => Labels
    case DetectModerationLabels(_, _) => Moderation
    case DetectFaces(_, _) => Faces
    case RecognizeCelebrities(_) => Celebrities
    case DetectText(_) => Text
  }

  /** The arguments the source passes for capability `c`. */
  function RequestFor(c: Capability, image: ImageArgs, cfg: Config): Request {
    match c
    case Labels => DetectLabels(image, MinConfidence)
    case Moderation => DetectModerationLabels(image, MinConfidence)
    case Faces => DetectFaces(image, cfg.faceAttributes)
    case Celebrities => RecognizeCelebrities(image)
    case Text => DetectText(image)
  }

  function ErrorOf(message: string): Response {
    AwsError(AwsErrorCode, message)
  }

  /** One call inside its `try`/`catch`: the value stored in `$responses`. */
  function Dispatch(client: Client, req: Request): Response {
    match req
    case DetectLabels(image, mc) =>
      (match client.detectLabels(image, mc)
       case Success(ls) => Ok(Names(Pluck(ls, LabelName)))
       case Failure(message) => ErrorOf(message))
    case DetectModerationLabels(image, mc) =>
      (match client.detectModerationLabels(image, mc)
       case Success(ms) => Ok(ModerationLabels(ms))
       case Failure(message) => ErrorOf(message))
    case DetectFaces(image, attrs) =>
      (match client.detectFaces(image, attrs)
       case Success(fs) => Ok(FaceDetails(fs))
       case Failure(message) => ErrorOf(message))
    case RecognizeCelebrities(image) =>
      (match client.recognizeCelebrities(image)
       case Success(cs) => Ok(CelebrityFaces(cs))
       case Failure(message) => ErrorOf(message))
    case DetectText(image) =>
      (match client.detectText(image)
       case Success(ts) => Ok(TextDetections(ts))
       case Failure(message) => ErrorOf(message))
  }

  /** Whether the run issues the call for `c`. */
  predicate Enabled(cfg: Config, supportsDetectText: bool, c: Capability) {
    match c
    case Labels => cfg.labels
    case Moderation => cfg.moderation
    case Faces => cfg.faces
    case Celebrities => cfg.celebrities
    case Text => cfg.text && supportsDetectText
  }

  /** The capabilities called, in the order the source calls them. */
  function Plan(cfg: Config, supportsDetectText: bool): seq<Capability> {
    (if cfg.labels then [Labels] else [])
    + (if cfg.moderation then [Moderation] else [])
    + (if cfg.faces then [Faces] else [])
    + (if cfg.celebrities then [Celebrities] else [])
    + (if cfg.text && supportsDetectText then [Text] else [])
  }

  function Keys(d: seq<(Capability, Response)>): (r: seq<Capability>)
    ensures |r| == |d|
    ensures forall i :: 0 <= i < |d| ==> r[i] == d[i].0
  {
    if d == [] then [] else [d[0].0] + Keys(d[1..])
  }

  /** `$responses[ $c ]`, or `None` when the key is absent. */
  function Lookup(d: seq<(Capability, Response)>, c: Capability): Option<Response> {
    if d == [] then None else if d[0].0 == c then Some(d[0].1) else Lookup(d[1..], c)
  }

  /** The entry capability `c` contributes to `$responses`: none when its
      toggle is off. */
  function EntryFor(c: Capability, image: ImageArgs, cfg: Config, client: Client): seq<(Capability, Response)> {
    if Enabled(cfg, client.supportsDetectText, c) then [(c, Dispatch(client, RequestFor(c, image, cfg)))] else []
  }

  function CallFor(c: Capability, image: ImageArgs, cfg: Config, supportsDetectText: bool): seq<Request> {
    if Enabled(cfg, supportsDetectText, c) then [RequestFor(c, image, cfg)] else []
  }

  /** The provider calls of one run, in order. */
  function Requests(image: ImageArgs, cfg: Config, supportsDetectText: bool): seq<Request> {
    CallFor(Labels, image, cfg, supportsDetectText) + CallFor(Moderation, image, cfg, supportsDetectText)
    + CallFor(Faces, image, cfg, supportsDetectText) + CallFor(Celebrities, image, cfg, supportsDetectText)
    + CallFor(Text, image, cfg, supportsDetectText)
  }

  /** `$responses`, an ordered map from capability to response. */
  function Responses(image: ImageArgs, cfg: Config, client: Client): seq<(Capability, Response)> {
    EntryFor(Labels, image, cfg, client) + EntryFor(Moderation, image, cfg, client)
    + EntryFor(Faces, image, cfg, client) + EntryFor(Celebrities, image, cfg, client)
    + EntryFor(Text, image, cfg, client)
  }

  /** One guarded block of `fetch_data_for_attachment`: the provider call
      for `c` inside its `try`, and the `catch` that turns the exception into
      an `aws-error`. */
  method CallCapability(c: Capability, image: ImageArgs, cfg: Config, client: Client)
    returns (response: Response, req: Request)
    ensures req == RequestFor(c, image, cfg)
    ensures response == Dispatch(client, req)
  {
    match c
    case Labels =>
      req := DetectLabels(image, MinConfidence);
      match client.detectLabels(image, MinConfidence) {
        case Success(labels) => response := Ok(Names(Pluck(labels, LabelName)));
        case Failure(message) => response := AwsError(AwsErrorCode, message);
      }
    case Moderation =>
      req := DetectModerationLabels(image, MinConfidence);
      match client.detectModerationLabels(image, MinConfidence) {
        case Success(labels) => response := Ok(ModerationLabels(labels));
        case Failure(message) => response := AwsError(AwsErrorCode, message);
      }
    case Faces =>
      req := DetectFaces(image, cfg.faceAttributes);
      match client.detectFaces(image, cfg.faceAttributes) {
        case Success(faces) => response := Ok(FaceDetails(faces));
        case Failure(message) => response := AwsError(AwsErrorCode, message);
      }
    case Celebrities =>
      req := RecognizeCelebrities(image);
      match client.recognizeCelebrities(image) {
        case Success(celebrities) => response := Ok(CelebrityFaces(celebrities));
        case Failure(message) => response := AwsError(AwsErrorCode, message);
      }
    case Text =>
      req := DetectText(image);
      match client.detectText(image) {
        case Success(texts) => response := Ok(TextDetections(texts));
        case Failure(message) => response := AwsError(AwsErrorCode, message);
      }
  }

  /**
   * `fetch_data_for_attachment`: resolves the image argument once, then
   * runs the guarded calls in order, appending each outcome to
   * `responses`. `calls` records the argument of every call issued.
   */
  method FetchDataForAttachment(file: string, contents: Option<seq<bv8>>, cfg: Config, client: Client)
    returns (responses: seq<(Capability, Response)>, calls: seq<Request>)
    ensures calls == Requests(ResolveImage(file, contents), cfg, client.supportsDetectText)
    ensures responses == Responses(ResolveImage(file, contents), cfg, client)
  {
    var image := ResolveImage(file, contents);
    responses, calls := CallAll(image, cfg, client);
    // `do_action( 'hm.aws.rekognition.process', … )` has no modelled effect.
  }

  /** One `if ( $toggle ) { try { … } catch … }` block: what it adds to
      `$responses`, and the call it issues, if any. */
  method CallIfEnabled(c: Capability, image: ImageArgs, cfg: Config, client: Client)
    returns (entry: seq<(Capability, Response)>, call: seq<Request>)
    ensures entry == EntryFor(c, image, cfg, client)
    ensures call == CallFor(c, image, cfg, client.supportsDetectText)
  {
    entry, call := [], [];
    if Enabled(cfg, client.supportsDetectText, c) {
      var response, req := CallCapability(c, image, cfg, client);
      entry, call := [(c, response)], [req];
    }
  }

  /** The guarded calls of one run, in order, all with the same image argument. */
  method CallAll(image: ImageArgs, cfg: Config, client: Client)
    returns (responses: seq<(Capability, Response)>, calls: seq<Request>)
    ensures calls == Requests(image, cfg, client.supportsDetectText)
    ensures responses == Responses(image, cfg, client)
  {
    var l, ql := CallIfEnabled(Labels, image, cfg, client);
    var m, qm := CallIfEnabled(Moderation, image, cfg, client);
    var f, qf := CallIfEnabled(Faces, image, cfg, client);
    var ce, qc := CallIfEnabled(Celebrities, image, cfg, client);
    var t, qt := CallIfEnabled(Text, image, cfg, client);
    responses := l + m + f + ce + t;
    calls := ql + qm + qf + qc + qt;
  }

  lemma {:induction false} LookupAppend(a: seq<(Capability, Response)>, b: seq<(Capability, Response)>, c: Capability)
    ensures Lookup(a + b, c) == if Lookup(a, c).Some? then Lookup(a, c) else Lookup(b, c)
  {
    if a != [] {
      assert (a + b)[0] == a[0];
      assert (a + b)[1..] == a[1..] + b;
      LookupAppend(a[1..], b, c);
    } else {
      assert a + b == b;
    }
  }

  lemma KeysAppend(a: seq<(Capability, Response)>, b: seq<(Capability, Response)>)
    ensures Keys(a + b) == Keys(a) + Keys(b)
  {
    assert forall i :: 0 <= i < |a + b| ==> Keys(a + b)[i] == (Keys(a) + Keys(b))[i];
  }

  ghost predicate StrictlyOrdered(cs: seq<Capability>) {
    forall i, j :: 0 <= i < j < |cs| ==> Ordinal(cs[i]) < Ordinal(cs[j])
  }

  /** The capabilities called are exactly the enabled ones (`text` only when
      the client has `detectText`), each once, in the fixed call order. */
  lemma PlanSpec(cfg: Config, supportsDetectText: bool)
    ensures forall c :: c in Plan(cfg, supportsDetectText) <==> Enabled(cfg, supportsDetectText, c)
    ensures StrictlyOrdered(Plan(cfg, supportsDetectText))
  {
    var p := Plan(cfg, supportsDetectText);
    forall i, j | 0 <= i < j < |p|
      ensures Ordinal(p[i]) < Ordinal(p[j])
    {
      assert p[i] in p && p[j] in p;
    }
  }

  /** The key list of `$responses` is the plan. */
  lemma KeysOfEntry(c: Capability, image: ImageArgs, cfg: Config, client: Client)
    ensures Keys(EntryFor(c, image, cfg, client)) == if Enabled(cfg, client.supportsDetectText, c) then [c] else []
  {
  }

  lemma ResponseKeys(image: ImageArgs, cfg: Config, client: Client)
    ensures Keys(Responses(image, cfg, client)) == Plan(cfg, client.supportsDetectText)
  {
    var l, m, f := EntryFor(Labels, image, cfg, client), EntryFor(Moderation, image, cfg, client), EntryFor(Faces, image, cfg, client);
    var ce, t := EntryFor(Celebrities, image, cfg, client), EntryFor(Text, image, cfg, client);
    KeysAppend(l, m);
    KeysAppend(l + m, f);
    KeysAppend(l + m + f, ce);
    KeysAppend(l + m + f + ce, t);
    KeysOfEntry(Labels, image, cfg, client);
    KeysOfEntry(Moderation, image, cfg, client);
    KeysOfEntry(Faces, image, cfg, client);
    KeysOfEntry(Celebrities, image, cfg, client);
    KeysOfEntry(Text, image, cfg, client);
    assert Keys(Responses(image, cfg, client)) == Keys(l) + Keys(m) + Keys(f) + Keys(ce) + Keys(t);
  }

  /** The value under an enabled key is that capability's own call outcome;
      a disabled capability has no key. */
  lemma ResponseLookup(image: ImageArgs, cfg: Config, client: Client, c: Capability)
    ensures Lookup(Responses(image, cfg, client), c) ==
      if Enabled(cfg, client.supportsDetectText, c) then Some(Dispatch(client, RequestFor(c, image, cfg))) else None
  {
    var l, m, f := EntryFor(Labels, image, cfg, client), EntryFor(Moderation, image, cfg, client), EntryFor(Faces, image, cfg, client);
    var ce, t := EntryFor(Celebrities, image, cfg, client), EntryFor(Text, image, cfg, client);
    LookupAppend(l, m, c);
    LookupAppend(l + m, f, c);
    LookupAppend(l + m + f, ce, c);
    LookupAppend(l + m + f + ce, t, c);
  }

  /** With every filter at its default, only labels are fetched. */
  lemma DefaultFetchesLabelsOnly(image: ImageArgs, client: Client)
    ensures Keys(Responses(image, DefaultConfig, client)) == [Labels]
  {
    ResponseKeys(image, DefaultConfig, client);
  }

  /** The i-th response is the outcome of the i-th call. */
  ghost predicate Paired(client: Client, calls: seq<Request>, entries: seq<(Capability, Response)>) {
    |calls| == |entries|
    && forall i :: 0 <= i < |calls| ==> entries[i] == (CapabilityOf(calls[i]), Dispatch(client, calls[i]))
  }

  lemma PairedAppend(client: Client, c1: seq<Request>, e1: seq<(Capability, Response)>, c2: seq<Request>, e2: seq<(Capability, Response)>)
    requires Paired(client, c1, e1) && Paired(client, c2, e2)
    ensures Paired(client, c1 + c2, e1 + e2)
  {
  }

  /** One capability's call and its entry line up. */
  lemma PairedFor(c: Capability, image: ImageArgs, cfg: Config, client: Client)
    ensures Paired(client, CallFor(c, image, cfg, client.supportsDetectText), EntryFor(c, image, cfg, client))
    ensures forall req :: req in CallFor(c, image, cfg, client.supportsDetectText) ==> req == RequestFor(c, image, cfg)
  {
  }

  /** Every call of a run is given the same image argument; labels and
      moderation ask for `MinConfidence` 80, faces for the configured
      attributes; and the i-th response is the outcome of the i-th call. */
  lemma RequestsUseTheImage(image: ImageArgs, cfg: Config, has: bool)
    ensures forall req :: req in Requests(image, cfg, has) ==>
      && req.image == image
      && (req.DetectLabels? || req.DetectModerationLabels? ==> req.minConfidence == MinConfidence)
      && (req.DetectFaces? ==> req.attributes == cfg.faceAttributes)
  {
  }

  lemma EveryCallUsesTheImage(image: ImageArgs, cfg: Config, client: Client)
    ensures forall req :: req in Requests(image, cfg, client.supportsDetectText) ==>
      && req.image == image
      && (req.DetectLabels? || req.DetectModerationLabels? ==> req.minConfidence == MinConfidence)
      && (req.DetectFaces? ==> req.attributes == cfg.faceAttributes)
    ensures Paired(client, Requests(image, cfg, client.supportsDetectText), Responses(image, cfg, client))
  {
    var has := client.supportsDetectText;
    RequestsUseTheImage(image, cfg, has);
    var l, m, f := EntryFor(Labels, image, cfg, client), EntryFor(Moderation, image, cfg, client), EntryFor(Faces, image, cfg, client);
    var ce, t := EntryFor(Celebrities, image, cfg, client), EntryFor(Text, image, cfg, client);
    var ql, qm, qf := CallFor(Labels, image, cfg, has), CallFor(Moderation, image, cfg, has), CallFor(Faces, image, cfg, has);
    var qc, qt := CallFor(Celebrities, image, cfg, has), CallFor(Text, image, cfg, has);
    PairedFor(Labels, image, cfg, client);
    PairedFor(Moderation, image, cfg, client);
    PairedFor(Faces, image, cfg, client);
    PairedFor(Celebrities, image, cfg, client);
    PairedFor(Text, image, cfg, client);
    PairedAppend(client, ql, l, qm, m);
    PairedAppend(client, ql + qm, l + m, qf, f);
    PairedAppend(client, ql + qm + qf, l + m + f, qc, ce);
    PairedAppend(client, ql + qm + qf + qc, l + m + f + ce, qt, t);
  }

  /** The labels payload is the list of label names, in response order; a
      thrown exception becomes an `aws-error` carrying its message. */
  lemma LabelsOutcome(image: ImageArgs, cfg: Config, client: Client)
    requires cfg.labels
    ensures client.detectLabels(image, MinConfidence).Success? ==>
      var ls := client.detectLabels(image, MinConfidence).value;
      exists ns :: Lookup(Responses(image, cfg, client), Labels) == Some(Ok(Names(ns)))
        && |ns| == |ls| && forall i :: 0 <= i < |ls| ==> ns[i] == ls[i].name
    ensures client.detectLabels(image, MinConfidence).Failure? ==>
      Lookup(Responses(image, cfg, client), Labels)
        == Some(AwsError(AwsErrorCode, client.detectLabels(image, MinConfidence).error))
  {
    ResponseLookup(image, cfg, client, Labels);
  }

  /** An exception in one call never removes or changes another entry: two
      clients that differ in what they return still yield the same key list,
      and the same value wherever their outcomes agree. */
  lemma OutcomesIndependent(image: ImageArgs, cfg: Config, client1: Client, client2: Client, c: Capability)
    requires client1.supportsDetectText == client2.supportsDetectText
    requires Dispatch(client1, RequestFor(c, image, cfg)) == Dispatch(client2, RequestFor(c, image, cfg))
    ensures Keys(Responses(image, cfg, client1)) == Keys(Responses(image, cfg, client2))
    ensures Lookup(Responses(image, cfg, client1), c) == Lookup(Responses(image, cfg, client2), c)
  {
    ResponseKeys(image, cfg, client1);
    ResponseKeys(image, cfg, client2);
    ResponseLookup(image, cfg, client1, c);
    ResponseLookup(image, cfg, client2, c);
  }

  /** Whether a payload has the shape capability `c` stores. */
  predicate Fits(c: Capability, p: Payload) {
    match c
    case Labels => p.Names?
    case Moderation => p.ModerationLabels?
    case Faces => p.FaceDetails?
    case Celebrities => p.CelebrityFaces?
    case Text => p.TextDetections?
  }

  lemma DispatchShape(client: Client, req: Request)
    ensures Dispatch(client, req).Ok? ==> Fits(CapabilityOf(req), Dispatch(client, req).payload)
    ensures Dispatch(client, req).AwsError? ==> Dispatch(client, req).code == AwsErrorCode
  {
  }

  /** Every present key holds either a payload of its own capability's shape
      or an `aws-error`. */
  lemma EveryEntryIsAnOutcome(image: ImageArgs, cfg: Config, client: Client)
    ensures forall e :: e in Responses(image, cfg, client) ==>
      (e.1.Ok? && Fits(e.0, e.1.payload)) || (e.1.AwsError? && e.1.code == AwsErrorCode)
  {
    var d := Responses(image, cfg, client);
    var q := Requests(image, cfg, client.supportsDetectText);
    EveryCallUsesTheImage(image, cfg, client);
    forall e | e in d
      ensures (e.1.Ok? && Fits(e.0, e.1.payload)) || (e.1.AwsError? && e.1.code == AwsErrorCode)
    {
      var i :| 0 <= i < |d| && d[i] == e;
      DispatchShape(client, q[i]);
    }
  }
}
