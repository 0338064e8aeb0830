/**
 * `update_attachment_data`, the cron job: fetch the responses, then walk
 * them in order, storing each under its own post-meta key, attaching label
 * terms, accumulating search keywords with PHP's array semantics, and
 * finally storing the normalised keyword blob. Also `get_attachment_labels`.
 *
 * WordPress's post-meta table and term relationships are the two maps of a
 * `PostStore`. `update_post_meta` sets the value under its key, adding the
 * key when it is absent; the `wp_unslash` of its value is not modelled.
 * `wp_set_object_terms` with `$append = true` unites the attachment's terms
 * with the given names.
 */
module Persistence {
  import opened Wrappers
  import opened PhpArrays
  import opened ImageRef
  import opened Capabilities

  type Entry = (Capability, Response)

  const MetaPrefix := "hm_aws_rekogition_"
  const ErrorPrefix := "hm_aws_rekogition_error_"
  const KeywordsKey := "hm_aws_rekogition_keywords"
  const LabelsTaxonomy := "rekognition_labels"

  /** The `$type` keys of `$responses`. */
  function TypeName(c: Capability): string {
    match c
    case Labels => "labels"
    case Moderation => "moderation"
    case Faces => "faces"
    case Celebrities => "celebrities"
    case Text => "text"
  }

  /** `hm_aws_rekogition_{$type}`. */
  function DataKey(c: Capability): string {
    MetaPrefix + TypeName(c)
  }

  /** `hm_aws_rekogition_error_{$type}`. */
  function ErrorKey(c: Capability): string {
    ErrorPrefix + TypeName(c)
  }

  /** A stored meta value: a `WP_Error`, a response payload or a string. */
  datatype MetaValue = ErrorValue(code: string, message: string) | PayloadValue(payload: Payload) | TextValue(text: string)

  type Meta = map<(int, string), MetaValue>
  type Terms = map<(int, string), set<string>>

  /** The key one response is stored under: the error key for a `WP_Error`,
      the data key otherwise. */
  function KeyFor(e: Entry): string {
    if e.1.AwsError? then ErrorKey(e.0) else DataKey(e.0)
  }

  function ValueFor(r: Response): MetaValue {
    match r
    case AwsError(code, message) => ErrorValue(code, message)
    case Ok(p) => PayloadValue(p)
  }

  ghost function WrittenKeys(id: int, d: seq<Entry>): set<(int, string)> {
    set i | 0 <= i < |d| :: (id, KeyFor(d[i]))
  }

  ghost predicate DistinctCapabilities(d: seq<Entry>) {
    forall i, j :: 0 <= i < j < |d| ==> d[i].0 != d[j].0
  }

  function Elements(s: seq<string>): set<string> {
    set x | x in s
  }

  function ObjectTerms(terms: Terms, id: int, taxonomy: string): set<string> {
    if (id, taxonomy) in terms then terms[(id, taxonomy)] else {}
  }

  // ---------------------------------------------------------------------
  // What the loop of `update_attachment_data` computes, entry by entry.

  /** The meta store after the per-type writes for the entries of `d`. */
  function MetaAfter(meta: Meta, id: int, d: seq<Entry>): Meta {
    if d == [] then meta
    else MetaAfter(meta, id, d[..|d| - 1])[(id, KeyFor(d[|d| - 1])) := ValueFor(d[|d| - 1].1)]
  }

  /** Only a successful `labels` response touches terms, in append mode. */
  function TermsStep(terms: Terms, id: int, e: Entry): Terms {
    match e
    case (Labels, Ok(Names(names))) =>
      terms[(id, LabelsTaxonomy) := ObjectTerms(terms, id, LabelsTaxonomy) + Elements(names)]
    case _ => terms
  }

  function TermsAfter(terms: Terms, id: int, d: seq<Entry>): Terms {
    if d == [] then terms else TermsStep(TermsAfter(terms, id, d[..|d| - 1]), id, d[|d| - 1])
  }

  /** One face: the gender value is always appended (`$keywords[] =`), the
      emotion types only go through `+=`. Keywords are only ever extended. */
  function FaceStep(k: seq<string>, face: FaceDetail): (r: seq<string>)
    ensures |r| >= |k| && r[..|k|] == k
    ensures face.gender.Some? ==> |r| > |k| && r[|k|] == face.gender.value.value
  {
    var k1 := if face.gender.Some? then k + [face.gender.value.value] else k;
    if face.emotions.Some? then Plus(k1, Pluck(face.emotions.value, EmotionType)) else k1
  }

  function FacesKeywords(k: seq<string>, faces: seq<FaceDetail>): seq<string> {
    if faces == [] then k else FaceStep(FacesKeywords(k, faces[..|faces| - 1]), faces[|faces| - 1])
  }

  /** The `switch ( $type )` of the loop, for the keyword list. */
  function Contribute(k: seq<string>, e: Entry): seq<string> {
    match e
    case (Labels, Ok(Names(names))) => Plus(k, names)
    case (Moderation, Ok(ModerationLabels(ms))) => Plus(k, Pluck(ms, ModerationName))
    case (Faces, Ok(FaceDetails(faces))) => FacesKeywords(k, faces)
    case (Celebrities, Ok(CelebrityFaces(cs))) => Plus(k, Pluck(cs, CelebrityName))
    case (Text, Ok(TextDetections(ts))) => Plus(k, Pluck(ts, DetectedText))
    case _ => k
  }

  /** `$keywords` after the loop. */
  function KeywordsAfter(d: seq<Entry>): seq<string> {
    if d == [] then [] else Contribute(KeywordsAfter(d[..|d| - 1]), d[|d| - 1])
  }

  /** `array_unique( array_filter( $keywords ) )`, the keywords filter taken as identity. */
  function NormalisedKeywords(d: seq<Entry>): seq<string> {
    Unique(FilterFalsy(KeywordsAfter(d)))
  }

  function KeywordBlob(d: seq<Entry>): string {
    Join("\n", NormalisedKeywords(d))
  }

  /** The meta store after a whole run. */
  function RunMeta(meta: Meta, id: int, d: seq<Entry>): Meta {
    MetaAfter(meta, id, d)[(id, KeywordsKey) := TextValue(KeywordBlob(d))]
  }

  // ---------------------------------------------------------------------
  // The store and the job.

  class PostStore {
    var meta: Meta
    var terms: Terms

    constructor ()
      ensures meta == map[] && terms == map[]
    {
      meta := map[];
      terms := map[];
    }

    /** `get_post_meta( $id, $key, true )`, `None` when the key is absent. */
    function GetPostMeta(id: int, key: string): (r: Option<MetaValue>)
      reads this
      ensures r.Some? <==> (id, key) in meta
      ensures r.Some? ==> r.value == meta[(id, key)]
    {
      if (id, key) in meta then Some(meta[(id, key)]) else None
    }

    /** `update_post_meta( $id, $key, $value )`. */
    method UpdatePostMeta(id: int, key: string, value: MetaValue)
      modifies this
      ensures meta == old(meta)[(id, key) := value]
      ensures terms == old(terms)
    {
      meta := meta[(id, key) := value];
    }

    /** `wp_set_object_terms( $id, $names, $taxonomy, $append )`. */
    method SetObjectTerms(id: int, names: seq<string>, taxonomy: string, append: bool)
      modifies this
      ensures terms == old(terms)[(id, taxonomy) :=
        (if append then ObjectTerms(old(terms), id, taxonomy) else {}) + Elements(names)]
      ensures meta == old(meta)
    {
      var existing := if append then ObjectTerms(terms, id, taxonomy) else {};
      terms := terms[(id, taxonomy) := existing + Elements(names)];
    }
  }

  /** The inner `foreach ( $response['FaceDetails'] as $face )`. */
  method AddFaceKeywords(keywords: seq<string>, faces: seq<FaceDetail>) returns (r: seq<string>)
    ensures r == FacesKeywords(keywords, faces)
  {
    r := keywords;
    var j := 0;
    while j < |faces|
      invariant 0 <= j <= |faces|
      invariant r == FacesKeywords(keywords, faces[..j])
    {
      var face := faces[j];
      if face.gender.Some? {
        r := r + [face.gender.value.value];
      }
      if face.emotions.Some? {
        r := Plus(r, Pluck(face.emotions.value, EmotionType));
      }
      assert faces[..j + 1][..j] == faces[..j];
      j := j + 1;
    }
    assert faces[..|faces|] == faces;
  }

  /** One iteration of the `foreach ( $responses as $type => $response )` loop. */
  method StoreResponse(store: PostStore, id: int, e: Entry, keywords: seq<string>) returns (r: seq<string>)
    modifies store
    ensures store.meta == old(store.meta)[(id, KeyFor(e)) := ValueFor(e.1)]
    ensures store.terms == TermsStep(old(store.terms), id, e)
    ensures r == Contribute(keywords, e)
  {
    var t, response := e.0, e.1;
    r := keywords;
    if response.AwsError? {
      store.UpdatePostMeta(id, ErrorKey(t), ErrorValue(response.code, response.message));
      return;
    }
    store.UpdatePostMeta(id, DataKey(t), PayloadValue(response.payload));
    var payload := response.payload;
    match t {
      case Labels =>
        if payload.Names? {
          store.SetObjectTerms(id, payload.names, LabelsTaxonomy, true);
          r := Plus(r, payload.names);
        }
      case Moderation =>
        if payload.ModerationLabels? {
          r := Plus(r, Pluck(payload.moderationLabels, ModerationName));
        }
      case Faces =>
        if payload.FaceDetails? {
          r := AddFaceKeywords(r, payload.faceDetails);
        }
      case Celebrities =>
        if payload.CelebrityFaces? {
          r := Plus(r, Pluck(payload.celebrityFaces, CelebrityName));
        }
      case Text =>
        if payload.TextDetections? {
          r := Plus(r, Pluck(payload.textDetections, DetectedText));
        }
    }
  }

  /** The loop and the keyword write of `update_attachment_data`, for the
      responses `data`. */
  method RecordResponses(store: PostStore, id: int, data: seq<Entry>)
    modifies store
    ensures store.meta == RunMeta(old(store.meta), id, data)
    ensures store.terms == TermsAfter(old(store.terms), id, data)
  {
    var keywords: seq<string> := [];
    var i := 0;
    while i < |data|
      invariant 0 <= i <= |data|
      invariant store.meta == MetaAfter(old(store.meta), id, data[..i])
      invariant store.terms == TermsAfter(old(store.terms), id, data[..i])
      invariant keywords == KeywordsAfter(data[..i])
    {
      assert data[..i + 1][..i] == data[..i];
      keywords := StoreResponse(store, id, data[i], keywords);
      i := i + 1;
    }
    assert data[..|data|] == data;
    keywords := FilterFalsy(keywords);
    keywords := Unique(keywords);
    store.UpdatePostMeta(id, KeywordsKey, TextValue(Join("\n", keywords)));
  }

  /** `update_attachment_data( $id )`: the file path and its contents stand
      for `get_attached_file` and `file_get_contents`. */
  method UpdateAttachmentData(store: PostStore, id: int, file: string, contents: Option<seq<bv8>>, cfg: Config, client: Client)
    modifies store
    ensures store.meta == RunMeta(old(store.meta), id, Responses(ResolveImage(file, contents), cfg, client))
    ensures store.terms == TermsAfter(old(store.terms), id, Responses(ResolveImage(file, contents), cfg, client))
  {
    var data, _ := FetchDataForAttachment(file, contents, cfg, client);
    RecordResponses(store, id, data);
  }

  // ---------------------------------------------------------------------
  // `get_attachment_labels`.

  /** Number of elements of a stored payload array. */
  function PayloadLength(p: Payload): nat {
    match p
    case Names(names) => |names|
    case ModerationLabels(ms) => |ms|
    case FaceDetails(faces) => |faces|
    case CelebrityFaces(cs) => |cs|
    case TextDetections(ts) => |ts|
  }

  /** PHP truthiness of a stored value: an object is truthy, an array when
      non-empty, a string unless it is "" or "0". */
  predicate Truthy(v: MetaValue) {
    match v
    case ErrorValue(_, _) => true
    case PayloadValue(p) => PayloadLength(p) > 0
    case TextValue(t) => !Falsy(t)
  }

  /** The `array` return type refusing a truthy non-array value. */
  const ReturnTypeError := "TypeError"

  /** `get_attachment_labels( $id )`: the stored labels value, `[]` when it
      is absent or falsy. */
  function GetAttachmentLabels(store: PostStore, id: int): (r: Result<Payload, string>)
    reads store
    ensures var k := (id, DataKey(Labels));
      (k !in store.meta || !Truthy(store.meta[k])) ==> r == Success(Names([]))
    ensures var k := (id, DataKey(Labels));
      (k in store.meta && Truthy(store.meta[k]) && store.meta[k].PayloadValue?) ==> r == Success(store.meta[k].payload)
    ensures var k := (id, DataKey(Labels));
      (k in store.meta && Truthy(store.meta[k]) && !store.meta[k].PayloadValue?) ==> r == Failure(ReturnTypeError)
  {
    match store.GetPostMeta(id, DataKey(Labels))
    case None => Success(Names([]))
    case Some(v) =>
      if !Truthy(v) then Success(Names([]))
      else if v.PayloadValue? then Success(v.payload)
      else Failure(ReturnTypeError)
  }

  // ---------------------------------------------------------------------
  // Meta keys.

  /** No two capabilities share a key, a data key is never an error key, and
      neither is the keywords key. */
  lemma KeysDistinct(c: Capability, c': Capability)
    ensures DataKey(c) == DataKey(c') ==> c == c'
    ensures ErrorKey(c) == ErrorKey(c') ==> c == c'
    ensures DataKey(c) != ErrorKey(c')
    ensures DataKey(c) != KeywordsKey && ErrorKey(c) != KeywordsKey
  {
    // The character after the common prefix tells the kinds apart: no type
    // name starts with 'e'.
    assert DataKey(c)[|MetaPrefix|] == TypeName(c)[0];
    assert ErrorKey(c')[|MetaPrefix|] == 'e';
  }

  lemma KeyForInjective(e: Entry, e': Entry)
    ensures KeyFor(e) == KeyFor(e') ==> e.0 == e'.0 && e.1.AwsError? == e'.1.AwsError?
    ensures KeyFor(e) != KeywordsKey
  {
    KeysDistinct(e.0, e'.0);
    KeysDistinct(e'.0, e.0);
  }

  lemma WrittenKeysSnoc(id: int, d: seq<Entry>)
    requires d != []
    ensures WrittenKeys(id, d) == WrittenKeys(id, d[..|d| - 1]) + {(id, KeyFor(d[|d| - 1]))}
  {
    var p := d[..|d| - 1];
    forall k | k in WrittenKeys(id, d)
      ensures k in WrittenKeys(id, p) + {(id, KeyFor(d[|d| - 1]))}
    {
      var i :| 0 <= i < |d| && k == (id, KeyFor(d[i]));
      if i < |p| {
        assert p[i] == d[i];
      }
    }
    forall k | k in WrittenKeys(id, p)
      ensures k in WrittenKeys(id, d)
    {
      var i :| 0 <= i < |p| && k == (id, KeyFor(p[i]));
      assert d[i] == p[i];
    }
  }

  // ---------------------------------------------------------------------
  // What a run leaves in post meta.

  /** Each response lands under its own key with its own value; every other
      key, in particular the stale error key of a capability that now
      succeeded (and the stale data key of one that now failed), keeps its
      old value. */
  lemma {:induction false} MetaAfterSpec(meta: Meta, id: int, d: seq<Entry>)
    requires DistinctCapabilities(d)
    ensures forall i :: 0 <= i < |d| ==>
      (id, KeyFor(d[i])) in MetaAfter(meta, id, d) && MetaAfter(meta, id, d)[(id, KeyFor(d[i]))] == ValueFor(d[i].1)
    ensures forall k :: k !in WrittenKeys(id, d) ==>
      (k in MetaAfter(meta, id, d) <==> k in meta) && (k in meta ==> MetaAfter(meta, id, d)[k] == meta[k])
  {
    MetaAfterWritten(meta, id, d);
    MetaAfterKept(meta, id, d);
  }

  /** The prefix of a run without its last response still has distinct capabilities,
      and the last response's key is not among the prefix's. */
  lemma LastKeyFresh(id: int, d: seq<Entry>)
    requires d != [] && DistinctCapabilities(d)
    ensures DistinctCapabilities(d[..|d| - 1])
    ensures forall i :: 0 <= i < |d| - 1 ==> KeyFor(d[i]) != KeyFor(d[|d| - 1])
  {
    var p, e := d[..|d| - 1], d[|d| - 1];
    assert forall i :: 0 <= i < |p| ==> p[i] == d[i];
    forall i | 0 <= i < |p|
      ensures KeyFor(p[i]) != KeyFor(e)
    {
      KeyForInjective(p[i], e);
    }
  }

  lemma {:induction false} MetaAfterWritten(meta: Meta, id: int, d: seq<Entry>)
    requires DistinctCapabilities(d)
    ensures forall i :: 0 <= i < |d| ==>
      (id, KeyFor(d[i])) in MetaAfter(meta, id, d) && MetaAfter(meta, id, d)[(id, KeyFor(d[i]))] == ValueFor(d[i].1)
  {
    if d != [] {
      var p := d[..|d| - 1];
      LastKeyFresh(id, d);
      MetaAfterWritten(meta, id, p);
      assert forall i :: 0 <= i < |p| ==> p[i] == d[i];
    }
  }

  lemma {:induction false} MetaAfterKept(meta: Meta, id: int, d: seq<Entry>)
    ensures forall k :: k !in WrittenKeys(id, d) ==>
      (k in MetaAfter(meta, id, d) <==> k in meta) && (k in meta ==> MetaAfter(meta, id, d)[k] == meta[k])
  {
    if d != [] {
      MetaAfterKept(meta, id, d[..|d| - 1]);
      WrittenKeysSnoc(id, d);
    }
  }

  /** One key per response: as many per-type keys are written as there are
      responses. */
  lemma {:induction false} WrittenKeyCount(id: int, d: seq<Entry>)
    requires DistinctCapabilities(d)
    ensures |WrittenKeys(id, d)| == |d|
  {
    if d != [] {
      var p, e := d[..|d| - 1], d[|d| - 1];
      assert forall i :: 0 <= i < |p| ==> p[i] == d[i];
      WrittenKeysSnoc(id, d);
      WrittenKeyCount(id, p);
      forall i | 0 <= i < |p|
        ensures KeyFor(p[i]) != KeyFor(e)
      {
        KeyForInjective(p[i], e);
      }
      assert (id, KeyFor(e)) !in WrittenKeys(id, p);
    }
  }

  /** The writes of a run overlay the old store. */
  lemma {:induction false} MetaAfterOverlay(meta: Meta, id: int, d: seq<Entry>)
    ensures MetaAfter(meta, id, d) == meta + MetaAfter(map[], id, d)
  {
    if d != [] {
      MetaAfterOverlay(meta, id, d[..|d| - 1]);
    }
  }

  // ---------------------------------------------------------------------
  // What a run leaves in the label terms.

  /** The names of the successful `labels` response, if there is one. */
  function LabelsPayload(d: seq<Entry>): Option<seq<string>> {
    match Lookup(d, Labels)
    case Some(Ok(Names(names))) => Some(names)
    case _ => None
  }

  lemma LookupAbsent(d: seq<Entry>, c: Capability)
    requires forall i :: 0 <= i < |d| ==> d[i].0 != c
    ensures Lookup(d, c) == None
  {
    if d != [] {
      LookupAbsent(d[1..], c);
    }
  }

  /** Terms change only through a successful `labels` response, and then
      the attachment's label terms become the old ones united with the
      names; other attachments and taxonomies are untouched. */
  lemma {:induction false} TermsOnlyFromLabels(terms: Terms, id: int, d: seq<Entry>)
    requires DistinctCapabilities(d)
    ensures TermsAfter(terms, id, d) ==
      match LabelsPayload(d)
      case None => terms
      case Some(names) => terms[(id, LabelsTaxonomy) := ObjectTerms(terms, id, LabelsTaxonomy) + Elements(names)]
  {
    if d != [] {
      var p, e := d[..|d| - 1], d[|d| - 1];
      assert d == p + [e];
      assert forall i :: 0 <= i < |p| ==> p[i] == d[i];
      TermsOnlyFromLabels(terms, id, p);
      LookupAppend(p, [e], Labels);
      if e.0 == Labels {
        LookupAbsent(p, Labels);
      }
    }
  }

  /** Running the job again over the same responses changes nothing more. */
  lemma RerunIsIdempotent(meta: Meta, terms: Terms, id: int, d: seq<Entry>)
    requires DistinctCapabilities(d)
    ensures RunMeta(RunMeta(meta, id, d), id, d) == RunMeta(meta, id, d)
    ensures TermsAfter(TermsAfter(terms, id, d), id, d) == TermsAfter(terms, id, d)
  {
    MetaRerun(meta, id, d);
    TermsRerun(terms, id, d);
  }

  lemma MetaRerun(meta: Meta, id: int, d: seq<Entry>)
    requires DistinctCapabilities(d)
    ensures RunMeta(RunMeta(meta, id, d), id, d) == RunMeta(meta, id, d)
  {
    MetaAfterOverlay(meta, id, d);
    MetaAfterOverlay(RunMeta(meta, id, d), id, d);
  }

  lemma TermsRerun(terms: Terms, id: int, d: seq<Entry>)
    requires DistinctCapabilities(d)
    ensures TermsAfter(TermsAfter(terms, id, d), id, d) == TermsAfter(terms, id, d)
  {
    TermsOnlyFromLabels(terms, id, d);
    TermsOnlyFromLabels(TermsAfter(terms, id, d), id, d);
  }

  // ---------------------------------------------------------------------
  // What a run accumulates as keywords.

  /** The words the faces of a response offer: each gender value and each
      emotion type. */
  ghost function FaceVocabulary(faces: seq<FaceDetail>): set<string> {
    (set f | f in faces && f.gender.Some? :: f.gender.value.value) +
    (set f, em | f in faces && f.emotions.Some? && em in f.emotions.value :: em.kind)
  }

  /** The words one response offers to the keyword list; a `WP_Error` offers
      none. */
  ghost function Vocabulary(e: Entry): set<string> {
    match e
    case (Labels, Ok(Names(names))) => Elements(names)
    case (Moderation, Ok(ModerationLabels(ms))) => set m | m in ms :: m.name
    case (Faces, Ok(FaceDetails(faces))) => FaceVocabulary(faces)
    case (Celebrities, Ok(CelebrityFaces(cs))) => set c | c in cs :: c.name
    case (Text, Ok(TextDetections(ts))) => set t | t in ts :: t.detectedText
    case _ => {}
  }

  lemma {:induction false} FacesWithin(k: seq<string>, faces: seq<FaceDetail>)
    ensures forall w :: w in FacesKeywords(k, faces) ==> w in k || w in FaceVocabulary(faces)
  {
    if faces != [] {
      var p, f := faces[..|faces| - 1], faces[|faces| - 1];
      FacesWithin(k, p);
      assert forall x :: x in p ==> x in faces;
      var before := FacesKeywords(k, p);
      var k1 := if f.gender.Some? then before + [f.gender.value.value] else before;
      forall w | w in FacesKeywords(k, faces)
        ensures w in k || w in FaceVocabulary(faces)
      {
        if w !in k1 {
          var es := Pluck(f.emotions.value, EmotionType);
          var i :| 0 <= i < |es| && es[i] == w;
          assert f.emotions.value[i] in f.emotions.value;
        } else if w !in before {
          assert w == f.gender.value.value;
        }
      }
    }
  }

  /** Everything one response adds to the list is among the words it offers. */
  lemma ContributeWithin(k: seq<string>, e: Entry)
    ensures forall w :: w in Contribute(k, e) ==> w in k || w in Vocabulary(e)
  {
    match e
    case (Labels, Ok(Names(names))) =>
    case (Moderation, Ok(ModerationLabels(ms))) =>
      forall w | w in Pluck(ms, ModerationName)
        ensures w in Vocabulary(e)
      {
        var i :| 0 <= i < |ms| && Pluck(ms, ModerationName)[i] == w;
        assert ms[i] in ms;
      }
    case (Faces, Ok(FaceDetails(faces))) =>
      FacesWithin(k, faces);
    case (Celebrities, Ok(CelebrityFaces(cs))) =>
      forall w | w in Pluck(cs, CelebrityName)
        ensures w in Vocabulary(e)
      {
        var i :| 0 <= i < |cs| && Pluck(cs, CelebrityName)[i] == w;
        assert cs[i] in cs;
      }
    case (Text, Ok(TextDetections(ts))) =>
      forall w | w in Pluck(ts, DetectedText)
        ensures w in Vocabulary(e)
      {
        var i :| 0 <= i < |ts| && Pluck(ts, DetectedText)[i] == w;
        assert ts[i] in ts;
      }
    case _ =>
  }

  /** Every accumulated keyword comes from some successful response. */
  lemma {:induction false} KeywordsFromSuccesses(d: seq<Entry>)
    ensures forall w :: w in KeywordsAfter(d) ==>
      exists i :: 0 <= i < |d| && d[i].1.Ok? && w in Vocabulary(d[i])
  {
    if d != [] {
      var p, e := d[..|d| - 1], d[|d| - 1];
      KeywordsFromSuccesses(p);
      ContributeWithin(KeywordsAfter(p), e);
      forall w | w in KeywordsAfter(d)
        ensures exists i :: 0 <= i < |d| && d[i].1.Ok? && w in Vocabulary(d[i])
      {
        if w in KeywordsAfter(p) {
          var i :| 0 <= i < |p| && p[i].1.Ok? && w in Vocabulary(p[i]);
          assert d[i] == p[i];
        } else {
          assert w in Vocabulary(d[|d| - 1]);
        }
      }
    }
  }

  /** The successful responses, in order. */
  function Successes(d: seq<Entry>): (r: seq<Entry>)
    ensures forall e :: e in r <==> e in d && e.1.Ok?
  {
    if d == [] then []
    else if d[|d| - 1].1.Ok? then Successes(d[..|d| - 1]) + [d[|d| - 1]]
    else Successes(d[..|d| - 1])
  }

  /** A failed capability contributes nothing: the keywords are those of the
      successful responses alone. */
  lemma {:induction false} ErrorsContributeNothing(d: seq<Entry>)
    ensures KeywordsAfter(d) == KeywordsAfter(Successes(d))
  {
    if d != [] {
      var p, e := d[..|d| - 1], d[|d| - 1];
      ErrorsContributeNothing(p);
      if e.1.Ok? {
        assert (Successes(p) + [e])[..|Successes(p)|] == Successes(p);
      }
    }
  }

  lemma {:induction false} FacesPrefix(k: seq<string>, faces: seq<FaceDetail>, j: nat)
    requires j <= |faces|
    ensures FacesKeywords(k, faces[..j]) <= FacesKeywords(k, faces)
  {
    if j < |faces| {
      var p := faces[..|faces| - 1];
      assert p[..j] == faces[..j];
      FacesPrefix(k, p, j);
    } else {
      assert faces[..j] == faces;
    }
  }

  lemma FacesExtend(k: seq<string>, faces: seq<FaceDetail>)
    ensures k <= FacesKeywords(k, faces)
  {
    FacesPrefix(k, faces, 0);
    assert faces[..0] == [];
  }

  /** A response only ever appends to the keyword list: what is there stays
      there, at the same position. */
  lemma ContributeExtends(k: seq<string>, e: Entry)
    ensures k <= Contribute(k, e)
  {
    if e.0 == Faces && e.1.Ok? && e.1.payload.FaceDetails? {
      FacesExtend(k, e.1.payload.faceDetails);
    }
  }

  lemma {:induction false} KeywordsPrefix(d: seq<Entry>, j: nat)
    requires j <= |d|
    ensures KeywordsAfter(d[..j]) <= KeywordsAfter(d)
  {
    if j < |d| {
      var p := d[..|d| - 1];
      assert p[..j] == d[..j];
      KeywordsPrefix(p, j);
      ContributeExtends(KeywordsAfter(p), d[|d| - 1]);
    } else {
      assert d[..j] == d;
    }
  }

  lemma FacesGenderKept(k: seq<string>, faces: seq<FaceDetail>, f: nat)
    requires f < |faces| && faces[f].gender.Some?
    ensures faces[f].gender.value.value in FacesKeywords(k, faces)
  {
    FacesPrefix(k, faces, f + 1);
    assert faces[..f + 1][..f] == faces[..f];
    var kf := FacesKeywords(k, faces[..f]);
    var r := FacesKeywords(k, faces[..f + 1]);
    assert r == FaceStep(kf, faces[f]);
    assert r[|kf|] == faces[f].gender.value.value;
    assert r[|kf|] == FacesKeywords(k, faces)[|kf|];
  }

  /** The gender of every detected face is kept: it is appended, while the
      other contributions go through the union by key. */
  lemma GenderKept(d: seq<Entry>, i: nat, faces: seq<FaceDetail>, f: nat)
    requires i < |d| && d[i] == (Faces, Ok(FaceDetails(faces)))
    requires f < |faces| && faces[f].gender.Some?
    ensures faces[f].gender.value.value in KeywordsAfter(d)
  {
    var k := KeywordsAfter(d[..i]);
    FacesGenderKept(k, faces, f);
    assert d[..i + 1][..i] == d[..i];
    assert KeywordsAfter(d[..i + 1]) == FacesKeywords(k, faces);
    KeywordsPrefix(d, i + 1);
  }

  /** When the first response is a successful `labels` one, its names open
      the keyword list, in order. */
  lemma LabelsLeadKeywords(d: seq<Entry>, names: seq<string>)
    requires d != [] && d[0] == (Labels, Ok(Names(names)))
    ensures names <= KeywordsAfter(d)
  {
    KeywordsPrefix(d, 1);
    assert d[..1][..0] == [];
  }

  /** The stored blob: non-falsy accumulated keywords, each once, in order of
      first occurrence. */
  lemma BlobIsClean(d: seq<Entry>)
    ensures forall w :: w in NormalisedKeywords(d) <==> w in KeywordsAfter(d) && !Falsy(w)
    ensures NoDuplicates(NormalisedKeywords(d))
    ensures forall i, j :: 0 <= i < j < |NormalisedKeywords(d)| ==>
      FirstIndex(FilterFalsy(KeywordsAfter(d)), NormalisedKeywords(d)[i]) <
      FirstIndex(FilterFalsy(KeywordsAfter(d)), NormalisedKeywords(d)[j])
  {
    UniqueKeepsFirstOccurrenceOrder(FilterFalsy(KeywordsAfter(d)));
  }

  /** One keyword per line: splitting the blob gives the normalised list
      back when no keyword holds a newline. */
  lemma BlobRoundTrip(d: seq<Entry>)
    requires forall w :: w in KeywordsAfter(d) ==> '\n' !in w
    ensures NormalisedKeywords(d) == [] ==> KeywordBlob(d) == ""
    ensures NormalisedKeywords(d) != [] ==> SplitLines(KeywordBlob(d)) == NormalisedKeywords(d)
  {
    var n := NormalisedKeywords(d);
    assert forall i :: 0 <= i < |n| ==> n[i] in n;
    SplitJoin(n);
  }

  // ---------------------------------------------------------------------
  // A whole run over the responses of the fan-out.

  /** `k` holds the same value (or stays absent) from `before` to `after`. */
  ghost predicate Kept(before: Meta, after: Meta, k: (int, string)) {
    (k in after <==> k in before) && (k in before ==> after[k] == before[k])
  }

  lemma ResponsesDistinct(image: ImageArgs, cfg: Config, client: Client)
    ensures DistinctCapabilities(Responses(image, cfg, client))
  {
    var d := Responses(image, cfg, client);
    ResponseKeys(image, cfg, client);
    PlanSpec(cfg, client.supportsDetectText);
    forall i, j | 0 <= i < j < |d|
      ensures d[i].0 != d[j].0
    {
      assert Keys(d)[i] == d[i].0 && Keys(d)[j] == d[j].0;
    }
  }

  lemma LookupFound(d: seq<Entry>, c: Capability)
    requires Lookup(d, c).Some?
    ensures exists i :: 0 <= i < |d| && d[i] == (c, Lookup(d, c).value)
  {
    if d[0].0 != c {
      LookupFound(d[1..], c);
      var i :| 0 <= i < |d[1..]| && d[1..][i] == (c, Lookup(d, c).value);
      assert d[i + 1] == d[1..][i];
    }
  }

  /** The meta store after a run: every response under its own key, the
      blob under the keywords key, every other key of this attachment and
      every key of other attachments as before. */
  lemma RunMetaSpec(meta: Meta, id: int, d: seq<Entry>)
    requires DistinctCapabilities(d)
    ensures forall i :: 0 <= i < |d| ==>
      (id, KeyFor(d[i])) in RunMeta(meta, id, d) && RunMeta(meta, id, d)[(id, KeyFor(d[i]))] == ValueFor(d[i].1)
    ensures (id, KeywordsKey) in RunMeta(meta, id, d) && RunMeta(meta, id, d)[(id, KeywordsKey)] == TextValue(KeywordBlob(d))
    ensures forall k :: k !in WrittenKeys(id, d) && k != (id, KeywordsKey) ==> Kept(meta, RunMeta(meta, id, d), k)
    ensures forall k: (int, string) :: k.0 != id ==> Kept(meta, RunMeta(meta, id, d), k)
  {
    MetaAfterSpec(meta, id, d);
    forall i | 0 <= i < |d|
      ensures KeyFor(d[i]) != KeywordsKey
    {
      KeyForInjective(d[i], d[i]);
    }
  }

  /** The key of the other kind than the one `r` is stored under. */
  function OtherKey(c: Capability, r: Response): string {
    if r.AwsError? then DataKey(c) else ErrorKey(c)
  }

  lemma LookupMissing(d: seq<Entry>, c: Capability)
    requires Lookup(d, c) == None
    ensures forall j :: 0 <= j < |d| ==> d[j].0 != c
  {
    if d != [] {
      LookupMissing(d[1..], c);
      assert forall j :: 1 <= j < |d| ==> d[j] == d[1..][j - 1];
    }
  }

  lemma EntryRecorded(meta: Meta, id: int, d: seq<Entry>, c: Capability, r: Response)
    requires DistinctCapabilities(d) && Lookup(d, c) == Some(r)
    ensures (id, KeyFor((c, r))) in RunMeta(meta, id, d)
    ensures RunMeta(meta, id, d)[(id, KeyFor((c, r)))] == ValueFor(r)
    ensures Kept(meta, RunMeta(meta, id, d), (id, OtherKey(c, r)))
  {
    LookupFound(d, c);
    var i :| 0 <= i < |d| && d[i] == (c, r);
    RunMetaSpec(meta, id, d);
    forall j | 0 <= j < |d|
      ensures KeyFor(d[j]) != OtherKey(c, r)
    {
      if d[j].0 == c {
        assert j == i;
        KeysDistinct(c, c);
      } else {
        KeysDistinct(d[j].0, c);
        KeysDistinct(c, d[j].0);
      }
    }
    KeysDistinct(c, c);
    assert (id, OtherKey(c, r)) !in WrittenKeys(id, d);
    assert KeyFor(d[i]) == KeyFor((c, r));
  }

  lemma AbsentKept(meta: Meta, id: int, d: seq<Entry>, c: Capability)
    requires DistinctCapabilities(d) && Lookup(d, c) == None
    ensures Kept(meta, RunMeta(meta, id, d), (id, DataKey(c)))
    ensures Kept(meta, RunMeta(meta, id, d), (id, ErrorKey(c)))
  {
    LookupMissing(d, c);
    RunMetaSpec(meta, id, d);
    forall j | 0 <= j < |d|
      ensures KeyFor(d[j]) != DataKey(c) && KeyFor(d[j]) != ErrorKey(c)
    {
      KeysDistinct(d[j].0, c);
      KeysDistinct(c, d[j].0);
    }
    KeysDistinct(c, c);
  }

  /** Each enabled capability's outcome is persisted under its key whatever
      the others did; the key of the other kind keeps its stale value. */
  lemma RunRecordsEachOutcome(meta: Meta, id: int, image: ImageArgs, cfg: Config, client: Client, c: Capability)
    requires Enabled(cfg, client.supportsDetectText, c)
    ensures var r := Dispatch(client, RequestFor(c, image, cfg));
      var m := RunMeta(meta, id, Responses(image, cfg, client));
      (id, KeyFor((c, r))) in m && m[(id, KeyFor((c, r)))] == ValueFor(r) && Kept(meta, m, (id, OtherKey(c, r)))
  {
    ResponsesDistinct(image, cfg, client);
    ResponseLookup(image, cfg, client, c);
    EntryRecorded(meta, id, Responses(image, cfg, client), c, Dispatch(client, RequestFor(c, image, cfg)));
  }

  /** A disabled capability's keys are left as they were. */
  lemma RunSkipsDisabled(meta: Meta, id: int, image: ImageArgs, cfg: Config, client: Client, c: Capability)
    requires !Enabled(cfg, client.supportsDetectText, c)
    ensures Kept(meta, RunMeta(meta, id, Responses(image, cfg, client)), (id, DataKey(c)))
    ensures Kept(meta, RunMeta(meta, id, Responses(image, cfg, client)), (id, ErrorKey(c)))
  {
    ResponsesDistinct(image, cfg, client);
    ResponseLookup(image, cfg, client, c);
    AbsentKept(meta, id, Responses(image, cfg, client), c);
  }

  /** After a run, `get_attachment_labels` returns the names of a
      successful labels call; after a failed one it still returns what was
      there before. */
  lemma LabelsReadBack(before: PostStore, after: PostStore, id: int, image: ImageArgs, cfg: Config, client: Client)
    requires cfg.labels
    requires after.meta == RunMeta(before.meta, id, Responses(image, cfg, client))
    ensures client.detectLabels(image, MinConfidence).Success? ==>
      GetAttachmentLabels(after, id) == Success(Names(Pluck(client.detectLabels(image, MinConfidence).value, LabelName)))
    ensures client.detectLabels(image, MinConfidence).Failure? ==>
      GetAttachmentLabels(after, id) == GetAttachmentLabels(before, id)
  {
    RunRecordsEachOutcome(before.meta, id, image, cfg, client, Labels);
  }

  // ---------------------------------------------------------------------
  // Worked examples.

  /** The keywords of a lone labels response are its names. */
  lemma CatAnimalKeywords()
    ensures KeywordsAfter([(Labels, Ok(Names(["Cat", "Animal"])))]) == ["Cat", "Animal"]
  {
    var d := [(Labels, Ok(Names(["Cat", "Animal"])))];
    assert d[..0] == [];
  }

  /** Neither name is falsy, so `array_filter` keeps both. */
  lemma CatAnimalFiltered()
    ensures FilterFalsy(["Cat", "Animal"]) == ["Cat", "Animal"]
  {
    var k := ["Cat", "Animal"];
    assert k[..1] == ["Cat"] && ["Cat"][..0] == [];
  }

  /** The names differ, so `array_unique` keeps both. */
  lemma CatAnimalUnique()
    ensures Unique(["Cat", "Animal"]) == ["Cat", "Animal"]
  {
    var k := ["Cat", "Animal"];
    assert k[..1] == ["Cat"] && ["Cat"][..0] == [];
  }

  /** Labels alone: the normalised keywords are the names. */
  lemma LabelsKeywordsExample()
    ensures NormalisedKeywords([(Labels, Ok(Names(["Cat", "Animal"])))]) == ["Cat", "Animal"]
  {
    CatAnimalKeywords();
    CatAnimalFiltered();
    CatAnimalUnique();
  }

  /** Labels alone: the blob is the names, one per line. */
  lemma LabelsBlobExample()
    ensures KeywordBlob([(Labels, Ok(Names(["Cat", "Animal"])))]) == "Cat" + "\n" + "Animal"
  {
    LabelsKeywordsExample();
    var k := ["Cat", "Animal"];
    assert k[1..] == ["Animal"];
    assert Join("\n", k[1..]) == "Animal";
  }

  /** Label `Cat` then moderation `Violence`, `Weapons`: position 0 is taken. */
  lemma CatWeaponsKeywords(ms: seq<ModerationLabel>)
    requires ms == [ModerationLabel("Violence", 90.0, ""), ModerationLabel("Weapons", 85.0, "Violence")]
    ensures KeywordsAfter([(Labels, Ok(Names(["Cat"]))), (Moderation, Ok(ModerationLabels(ms)))]) == ["Cat", "Weapons"]
  {
    var d := [(Labels, Ok(Names(["Cat"]))), (Moderation, Ok(ModerationLabels(ms)))];
    assert d[..1] == [d[0]] && d[..1][..0] == [];
    assert KeywordsAfter(d[..1]) == ["Cat"];
    assert Pluck(ms, ModerationName) == ["Violence", "Weapons"];
  }

  lemma CatWeaponsNormalised()
    ensures FilterFalsy(["Cat", "Weapons"]) == ["Cat", "Weapons"]
    ensures Unique(["Cat", "Weapons"]) == ["Cat", "Weapons"]
  {
    var k := ["Cat", "Weapons"];
    assert k[..1] == ["Cat"] && ["Cat"][..0] == [];
  }

  /** The union by key: the moderation names at positions already taken by
      label names are dropped, so "Violence" is lost. */
  lemma UnionDropsOverlap()
    ensures NormalisedKeywords([(Labels, Ok(Names(["Cat"]))),
      (Moderation, Ok(ModerationLabels([ModerationLabel("Violence", 90.0, ""), ModerationLabel("Weapons", 85.0, "Violence")])))])
      == ["Cat", "Weapons"]
  {
    CatWeaponsKeywords([ModerationLabel("Violence", 90.0, ""), ModerationLabel("Weapons", 85.0, "Violence")]);
    CatWeaponsNormalised();
  }
}
