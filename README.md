# AWS Rekognition for WordPress: the attachment-enrichment path in Dafny

The plugin sends uploaded images to Amazon Rekognition. It stores each
capability's result in the attachment's post meta, tags the attachment with
its labels, and builds a newline-separated keyword blob. The media-library
search then also matches against that blob. This project models that path,
as `inc/namespace.php` implements it, and proves what it does.

| file | module | models |
|---|---|---|
| `trigger.dfy` | `Trigger` | the upload gate that schedules the cron event |
| `image_ref.dfy` | `ImageRef` | the `s3://bucket/path` parse that selects the image argument |
| `capabilities.dfy` | `Capabilities` | the fan-out over labels, moderation, faces, celebrities and text |
| `persistence.dfy` | `Persistence` | the cron job: meta writes, label terms, keyword blob; `get_attachment_labels` |
| `search_query.dfy` | `SearchQuery` | the `posts_clauses` rewrite that joins the keyword blob |
| `php_arrays.dfy` | `PhpArrays` | PHP's `+=` union on lists, `wp_list_pluck`, `array_filter`, `array_unique`, `implode`, line splitting |
| `wrappers.dfy` | `Wrappers` | `Option` and `Result` |

The Rekognition client is an oracle: a record with one total function per
call, each returning either the response records or the exception message,
plus a flag that stands for `method_exists( $client, 'detectText' )`.
The following are inputs:

- the capability toggles and the face attributes that `apply_filters` yields, as a `Config` with the plugin's defaults (labels only, five face attributes);
- the attached file path and its contents;
- the detected image type;
- the clock.

The minimum confidence of 80 for labels and moderation is a constant in the source, and `MinConfidence` is a constant in the model.

WordPress post meta and term relationships are the two maps of a
`PostStore` class. `update_post_meta` sets the value under its key, adding the key when it is absent. `wp_set_object_terms`
in append mode unites the given names with the existing terms.

PHP's array semantics are written out:

- `$k += $r` on lists keeps `k` and adds only `r[|k|..]`;
- `$k[] = x` appends;
- `array_filter` drops `""` and `"0"`;
- `array_unique` keeps first occurrences in order.

The two regular expressions are scanners over strings, proved sound and
complete against a character-level statement of each pattern.

- In `#s3://(?P<bucket>[^/]+)/(?P<path>.*)#` the match is leftmost and unanchored, and `.*` stops at the first newline.
- In the WHERE pattern:
  - the table name is matched literally;
  - the unescaped `.` after it matches any character but a newline;
  - the quoted body is one or more non-quote characters;
  - every leftmost, non-overlapping match is rewritten.

## Model

| member | source | states |
|---|---|---|
| Trigger.OnUpdateAttachmentMetadata | inc/namespace.php:30-38 | `$data` comes back unchanged. Exactly one event `(now, hm_aws_rekognition_update_image, [id])` is scheduled when the detected type is GIF, JPEG, PNG or BMP; none otherwise, including when detection failed. |
| ImageRef.ResolveImage | inc/namespace.php:51-62 | An `S3Object` result has a non-empty, slash-free bucket and is the leftmost match of the s3 pattern in the path. A `Bytes` result carries the file contents, and no match exists anywhere in the path. |
| ImageRef.FindS3Spec | inc/namespace.php:51 | The scanner returns the leftmost match of the s3 pattern, or reports that there is none anywhere. |
| ImageRef.MatchDeterministic | inc/namespace.php:51 | At a given start the pattern matches in at most one way: the bucket runs to the first slash, the path to the first newline. |
| ImageRef.NoSchemeIsLocal | inc/namespace.php:51-62 | A path with no `s3://` anywhere is read from disk as `Bytes`. |
| ImageRef.S3PathExample | inc/namespace.php:51-57 | `s3://mybucket/img.jpg` gives bucket `mybucket` and name `img.jpg`. |
| ImageRef.LocalPathExample | inc/namespace.php:58-61 | A local upload path gives `Bytes` of its contents. |
| Capabilities.CallCapability | inc/namespace.php:76-184 | One guarded call issues the request the source builds for that capability. Its `try`/`catch` leaves either the payload or `aws-error` with the exception message. The outcome is the function `Dispatch`, which models the five `try`/`catch` blocks and is specified by `ResponseLookup`, `LabelsOutcome` and `EveryEntryIsAnOutcome`. |
| Capabilities.FetchDataForAttachment | inc/namespace.php:46-195 | The calls issued are `Requests` and the `$responses` built step by step are `Responses`, for the image argument `ResolveImage` selects. |
| Capabilities.CallIfEnabled | inc/namespace.php:74-184 | One toggle-guarded block adds its entry and its call exactly when its capability is enabled, and nothing otherwise. |
| Capabilities.CallAll | inc/namespace.php:74-184 | The five guarded blocks, run in order, issue the calls `Requests` and build the `$responses` of `Responses`. |
| Capabilities.PlanSpec | inc/namespace.php:74-184 | A capability is called exactly when it is enabled (`text` also needs `detectText`). The calls are made once each, in the fixed order. |
| Capabilities.ResponseKeys | inc/namespace.php:74-184 | The keys of `$responses` are exactly the enabled capabilities, in call order. |
| Capabilities.ResponseLookup | inc/namespace.php:74-184 | The value under an enabled key is that capability's own call outcome. A disabled capability has no key. The outcome is `Dispatch` of that capability's request. |
| Capabilities.DefaultFetchesLabelsOnly | inc/namespace.php:74-172 | With every toggle at its default, only labels are fetched. |
| Capabilities.EveryCallUsesTheImage | inc/namespace.php:76-184 | Every call receives the same image argument. Labels and moderation ask for `MinConfidence` 80, faces for the configured attributes. The i-th response is the outcome of the i-th call. |
| Capabilities.LabelsOutcome | inc/namespace.php:76-87 | A successful labels call stores the label names in response order. A thrown exception stores `aws-error` with its message. |
| Capabilities.EveryEntryIsAnOutcome | inc/namespace.php:83-182 | Every present key holds a payload of its own capability's shape or an `aws-error`. |
| Capabilities.OutcomesIndependent | inc/namespace.php:84-184 | An exception in one call changes no other entry: clients that agree on one capability's outcome yield the same keys and the same value for it. |
| PhpArrays.Pluck | inc/namespace.php:83 | `wp_list_pluck` gives one value per record, in order: the i-th value is the named field of the i-th record. |
| PhpArrays.Plus | inc/namespace.php:216 | `$k += $r` keeps `k` in place and adds only the elements of `r` at positions at or past `|k|`. |
| PhpArrays.FilterFalsy | inc/namespace.php:241 | `array_filter` keeps exactly the non-falsy values and never lengthens the list. |
| PhpArrays.FilterFalsyAppend | inc/namespace.php:241 | Filtering distributes over concatenation, so kept values stay in input order. |
| PhpArrays.Unique | inc/namespace.php:242 | `array_unique` leaves no duplicates and the same set of values. |
| PhpArrays.UniqueKeepsFirstOccurrenceOrder | inc/namespace.php:242 | The survivors appear in the order of their first occurrences. |
| PhpArrays.SplitJoin | inc/namespace.php:254 | `Join`, which models `implode`, applied with `"\n"` to newline-free parts splits back into the same parts. The empty list gives the empty string. |
| Persistence.PostStore.UpdatePostMeta | inc/namespace.php:205 | `update_post_meta` sets one key and leaves terms alone. |
| Persistence.PostStore.SetObjectTerms | inc/namespace.php:215 | `wp_set_object_terms` in append mode unites the names with the existing terms of that attachment and taxonomy. |
| Persistence.AddFaceKeywords | inc/namespace.php:222-230 | The face loop computes `FacesKeywords`: the gender appended, then the emotion types through `+=`. |
| Persistence.StoreResponse | inc/namespace.php:204-238 | One iteration writes the error key for an error, or the data key then the `switch` for a success. The `switch` is `Contribute`. |
| Persistence.RecordResponses | inc/namespace.php:201-254 | The loop and final write leave the meta of `RunMeta` and the terms of `TermsAfter`. |
| Persistence.UpdateAttachmentData | inc/namespace.php:197-255 | The whole job over the fetched responses. |
| Persistence.PostStore.GetPostMeta | inc/namespace.php:258 | `get_post_meta` with `$single = true` gives the value stored under the key, and reports absence exactly when the key is not stored. |
| Persistence.GetAttachmentLabels | inc/namespace.php:257-259 | An absent or falsy labels value reads as `[]`. A truthy stored array is returned as it is. A truthy non-array is refused by the `array` return type, so the read fails. |
| Persistence.KeysDistinct | inc/namespace.php:205-210 | Data keys, error keys and the keywords key never collide, across capabilities or kinds. |
| Persistence.MetaAfterSpec | inc/namespace.php:203-210 | Each response is stored under its own key. Every other key, including a stale key of the other kind, keeps its old value. |
| Persistence.WrittenKeyCount | inc/namespace.php:203-210 | A run writes as many per-type keys as there are responses. |
| Persistence.RunMetaSpec | inc/namespace.php:203-254 | After a run: every response is under its key and the blob under the keywords key. Every other key of the attachment, and every key of other attachments, is as before. |
| Persistence.RunRecordsEachOutcome | inc/namespace.php:203-210 | Each enabled capability's outcome is persisted whatever the others did. The opposite key keeps its stale value. |
| Persistence.RunSkipsDisabled | inc/namespace.php:203-210 | A disabled capability's data and error keys are untouched. |
| Persistence.TermsOnlyFromLabels | inc/namespace.php:214-216 | Terms change only through a successful labels response. The attachment's label terms then become the old ones united with the names. |
| Persistence.RerunIsIdempotent | inc/namespace.php:203-254 | Running again over the same responses leaves meta and terms as they were. |
| Persistence.ContributeExtends | inc/namespace.php:213-238 | `Contribute`, which models the `switch ( $type )`, only appends to the keyword list for each response; what was there stays at its position. |
| Persistence.KeywordsFromSuccesses | inc/namespace.php:203-239 | Every accumulated keyword is a word offered by some successful response. |
| Persistence.ErrorsContributeNothing | inc/namespace.php:204-207 | The keywords are those of the successful responses alone. |
| Persistence.GenderKept | inc/namespace.php:223-225 | Every detected face's gender value ends up among the keywords. |
| Persistence.LabelsLeadKeywords | inc/namespace.php:214-216 | A successful first labels response opens the keyword list with its names, in order. |
| Persistence.BlobIsClean | inc/namespace.php:241-242 | The stored keywords are exactly the non-falsy accumulated ones, without duplicates, in first-occurrence order. |
| Persistence.BlobRoundTrip | inc/namespace.php:254 | Splitting the stored blob at newlines gives the normalised keywords back when no keyword holds a newline. |
| Persistence.LabelsReadBack | inc/namespace.php:257-259 | After a run, `get_attachment_labels` returns a successful call's label names. After a failed labels call it returns what was stored before. |
| Persistence.LabelsBlobExample | inc/namespace.php:241-254 | Labels `Cat`, `Animal` give the blob `Cat\nAnimal`. |
| Persistence.UnionDropsOverlap | inc/namespace.php:216-219 | Label `Cat` followed by moderation `Violence`, `Weapons` gives keywords `Cat`, `Weapons`: the union by key drops `Violence`. |
| SearchQuery.FilterQueryAttachmentKeywords | inc/namespace.php:289-305 | The join gains the keyword LEFT JOIN after the old join. Group-by becomes `posts.ID`. The WHERE clause is rewritten. The other clauses are unchanged. |
| SearchQuery.LikeAtSound | inc/namespace.php:298-302 | The scanner only reports matches of the WHERE pattern. |
| SearchQuery.LikeAtComplete | inc/namespace.php:298-302 | Every match of the pattern is found by the scanner. |
| SearchQuery.LikeAtDeterministic | inc/namespace.php:298-302 | At a given position the pattern matches in at most one way. |
| SearchQuery.OpAndBodyComplete | inc/namespace.php:298-302 | The operator alternation and `[^']+` find every `LIKE`/`NOT LIKE` tail with a quoted body: the body runs to the first quote. |
| SearchQuery.ScanIsLeftmost | inc/namespace.php:298-302 | The rewrite's scan is a leftmost, non-overlapping parse of the clause: text is copied only where no match starts. |
| SearchQuery.LeftmostIsScan | inc/namespace.php:298-302 | That parse is unique. |
| SearchQuery.RewriteOnlyInserts | inc/namespace.php:298-302 | Without the insertions, the rewritten WHERE clause is the original. |
| SearchQuery.NoSearchNoChange | inc/namespace.php:298-302 | A WHERE clause with no `post_content` LIKE test is left as it is. |
| SearchQuery.SingleMatchRewrite | inc/namespace.php:298-302 | A clause that is exactly one LIKE test becomes that test followed by the same test on the keyword blob. |
| SearchQuery.SearchExample | inc/namespace.php:298-302 | `(p.post_content LIKE '%cat%')` gains ` OR ( sq_hm_aws_rekogition_keywords.meta_value LIKE '%cat%' )`. |

## Left out

- `setup` and `attachment_taxonomies`: hook and taxonomy registration and translated strings; they have no behaviour to state.
- `filter_query`, which `setup` registers on `pre_get_posts`, is not part of this model.
- `get_rekognition_client`: SDK construction from global constants. The client is an oracle parameter.
- The provider calls, `get_attached_file`, `file_get_contents`, `exif_imagetype` and `time()` are foreign calls or I/O. The path, the file contents, the detected type and the clock are inputs, and `file_get_contents` failing is a `None` content.
- `wp_schedule_single_event` is an event list returned by the gate. Its refusal of a duplicate event within ten minutes, cron execution and overlapping runs for one attachment are not modelled.
- The `apply_filters` hooks: the capability toggles and the face attributes are `Config` fields with the plugin's defaults. The keywords filter is the identity.
- The `hm.aws.rekognition.process` action has no modelled effect.
- `remove_filter` inside `filter_query_attachment_keywords` is hook bookkeeping, and is not modelled.
- A `preg_replace` failure (a PCRE backtracking or recursion limit), which returns `null`, is not modelled.
- The table names are matched literally in the WHERE pattern. A table prefix holding regular-expression meta-characters is not modelled.
- WordPress's own normalisation of term names (trimming, slugging) is not modelled. Terms are the names as given.
- The provider's response records keep only the fields the plugin reads: names, confidences, gender, emotions and detected text.
- The admin metabox in `inc/admin/namespace.php` (script enqueueing, nonces, HTML output) is not part of this model.
- A success payload whose shape does not fit its capability would contribute no keywords in `StoreResponse`. The fan-out never produces one (`Capabilities.EveryEntryIsAnOutcome`).
- Strings are sequences of Unicode characters, while PHP strings are bytes and neither pattern carries the `u` flag. The two differ only where the WHERE pattern's `.` after the table name meets a multibyte character: PHP's `.` then consumes a single byte and fails, while the model's `.` consumes the whole character and matches. The s3 pattern is unaffected, since no byte of a multibyte UTF-8 character is a slash or a newline.
- `update_post_meta` passes its value through `wp_unslash`, which strips backslashes from strings. The store keeps values as given, so a keyword or error message holding a backslash is stored unchanged in the model.
