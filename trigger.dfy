/**
 * The upload gate: `on_update_attachment_metadata`, the
 * `wp_update_attachment_metadata` filter that schedules the enrichment job.
 * `exif_imagetype(get_attached_file($id))` is an input (`None` stands for
 * PHP's `false`); `time()` is the input `now`; the cron scheduler is the
 * list of events one call schedules.
 */
module Trigger {
  import opened Wrappers

  const CronName := "hm_aws_rekognition_update_image"

  /** PHP's IMAGETYPE_GIF, IMAGETYPE_JPEG, IMAGETYPE_PNG and IMAGETYPE_BMP. */
  const ImageTypeGif := 1
  const ImageTypeJpeg := 2
  const ImageTypePng := 3
  const ImageTypeBmp := 6
  const ImageTypes: seq<int> := [ImageTypeGif, ImageTypeJpeg, ImageTypePng, ImageTypeBmp]

  /** One `wp_schedule_single_event( $timestamp, $hook, $args )`. */
  datatype Event = Event(timestamp: int, hook: string, args: seq<int>)

  /** `in_array( $mime, $image_types, true )`: strict comparison, so `false`
      never equals an image type. */
  predicate InArrayStrict(mime: Option<int>, types: seq<int>) {
    match mime
    case None => false
    case Some(t) => exists i :: 0 <= i < |types| && types[i] == t
  }

  /** Reference definition: the four raster formats the provider accepts. */
  predicate IsSupportedImage(mime: Option<int>) {
    mime == Some(1) || mime == Some(2) || mime == Some(3) || mime == Some(6)
  }

  /** Where a supported format sits in `ImageTypes`. */
  function FormatIndex(t: int): nat {
    if t == ImageTypeGif then 0 else if t == ImageTypeJpeg then 1 else if t == ImageTypePng then 2 else 3
  }

  /** Returns the filtered `$data` together with the events the call scheduled. */
  function OnUpdateAttachmentMetadata<T>(data: T, id: int, mime: Option<int>, now: int): (r: (T, seq<Event>))
    ensures r.0 == data
    ensures IsSupportedImage(mime) ==> r.1 == [Event(now, CronName, [id])]
    ensures !IsSupportedImage(mime) ==> r.1 == []
  {
    assert IsSupportedImage(mime) ==> ImageTypes[FormatIndex(mime.value)] == mime.value;
    if !InArrayStrict(mime, ImageTypes) then (data, [])
    else (data, [Event(now, CronName, [id])])
  }
}
