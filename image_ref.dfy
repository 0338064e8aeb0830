/**
 * Resolution of the attachment's file path into the `Image` argument of
 * every provider call (`fetch_data_for_attachment`, first step).
 *
 * The source matches `#s3://(?P<bucket>[^/]+)/(?P<path>.*)#` anywhere in
 * the path. Under PCRE's defaults the scan is leftmost, `[^/]+` is the
 * whole run of non-slash characters after the scheme (it must be followed
 * by a slash), and `.` does not match a newline, so the key ends at the
 * first newline or at the end of the string. The scanner below does that.
 */
module ImageRef {
  import opened Wrappers
  import opened PhpArrays

  /** `[ 'S3Object' => [ 'Bucket' => …, 'Name' => … ] ]` or
      `[ 'Bytes' => file_get_contents( $file ) ]`; `None` stands for the
      `false` that `file_get_contents` returns when the read fails. */
  datatype ImageArgs = S3Object(bucket: string, name: string) | Bytes(data: Option<seq<bv8>>)

  datatype S3Match = S3Match(start: nat, bucket: string, path: string)

  const Scheme := "s3://"

  /** Reference definition of a match of the pattern at position `i` with the
      given groups. */
  ghost predicate IsS3MatchAt(s: string, i: int, bucket: string, path: string) {
    var e := i + |Scheme| + |bucket| + 1 + |path|;
    && 0 <= i && e <= |s|
    && s[i..e] == Scheme + bucket + "/" + path
    && |bucket| > 0 && '/' !in bucket
    && '\n' !in path
    && (e == |s| || s[e] == '\n')
  }

  /** The scanner's attempt at position `i`. */
  function MatchAt(s: string, i: nat): Option<S3Match>
    requires i <= |s|
  {
    if i + |Scheme| <= |s| && s[i..i + |Scheme|] == Scheme then
      var j := IndexFrom(s, i + |Scheme|, '/');
      if i + |Scheme| < j < |s| then
        var e := IndexFrom(s, j + 1, '\n');
        Some(S3Match(i, s[i + |Scheme|..j], s[j + 1..e]))
      else None
    else None
  }

  /** The leftmost match at or after position `i`. */
  function FindFrom(s: string, i: nat): Option<S3Match>
    requires i <= |s|
    decreases |s| - i
  {
    if i == |s| then None
    else match MatchAt(s, i)
      case Some(m) => Some(m)
      case None => FindFrom(s, i + 1)
  }

  /** `preg_match` of the s3 pattern against `s`. */
  function FindS3(s: string): Option<S3Match> {
    FindFrom(s, 0)
  }

  /** The pattern's pieces, one by one, at `i`: the scheme, the bucket, a
      slash, and the key up to a newline or the end. */
  ghost predicate PiecesAt(s: string, i: nat, bucket: string, path: string) {
    var b := i + |Scheme|;
    var j := b + |bucket|;
    var e := j + 1 + |path|;
    && e <= |s|
    && s[i..b] == Scheme
    && s[b..j] == bucket && |bucket| > 0 && '/' !in bucket
    && s[j] == '/'
    && s[j + 1..e] == path && '\n' !in path
    && (e == |s| || s[e] == '\n')
  }

  lemma PiecesMakeMatch(s: string, i: nat, bucket: string, path: string)
    requires PiecesAt(s, i, bucket, path)
    ensures IsS3MatchAt(s, i, bucket, path)
  {
    var b := i + |Scheme|;
    var j := b + |bucket|;
    assert s[j..j + 1] == "/";
    SliceJoin(s, i, b, j);
    SliceJoin(s, i, j, j + 1);
    SliceJoin(s, i, j + 1, j + 1 + |path|);
  }

  lemma MatchHasPieces(s: string, i: nat, bucket: string, path: string)
    requires IsS3MatchAt(s, i, bucket, path)
    ensures PiecesAt(s, i, bucket, path)
  {
    var j := i + |Scheme| + |bucket|;
    SliceSplit(s, i, Scheme + bucket + "/", path);
    SliceSplit(s, i, Scheme + bucket, "/");
    SliceSplit(s, i, Scheme, bucket);
    assert s[j] == s[j..j + 1][0];
  }

  /** The scanner accepts the pieces. */
  lemma PiecesFound(s: string, i: nat, bucket: string, path: string)
    requires PiecesAt(s, i, bucket, path)
    ensures MatchAt(s, i) == Some(S3Match(i, bucket, path))
  {
    var b := i + |Scheme|;
    var j := b + |bucket|;
    var e := j + 1 + |path|;
    IndexFromUnique(s, b, '/', j);
    IndexFromUnique(s, j + 1, '\n', e);
    assert i + |Scheme| < j < |s|;
    assert MatchAt(s, i) == Some(S3Match(i, s[b..j], s[j + 1..e]));
  }

  lemma MatchAtSound(s: string, i: nat)
    requires i <= |s| && MatchAt(s, i).Some?
    ensures MatchAt(s, i).value.start == i
    ensures IsS3MatchAt(s, i, MatchAt(s, i).value.bucket, MatchAt(s, i).value.path)
  {
    var j := IndexFrom(s, i + |Scheme|, '/');
    var e := IndexFrom(s, j + 1, '\n');
    var m := MatchAt(s, i).value;
    assert m == S3Match(i, s[i + |Scheme|..j], s[j + 1..e]);
    assert PiecesAt(s, i, m.bucket, m.path);
    PiecesMakeMatch(s, i, m.bucket, m.path);
  }

  lemma MatchAtComplete(s: string, i: nat, bucket: string, path: string)
    requires i <= |s| && IsS3MatchAt(s, i, bucket, path)
    ensures MatchAt(s, i) == Some(S3Match(i, bucket, path))
  {
    MatchHasPieces(s, i, bucket, path);
    PiecesFound(s, i, bucket, path);
  }

  /** The scanner finds exactly the leftmost match of the pattern, and fails
      only when the pattern matches nowhere. */
  lemma {:induction false} FindFromSpec(s: string, i: nat)
    requires i <= |s|
    ensures FindFrom(s, i).Some? ==>
      var m := FindFrom(s, i).value;
      i <= m.start && IsS3MatchAt(s, m.start, m.bucket, m.path)
    ensures forall k, b, p :: i <= k && IsS3MatchAt(s, k, b, p) ==>
      FindFrom(s, i).Some? && FindFrom(s, i).value.start <= k
    decreases |s| - i
  {
    if i < |s| {
      match MatchAt(s, i)
      case Some(m) =>
        MatchAtSound(s, i);
      case None =>
        FindFromSpec(s, i + 1);
        forall b, p | IsS3MatchAt(s, i, b, p)
          ensures false
        {
          MatchAtComplete(s, i, b, p);
        }
    }
  }

  lemma FindS3Spec(s: string)
    ensures FindS3(s).Some? ==>
      var m := FindS3(s).value;
      && IsS3MatchAt(s, m.start, m.bucket, m.path)
      && forall k, b, p :: k < m.start ==> !IsS3MatchAt(s, k, b, p)
    ensures FindS3(s).None? ==> forall k, b, p :: !IsS3MatchAt(s, k, b, p)
  {
    FindFromSpec(s, 0);
  }

  /** At a given position the groups are determined: at most one bucket and
      one key match there. */
  lemma MatchDeterministic(s: string, i: nat, b1: string, p1: string, b2: string, p2: string)
    requires IsS3MatchAt(s, i, b1, p1) && IsS3MatchAt(s, i, b2, p2)
    ensures b1 == b2 && p1 == p2
  {
    MatchAtComplete(s, i, b1, p1);
    MatchAtComplete(s, i, b2, p2);
  }

  /** The image argument built once per run and passed to every capability call. */
  function ResolveImage(file: string, contents: Option<seq<bv8>>): (r: ImageArgs)
    ensures r.S3Object? ==>
      && |r.bucket| > 0 && '/' !in r.bucket
      && exists k :: IsS3MatchAt(file, k, r.bucket, r.name) && forall k', b, p :: k' < k ==> !IsS3MatchAt(file, k', b, p)
    ensures r.Bytes? ==>
      && r.data == contents
      && forall k, b, p :: !IsS3MatchAt(file, k, b, p)
  {
    FindS3Spec(file);
    match FindS3(file)
    case Some(m) => S3Object(m.bucket, m.path)
    case None => Bytes(contents)
  }

  /** `s3://mybucket/img.jpg` names bucket `mybucket`, key `img.jpg`. */
  lemma S3PathExample(contents: Option<seq<bv8>>)
    ensures ResolveImage("s3://mybucket/img.jpg", contents) == S3Object("mybucket", "img.jpg")
  {
    var s := "s3://mybucket/img.jpg";
    assert s == Scheme + "mybucket" + "/" + "img.jpg";
    assert s[0..|s|] == s;
    assert IsS3MatchAt(s, 0, "mybucket", "img.jpg");
    MatchAtComplete(s, 0, "mybucket", "img.jpg");
  }

  predicate SchemeAt(s: string, k: nat) {
    k + |Scheme| <= |s| && s[k..k + |Scheme|] == Scheme
  }

  /** Every match starts with the scheme, which holds a '3'. */
  lemma MatchStartsWithScheme(s: string)
    ensures forall i: nat, b, p :: IsS3MatchAt(s, i, b, p) ==> SchemeAt(s, i)
    ensures forall k: nat :: SchemeAt(s, k) ==> s[k + 1] == '3'
  {
    forall i: nat, b, p | IsS3MatchAt(s, i, b, p)
      ensures SchemeAt(s, i)
    {
      var e := i + |Scheme| + |b| + 1 + |p|;
      assert s[i..e][..|Scheme|] == s[i..i + |Scheme|];
    }
    forall k: nat | SchemeAt(s, k)
      ensures s[k + 1] == '3'
    {
      assert s[k..k + |Scheme|][1] == s[k + 1];
    }
  }

  /** A path in which the scheme `s3://` never occurs is read inline. */
  lemma NoSchemeIsLocal(file: string, contents: Option<seq<bv8>>)
    requires forall k: nat :: !SchemeAt(file, k)
    ensures ResolveImage(file, contents) == Bytes(contents)
  {
    FindS3Spec(file);
    MatchStartsWithScheme(file);
  }

  /** A local path is read inline. */
  lemma LocalPathExample(contents: Option<seq<bv8>>)
    ensures ResolveImage("/srv/uploads/img.jpg", contents) == Bytes(contents)
  {
    var s := "/srv/uploads/img.jpg";
    MatchStartsWithScheme(s);
    assert forall k :: 0 <= k < |s| ==> s[k] != '3';
    NoSchemeIsLocal(s, contents);
  }
}
