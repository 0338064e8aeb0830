/**
 * `filter_query_attachment_keywords`: the `posts_clauses` filter that makes
 * an attachment search also look at the stored keyword blob. It appends a
 * LEFT JOIN of the post-meta table on the keywords key, groups by post ID,
 * and after every `({posts}.post_content LIKE '…')` (or `NOT LIKE`) in the
 * WHERE clause inserts the same test against the joined keyword value.
 *
 * The regular expression is modelled character by character: the table
 * name is matched literally, the unescaped `.` after it matches any
 * character but a newline, and the quoted body is one or more characters
 * other than a quote. `preg_replace` rewrites every leftmost,
 * non-overlapping match.
 */
module SearchQuery {
  import opened Wrappers
  import Persistence

  /** The clause array handed to `posts_clauses`. */
  datatype Clauses = Clauses(
    where: string, groupby: string, join: string, orderby: string,
    distinct: string, fields: string, limits: string)

  const KeywordsAlias := "sq_hm_aws_rekogition_keywords"

  /** The LEFT JOIN of the keyword blob, keyed on `hm_aws_rekogition_keywords`. */
  function JoinClause(posts: string, postmeta: string): string {
    " LEFT JOIN " + postmeta + " AS " + KeywordsAlias + " ON ( " + posts + ".ID = " + KeywordsAlias +
    ".post_id AND " + KeywordsAlias + ".meta_key = '" + Persistence.KeywordsKey + "' )"
  }

  /** One match of the WHERE pattern: the character the `.` matched, the
      operator (group 1) and the text between the quotes of group 2. */
  datatype LikeMatch = LikeMatch(dot: char, op: string, body: string)

  ghost predicate ValidLike(m: LikeMatch) {
    m.dot != '\n' && (m.op == "LIKE" || m.op == "NOT LIKE") && |m.body| > 0 && '\'' !in m.body
  }

  /** The text a match covers (`$0`). */
  function MatchText(posts: string, m: LikeMatch): string {
    "(" + posts + [m.dot] + "post_content " + m.op + " '" + m.body + "')"
  }

  /** What is inserted after a match: ` OR ( …meta_value $1 $2 )`. */
  function Insertion(m: LikeMatch): string {
    " OR ( " + KeywordsAlias + ".meta_value " + m.op + " '" + m.body + "' )"
  }

  predicate StartsAt(s: string, j: nat, t: string) {
    j + |t| <= |s| && s[j..j + |t|] == t
  }

  /** The pattern matches `s` at `i`, as `m`. */
  ghost predicate IsLikeAt(s: string, i: nat, posts: string, m: LikeMatch) {
    ValidLike(m) && StartsAt(s, i, MatchText(posts, m))
  }

  lemma StartsAtAppend(s: string, i: nat, a: string, b: string)
    ensures StartsAt(s, i, a + b) <==> StartsAt(s, i, a) && StartsAt(s, i + |a|, b)
  {
    if StartsAt(s, i, a + b) {
      assert s[i..i + |a|] == (a + b)[..|a|];
      assert s[i + |a|..i + |a| + |b|] == (a + b)[|a|..];
    }
    if StartsAt(s, i, a) && StartsAt(s, i + |a|, b) {
      assert s[i..i + |a + b|] == s[i..i + |a|] + s[i + |a|..i + |a| + |b|];
    }
  }

  /** The match text, piece by piece: the parenthesis and table name, the
      character the `.` takes, the column, the operator, the quoted body. */
  ghost predicate LikePieces(s: string, i: nat, posts: string, m: LikeMatch) {
    var j := i + 1 + |posts|;
    var k := j + 1 + |"post_content "|;
    var b := k + |m.op| + 2;
    StartsAt(s, i, "(" + posts) && j < |s| && s[j] == m.dot && StartsAt(s, j + 1, "post_content ") &&
    StartsAt(s, k, m.op) && StartsAt(s, k + |m.op|, " '") && StartsAt(s, b, m.body) && StartsAt(s, b + |m.body|, "')")
  }

  lemma MatchParts(s: string, i: nat, posts: string, m: LikeMatch)
    ensures StartsAt(s, i, MatchText(posts, m)) <==> LikePieces(s, i, posts, m)
  {
    var h := "(" + posts;
    var j := i + |h|;
    var t1 := h + [m.dot];
    var t2 := t1 + "post_content ";
    var t3 := t2 + m.op;
    var t4 := t3 + " '";
    var t5 := t4 + m.body;
    assert MatchText(posts, m) == t5 + "')";
    assert |t1| == j + 1 - i && |t2| == |t1| + 13 && |t3| == |t2| + |m.op|;
    assert |t4| == |t3| + 2 && |t5| == |t4| + |m.body|;
    StartsAtAppend(s, i, t5, "')");
    StartsAtAppend(s, i, t4, m.body);
    StartsAtAppend(s, i, t3, " '");
    StartsAtAppend(s, i, t2, m.op);
    StartsAtAppend(s, i, t1, "post_content ");
    StartsAtAppend(s, i, h, [m.dot]);
    assert StartsAt(s, j, [m.dot]) <==> j < |s| && s[j] == m.dot;
  }

  /** The tail of a match from the operator on: `LIKE` or `NOT LIKE`, a
      space, then a non-empty quoted body with no quote inside. */
  ghost predicate OpBodyAt(s: string, k: nat, op: string, body: string) {
    (op == "LIKE" || op == "NOT LIKE") && |body| > 0 && '\'' !in body &&
    StartsAt(s, k, op) && StartsAt(s, k + |op|, " '") && StartsAt(s, k + |op| + 2, body) &&
    StartsAt(s, k + |op| + 2 + |body|, "')")
  }

  /** `[^']*` from `b`: the characters up to the first quote or the end. */
  function BodyFrom(s: string, b: nat): string
    decreases |s| - b
  {
    if b >= |s| || s[b] == '\'' then "" else [s[b]] + BodyFrom(s, b + 1)
  }

  /** The body found lies in `s`, has no quote, and stops at a quote or the end. */
  lemma {:induction false} BodyFromSound(s: string, b: nat)
    requires b <= |s|
    ensures StartsAt(s, b, BodyFrom(s, b)) && '\'' !in BodyFrom(s, b)
    ensures b + |BodyFrom(s, b)| == |s| || s[b + |BodyFrom(s, b)|] == '\''
    decreases |s| - b
  {
    if b < |s| && s[b] != '\'' {
      BodyFromSound(s, b + 1);
      assert s[b..b + 1] == [s[b]];
      StartsAtAppend(s, b, [s[b]], BodyFrom(s, b + 1));
    }
  }

  /** A quote-free stretch that ends at a quote or the end is the body found. */
  lemma {:induction false} BodyFromUnique(s: string, b: nat, body: string)
    requires StartsAt(s, b, body) && '\'' !in body
    requires b + |body| == |s| || s[b + |body|] == '\''
    ensures BodyFrom(s, b) == body
    decreases |body|
  {
    if body != [] {
      assert s[b] == s[b..b + |body|][0];
      assert body == [body[0]] + body[1..];
      StartsAtAppend(s, b, [body[0]], body[1..]);
      BodyFromUnique(s, b + 1, body[1..]);
    }
  }

  /** The operator and the quoted body from `k`. The alternation needs no
      backtracking: the operators start with different letters, and `[^']+`
      can only stop at the first quote. */
  function OpAndBody(s: string, k: nat): Option<(string, string)> {
    var op := if StartsAt(s, k, "NOT LIKE") then "NOT LIKE" else "LIKE";
    if !StartsAt(s, k, op) || !StartsAt(s, k + |op|, " '") then None
    else
      var body := BodyFrom(s, k + |op| + 2);
      if body == "" || !StartsAt(s, k + |op| + 2 + |body|, "')") then None
      else Some((op, body))
  }

  /** Only operator-and-body tails are found. */
  lemma OpAndBodySound(s: string, k: nat)
    ensures OpAndBody(s, k).Some? ==> OpBodyAt(s, k, OpAndBody(s, k).value.0, OpAndBody(s, k).value.1)
  {
    if OpAndBody(s, k).Some? {
      var op := OpAndBody(s, k).value.0;
      BodyFromSound(s, k + |op| + 2);
    }
  }

  /** Every operator-and-body tail is found. */
  lemma OpAndBodyComplete(s: string, k: nat, op: string, body: string)
    requires OpBodyAt(s, k, op, body)
    ensures OpAndBody(s, k) == Some((op, body))
  {
    var b := k + |op| + 2;
    if op == "LIKE" {
      assert s[k] == 'L';
      assert !StartsAt(s, k, "NOT LIKE");
    }
    assert s[b + |body|] == s[b + |body|..b + |body| + 2][0];
    BodyFromUnique(s, b, body);
  }

  /** Try the pattern at `i`. */
  function LikeAt(s: string, i: nat, posts: string): Option<LikeMatch> {
    var j := i + 1 + |posts|;
    if !StartsAt(s, i, "(" + posts) || j >= |s| || s[j] == '\n' || !StartsAt(s, j + 1, "post_content ") then None
    else
      var tail := OpAndBody(s, j + 1 + |"post_content "|);
      if tail.None? then None
      else Some(LikeMatch(s[j], tail.value.0, tail.value.1))
  }

  /** The scanner only reports matches of the pattern. */
  lemma LikeAtSound(s: string, i: nat, posts: string)
    ensures LikeAt(s, i, posts).Some? ==> IsLikeAt(s, i, posts, LikeAt(s, i, posts).value)
  {
    if LikeAt(s, i, posts).Some? {
      OpAndBodySound(s, i + 2 + |posts| + |"post_content "|);
      LikeFound(s, i, posts, LikeAt(s, i, posts).value);
    }
  }

  /** A match is its head, up to the column name, and an operator-and-body tail. */
  lemma LikeFound(s: string, i: nat, posts: string, m: LikeMatch)
    requires var j := i + 1 + |posts|;
      StartsAt(s, i, "(" + posts) && j < |s| && s[j] == m.dot && m.dot != '\n' && StartsAt(s, j + 1, "post_content ")
    requires OpBodyAt(s, i + 2 + |posts| + |"post_content "|, m.op, m.body)
    ensures IsLikeAt(s, i, posts, m)
  {
    assert LikePieces(s, i, posts, m);
    MatchParts(s, i, posts, m);
  }

  /** The scan of `preg_replace`: a character copied, or a match. */
  datatype Segment = Plain(c: char) | Hit(m: LikeMatch)

  function Scan(s: string, i: nat, posts: string): seq<Segment>
    decreases |s| - i, 1
  {
    if i >= |s| then [] else ScanAt(s, i, posts)
  }

  /** One step of the scan inside the text: a match, or one character. */
  function ScanAt(s: string, i: nat, posts: string): seq<Segment>
    requires i < |s|
    decreases |s| - i, 0
  {
    match LikeAt(s, i, posts)
    case Some(m) => [Hit(m)] + Scan(s, i + |MatchText(posts, m)|, posts)
    case None => [Plain(s[i])] + Scan(s, i + 1, posts)
  }

  /** The text the segments stand for. */
  function Flatten(posts: string, segs: seq<Segment>): string {
    if segs == [] then ""
    else match segs[0]
      case Plain(c) => [c] + Flatten(posts, segs[1..])
      case Hit(m) => MatchText(posts, m) + Flatten(posts, segs[1..])
  }

  /** The same, with the replacement `$0 OR ( … )` after every match. */
  function Render(posts: string, segs: seq<Segment>): string {
    if segs == [] then ""
    else match segs[0]
      case Plain(c) => [c] + Render(posts, segs[1..])
      case Hit(m) => MatchText(posts, m) + Insertion(m) + Render(posts, segs[1..])
  }

  function RewriteWhere(where: string, posts: string): string {
    Render(posts, Scan(where, 0, posts))
  }

  /** `filter_query_attachment_keywords( $clauses )`, with `$wpdb->posts`
      and `$wpdb->postmeta` as parameters. */
  function FilterQueryAttachmentKeywords(c: Clauses, posts: string, postmeta: string): (r: Clauses)
    ensures r.join == c.join + JoinClause(posts, postmeta)
    ensures r.groupby == posts + ".ID"
    ensures r.where == RewriteWhere(c.where, posts)
    ensures r.orderby == c.orderby && r.distinct == c.distinct && r.fields == c.fields && r.limits == c.limits
  {
    c.(join := c.join + JoinClause(posts, postmeta), groupby := posts + ".ID", where := RewriteWhere(c.where, posts))
  }

  // ---------------------------------------------------------------------
  // The scanner against the pattern.

  /** The scanner finds every match of the pattern, and only matches. */
  lemma LikeAtComplete(s: string, i: nat, posts: string, m: LikeMatch)
    requires IsLikeAt(s, i, posts, m)
    ensures LikeAt(s, i, posts) == Some(m)
  {
    MatchParts(s, i, posts, m);
    LikePiecesFound(s, i, posts, m);
  }

  /** The scanner accepts the pieces of a match. */
  lemma LikePiecesFound(s: string, i: nat, posts: string, m: LikeMatch)
    requires ValidLike(m) && LikePieces(s, i, posts, m)
    ensures LikeAt(s, i, posts) == Some(m)
  {
    var j := i + 1 + |posts|;
    var k := j + 1 + |"post_content "|;
    assert StartsAt(s, j + 1, "post_content ") && s[j] == m.dot;
    assert OpBodyAt(s, k, m.op, m.body);
    OpAndBodyComplete(s, k, m.op, m.body);
  }

  /** The pattern matches at any position in at most one way. */
  lemma LikeAtDeterministic(s: string, i: nat, posts: string, m: LikeMatch, m': LikeMatch)
    requires IsLikeAt(s, i, posts, m) && IsLikeAt(s, i, posts, m')
    ensures m == m'
  {
    LikeAtComplete(s, i, posts, m);
    LikeAtComplete(s, i, posts, m');
  }

  /** A leftmost, non-overlapping parse of `s[i..]`: a character is copied
      only where no match starts, and after a match the scan resumes at its
      end. */
  ghost predicate Leftmost(s: string, i: nat, posts: string, segs: seq<Segment>)
    decreases segs
  {
    if segs == [] then i == |s|
    else match segs[0]
      case Plain(c) =>
        i < |s| && s[i] == c && (forall m :: !IsLikeAt(s, i, posts, m)) && Leftmost(s, i + 1, posts, segs[1..])
      case Hit(m) =>
        IsLikeAt(s, i, posts, m) && Leftmost(s, i + |MatchText(posts, m)|, posts, segs[1..])
  }

  /** The scan is a leftmost parse. */
  lemma {:induction false} ScanIsLeftmost(s: string, i: nat, posts: string)
    requires i <= |s|
    ensures Leftmost(s, i, posts, Scan(s, i, posts))
    decreases |s| - i
  {
    if i < |s| {
      match LikeAt(s, i, posts)
      case Some(m) =>
        LikeAtSound(s, i, posts);
        ScanHit(s, i, posts, m);
        ScanIsLeftmost(s, i + |MatchText(posts, m)|, posts);
      case None =>
        ScanMiss(s, i, posts);
        forall m | IsLikeAt(s, i, posts, m)
          ensures false
        {
          LikeAtComplete(s, i, posts, m);
        }
        ScanIsLeftmost(s, i + 1, posts);
    }
  }

  /** Where the pattern does not match, the scan copies one character. */
  lemma ScanPlain(s: string, i: nat, posts: string)
    requires i < |s| && forall m :: !IsLikeAt(s, i, posts, m)
    ensures Scan(s, i, posts) == [Plain(s[i])] + Scan(s, i + 1, posts)
  {
    LikeAtSound(s, i, posts);
    ScanMiss(s, i, posts);
  }

  /** Where the scanner finds nothing, the scan copies one character. */
  lemma ScanMiss(s: string, i: nat, posts: string)
    requires i < |s| && LikeAt(s, i, posts) == None
    ensures Scan(s, i, posts) == [Plain(s[i])] + Scan(s, i + 1, posts)
  {
    assert Scan(s, i, posts) == ScanAt(s, i, posts);
  }

  /** Where the scanner matches, the scan takes the match and resumes after it. */
  lemma ScanHit(s: string, i: nat, posts: string, m: LikeMatch)
    requires i < |s| && LikeAt(s, i, posts) == Some(m)
    ensures Scan(s, i, posts) == [Hit(m)] + Scan(s, i + |MatchText(posts, m)|, posts)
  {
    assert Scan(s, i, posts) == ScanAt(s, i, posts);
  }

  /** The head of a leftmost parse that starts with a match. */
  lemma LeftmostHead(s: string, i: nat, posts: string, segs: seq<Segment>)
    requires segs != [] && segs[0].Hit? && Leftmost(s, i, posts, segs)
    ensures IsLikeAt(s, i, posts, segs[0].m)
    ensures Leftmost(s, i + |MatchText(posts, segs[0].m)|, posts, segs[1..])
  {
  }

  /** ... and the only one. */
  lemma {:induction false} LeftmostIsScan(s: string, i: nat, posts: string, segs: seq<Segment>)
    requires Leftmost(s, i, posts, segs)
    ensures segs == Scan(s, i, posts)
    decreases segs
  {
    if segs != [] {
      match segs[0]
      case Plain(c) =>
        ScanPlain(s, i, posts);
        LeftmostIsScan(s, i + 1, posts, segs[1..]);
      case Hit(m) =>
        LeftmostHead(s, i, posts, segs);
        LikeAtComplete(s, i, posts, m);
        ScanHit(s, i, posts, m);
        LeftmostIsScan(s, i + |MatchText(posts, m)|, posts, segs[1..]);
    }
  }

  /** A leftmost parse covers exactly the text it parses. */
  lemma {:induction false} LeftmostCovers(s: string, i: nat, posts: string, segs: seq<Segment>)
    requires Leftmost(s, i, posts, segs)
    ensures i <= |s| && Flatten(posts, segs) == s[i..]
    decreases segs
  {
    if segs != [] {
      match segs[0]
      case Plain(c) =>
        LeftmostCovers(s, i + 1, posts, segs[1..]);
        assert s[i..] == [s[i]] + s[i + 1..];
      case Hit(m) =>
        var n := i + |MatchText(posts, m)|;
        LeftmostCovers(s, n, posts, segs[1..]);
        assert s[i..] == s[i..n] + s[n..];
    }
  }

  /** The rewrite only inserts: its segments, without the insertions, are
      the original WHERE clause. */
  lemma RewriteOnlyInserts(where: string, posts: string)
    ensures Flatten(posts, Scan(where, 0, posts)) == where
  {
    ScanIsLeftmost(where, 0, posts);
    LeftmostCovers(where, 0, posts, Scan(where, 0, posts));
  }

  lemma {:induction false} NoHitsRenderFlat(posts: string, segs: seq<Segment>)
    requires forall n :: 0 <= n < |segs| ==> segs[n].Plain?
    ensures Render(posts, segs) == Flatten(posts, segs)
  {
    if segs != [] {
      NoHitsRenderFlat(posts, segs[1..]);
    }
  }

  lemma {:induction false} ScanWithoutMatches(s: string, i: nat, posts: string)
    requires forall k: nat, m :: !IsLikeAt(s, k, posts, m)
    ensures forall n :: 0 <= n < |Scan(s, i, posts)| ==> Scan(s, i, posts)[n].Plain?
    decreases |s| - i
  {
    if i < |s| {
      ScanPlain(s, i, posts);
      ScanWithoutMatches(s, i + 1, posts);
    }
  }

  /** A WHERE clause without any `post_content` LIKE test is left alone. */
  lemma NoSearchNoChange(where: string, posts: string)
    requires forall k: nat, m :: !IsLikeAt(where, k, posts, m)
    ensures RewriteWhere(where, posts) == where
  {
    ScanWithoutMatches(where, 0, posts);
    NoHitsRenderFlat(posts, Scan(where, 0, posts));
    RewriteOnlyInserts(where, posts);
  }

  /** A WHERE clause that is one LIKE test gains exactly the keyword test after it. */
  lemma SingleMatchRewrite(posts: string, m: LikeMatch)
    requires ValidLike(m)
    ensures RewriteWhere(MatchText(posts, m), posts) == MatchText(posts, m) + Insertion(m)
  {
    var s := MatchText(posts, m);
    assert s[0..|s|] == s;
    LikeAtComplete(s, 0, posts, m);
    ScanHit(s, 0, posts, m);
    assert [Hit(m)][1..] == [];
    assert Render(posts, [Hit(m)]) == s + Insertion(m) + Render(posts, []);
  }

  /** A search term becomes a test on the post content or the keywords. */
  lemma SearchExample()
    ensures RewriteWhere("(p.post_content LIKE '%cat%')", "p") ==
      "(p.post_content LIKE '%cat%')" + (" OR ( " + "sq_hm_aws_rekogition_keywords" + ".meta_value " + "LIKE" + " '" + "%cat%" + "' )")
  {
    var m := LikeMatch('.', "LIKE", "%cat%");
    ExampleText(m);
    SingleMatchRewrite("p", m);
  }

  lemma ExampleText(m: LikeMatch)
    requires m == LikeMatch('.', "LIKE", "%cat%")
    ensures ValidLike(m)
    ensures MatchText("p", m) == "(p.post_content LIKE '%cat%')"
    ensures Insertion(m) == " OR ( " + "sq_hm_aws_rekogition_keywords" + ".meta_value " + "LIKE" + " '" + "%cat%" + "' )"
  {
  }
}
