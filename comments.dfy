/** The comment thread of one post, as the comments modal keeps it: the like toggle,
    the two halves of a submit around the awaited insert, the most-liked-first view
    and the relative-time label. */
module Comments {
  import opened Wrappers
  import opened Text

  /** A comment as the modal holds it; `liked` is local state that the store never sends
      (absent until the user first presses the heart). */
  datatype Comment = Comment(
    id: string,
    text: string,
    authorName: string,
    authorAvatar: Option<string>,
    createdAt: string,
    likes: int,
    liked: Option<bool>)

  /** `c.liked` read as a condition: an absent flag counts as not liked. */
  predicate IsLiked(c: Comment) {
    c.liked == Some(true)
  }

  /** The count invariant: a comment the user has liked carries that like in its count. */
  predicate CountConsistent(c: Comment) {
    c.likes >= if IsLiked(c) then 1 else 0
  }

  predicate AllConsistent(cs: seq<Comment>) {
    forall k :: 0 <= k < |cs| ==> CountConsistent(cs[k])
  }

  /** `a` and `b` are the same comment, whatever their like state. */
  predicate SameExceptLike(a: Comment, b: Comment) {
    a.id == b.id && a.text == b.text && a.authorName == b.authorName
    && a.authorAvatar == b.authorAvatar && a.createdAt == b.createdAt
  }

  // ---------------------------------------------------------------------------
  // Like toggle

  /** One press of the heart on `c`, computed from `c` as it is when the press is handled. */
  function ToggleLike(c: Comment): (r: Comment)
    ensures SameExceptLike(c, r) && r.liked.Some?
    ensures IsLiked(r) == !IsLiked(c)
    ensures r.likes == if IsLiked(r) then c.likes + 1 else c.likes - 1
    ensures CountConsistent(c) ==> CountConsistent(r) && r.likes >= 0
  {
    var newLiked := !IsLiked(c);
    c.(liked := Some(newLiked), likes := if newLiked then c.likes + 1 else c.likes - 1)
  }

  /** Two presses on the same comment give back its count and its liked-ness. */
  lemma ToggleTwice(c: Comment)
    ensures var r := ToggleLike(ToggleLike(c));
      SameExceptLike(c, r) && r.likes == c.likes && IsLiked(r) == IsLiked(c)
  {
  }

  /** `n` presses in a row, each reading the state the previous one left. */
  function ToggleTimes(c: Comment, n: nat): Comment {
    if n == 0 then c else ToggleLike(ToggleTimes(c, n - 1))
  }

  /** After any number of presses the count has moved by the net number of likes
      (presses alternate between like and unlike, so the net is 0 or +-1), and a
      consistent count never goes negative. */
  lemma {:induction false} ToggleTimesCount(c: Comment, n: nat)
    ensures var r := ToggleTimes(c, n);
      SameExceptLike(c, r)
      && IsLiked(r) == (IsLiked(c) != (n % 2 == 1))
      && r.likes == c.likes + (if n % 2 == 0 then 0 else if IsLiked(c) then -1 else 1)
      && (CountConsistent(c) ==> CountConsistent(r) && r.likes >= 0)
  {
    if n > 0 {
      ToggleTimesCount(c, n - 1);
    }
  }

  /** The background write a press dispatches: set `likes` of the comment with `id`. */
  datatype LikeUpdate = LikeUpdate(id: string, likes: int)

  /** `prev.map(...)` in the like handler: every comment with the pressed id is toggled,
      every other comment is kept as it is, in the same place. */
  function ToggleById(cs: seq<Comment>, id: string): (r: seq<Comment>)
    ensures |r| == |cs|
    ensures forall k :: 0 <= k < |cs| ==>
      r[k] == if cs[k].id == id then ToggleLike(cs[k]) else cs[k]
    ensures AllConsistent(cs) ==> AllConsistent(r)
  {
    if cs == [] then []
    else [if cs[0].id == id then ToggleLike(cs[0]) else cs[0]] + ToggleById(cs[1..], id)
  }

  /** The writes the same `map` dispatches, one per toggled comment, in list order. */
  function LikeUpdates(cs: seq<Comment>, id: string): (us: seq<LikeUpdate>)
    ensures |us| <= |cs|
    ensures forall k :: 0 <= k < |us| ==> us[k].id == id
    ensures us == [] <==> forall k :: 0 <= k < |cs| ==> cs[k].id != id
  {
    if cs == [] then []
    else
      var here := if cs[0].id == id then [LikeUpdate(id, ToggleLike(cs[0]).likes)] else [];
      here + LikeUpdates(cs[1..], id)
  }

  predicate UniqueIds(cs: seq<Comment>) {
    forall i, j :: 0 <= i < j < |cs| ==> cs[i].id != cs[j].id
  }

  /** Pressing an id no comment has changes nothing and writes nothing. */
  lemma {:induction false} AbsentIdNoChange(cs: seq<Comment>, id: string)
    requires forall k :: 0 <= k < |cs| ==> cs[k].id != id
    ensures ToggleById(cs, id) == cs && LikeUpdates(cs, id) == []
  {
    if cs != [] {
      AbsentIdNoChange(cs[1..], id);
    }
  }

  /** With unique ids, pressing a present comment dispatches exactly one write, and it
      carries the new local count of that comment. */
  lemma {:induction false} UpdateCarriesNewCount(cs: seq<Comment>, id: string, k: nat)
    requires UniqueIds(cs) && k < |cs| && cs[k].id == id
    ensures LikeUpdates(cs, id) == [LikeUpdate(id, ToggleById(cs, id)[k].likes)]
  {
    if k == 0 {
      AbsentIdNoChange(cs[1..], id);
    } else {
      UpdateCarriesNewCount(cs[1..], id, k - 1);
      assert ToggleById(cs[1..], id)[k - 1] == ToggleById(cs, id)[k];
    }
  }

  /** Two presses on the same id give every comment back its count and liked-ness. */
  lemma ToggleByIdTwice(cs: seq<Comment>, id: string)
    ensures var r := ToggleById(ToggleById(cs, id), id);
      |r| == |cs|
      && forall k :: 0 <= k < |cs| ==>
        SameExceptLike(cs[k], r[k]) && r[k].likes == cs[k].likes && IsLiked(r[k]) == IsLiked(cs[k])
  {
    forall k | 0 <= k < |cs| {
      ToggleTwice(cs[k]);
    }
  }

  // ---------------------------------------------------------------------------
  // Most-liked-first view

  predicate SortedByLikes(s: seq<Comment>) {
    forall i, j :: 0 <= i < j < |s| ==> s[i].likes >= s[j].likes
  }

  /** The comments of `s` whose count is `v`, in the order of `s`. */
  function WithLikes(s: seq<Comment>, v: int): seq<Comment> {
    if s == [] then [] else (if s[0].likes == v then [s[0]] else []) + WithLikes(s[1..], v)
  }

  /** Puts `c` into a sorted `s` ahead of the first comment with no more likes than `c`. */
  function InsertByLikes(c: Comment, s: seq<Comment>): (r: seq<Comment>)
    requires SortedByLikes(s)
    ensures SortedByLikes(r)
    ensures |r| == |s| + 1 && multiset(r) == multiset(s) + multiset{c}
    ensures r[0] == c || (s != [] && r[0] == s[0])
  {
    if s == [] || s[0].likes <= c.likes then [c] + s
    else
      var rest := InsertByLikes(c, s[1..]);
      assert s == [s[0]] + s[1..];
      [s[0]] + rest
  }

  /** `[...localComments].sort((a, b) => b.likes - a.likes)` with the stable sort
      JavaScript engines use: a copy, most likes first. */
  function SortByLikes(cs: seq<Comment>): (r: seq<Comment>)
    ensures SortedByLikes(r)
    ensures |r| == |cs| && multiset(r) == multiset(cs)
  {
    if cs == [] then []
    else
      assert cs == [cs[0]] + cs[1..];
      InsertByLikes(cs[0], SortByLikes(cs[1..]))
  }

  lemma {:induction false} InsertKeepsTies(c: Comment, s: seq<Comment>, v: int)
    requires SortedByLikes(s)
    ensures WithLikes(InsertByLikes(c, s), v)
      == if c.likes == v then [c] + WithLikes(s, v) else WithLikes(s, v)
  {
    if s == [] || s[0].likes <= c.likes {
      assert ([c] + s)[1..] == s;
    } else {
      InsertKeepsTies(c, s[1..], v);
      assert ([s[0]] + InsertByLikes(c, s[1..]))[1..] == InsertByLikes(c, s[1..]);
    }
  }

  /** The sort is stable: comments with equal counts keep their relative order. Together
      with SortedByLikes this fixes the view uniquely. */
  lemma {:induction false} SortKeepsTies(cs: seq<Comment>, v: int)
    ensures WithLikes(SortByLikes(cs), v) == WithLikes(cs, v)
  {
    if cs != [] {
      SortKeepsTies(cs[1..], v);
      InsertKeepsTies(cs[0], SortByLikes(cs[1..]), v);
    }
  }

  // ---------------------------------------------------------------------------
  // Relative time

  const MinuteMs: int := 60000
  const HourMs: int := 60 * MinuteMs
  const DayMs: int := 24 * HourMs

  /** How long ago a comment was written, as the modal rounds it. */
  datatype Elapsed = JustNow | Minutes(n: nat) | Hours(n: nat) | Days(n: nat)

  /** The bucket `timeAgo` picks for a difference of `diff` milliseconds between now and
      the comment's creation time. Each `Math.floor` is Dafny's `/` here: the divisors
      are positive, so both round down, negative differences included. */
  function TimeAgoBucket(diff: int): (e: Elapsed)
    ensures e.JustNow? <==> diff < MinuteMs
    ensures e.Minutes? <==> MinuteMs <= diff < HourMs
    ensures e.Hours? <==> HourMs <= diff < DayMs
    ensures e.Days? <==> DayMs <= diff
    ensures e.Minutes? ==> e.n * MinuteMs <= diff < (e.n + 1) * MinuteMs
    ensures e.Hours? ==> e.n * HourMs <= diff < (e.n + 1) * HourMs
    ensures e.Days? ==> e.n * DayMs <= diff < (e.n + 1) * DayMs
  {
    var mins := diff / 60000;
    if mins < 1 then JustNow
    else if mins < 60 then Minutes(mins)
    else
      var hours := mins / 60;
      if hours < 24 then Hours(hours)
      else Days(hours / 24)
  }

  /** Flooring to minutes and then to hours is flooring to hours, and likewise for days. */
  lemma NestedFloor(diff: int)
    ensures diff / MinuteMs / 60 == diff / HourMs
    ensures diff / MinuteMs / 60 / 24 == diff / DayMs
  {
    var m := diff / MinuteMs;
    var h := m / 60;
    assert h * HourMs <= diff < (h + 1) * HourMs;
    var d := h / 24;
    assert d * DayMs <= diff < (d + 1) * DayMs;
  }

  /** The label `timeAgo` shows. */
  function TimeAgo(diff: int): (shown: string)
    ensures shown == "vừa xong" <==> diff < MinuteMs
    ensures MinuteMs <= diff < HourMs ==> shown == Decimal(diff / MinuteMs) + " phút"
    ensures HourMs <= diff < DayMs ==> shown == Decimal(diff / HourMs) + " giờ"
    ensures DayMs <= diff ==> shown == Decimal(diff / DayMs) + " ngày"
  {
    NestedFloor(diff);
    match TimeAgoBucket(diff)
    case JustNow => "vừa xong"
    case Minutes(m) => var t := Decimal(m) + " phút"; assert t[0] == Decimal(m)[0]; t
    case Hours(h) => var t := Decimal(h) + " giờ"; assert t[0] == Decimal(h)[0]; t
    case Days(d) => var t := Decimal(d) + " ngày"; assert t[0] == Decimal(d)[0]; t
  }

  // ---------------------------------------------------------------------------
  // Submitting a comment

  const AnonymousName: string := "Ẩn danh"

  /** The row sent by `insert(...)`. */
  datatype CommentInsert = CommentInsert(
    postId: string, text: string, authorName: string, authorAvatar: Option<string>, likes: int)

  /** The row the store sends back from `.select().single()`. */
  datatype CommentRow = CommentRow(
    id: string, text: string, authorName: Option<string>, authorAvatar: Option<string>,
    createdAt: string)

  /** How the awaited insert settled: a row, no row and no error, an error, or a throw
      (which leaves the handler after its `finally`). */
  datatype InsertOutcome = Inserted(row: CommentRow) | NoRow | InsertError | Threw

  /** The insert request for the typed text. */
  function InsertRequest(postId: string, typed: string, userName: string, userAvatar: Option<string>)
    : (req: CommentInsert)
    ensures req.postId == postId && req.authorName == userName && req.likes == 0
    ensures req.text == Trim(typed)
    ensures req.authorAvatar == if Truthy(userAvatar) then userAvatar else None
  {
    CommentInsert(postId, Trim(typed), userName, if Truthy(userAvatar) then userAvatar else None, 0)
  }

  /** The comment appended for the row the store returned. */
  function AddedComment(row: CommentRow, userAvatar: Option<string>): (c: Comment)
    ensures c.id == row.id && c.text == row.text && c.createdAt == row.createdAt
    ensures c.authorName == (if Truthy(row.authorName) then row.authorName.value else AnonymousName)
    ensures c.likes == 0 && c.liked == Some(false) && CountConsistent(c)
    ensures c.authorAvatar == if Truthy(row.authorAvatar) then row.authorAvatar else userAvatar
  {
    Comment(row.id, row.text, OrElse(row.authorName, AnonymousName),
      if Truthy(row.authorAvatar) then row.authorAvatar else userAvatar,
      row.createdAt, 0, Some(false))
  }

  /** The store gives back the text and author that were inserted. */
  predicate Echoes(row: CommentRow, req: CommentInsert) {
    row.text == req.text && row.authorName == Some(req.authorName)
  }

  /** When the store echoes the request, the appended comment holds the trimmed, non-blank
      text, the user's name or "Ẩn danh" when it is empty, no likes and no like of ours. */
  lemma SubmittedComment(postId: string, typed: string, userName: string,
                         userAvatar: Option<string>, row: CommentRow)
    requires !IsBlank(typed)
    requires Echoes(row, InsertRequest(postId, typed, userName, userAvatar))
    ensures var c := AddedComment(row, userAvatar);
      c.text == Trim(typed) && c.text != [] && !IsSpace(c.text[0])
      && c.authorName == (if userName == [] then AnonymousName else userName)
      && c.likes == 0 && !IsLiked(c)
  {
  }

  /** The modal's state: the local copy of the thread, the input box and the in-flight flag. */
  class CommentThread {
    const postId: string
    const userName: string
    const userAvatar: Option<string>
    var localComments: seq<Comment>
    var newComment: string
    var submitting: bool

    /** Opening the modal on the post's current comments. */
    constructor (postId: string, comments: seq<Comment>, userName: string, userAvatar: Option<string>)
      ensures this.postId == postId && this.userName == userName && this.userAvatar == userAvatar
      ensures localComments == comments && newComment == [] && !submitting
    {
      this.postId := postId;
      this.userName := userName;
      this.userAvatar := userAvatar;
      localComments := comments;
      newComment := [];
      submitting := false;
    }

    /** Typing into the input box. */
    method Type(text: string)
      modifies this
      ensures newComment == text
      ensures localComments == old(localComments) && submitting == old(submitting)
    {
      newComment := text;
    }

    /** `handleLikeComment(commentId)`: toggles the comment with that id in the current
        list and returns the background writes it dispatches. */
    method HandleLikeComment(commentId: string) returns (updates: seq<LikeUpdate>)
      modifies this
      ensures localComments == ToggleById(old(localComments), commentId)
      ensures updates == LikeUpdates(old(localComments), commentId)
      ensures AllConsistent(old(localComments)) ==> AllConsistent(localComments)
      ensures newComment == old(newComment) && submitting == old(submitting)
    {
      updates := LikeUpdates(localComments, commentId);
      localComments := ToggleById(localComments, commentId);
    }

    /** `handleSubmit` up to the awaited insert: blank text returns at once with nothing
        sent; otherwise `submitting` is raised and the insert request is returned. */
    method BeginSubmit() returns (request: Option<CommentInsert>)
      modifies this
      ensures IsBlank(old(newComment)) ==> request == None && submitting == old(submitting)
      ensures !IsBlank(old(newComment)) ==>
        request == Some(InsertRequest(postId, old(newComment), userName, userAvatar)) && submitting
      ensures localComments == old(localComments) && newComment == old(newComment)
    {
      if IsBlank(newComment) {
        return None;
      }
      submitting := true;
      request := Some(InsertRequest(postId, newComment, userName, userAvatar));
    }

    /** `handleSubmit` after the insert settled: a returned row is appended and the input
        cleared; an error, a throw or a missing row keeps both list and input; the
        `finally` lowers `submitting` on every path. */
    method FinishSubmit(outcome: InsertOutcome)
      modifies this
      ensures !submitting
      ensures outcome.Inserted? ==>
        localComments == old(localComments) + [AddedComment(outcome.row, userAvatar)] && newComment == []
      ensures !outcome.Inserted? ==>
        localComments == old(localComments) && newComment == old(newComment)
      ensures AllConsistent(old(localComments)) ==> AllConsistent(localComments)
    {
      if outcome.Inserted? {
        localComments := localComments + [AddedComment(outcome.row, userAvatar)];
        newComment := [];
      }
      submitting := false;
    }

    /** The send button's `disabled`: a submit is in flight or the text is blank. The
        Enter key calls `handleSubmit` without consulting it. */
    predicate SubmitDisabled()
      reads this
      ensures SubmitDisabled() <==>
        submitting || forall k :: 0 <= k < |newComment| ==> IsSpace(newComment[k])
    {
      submitting || IsBlank(newComment)
    }

    /** `sortedComments`: a sorted copy; the stored list is left as it is. */
    function SortedComments(): (r: seq<Comment>)
      reads this
      ensures SortedByLikes(r) && multiset(r) == multiset(localComments)
      ensures forall v :: WithLikes(r, v) == WithLikes(localComments, v)
    {
      var r := SortByLikes(localComments);
      forall v ensures WithLikes(r, v) == WithLikes(localComments, v) {
        SortKeepsTies(localComments, v);
      }
      r
    }

    /** `handleClose`: hands the post id and the local thread to the parent. */
    method HandleClose() returns (id: string, comments: seq<Comment>)
      ensures id == postId && comments == localComments
    {
      id, comments := postId, localComments;
    }
  }
}
