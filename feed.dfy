/** The home feed: rows fetched from the posts table turned into posts, the loading
    flag, and the optimistic post shown as soon as the capture form hands over an upload. */
module Feed {
  import opened Wrappers
  import opened Text
  import Capture

  datatype Alignment = Left | Right

  /** A note bubble under a post. */
  datatype Note = Note(id: string, text: string, avatar: string, alignment: Alignment)

  datatype Variant = RatingBadge | FavoriteBadge

  /** A badge label: a rating printed with one decimal (`toFixed(1)`), or literal text. */
  datatype BadgeLabel = OneDecimal(rating: int) | LabelText(text: string)

  datatype Badge = Badge(icon: string, text: BadgeLabel, variant: Variant)

  /** A post date: the creation time in the Vietnamese locale date format, or literal text. */
  datatype DateLabel = LocaleDate(createdAt: string) | DateText(text: string)

  datatype Post = Post(
    id: string, title: string, date: DateLabel, image: Option<string>, badge: Badge, notes: seq<Note>)

  /** A row of the posts table as the select returns it; absent columns are None. */
  datatype PostRow = PostRow(
    id: string,
    title: Option<string>,
    location: Option<string>,
    createdAt: string,
    imageUrl: Option<string>,
    rating: Option<int>,
    note: Option<string>)

  const DefaultTitle: string := "Món ngon"
  const DefaultRatingText: string := "5.0"
  const JustNowDate: string := "Vừa xong"
  const SaveFailedAlert: string := "Đã lưu ảnh nhưng lỗi khi lưu thông tin vào CSDL."
  const NoteAvatar: string := "https://lh3.googleusercontent.com/aida-public/AB6AXuAGeKX9wrracpdA8KSybq-3kGm4BOxaHlU3JEXFgBP89-MfWW7igouTd7oIjpUnRVhZ5lH-VcI_4Ip2ccT1rpO1j0SRaq5KfRzLQ3iSqNxsehBZfDpjs9vylyfLKFvr3b1Lf9ltoZpgKe0oMJx8m4XCOk0N7LnflYVP5jQQ8JsMFQPm7GS9nnvB1vHr9GKsWbVm2MbJIP9dI8xfycYV4ssIhBflC5ksaZlYzS76NUqFbklc2yXIG0VhpNl_Sd3s-bqkiYSLTc9ADiU"

  /** `title || location || "Món ngon"`: never empty. */
  function TitleOf(title: Option<string>, location: Option<string>): (t: string)
    ensures t != []
    ensures Truthy(title) ==> t == title.value
    ensures !Truthy(title) && Truthy(location) ==> t == location.value
    ensures !Truthy(title) && !Truthy(location) ==> t == DefaultTitle
  {
    OrElse(title, OrElse(location, DefaultTitle))
  }

  /** `note ? [{ id, text: note, ... }] : []`: one note with the given id exactly when
      there is a non-empty note text, no note otherwise. */
  function NoteList(id: string, note: Option<string>): (ns: seq<Note>)
    ensures |ns| <= 1
    ensures |ns| == 1 <==> Truthy(note)
    ensures |ns| == 1 ==> ns[0].id == id && ns[0].text == note.value && ns[0].text != []
    ensures |ns| == 1 ==> ns[0].avatar == NoteAvatar && ns[0].alignment == Left
  {
    if Truthy(note) then [Note(id, note.value, NoteAvatar, Left)] else []
  }

  /** The badge of a fetched row: a star with the rating when it is truthy, "5.0" otherwise. */
  function RowBadge(rating: Option<int>): (b: Badge)
    ensures b.icon == "star" && b.variant == RatingBadge
    ensures rating.Some? && rating.value != 0 ==> b.text == OneDecimal(rating.value)
    ensures rating.None? || rating.value == 0 ==> b.text == LabelText(DefaultRatingText)
  {
    Badge("star", if rating.Some? && rating.value != 0 then OneDecimal(rating.value) else LabelText(DefaultRatingText), RatingBadge)
  }

  /** The mapping `fetchPosts` applies to each row. */
  function FormatPost(row: PostRow): (p: Post)
    ensures p.id == row.id && p.image == row.imageUrl && p.date == LocaleDate(row.createdAt)
    ensures p.title == TitleOf(row.title, row.location)
    ensures p.notes == NoteList("note-" + row.id, row.note)
    ensures p.badge == RowBadge(row.rating)
  {
    Post(row.id, TitleOf(row.title, row.location), LocaleDate(row.createdAt), row.imageUrl,
      RowBadge(row.rating), NoteList("note-" + row.id, row.note))
  }

  /** `data.map(...)`: one post per row, in the order the rows came (newest first). */
  function FormatPosts(rows: seq<PostRow>): (ps: seq<Post>)
    ensures |ps| == |rows|
    ensures forall k :: 0 <= k < |rows| ==> ps[k] == FormatPost(rows[k])
  {
    if rows == [] then [] else [FormatPost(rows[0])] + FormatPosts(rows[1..])
  }

  /** Every fetched post keeps its row's id, title fallback and note shape. */
  lemma FormattedFeed(rows: seq<PostRow>, k: nat)
    requires k < |rows|
    ensures var p := FormatPosts(rows)[k];
      p.id == rows[k].id && p.title != []
      && (|p.notes| == 1 <==> Truthy(rows[k].note)) && |p.notes| <= 1
      && (|p.notes| == 1 ==> p.notes[0].id == "note-" + rows[k].id)
      && p.badge.variant == RatingBadge
  {
  }

  // ---------------------------------------------------------------------------
  // The optimistic post

  const TempPrefix: string := "temp-"

  /** `temp-${Date.now()}`. */
  function TempId(now: nat): (id: string)
    ensures |id| > |TempPrefix| && id[..|TempPrefix|] == TempPrefix
    ensures IsDigits(id[|TempPrefix|..])
  {
    TempPrefix + Decimal(now)
  }

  /** Different clock readings give different temporary ids. */
  lemma TempIdsDistinct(a: nat, b: nat)
    requires a != b
    ensures TempId(a) != TempId(b)
  {
    if TempId(a) == TempId(b) {
      assert TempId(a)[|TempPrefix|..] == Decimal(a);
      assert TempId(b)[|TempPrefix|..] == Decimal(b);
      DecimalInjective(a, b);
    }
  }

  /** A temporary id is never an id that does not start with "temp-", such as one the
      store issued. */
  lemma TempIdNotCanonical(now: nat, id: string)
    requires |id| < |TempPrefix| || id[..|TempPrefix|] != TempPrefix
    ensures TempId(now) != id
  {
  }

  /** The post `handleUploadSuccess` shows before anything is saved; `now` and `noteNow`
      are its two separate `Date.now()` readings. */
  function OptimisticPost(data: Capture.UploadData, now: nat, noteNow: nat): (p: Post)
    ensures p.id == TempId(now) && p.image == Some(data.url) && p.date == DateText(JustNowDate)
    ensures p.title == TitleOf(Some(data.dishName), Some(data.location))
    ensures p.badge == Badge("star", OneDecimal(data.rating), RatingBadge)
    ensures p.notes == NoteList("note-temp-" + Decimal(noteNow), Some(data.note))
  {
    Post(TempId(now), TitleOf(Some(data.dishName), Some(data.location)), DateText(JustNowDate),
      Some(data.url), Badge("star", OneDecimal(data.rating), RatingBadge),
      NoteList("note-temp-" + Decimal(noteNow), Some(data.note)))
  }

  /** The row `handleUploadSuccess` inserts. */
  datatype PostInsert = PostInsert(
    title: string, location: string, rating: int, imageUrl: string, note: string,
    latitude: Option<real>, longitude: Option<real>)

  function InsertFor(data: Capture.UploadData): (req: PostInsert)
    ensures req.title == data.dishName && req.location == data.location && req.rating == data.rating
    ensures req.imageUrl == data.url && req.note == data.note
    ensures req.latitude == data.latitude && req.longitude == data.longitude
  {
    PostInsert(data.dishName, data.location, data.rating, data.url, data.note, data.latitude, data.longitude)
  }

  /** A stored row holds what was inserted. */
  predicate Stores(row: PostRow, req: PostInsert) {
    row.title == Some(req.title) && row.location == Some(req.location)
    && row.rating == Some(req.rating) && row.imageUrl == Some(req.imageUrl) && row.note == Some(req.note)
  }

  /** Once the insert is stored, a later fetch shows the same title, picture, badge and
      note text as the optimistic post did (the rating the form gives is never 0); only
      the id, the date and the note's id differ. */
  lemma OptimisticAgreesWithFetch(data: Capture.UploadData, now: nat, noteNow: nat, row: PostRow)
    requires Stores(row, InsertFor(data))
    requires data.rating != 0
    ensures var temp := OptimisticPost(data, now, noteNow);
      var fetched := FormatPost(row);
      temp.title == fetched.title && temp.image == fetched.image && temp.badge == fetched.badge
      && |temp.notes| == |fetched.notes|
      && (forall k :: 0 <= k < |temp.notes| ==> temp.notes[k].text == fetched.notes[k].text)
  {
  }

  // ---------------------------------------------------------------------------
  // The page state

  /** How the posts select settled. */
  datatype FetchResponse = Rows(rows: seq<PostRow>) | NoData | FetchError | FetchThrew

  /** How the posts insert settled. */
  datatype SaveOutcome = Saved | SaveError | SaveThrew

  /** The page's state: the feed, the loading flag, whether the capture view is open, and
      the alerts raised. */
  class Home {
    var feedPosts: seq<Post>
    var loading: bool
    var showCamera: bool
    var alerts: seq<string>

    /** The page as it mounts: an empty feed, loading. */
    constructor ()
      ensures feedPosts == [] && loading && !showCamera && alerts == []
    {
      feedPosts := [];
      loading := true;
      showCamera := false;
      alerts := [];
    }

    /** `fetchPosts` once the select settled: rows replace the feed; an error, a throw or
        no data leave it as it was; the `finally` clears `loading` on every path. */
    method FetchPosts(response: FetchResponse)
      modifies this
      ensures !loading
      ensures feedPosts == if response.Rows? then FormatPosts(response.rows) else old(feedPosts)
      ensures showCamera == old(showCamera) && alerts == old(alerts)
    {
      if response.Rows? {
        feedPosts := FormatPosts(response.rows);
      }
      loading := false;
    }

    /** The footer's camera button. */
    method OpenCamera()
      modifies this
      ensures showCamera
      ensures feedPosts == old(feedPosts) && loading == old(loading) && alerts == old(alerts)
    {
      showCamera := true;
    }

    /** The capture view's close callback. */
    method CloseCamera()
      modifies this
      ensures !showCamera
      ensures feedPosts == old(feedPosts) && loading == old(loading) && alerts == old(alerts)
    {
      showCamera := false;
    }

    /** `handleUploadSuccess`: the optimistic post goes in front of the feed and the
        capture view closes before the insert is sent; whatever the insert does, the
        optimistic post stays. A returned error raises an alert; a throw is only logged.
        The handler is the one created by the render the capture view was given, so the
        feed it prepends to is `seen`, the feed of that render, not the feed as it is
        once the storage upload has finished. */
    method HandleUploadSuccess(data: Capture.UploadData, seen: seq<Post>, now: nat, noteNow: nat,
                               outcome: SaveOutcome)
      returns (request: PostInsert)
      modifies this
      ensures feedPosts == [OptimisticPost(data, now, noteNow)] + seen
      ensures !showCamera && loading == old(loading)
      ensures request == InsertFor(data)
      ensures alerts == old(alerts) + if outcome == SaveError then [SaveFailedAlert] else []
    {
      feedPosts := [OptimisticPost(data, now, noteNow)] + seen;
      showCamera := false;
      request := InsertFor(data);
      if outcome == SaveError {
        alerts := alerts + [SaveFailedAlert];
      }
    }
  }

  // ---------------------------------------------------------------------------
  // Two orders of the mount fetch and an upload

  /** The page mounts and the capture view starts an upload from the first render;
      the mount fetch settles with `rows` while the storage upload is running, and the
      upload then succeeds. The handler prepends to the empty feed of the first
      render, so the fetched posts are gone and only the optimistic post is shown. */
  method FetchSettlesDuringUpload(rows: seq<PostRow>, data: Capture.UploadData, now: nat, noteNow: nat)
    returns (feed: seq<Post>)
    ensures feed == [OptimisticPost(data, now, noteNow)]
    ensures forall k :: 0 <= k < |FormatPosts(rows)| ==> FormatPosts(rows)[k] !in feed
  {
    var home := new Home();
    home.OpenCamera();
    var seen := home.feedPosts;
    home.FetchPosts(Rows(rows));
    var request := home.HandleUploadSuccess(data, seen, now, noteNow, Saved);
    feed := home.feedPosts;
  }

  /** The same, with the mount fetch settled before the capture view opens: the
      optimistic post goes in front of every fetched post. */
  method FetchSettlesBeforeUpload(rows: seq<PostRow>, data: Capture.UploadData, now: nat, noteNow: nat)
    returns (feed: seq<Post>)
    ensures feed == [OptimisticPost(data, now, noteNow)] + FormatPosts(rows)
  {
    var home := new Home();
    home.FetchPosts(Rows(rows));
    home.OpenCamera();
    var seen := home.feedPosts;
    var request := home.HandleUploadSuccess(data, seen, now, noteNow, Saved);
    feed := home.feedPosts;
  }

  /** The mount fetch settles only after the handler has run: the fetch replaces the
      feed with the fetched posts, so the optimistic post disappears. */
  method FetchSettlesAfterUpload(rows: seq<PostRow>, data: Capture.UploadData, now: nat, noteNow: nat)
    returns (feed: seq<Post>)
    ensures feed == FormatPosts(rows)
    ensures OptimisticPost(data, now, noteNow) !in feed
  {
    var home := new Home();
    home.OpenCamera();
    var seen := home.feedPosts;
    var request := home.HandleUploadSuccess(data, seen, now, noteNow, Saved);
    home.FetchPosts(Rows(rows));
    feed := home.feedPosts;
  }
}
