/** The repository layer of TTRssDataSource as pure functions: the requests
    it sends, the decoding of feed and article entries (with the lenient
    number-or-string reading of counts and ids), the icon and content rules,
    and the lookup of a feed by id. */
module Repository {
  import opened Json
  import opened Numbers

  /** The icon used when a feed has none of its own. */
  const Placeholder := "Assets/DarkGray.png"

  /** Style sheet put in front of every article body: white text in the
      Windows system font. */
  const Head := "<head><style type=\"text/css\">*{color:white;} body{font-family:\"Segoe UI\"}</style></head>"

  /** RssArticle.RssArticleFlag; the wire value is the enum's integer. */
  datatype Flag = Starred | Published | Read {
    function Wire(): int {
      match this
      case Starred => 0
      case Published => 1
      case Read => 2
    }
  }

  /** The flag a wire value stands for, if any. */
  function FlagOfWire(n: int): (f: Option<Flag>)
    ensures f.Some? <==> 0 <= n <= 2
    ensures f.Some? ==> f.value.Wire() == n
  {
    if n == 0 then Some(Starred) else if n == 1 then Some(Published) else if n == 2 then Some(Read) else None
  }

  /** The fields of an RssFeed, as its constructor receives them. */
  datatype FeedInfo = FeedInfo(id: int, title: string, subtitle: string, imagePath: string)

  /** The fields of an RssArticle, as its constructor receives them. */
  datatype ArticleInfo = ArticleInfo(
    id: int, title: string, subtitle: string, imagePath: string,
    content: string, isRead: bool, link: string)

  // The requests of the four public operations.

  function FeedsRequest(): Object {
    map["op" := JString("getFeeds"), "cat_id" := JNumber(-4)]
  }

  function HeadlinesRequest(feedId: int): Object {
    map["op" := JString("getHeadlines"), "feed_id" := JNumber(feedId), "show_content" := JBool(true)]
  }

  function ArticleRequest(articleId: int): Object {
    map["op" := JString("getArticle"), "article_id" := JNumber(articleId)]
  }

  function ToggleRequest(articleId: int, flag: Flag): Object {
    map["op" := JString("updateArticle"), "article_ids" := JNumber(articleId),
        "mode" := JNumber(2), "field" := JNumber(flag.Wire())]
  }

  /** Reads an updateArticle toggle request back: its article id and flag. */
  function ParseToggle(request: Object): Option<(int, Flag)> {
    if request.Keys == {"op", "article_ids", "mode", "field"}
       && request["op"] == JString("updateArticle") && request["mode"] == JNumber(2)
       && request["article_ids"].JNumber? && request["field"].JNumber?
       && FlagOfWire(request["field"].n).Some?
    then Some((request["article_ids"].n, FlagOfWire(request["field"].n).value))
    else None
  }

  /** The "content" array of a successful response. */
  function ContentArray(response: Result<Object>): Result<seq<Json>> {
    var fields :- response;
    GetNamedArray(fields, "content")
  }

  /** The icon of a feed that has one: base URI, "/feed-icons/", id, ".ico". */
  function IconUri(baseUri: string, id: int): string {
    baseUri + "/feed-icons/" + IntToString(id) + ".ico"
  }

  /** The number-or-string reading of "unread" and "feed_id": a number is
      taken as it is, a string goes through int.Parse, any other value
      stands for -1. */
  function LenientInt(v: Json): Result<int> {
    match v
    case JNumber(n) => Success(n)
    case JString(s) => ParseInt(s)
    case _ => Success(-1)
  }

  /** The subtitle of a feed: "<n> unread", or "" when the count reads as -1. */
  function UnreadText(unread: Json): Result<string> {
    var n :- LenientInt(unread);
    Success(if n != -1 then IntToString(n) + " unread" else "")
  }

  /** The article body as displayed: the style sheet, then the server's HTML
      inside a body element. */
  function WrapContent(html: string): string {
    Head + "<body>" + html + "</body>"
  }

  /** One entry of getFeeds, in the order GetGroupsAsync reads its fields. */
  function DecodeFeed(baseUri: string, entry: Json): Result<FeedInfo> {
    var feed :- AsObject(entry);
    var hasIcon :- GetNamedBooleanOr(feed, "has_icon", false);
    var imageUri :-
      if hasIcon then
        var id :- GetNamedNumber(feed, "id");
        Success(IconUri(baseUri, id))
      else
        Success(Placeholder);
    var unread :- GetNamedValue(feed, "unread");
    var unreadText :- UnreadText(unread);
    var id :- GetNamedNumber(feed, "id");
    var title :- GetNamedString(feed, "title");
    Success(FeedInfo(id, title, unreadText, imageUri))
  }

  /** The position of the first feed with the given id: what
      Where(...).First() picks out. */
  function FindFeed(feeds: seq<FeedInfo>, id: int): (r: Option<nat>)
    ensures r.Some? ==> r.value < |feeds| && feeds[r.value].id == id
    ensures r.Some? ==> forall j :: 0 <= j < r.value ==> feeds[j].id != id
    ensures r.None? ==> forall j :: 0 <= j < |feeds| ==> feeds[j].id != id
  {
    if feeds == [] then None
    else if feeds[0].id == id then Some(0)
    else
      var rest := FindFeed(feeds[1..], id);
      if rest.Some? then Some(rest.value + 1) else None
  }

  /** The icon of an article in a headline list: the owning feed's icon URI
      when the article names a feed (id not -1) whose own icon is not the
      placeholder; that feed must be among the known feeds. */
  function HeadlineIcon(baseUri: string, feeds: seq<FeedInfo>, feedId: int): Result<string> {
    if feedId == -1 then Success(Placeholder)
    else
      var owner := FindFeed(feeds, feedId);
      if owner.None? then Failure(NoElement)
      else if feeds[owner.value].imagePath != Placeholder then Success(IconUri(baseUri, feedId))
      else Success(Placeholder)
  }

  /** One entry of getHeadlines, in the order GetGroupAsync reads its fields. */
  function DecodeHeadline(baseUri: string, feeds: seq<FeedInfo>, entry: Json): Result<ArticleInfo> {
    var article :- AsObject(entry);
    var feedIdValue :- GetNamedValue(article, "feed_id");
    var feedId :- LenientInt(feedIdValue);
    var imagePath :- HeadlineIcon(baseUri, feeds, feedId);
    var html :- GetNamedString(article, "content");
    var id :- GetNamedNumber(article, "id");
    var title :- GetNamedString(article, "title");
    var feedTitle :- GetNamedString(article, "feed_title");
    var unread :- GetNamedBoolean(article, "unread");
    var link :- GetNamedString(article, "link");
    Success(ArticleInfo(id, title, feedTitle, imagePath, WrapContent(html), !unread, link))
  }

  /** The content of getArticle: its first entry, read as GetItemAsync does. */
  function DecodeArticle(entries: seq<Json>): Result<ArticleInfo> {
    if entries == [] then Failure(NoElement)
    else
      var article :- AsObject(entries[0]);
      var html :- GetNamedString(article, "content");
      var id :- GetNamedNumber(article, "id");
      var title :- GetNamedString(article, "title");
      var author :- GetNamedString(article, "author");
      var unread :- GetNamedBoolean(article, "unread");
      var link :- GetNamedString(article, "link");
      Success(ArticleInfo(id, title, author, Placeholder, WrapContent(html), !unread, link))
  }

  function FeedDecoder(baseUri: string): Json -> Result<FeedInfo> {
    entry => DecodeFeed(baseUri, entry)
  }

  function HeadlineDecoder(baseUri: string, feeds: seq<FeedInfo>): Json -> Result<ArticleInfo> {
    entry => DecodeHeadline(baseUri, feeds, entry)
  }

  /** What a foreach loop that adds one decoded entry at a time leaves
      behind: the values decoded before the first failure, and that failure. */
  datatype Partial<T> = Partial(done: seq<T>, failure: Option<Error>)

  /** Decodes entries front to back and stops at the first that fails. */
  function DecodeEach<T>(decode: Json -> Result<T>, entries: seq<Json>): (p: Partial<T>)
    ensures |p.done| <= |entries|
  {
    if entries == [] then Partial([], None)
    else
      match decode(entries[0])
      case Failure(e) => Partial([], Some(e))
      case Success(v) =>
        var rest := DecodeEach(decode, entries[1..]);
        Partial([v] + rest.done, rest.failure)
  }

  /** What DecodeEach delivers: every value decoded comes from the entry at
      the same position; either all entries decoded, or the entry right after
      the decoded ones is the one that failed, with that failure. */
  lemma {:induction false} DecodeEachMeaning<T>(decode: Json -> Result<T>, entries: seq<Json>)
    ensures var p := DecodeEach(decode, entries);
            && (forall i :: 0 <= i < |p.done| ==> decode(entries[i]) == Success(p.done[i]))
            && (p.failure.None? <==> |p.done| == |entries|)
            && (p.failure.Some? ==> decode(entries[|p.done|]) == Failure(p.failure.value))
  {
    if entries != [] && decode(entries[0]).Success? {
      DecodeEachMeaning(decode, entries[1..]);
    }
  }

  /** Decoding one more entry after a complete prefix: the loop step. */
  lemma {:induction false} DecodeEachSnoc<T>(decode: Json -> Result<T>, entries: seq<Json>, entry: Json)
    requires DecodeEach(decode, entries).failure.None?
    ensures DecodeEach(decode, entries + [entry]) ==
      match decode(entry)
      case Success(v) => Partial(DecodeEach(decode, entries).done + [v], None)
      case Failure(e) => Partial(DecodeEach(decode, entries).done, Some(e))
  {
    if entries != [] {
      assert (entries + [entry])[1..] == entries[1..] + [entry];
      DecodeEachSnoc(decode, entries[1..], entry);
    }
  }

  /** A failing entry ends the decoding, whatever follows it. */
  lemma {:induction false} DecodeEachStops<T>(decode: Json -> Result<T>, entries: seq<Json>, i: nat)
    requires i < |entries|
    requires DecodeEach(decode, entries[..i]).failure.None? && decode(entries[i]).Failure?
    ensures DecodeEach(decode, entries) == Partial(DecodeEach(decode, entries[..i]).done, Some(decode(entries[i]).error))
  {
    if i > 0 {
      assert entries[..i][1..] == entries[1..][..i - 1];
      DecodeEachStops(decode, entries[1..], i - 1);
    }
  }
}
