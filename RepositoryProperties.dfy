/** What the repository layer promises: the exact toggle request, the
    lenient reading of unread counts and feed ids, the icon rules for feeds
    and articles, and the fields each decoded article takes from its entry. */
module RepositoryProperties {
  import opened Json
  import opened Numbers
  import opened Repository
  import opened SessionLayer

  // ---------------------------------------------------------------------
  // ToggleState's request.

  /** The wire value identifies the flag: Starred 0, Published 1, Read 2. */
  lemma FlagWireRoundTrip(f: Flag)
    ensures FlagOfWire(f.Wire()) == Some(f)
    ensures f.Wire() == match f case Starred => 0 case Published => 1 case Read => 2
  {
  }

  /** An updateArticle request holds exactly op, article_ids, mode 2 and the
      flag's wire value, and reading it back gives the article and the flag. */
  lemma ToggleRequestRoundTrip(articleId: int, flag: Flag)
    ensures ToggleRequest(articleId, flag).Keys == {"op", "article_ids", "mode", "field"}
    ensures ParseToggle(ToggleRequest(articleId, flag)) == Some((articleId, flag))
  {
  }

  /** Conversely, a request that reads as a toggle is exactly the one
      ToggleState builds for that article and flag. */
  lemma ToggleRequestOnly(request: Object, articleId: int, flag: Flag)
    requires ParseToggle(request) == Some((articleId, flag))
    ensures request == ToggleRequest(articleId, flag)
  {
  }

  /** Neither the login nor any of the four requests carries a session id of its own, so the
      token QueryApi attaches is the only "sid" the server sees. */
  lemma RequestsCarryNoSid(settings: Settings, feedId: int, articleId: int, flag: Flag)
    ensures SessionField !in FeedsRequest() && SessionField !in HeadlinesRequest(feedId)
    ensures SessionField !in ArticleRequest(articleId) && SessionField !in ToggleRequest(articleId, flag)
    ensures SessionField !in LoginRequest(settings)
  {
  }

  // ---------------------------------------------------------------------
  // The lenient reading of "unread" (and of "feed_id", which uses the same rule).

  /** A count sent as a number and the same count sent as its decimal text
      give the same subtitle: "<n> unread", or "" for -1. */
  lemma UnreadNumberOrString(n: int)
    requires IsInt32(n)
    ensures UnreadText(JString(IntToString(n))) == UnreadText(JNumber(n))
    ensures UnreadText(JNumber(n)) == Success(if n == -1 then "" else IntToString(n) + " unread")
  {
    ParseIntOfIntToString(n);
  }

  /** A count that is neither a number nor a string gives an empty subtitle
      instead of failing. */
  lemma UnreadOtherTypes(v: Json)
    requires !v.JNumber? && !v.JString?
    ensures UnreadText(v) == Success("")
  {
  }

  /** A string count that int.Parse rejects fails the decoding with its
      exception; a number never fails. */
  lemma UnreadFailure(v: Json)
    ensures UnreadText(v).Failure? <==> v.JString? && ParseInt(v.s).Failure?
    ensures UnreadText(v).Failure? ==> UnreadText(v).error == ParseInt(v.s).error
  {
  }

  /** A count or feed id sent as text with a character int.Parse cannot
      take (a letter, say) makes int.Parse throw, so the entry fails to
      decode rather than reading as some number. */
  lemma NonNumericTextFails(v: Json, i: nat)
    requires v.JString? && i < |v.s|
    requires !IsDigit(v.s[i]) && !IsWhite(v.s[i]) && v.s[i] != '-' && v.s[i] != '+'
    ensures LenientInt(v) == Failure(FormatError)
    ensures UnreadText(v) == Failure(FormatError)
  {
    ParseIntRejects(v.s, i);
  }

  // ---------------------------------------------------------------------
  // Icons.

  /** An icon URI ends in ".ico", so it is never the placeholder. */
  lemma IconUriNotPlaceholder(baseUri: string, id: int)
    ensures IconUri(baseUri, id) != Placeholder
  {
    var u := IconUri(baseUri, id);
    assert u[|u| - 1] == 'o';
    assert Placeholder[|Placeholder| - 1] == 'g';
  }

  /** The has_icon flag of a feed entry, where a missing flag counts as false. */
  predicate AnnouncesIcon(feed: Object) {
    "has_icon" in feed && feed["has_icon"] == JBool(true)
  }

  /** A decoded feed takes its id and title from its entry and its subtitle
      from the unread count; it gets the icon URI built from the base URI and
      its id when, and only when, the entry announces an icon, and the
      placeholder otherwise. */
  lemma FeedFields(baseUri: string, entry: Json, info: FeedInfo)
    requires DecodeFeed(baseUri, entry) == Success(info)
    ensures entry.JObject?
    ensures var feed := entry.fields;
            && "id" in feed && feed["id"] == JNumber(info.id)
            && "title" in feed && feed["title"] == JString(info.title)
            && "unread" in feed && UnreadText(feed["unread"]) == Success(info.subtitle)
            && (AnnouncesIcon(feed) ==> info.imagePath == IconUri(baseUri, info.id))
            && (!AnnouncesIcon(feed) ==> info.imagePath == Placeholder)
            && (info.imagePath != Placeholder <==> AnnouncesIcon(feed))
  {
    IconUriNotPlaceholder(baseUri, info.id);
  }

  /** What GetGroupsAsync needs of a feed entry to read it without an
      exception: an object with a numeric id, a string title, an unread count
      that is a number, a string int.Parse accepts or any other value, and a
      has_icon flag that is boolean when present. */
  predicate FeedReadable(entry: Json) {
    && entry.JObject?
    && ("has_icon" in entry.fields ==> entry.fields["has_icon"].JBool?)
    && "id" in entry.fields && entry.fields["id"].JNumber?
    && "title" in entry.fields && entry.fields["title"].JString?
    && "unread" in entry.fields && LenientInt(entry.fields["unread"]).Success?
  }

  /** A feed entry decodes exactly when it is readable, and then into the
      feed its fields describe. */
  lemma FeedDecodes(baseUri: string, entry: Json)
    ensures DecodeFeed(baseUri, entry).Success? <==> FeedReadable(entry)
    ensures FeedReadable(entry) ==>
              var feed := entry.fields;
              var id := feed["id"].n;
              DecodeFeed(baseUri, entry) ==
                Success(FeedInfo(id, feed["title"].s, UnreadText(feed["unread"]).value,
                                 if AnnouncesIcon(feed) then IconUri(baseUri, id) else Placeholder))
  {
  }

  /** A feed list whose entries are all readable is read completely. */
  lemma FeedsAllRead(baseUri: string, entries: seq<Json>)
    requires forall i :: 0 <= i < |entries| ==> FeedReadable(entries[i])
    ensures DecodeEach(FeedDecoder(baseUri), entries).failure.None?
    ensures |DecodeEach(FeedDecoder(baseUri), entries).done| == |entries|
  {
    DecodeEachMeaning(FeedDecoder(baseUri), entries);
    var p := DecodeEach(FeedDecoder(baseUri), entries);
    if p.failure.Some? {
      FeedDecodes(baseUri, entries[|p.done|]);
    }
  }

  /** The icon of a headline: the owning feed's icon URI exactly when the
      article names a feed (id not -1) and the first known feed with that id
      has an icon of its own; the placeholder otherwise. Naming a feed that
      is not known is an error. */
  lemma HeadlineIconRule(baseUri: string, feeds: seq<FeedInfo>, feedId: int)
    ensures HeadlineIcon(baseUri, feeds, feedId).Failure? <==> feedId != -1 && FindFeed(feeds, feedId).None?
    ensures var r := HeadlineIcon(baseUri, feeds, feedId);
            r.Success? ==>
              && (r.value != Placeholder <==>
                    feedId != -1 && feeds[FindFeed(feeds, feedId).value].imagePath != Placeholder)
              && (r.value != Placeholder ==> r.value == IconUri(baseUri, feedId))
  {
    IconUriNotPlaceholder(baseUri, feedId);
  }

  // ---------------------------------------------------------------------
  // Articles.

  /** The article HTML recovered from a wrapped body, if it is one. */
  function Unwrap(content: string): Option<string> {
    var open := Head + "<body>";
    var close := "</body>";
    if |content| >= |open| + |close| && content[..|open|] == open && content[|content| - |close|..] == close
    then Some(content[|open|..|content| - |close|])
    else None
  }

  /** Wrapping keeps the server's HTML intact between the style sheet and
      the body tags. */
  lemma WrapUnwrap(html: string)
    ensures Unwrap(WrapContent(html)) == Some(html)
  {
  }

  /** A headline takes id, title, link and its HTML body from its entry, the
      feed title as subtitle, its read state as the negation of "unread", and
      its icon by the rule of HeadlineIconRule applied to the lenient
      reading of "feed_id". */
  lemma HeadlineFields(baseUri: string, feeds: seq<FeedInfo>, entry: Json, a: ArticleInfo)
    requires DecodeHeadline(baseUri, feeds, entry) == Success(a)
    ensures entry.JObject?
    ensures var o := entry.fields;
            && "id" in o && o["id"] == JNumber(a.id)
            && "title" in o && o["title"] == JString(a.title)
            && "feed_title" in o && o["feed_title"] == JString(a.subtitle)
            && "link" in o && o["link"] == JString(a.link)
            && "content" in o && o["content"].JString? && a.content == WrapContent(o["content"].s)
            && "unread" in o && o["unread"] == JBool(!a.isRead)
            && "feed_id" in o && LenientInt(o["feed_id"]).Success?
            && HeadlineIcon(baseUri, feeds, LenientInt(o["feed_id"]).value) == Success(a.imagePath)
  {
  }

  /** What GetGroupAsync needs of a headline entry to read it without an
      exception: an object whose feed_id reads leniently and names no unknown
      feed, with string content, title, feed_title and link, a numeric id and
      a boolean unread flag. */
  predicate HeadlineReadable(baseUri: string, feeds: seq<FeedInfo>, entry: Json) {
    && entry.JObject?
    && "feed_id" in entry.fields && LenientInt(entry.fields["feed_id"]).Success?
    && HeadlineIcon(baseUri, feeds, LenientInt(entry.fields["feed_id"]).value).Success?
    && "content" in entry.fields && entry.fields["content"].JString?
    && "id" in entry.fields && entry.fields["id"].JNumber?
    && "title" in entry.fields && entry.fields["title"].JString?
    && "feed_title" in entry.fields && entry.fields["feed_title"].JString?
    && "unread" in entry.fields && entry.fields["unread"].JBool?
    && "link" in entry.fields && entry.fields["link"].JString?
  }

  /** A headline entry decodes exactly when it is readable, and then into the
      article its fields describe. */
  lemma HeadlineDecodes(baseUri: string, feeds: seq<FeedInfo>, entry: Json)
    ensures DecodeHeadline(baseUri, feeds, entry).Success? <==> HeadlineReadable(baseUri, feeds, entry)
    ensures HeadlineReadable(baseUri, feeds, entry) ==>
              var o := entry.fields;
              DecodeHeadline(baseUri, feeds, entry) ==
                Success(ArticleInfo(o["id"].n, o["title"].s, o["feed_title"].s,
                                    HeadlineIcon(baseUri, feeds, LenientInt(o["feed_id"]).value).value,
                                    WrapContent(o["content"].s), !o["unread"].b, o["link"].s))
  {
  }

  /** A headline list whose entries are all readable is read completely. */
  lemma HeadlinesAllRead(baseUri: string, feeds: seq<FeedInfo>, entries: seq<Json>)
    requires forall i :: 0 <= i < |entries| ==> HeadlineReadable(baseUri, feeds, entries[i])
    ensures DecodeEach(HeadlineDecoder(baseUri, feeds), entries).failure.None?
    ensures |DecodeEach(HeadlineDecoder(baseUri, feeds), entries).done| == |entries|
  {
    DecodeEachMeaning(HeadlineDecoder(baseUri, feeds), entries);
    var p := DecodeEach(HeadlineDecoder(baseUri, feeds), entries);
    if p.failure.Some? {
      HeadlineDecodes(baseUri, feeds, entries[|p.done|]);
    }
  }

  /** What GetItemAsync needs of the content array: a first entry that is an
      object with string content, title, author and link, a numeric id and a
      boolean unread flag. */
  predicate ArticleReadable(entries: seq<Json>) {
    && entries != [] && entries[0].JObject?
    && "content" in entries[0].fields && entries[0].fields["content"].JString?
    && "id" in entries[0].fields && entries[0].fields["id"].JNumber?
    && "title" in entries[0].fields && entries[0].fields["title"].JString?
    && "author" in entries[0].fields && entries[0].fields["author"].JString?
    && "unread" in entries[0].fields && entries[0].fields["unread"].JBool?
    && "link" in entries[0].fields && entries[0].fields["link"].JString?
  }

  /** The content array decodes exactly when it is readable, and then into
      the article its first entry describes. */
  lemma ArticleDecodes(entries: seq<Json>)
    ensures DecodeArticle(entries).Success? <==> ArticleReadable(entries)
    ensures ArticleReadable(entries) ==>
              var o := entries[0].fields;
              DecodeArticle(entries) ==
                Success(ArticleInfo(o["id"].n, o["title"].s, o["author"].s, Placeholder,
                                    WrapContent(o["content"].s), !o["unread"].b, o["link"].s))
  {
  }

  /** GetItemAsync reads the first entry only: an empty content array is an
      error; otherwise the article takes the author as subtitle and always
      the placeholder icon. */
  lemma ArticleFields(entries: seq<Json>, a: ArticleInfo)
    requires DecodeArticle(entries) == Success(a)
    ensures entries != [] && entries[0].JObject?
    ensures var o := entries[0].fields;
            && "id" in o && o["id"] == JNumber(a.id)
            && "title" in o && o["title"] == JString(a.title)
            && "author" in o && o["author"] == JString(a.subtitle)
            && "link" in o && o["link"] == JString(a.link)
            && "content" in o && o["content"].JString? && a.content == WrapContent(o["content"].s)
            && "unread" in o && o["unread"] == JBool(!a.isRead)
            && a.imagePath == Placeholder
  {
  }

  /** Only the first entry matters to GetItemAsync, and no entries is an error. */
  lemma ArticleFirstOnly(first: Json, rest: seq<Json>)
    ensures DecodeArticle([first] + rest) == DecodeArticle([first])
    ensures DecodeArticle([]) == Failure(NoElement)
  {
  }

  // ---------------------------------------------------------------------
  // The feed lookup of GetGroupAsync.

  /** The lookup fails exactly when no known feed has the id. */
  lemma FindFeedMissing(feeds: seq<FeedInfo>, id: int)
    ensures FindFeed(feeds, id).None? <==> forall f :: f in feeds ==> f.id != id
  {
  }
}
