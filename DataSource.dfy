/** The object model of TTRssDataSource.cs: the articles and feeds the client
    keeps, and the data source whose methods talk to the server and refresh
    them in place. Every method is proved to compute the functions of
    SessionLayer and Repository. */
module DataSource {
  import opened Json
  import opened SessionLayer
  import opened Repository

  /** An article. Only IsRead changes after construction; each change is
      announced as a property-change notification. */
  class RssArticle {
    const UniqueId: int
    const Title: string
    const Subtitle: string
    const ImagePath: string
    const Content: string
    const Link: string
    var IsRead: bool
    /** The property names announced so far, in order. */
    ghost var Notified: seq<string>

    function Info(): ArticleInfo
      reads this
    {
      ArticleInfo(UniqueId, Title, Subtitle, ImagePath, Content, IsRead, Link)
    }

    /** The constructor assigns IsRead through its setter, so it announces it. */
    constructor (uniqueId: int, title: string, subtitle: string, imagePath: string,
                 content: string, isRead: bool, link: string)
      ensures Info() == ArticleInfo(uniqueId, title, subtitle, imagePath, content, isRead, link)
      ensures Notified == ["IsRead"]
    {
      UniqueId := uniqueId;
      Title := title;
      Subtitle := subtitle;
      ImagePath := imagePath;
      Content := content;
      Link := link;
      Notified := [];
      new;
      SetIsRead(isRead);
    }

    /** The IsRead setter: stores the value and announces "IsRead". */
    method SetIsRead(value: bool)
      modifies this`IsRead, this`Notified
      ensures IsRead == value
      ensures Notified == old(Notified) + ["IsRead"]
    {
      IsRead := value;
      Notified := Notified + ["IsRead"];
    }
  }

  /** A feed. Its fields are fixed at construction; its article list is
      replaced in place by GetGroupAsync. */
  class RssFeed {
    const UniqueId: int
    const Title: string
    const Subtitle: string
    const ImagePath: string
    var Items: seq<RssArticle>

    function Info(): FeedInfo {
      FeedInfo(UniqueId, Title, Subtitle, ImagePath)
    }

    constructor (uniqueId: int, title: string, subtitle: string, imagePath: string)
      ensures Info() == FeedInfo(uniqueId, title, subtitle, imagePath)
      ensures Items == []
    {
      UniqueId := uniqueId;
      Title := title;
      Subtitle := subtitle;
      ImagePath := imagePath;
      Items := [];
    }
  }

  /** The fixed fields of each feed, in order. */
  function Infos(feeds: seq<RssFeed>): (r: seq<FeedInfo>)
    ensures |r| == |feeds|
    ensures forall i :: 0 <= i < |feeds| ==> r[i] == feeds[i].Info()
  {
    if feeds == [] then [] else [feeds[0].Info()] + Infos(feeds[1..])
  }

  /** The current fields of each article, in order. */
  function ArticleInfos(items: seq<RssArticle>): (r: seq<ArticleInfo>)
    reads set a | a in items
    ensures |r| == |items|
    ensures forall i :: 0 <= i < |items| ==> r[i] == items[i].Info()
  {
    if items == [] then [] else [items[0].Info()] + ArticleInfos(items[1..])
  }

  /** The data source: the session token, the feed collection, and the
      transport, a script of server replies consumed one per POST together
      with the log of every request posted. */
  class TTRssDataSource {
    const settings: Settings
    var token: Option<string>
    var Groups: seq<RssFeed>
    var pending: seq<Reply>
    ghost var sent: seq<Posted>

    ghost function State(): Session
      reads this`token, this`pending, this`sent
    {
      Session(token, pending, sent)
    }

    /** A fresh client: no token, no feeds, nothing sent yet. */
    constructor (settings: Settings, replies: seq<Reply>)
      ensures this.settings == settings
      ensures State() == Session(None, replies, [])
      ensures Groups == []
    {
      this.settings := settings;
      token := None;
      Groups := [];
      pending := replies;
      sent := [];
    }

    /** HttpClient.PostAsync and reading the body: sends one request and
      takes the next scripted reply, if there is one. */
    method Post(request: Object) returns (reply: Option<Reply>)
      modifies this`pending, this`sent
      ensures sent == old(sent) + [Posted(request, token)]
      ensures old(pending) == [] ==> reply.None? && pending == []
      ensures old(pending) != [] ==> reply == Some(old(pending)[0]) && pending == old(pending)[1..]
    {
      sent := sent + [Posted(request, token)];
      if pending == [] {
        reply := None;
      } else {
        reply := Some(pending[0]);
        pending := pending[1..];
      }
    }

    /** Sends a request with the session id attached, logging in again and
      re-sending whenever the server answers NOT_LOGGED_IN. */
    method QueryApi(request: Object) returns (r: Result<Object>)
      modifies this`token, this`pending, this`sent
      ensures (State(), r) == Query(settings, old(State()), request)
      decreases |pending|, 3
    {
      var json := request;
      var finished := false;
      while !finished
        invariant !finished
        invariant |pending| <= old(|pending|)
        invariant Query(settings, State(), json) == Query(settings, old(State()), request)
        decreases |pending|
      {
        ghost var round := State();
        ghost var given := json;
        if token.Some? {
          if SessionField in json {
            json := json - {SessionField};
          }
          assert SessionField !in json;  // JsonObject.Add would throw on a second "sid"
          json := json[SessionField := JString(token.value)];
        }
        assert json == WithSession(round.token, given);
        if settings.instanceUri.None? {
          return Failure(InvalidConfiguration("URI not set"));
        }
        assert Query(settings, round, given) == Send(settings, round, json);
        var reply := Post(json);
        if reply.None? {
          return Failure(NoResponse);
        }
        var verdict := Classify(reply.value);
        assert Send(settings, round, json) == Respond(settings, State(), json, verdict);
        match verdict
        case Done(response) =>
          finished := true;
          return Success(response);
        case Rejected(e) =>
          return Failure(e);
        case Relogin =>
          var login := GetToken();
          if login.Failure? {
            return Failure(login.error);
          }
          var dropped := QueryApi(json);
          if dropped.Failure? {
            return Failure(dropped.error);
          }
      }
    }

    /** Logs in with the stored credentials and keeps the session id. */
    method GetToken() returns (r: Result<string>)
      modifies this`token, this`pending, this`sent
      ensures (State(), r) == Login(settings, old(State()))
      decreases |pending|, 4
    {
      var json := LoginRequest(settings);
      var response := QueryApi(json);
      if response.Failure? {
        return Failure(response.error);
      }
      var id := SessionId(response.value);
      if id.Failure? {
        return Failure(id.error);
      }
      token := Some(id.value);
      r := id;
    }

    /** Toggles one flag of one article on the server; nothing local changes. */
    method ToggleState(articleId: int, flag: Flag) returns (r: Result<()>)
      modifies this`token, this`pending, this`sent
      ensures Groups == old(Groups)
      ensures var (s, q) := Query(settings, old(State()), ToggleRequest(articleId, flag));
              State() == s && r == if q.Success? then Success(()) else Failure(q.error)
    {
      var jsonRequest := ToggleRequest(articleId, flag);
      var response := QueryApi(jsonRequest);
      r := if response.Success? then Success(()) else Failure(response.error);
    }

    /** Fetches every feed and replaces Groups with them, in response order. */
    method GetGroupsAsync() returns (r: Result<seq<RssFeed>>)
      modifies this`token, this`pending, this`sent, this`Groups
      ensures var (s, q) := Query(settings, old(State()), FeedsRequest());
              var content := ContentArray(q);
              && State() == s
              && (content.Failure? ==> r == Failure(content.error) && Groups == old(Groups))
              && (content.Success? ==>
                    var p := DecodeEach(FeedDecoder(UriText(settings)), content.value);
                    && Infos(Groups) == p.done
                    && (forall g :: g in Groups ==> fresh(g) && g.Items == [])
                    && r == if p.failure.None? then Success(Groups) else Failure(p.failure.value))
    {
      var jsonRequest := FeedsRequest();
      var jsonResponse := QueryApi(jsonRequest);
      if jsonResponse.Failure? {
        return Failure(jsonResponse.error);
      }
      var feeds := GetNamedArray(jsonResponse.value, "content");
      if feeds.Failure? {
        return Failure(feeds.error);
      }
      r := ReplaceGroups(feeds.value);
    }

    /** Groups.Clear() and the foreach of GetGroupsAsync: one new feed per
      entry, in order, up to the first entry that fails to decode. */
    method ReplaceGroups(entries: seq<Json>) returns (r: Result<seq<RssFeed>>)
      modifies this`Groups
      ensures var p := DecodeEach(FeedDecoder(UriText(settings)), entries);
              && Infos(Groups) == p.done
              && (forall g :: g in Groups ==> fresh(g) && g.Items == [])
              && r == if p.failure.None? then Success(Groups) else Failure(p.failure.value)
    {
      var decode := FeedDecoder(UriText(settings));
      Groups := [];
      ghost var done: seq<FeedInfo> := [];
      var i := 0;
      while i < |entries|
        invariant 0 <= i <= |entries|
        invariant DecodeEach(decode, entries[..i]) == Partial(done, None)
        invariant |Groups| == |done|
        invariant forall k :: 0 <= k < |done| ==> Groups[k].Info() == done[k]
        invariant forall g :: g in Groups ==> fresh(g) && g.Items == []
      {
        assert entries[..i + 1] == entries[..i] + [entries[i]];
        var feed := decode(entries[i]);
        DecodeEachSnoc(decode, entries[..i], entries[i]);
        if feed.Failure? {
          DecodeEachStops(decode, entries, i);
          return Failure(feed.error);
        }
        var f := feed.value;
        var rssFeed := new RssFeed(f.id, f.title, f.subtitle, f.imagePath);
        Groups := Groups + [rssFeed];
        done := done + [f];
        i := i + 1;
      }
      assert entries[..i] == entries;
      r := Success(Groups);
    }

    /** Fetches the articles of one known feed and replaces its Items with
      them, in response order. */
    method GetGroupAsync(uniqueId: int) returns (r: Result<RssFeed>)
      modifies this`token, this`pending, this`sent, Groups
      ensures Groups == old(Groups)
      ensures var (s, q) := Query(settings, old(State()), HeadlinesRequest(uniqueId));
              var content := ContentArray(q);
              var found := FindFeed(Infos(Groups), uniqueId);
              && State() == s
              && (content.Failure? ==> r == Failure(content.error) && forall g :: g in Groups ==> g.Items == old(g.Items))
              && (content.Success? && found.None? ==> r == Failure(NoElement) && forall g :: g in Groups ==> g.Items == old(g.Items))
              && (content.Success? && found.Some? ==>
                    var feed := Groups[found.value];
                    var p := DecodeEach(HeadlineDecoder(UriText(settings), Infos(Groups)), content.value);
                    && ArticleInfos(feed.Items) == p.done
                    && (forall a :: a in feed.Items ==> fresh(a))
                    && (forall g :: g in Groups && g != feed ==> g.Items == old(g.Items))
                    && r == if p.failure.None? then Success(feed) else Failure(p.failure.value))
    {
      var jsonRequest := HeadlinesRequest(uniqueId);
      var jsonResponse := QueryApi(jsonRequest);
      if jsonResponse.Failure? {
        return Failure(jsonResponse.error);
      }
      var articles := GetNamedArray(jsonResponse.value, "content");
      if articles.Failure? {
        return Failure(articles.error);
      }
      var known := Infos(Groups);
      var found := FindFeed(known, uniqueId);
      if found.None? {
        return Failure(NoElement);
      }
      var feed := Groups[found.value];
      r := ReplaceItems(feed, known, articles.value);
    }

    /** feed.Items.Clear() and the foreach of GetGroupAsync: one new article
      per entry, in order, up to the first entry that fails to decode. */
    method ReplaceItems(feed: RssFeed, known: seq<FeedInfo>, entries: seq<Json>) returns (r: Result<RssFeed>)
      modifies feed
      ensures var p := DecodeEach(HeadlineDecoder(UriText(settings), known), entries);
              && ArticleInfos(feed.Items) == p.done
              && (forall a :: a in feed.Items ==> fresh(a))
              && r == if p.failure.None? then Success(feed) else Failure(p.failure.value)
    {
      feed.Items := [];
      var decode := HeadlineDecoder(UriText(settings), known);
      ghost var done: seq<ArticleInfo> := [];
      var i := 0;
      while i < |entries|
        invariant 0 <= i <= |entries|
        invariant DecodeEach(decode, entries[..i]) == Partial(done, None)
        invariant |feed.Items| == |done|
        invariant forall k :: 0 <= k < |done| ==> feed.Items[k].Info() == done[k]
        invariant forall a :: a in feed.Items ==> fresh(a)
      {
        assert entries[..i + 1] == entries[..i] + [entries[i]];
        var article := decode(entries[i]);
        DecodeEachSnoc(decode, entries[..i], entries[i]);
        if article.Failure? {
          DecodeEachStops(decode, entries, i);
          return Failure(article.error);
        }
        var a := article.value;
        var rssArticle := new RssArticle(a.id, a.title, a.subtitle, a.imagePath, a.content, a.isRead, a.link);
        feed.Items := feed.Items + [rssArticle];
        done := done + [a];
        i := i + 1;
      }
      assert entries[..i] == entries;
      r := Success(feed);
    }

    /** Fetches one article; the client's feeds are left alone. */
    method GetItemAsync(uniqueId: int) returns (r: Result<RssArticle>)
      modifies this`token, this`pending, this`sent
      ensures var (s, q) := Query(settings, old(State()), ArticleRequest(uniqueId));
              var content := ContentArray(q);
              && State() == s
              && (content.Failure? ==> r == Failure(content.error))
              && (content.Success? ==>
                    var article := DecodeArticle(content.value);
                    && (article.Failure? ==> r == Failure(article.error))
                    && (article.Success? ==> r.Success? && fresh(r.value) && r.value.Info() == article.value))
    {
      var jsonRequest := ArticleRequest(uniqueId);
      var jsonResponse := QueryApi(jsonRequest);
      if jsonResponse.Failure? {
        return Failure(jsonResponse.error);
      }
      var content := GetNamedArray(jsonResponse.value, "content");
      if content.Failure? {
        return Failure(content.error);
      }
      var article := DecodeArticle(content.value);
      if article.Failure? {
        return Failure(article.error);
      }
      var a := article.value;
      var rssArticle := new RssArticle(a.id, a.title, a.subtitle, a.imagePath, a.content, a.isRead, a.link);
      r := Success(rssArticle);
    }
  }
}
