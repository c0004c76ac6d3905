# Tiny Tiny RSS client: synchronisation core

A Dafny model of `TTRssDataSource`, the data source of a Windows client for a
Tiny Tiny RSS server. The client talks to the server's JSON API: it keeps a
session token, logs in again when the server answers `NOT_LOGGED_IN`, fetches
the list of feeds and each feed's headlines, fetches single articles, and
toggles an article's starred / published / read flag on the server.

The model has two layers, as the source has:

- **Session layer** (`SessionLayer`, proved in `SessionProperties`): `QueryApi`
  and `GetToken` as the pure functions `Query` and `Login` over a `Session`
  value (the token, the server replies still to come, the log of requests
  posted). The HTTP transport is a script of replies consumed one per POST;
  a reply is a JSON document or a body that does not parse.
- **Repository layer** (`Repository`, proved in `RepositoryProperties`): the
  requests of the four public operations, the decoding of feed and article
  entries (with the number-or-string reading of `unread` and `feed_id`), the
  icon and content rules, and the lookup of a feed by id.

`DataSource` holds the object model: `RssArticle` (whose `IsRead` setter
records a property-change notification), `RssFeed` (whose `Items` list is
replaced in place), and the class `TTRssDataSource`, whose fields are the
token, the feed collection `Groups` and the transport. Its methods are
imperative, like the source (`QueryApi`'s `while (!finished)` loop, the
clear-then-add loops of `GetGroupsAsync` and `GetGroupAsync`), and each is
proved to compute the session and repository functions. `Json` gives the
JSON value type and the `GetNamed*` accessors; `Numbers` gives
`int.ToString()` and `int.Parse` with their round trip.

Behaviour of the code worth noting:

- On `NOT_LOGGED_IN` the client logs in, re-sends the request through a
  recursive call whose answer it drops (a failure of that call still
  propagates), and then sends it once more through the loop; the answer to
  that last send is returned. A headline fetch that meets one expired
  session therefore makes four POSTs (`ReloginResendsTwice`).
  There is no cap on the number of re-logins; in the model the finite reply
  script bounds it.
- A non-zero status whose error is neither `NOT_LOGGED_IN` nor `LOGIN_ERROR`
  is handed back to the caller as if it succeeded (`OtherErrorReturned`).
- Settings are three read-only inputs (optional server URI, user name,
  password). A missing URI concatenated into an icon path reads as the empty
  string, as concatenating a null reference does in C#.

## Model

| member | source | states |
|---|---|---|
| DataSource.RssArticle.constructor | DataModel/TTRssDataSource.cs:23-32 | the article holds exactly the given fields; IsRead is assigned through its setter, so one "IsRead" notification is recorded |
| DataSource.RssArticle.SetIsRead | DataModel/TTRssDataSource.cs:40-48 | IsRead takes the new value and one more "IsRead" change notification is recorded; no other field changes |
| DataSource.RssFeed.constructor | DataModel/TTRssDataSource.cs:72-79 | the feed holds the given id, title, subtitle and icon and an empty article list |
| DataSource.TTRssDataSource.constructor | DataModel/TTRssDataSource.cs:109-111 | a new client holds no token, no feeds and has sent nothing |
| DataSource.TTRssDataSource.Post | DataModel/TTRssDataSource.cs:144-148 | one POST is logged with the token held at that moment, and it consumes exactly the next scripted reply (none when the script is exhausted) |
| DataSource.TTRssDataSource.QueryApi | DataModel/TTRssDataSource.cs:127-170 | the loop's new session state and result are exactly those of Query on the old state |
| DataSource.TTRssDataSource.GetToken | DataModel/TTRssDataSource.cs:193-204 | new session state and result are exactly those of Login |
| DataSource.TTRssDataSource.ToggleState | DataModel/TTRssDataSource.cs:178-187 | sends the updateArticle request through Query and reports its failure; Groups and every article are left untouched |
| DataSource.TTRssDataSource.GetGroupsAsync | DataModel/TTRssDataSource.cs:210-244 | queries getFeeds with cat_id -4; a failed query or missing content array leaves Groups as it was; otherwise Groups is replaced by fresh feeds with empty article lists, one per decoded entry in response order |
| DataSource.TTRssDataSource.ReplaceGroups | DataModel/TTRssDataSource.cs:219-242 | Groups is cleared, then holds one fresh feed per entry in order, up to the first entry that fails to decode, whose error is returned |
| DataSource.TTRssDataSource.GetGroupAsync | DataModel/TTRssDataSource.cs:252-286 | queries getHeadlines with show_content; fails when no known feed has the id; otherwise that feed's Items become fresh articles decoded in order, the same feed object is returned, Groups and every other feed's Items are unchanged |
| DataSource.TTRssDataSource.ReplaceItems | DataModel/TTRssDataSource.cs:264-284 | the feed's Items are cleared, then hold one fresh article per entry in order, up to the first entry that fails to decode |
| DataSource.TTRssDataSource.GetItemAsync | DataModel/TTRssDataSource.cs:293-303 | queries getArticle; returns a fresh article decoded from the first content entry, or the error; Groups is untouched |
| SessionLayer.WithSession | DataModel/TTRssDataSource.cs:132-138 | with a token, the request holds exactly one "sid", equal to the token, whatever sid it had; without one it is unchanged; no other field changes |
| SessionLayer.ErrorCode | DataModel/TTRssDataSource.cs:155-162 | content.error of a response; its meaning is stated through Classify's contract |
| SessionLayer.Classify | DataModel/TTRssDataSource.cs:147-167 | a returned reply is the parsed body itself; a re-login is asked for if and only if the reply is a JSON object with a non-zero numeric status and content.error NOT_LOGGED_IN; the reply is returned if and only if it is a JSON object whose status is 0, or non-zero with an error code other than NOT_LOGGED_IN and LOGIN_ERROR |
| SessionLayer.Query | DataModel/TTRssDataSource.cs:127-170 | replies are consumed from the front of the script, requests are only appended to the log, and a held token is never dropped |
| SessionLayer.Send | DataModel/TTRssDataSource.cs:144-150 | one POST and the reading of its reply keep the same forward-only session discipline |
| SessionLayer.Respond | DataModel/TTRssDataSource.cs:152-167 | the handling of a verdict, including the re-login path, keeps the forward-only session discipline |
| SessionLayer.LoginRequest | DataModel/TTRssDataSource.cs:196-200 | op login with the stored user name and password; it carries no sid of its own (RequestsCarryNoSid) |
| SessionLayer.SessionId | DataModel/TTRssDataSource.cs:203 | content.session_id of the login response; what it becomes is stated by Login and LoginGranted |
| SessionLayer.Login | DataModel/TTRssDataSource.cs:193-204 | a successful login leaves the returned session id as the token |
| SessionProperties.NoUriNoPost | DataModel/TTRssDataSource.cs:141-142 | without a server URI the call fails with a configuration error and nothing is posted |
| SessionProperties.QueryAnswered | DataModel/TTRssDataSource.cs:152-167 | a reply the client accepts is returned after exactly one POST |
| SessionProperties.UnparsableIsNotJson | DataModel/TTRssDataSource.cs:148-150 | a body that is not a JSON object fails the call as "Not JSON" after exactly one POST |
| SessionProperties.StatusZeroReturnsReply | DataModel/TTRssDataSource.cs:152-167 | status 0 returns the parsed reply after exactly one POST, with no login, no re-send and the token kept |
| SessionProperties.LoginErrorIsFatal | DataModel/TTRssDataSource.cs:162-163 | LOGIN_ERROR fails the call with a configuration error after exactly one POST, without re-sending |
| SessionProperties.OtherErrorReturned | DataModel/TTRssDataSource.cs:152-167 | a non-zero status with any other error code is returned unchanged after exactly one POST |
| SessionProperties.InjectOverrides | DataModel/TTRssDataSource.cs:132-138 | re-injecting a token into a request that already carries an older one sends the same request as injecting it into the original |
| SessionProperties.NotLoggedInStartsRelogin | DataModel/TTRssDataSource.cs:153-159 | a JSON reply with a non-zero status and content.error NOT_LOGGED_IN starts the re-login path for the request as sent |
| SessionProperties.LoginFailurePropagates | DataModel/TTRssDataSource.cs:157 | any failure of the login (no reply, not JSON, LOGIN_ERROR, a missing session id) fails the call with that same error, and the request is not sent again |
| SessionProperties.ResendFailurePropagates | DataModel/TTRssDataSource.cs:158 | after a granted login, a failure of the first re-send fails the call with that error, and the second send is not made |
| SessionProperties.ReloginOutcome | DataModel/TTRssDataSource.cs:155-160 | NOT_LOGGED_IN followed by a granted login and two accepted replies returns the last of them, in the session AfterRelogin describes |
| SessionProperties.ReloginLog | DataModel/TTRssDataSource.cs:155-160 | the requests posted on that path are the request with the old token, the login with the old token, then the request twice with the new token |
| SessionProperties.ReloginRespond | DataModel/TTRssDataSource.cs:157-159 | the re-login path makes one login POST and two re-sends and returns the second answer |
| SessionProperties.LoginGranted | DataModel/TTRssDataSource.cs:195-203 | a login answered with an accepted reply makes content.session_id the token, after one POST of the login request |
| SessionProperties.ReloginResendsTwice | DataModel/TTRssDataSource.cs:155-160 | NOT_LOGGED_IN leads to a login with the stored credentials, the granted id becomes the token, the request is sent twice with it and the second answer is returned: four POSTs in all, with the exact requests and tokens listed |
| SessionProperties.ReloginRefused | DataModel/TTRssDataSource.cs:155-163 | when the login itself gets LOGIN_ERROR the call fails with that error after two POSTs; the request is not re-sent and the token is kept |
| SessionProperties.FirstPostCarries | DataModel/TTRssDataSource.cs:132-138 | the request as first posted is the caller's request with the held token as its session id |
| SessionProperties.CarriesBeneath | DataModel/TTRssDataSource.cs:135-137 | a POST with a token carrying a request that already had a token attached carries the original request too |
| SessionProperties.PostsForJoin | DataModel/TTRssDataSource.cs:132-160 | the posts of a call are those of its first POST and of what the reply leads to; both kinds carry the caller's request or the login |
| SessionProperties.CarriedShape | DataModel/TTRssDataSource.cs:132-138 | a POST carrying a request without sid, or the login request, has a sid exactly when a token was held, and it is that token |
| SessionProperties.QueryPosts | DataModel/TTRssDataSource.cs:127-170 | every POST of a call is the caller's request or the login request, with the token held at that moment; once a token is held every later POST has one |
| SessionProperties.SendPosts | DataModel/TTRssDataSource.cs:144-160 | the same, for one POST and what its reply leads to |
| SessionProperties.RespondPosts | DataModel/TTRssDataSource.cs:155-160 | the POSTs of the re-login path are login requests or re-sends made with a token |
| SessionProperties.LoginPosts | DataModel/TTRssDataSource.cs:193-204 | every POST of a login is the login request with the token held at that moment |
| SessionProperties.TokenInjection | DataModel/TTRssDataSource.cs:132-138 | every POST of a call is the caller's or the login request apart from "sid"; it has a sid exactly when a token was held, and that sid is the token held at that moment |
| SessionProperties.QueryReturnsAccepted | DataModel/TTRssDataSource.cs:152-167 | a successful call returns one of the server's replies, with status 0 or an error other than NOT_LOGGED_IN and LOGIN_ERROR; NOT_LOGGED_IN never reaches the caller |
| SessionProperties.SendReturnsAccepted | DataModel/TTRssDataSource.cs:146-167 | the same, for one POST and what its reply leads to |
| SessionProperties.RespondReturnsAccepted | DataModel/TTRssDataSource.cs:152-160 | a returned verdict is handed back as it is; the re-login path returns only an accepted reply from the script |
| Repository.FlagOfWire | DataModel/TTRssDataSource.cs:18-21 | exactly the wire values 0, 1, 2 name a flag, and that flag's wire value is the number |
| Repository.FeedsRequest | DataModel/TTRssDataSource.cs:212-214 | op getFeeds with cat_id -4, no sid of its own (RequestsCarryNoSid); its use is stated by GetGroupsAsync's contract |
| Repository.HeadlinesRequest | DataModel/TTRssDataSource.cs:254-257 | op getHeadlines with the feed id and show_content true, no sid of its own (RequestsCarryNoSid); its use is stated by GetGroupAsync's contract |
| Repository.ArticleRequest | DataModel/TTRssDataSource.cs:295-297 | op getArticle with the article id, no sid of its own (RequestsCarryNoSid); its use is stated by GetItemAsync's contract |
| Repository.ToggleRequest | DataModel/TTRssDataSource.cs:180-184 | exactly op updateArticle, article_ids, mode 2 and the flag's wire value, as ToggleRequestRoundTrip and ToggleRequestOnly state |
| Repository.IconUri | DataModel/TTRssDataSource.cs:227-228 | the icon path of a feed; never the placeholder (IconUriNotPlaceholder) |
| Repository.LenientInt | DataModel/TTRssDataSource.cs:229-235 | a number as it is, a string through int.Parse, anything else -1; stated by UnreadNumberOrString, UnreadOtherTypes and UnreadFailure |
| Repository.UnreadText | DataModel/TTRssDataSource.cs:237-238 | "<n> unread", or "" for -1; stated by UnreadNumberOrString, UnreadOtherTypes and UnreadFailure |
| Repository.WrapContent | DataModel/TTRssDataSource.cs:282 | the server's HTML between the style sheet and the body tags, recovered intact by WrapUnwrap |
| Repository.DecodeFeed | DataModel/TTRssDataSource.cs:222-240 | one getFeeds entry read as a feed; its fields are those FeedFields states |
| Repository.HeadlineIcon | DataModel/TTRssDataSource.cs:269-279 | the icon of a headline; stated by HeadlineIconRule |
| Repository.DecodeHeadline | DataModel/TTRssDataSource.cs:268-283 | one getHeadlines entry read as an article; its fields are those HeadlineFields states |
| Repository.DecodeArticle | DataModel/TTRssDataSource.cs:300-302 | the first getArticle entry read as an article; stated by ArticleFields and ArticleFirstOnly |
| Repository.FindFeed | DataModel/TTRssDataSource.cs:262-263 | the position of the first feed with the id, or none when no feed has it |
| Repository.DecodeEach | DataModel/TTRssDataSource.cs:220-242 | a foreach that adds one decoded entry at a time never produces more values than entries |
| Repository.DecodeEachMeaning | DataModel/TTRssDataSource.cs:266-284 | each value added comes from the entry at the same position; either every entry was added, or the next entry is the one that failed, with that failure |
| Repository.DecodeEachSnoc | DataModel/TTRssDataSource.cs:220-242 | one more loop iteration after a complete prefix adds the decoded entry or stops at its failure |
| Repository.DecodeEachStops | DataModel/TTRssDataSource.cs:266-284 | an entry that fails ends the loop, whatever follows it |
| RepositoryProperties.FlagWireRoundTrip | DataModel/TTRssDataSource.cs:18-21 | Starred is 0, Published 1, Read 2 on the wire, and the wire value reads back as the same flag |
| RepositoryProperties.ToggleRequestRoundTrip | DataModel/TTRssDataSource.cs:180-184 | the toggle request has exactly op, article_ids, mode and field, and reads back as the article and flag it was built from |
| RepositoryProperties.ToggleRequestOnly | DataModel/TTRssDataSource.cs:180-184 | any request that reads as a toggle of an article and flag is exactly updateArticle with that id, mode 2 and that flag's wire value |
| RepositoryProperties.RequestsCarryNoSid | DataModel/TTRssDataSource.cs:132-137 | neither the login nor any of the four requests carries a sid, so the token QueryApi attaches is the only one sent |
| RepositoryProperties.UnreadNumberOrString | DataModel/TTRssDataSource.cs:229-238 | a count sent as a number or as its decimal text gives the same subtitle, "<n> unread", or "" for -1 |
| RepositoryProperties.UnreadOtherTypes | DataModel/TTRssDataSource.cs:229-238 | a count that is neither number nor string gives an empty subtitle |
| RepositoryProperties.UnreadFailure | DataModel/TTRssDataSource.cs:234-235 | decoding the count fails exactly when it is a string int.Parse rejects, with int.Parse's error |
| RepositoryProperties.IconUriNotPlaceholder | DataModel/TTRssDataSource.cs:223-228 | an icon URI is never the placeholder |
| RepositoryProperties.FeedFields | DataModel/TTRssDataSource.cs:222-240 | a decoded feed takes id and title from its entry and its subtitle from the unread count, and gets the icon URI from base URI and id iff has_icon is true (missing counts as false), the placeholder otherwise |
| RepositoryProperties.FeedDecodes | DataModel/TTRssDataSource.cs:222-240 | a feed entry decodes if and only if it is an object with a numeric id, a string title, an unread count that reads leniently and a boolean has_icon when present; then it becomes exactly the feed its fields describe |
| RepositoryProperties.FeedsAllRead | DataModel/TTRssDataSource.cs:220-242 | a feed list whose entries are all readable is read completely: one feed per entry, no failure |
| RepositoryProperties.HeadlineIconRule | DataModel/TTRssDataSource.cs:269-279 | a headline gets the icon URI iff its feed id is not -1 and the first known feed with that id has its own icon; naming an unknown feed is an error |
| RepositoryProperties.WrapUnwrap | DataModel/TTRssDataSource.cs:282 | the wrapped content holds the server's HTML intact between the style sheet plus "<body>" and "</body>" |
| RepositoryProperties.HeadlineFields | DataModel/TTRssDataSource.cs:268-283 | a headline takes id, title, link and wrapped content from its entry, feed_title as subtitle, IsRead as not unread, and its icon by the headline icon rule on the lenient feed_id |
| RepositoryProperties.HeadlineDecodes | DataModel/TTRssDataSource.cs:268-283 | a headline entry decodes if and only if it is an object whose feed_id reads leniently and names no unknown feed, with string content, title, feed_title and link, a numeric id and a boolean unread; then it becomes exactly the article its fields describe |
| RepositoryProperties.HeadlinesAllRead | DataModel/TTRssDataSource.cs:266-284 | a headline list whose entries are all readable is read completely: one article per entry, no failure |
| RepositoryProperties.ArticleDecodes | DataModel/TTRssDataSource.cs:300-302 | the getArticle content decodes if and only if its first entry is an object with string content, title, author and link, a numeric id and a boolean unread; then it becomes exactly the article that entry describes |
| RepositoryProperties.ArticleFields | DataModel/TTRssDataSource.cs:300-302 | a fetched article comes from the first entry, takes author as subtitle and always the placeholder icon |
| RepositoryProperties.ArticleFirstOnly | DataModel/TTRssDataSource.cs:300 | only the first content entry is read, and an empty content array is an error |
| RepositoryProperties.FindFeedMissing | DataModel/TTRssDataSource.cs:262-263 | the feed lookup fails exactly when no known feed has the id |
| Numbers.IntToString | DataModel/TTRssDataSource.cs:228 | int.ToString() gives a minus sign exactly for negative numbers, followed by decimal digits |
| Numbers.ParseInt | DataModel/TTRssDataSource.cs:235 | int.Parse succeeds only with a 32-bit value |
| Numbers.NatToDigitsNoLeadingZero | DataModel/TTRssDataSource.cs:228 | the decimal digits of a number start with '0' only for 0 |
| Numbers.IntToStringCanonical | DataModel/TTRssDataSource.cs:237-238 | int.ToString() prints no leading zero ("5", never "05"); 0 is "0" |
| Numbers.TrimStartKeeps | DataModel/TTRssDataSource.cs:235 | skipping leading white space drops only a prefix, and keeps every character from the first that is not white space |
| Numbers.TrimEndKeeps | DataModel/TTRssDataSource.cs:235 | skipping trailing white space drops only a suffix, and keeps every character up to the last that is not white space |
| Numbers.ParseIntRejects | DataModel/TTRssDataSource.cs:235 | int.Parse throws a FormatException on text with any character that is not a digit, white space or a sign |
| RepositoryProperties.NonNumericTextFails | DataModel/TTRssDataSource.cs:234-235 | a count or feed id sent as text such as "many" fails the decoding with int.Parse's FormatException instead of reading as a number |
| Numbers.ParseIntOfIntToString | DataModel/TTRssDataSource.cs:232-235 | int.Parse reads back every 32-bit integer from the text int.ToString() prints |

## Left out

- HTTP: `HttpClient.PostAsync` and reading the body are a script of replies consumed one per POST; an exhausted script stands for a transport failure (`NoResponse`). The request URI (`InstanceUri` plus `api/`) and the serialisation by `Stringify` are not modelled; the log records the request object.
- JSON parsing: `JsonObject.TryParse` is the reply being a JSON object or not. Numbers are integers, so `(int)` casts of doubles and their truncation are not modelled, and the id in a feed icon path is printed as an integer, which differs from a double's `ToString()` for very large ids.
- The request object passed to `QueryApi` is modelled as a value. The source adds "sid" to the caller's object in place; the callers never read it afterwards, and the re-sends inside `QueryApi` overwrite the sid, so the requests sent are the same (`InjectOverrides`).
- `new Uri(link)` is not modelled: the link is kept as text, so an article whose link is not a valid URI does not fail.
- `GetNamedBoolean("has_icon", false)` with a value present that is not a boolean is modelled as an error, like the other `GetNamed*` accessors on a value of the wrong type.
- `System.Uri` normalisation: the base URI is taken as the text `InstanceUri.ToString()` prints, so an icon path for a bare host such as `http://h` carries the normalised `http://h/` (giving `http://h//feed-icons/42.ico`); the normalisation itself is not modelled.
- `async`/`await`: operations are sequential methods; there is no concurrency in the model.
- Static state: `_token` and `Groups` are fields of one data-source object, and the settings singleton is three read-only constructor inputs.
- `INotifyPropertyChanged` and the `ObservableCollection` change events: only the names announced by the `IsRead` setter are recorded, as a ghost log. `ToString` of articles and feeds is not modelled.
- Unbounded re-login: the source re-logs in on every `NOT_LOGGED_IN`; the model terminates because each POST consumes a scripted reply.
- Transport failures other than an exhausted script (connection errors, HTTP status codes) are not modelled.
- The page code, the application lifecycle, the settings flyout and the value converter are not part of this model.
