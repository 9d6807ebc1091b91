/**
 * The webhook controller: one inbound SocialData event becomes one HTML-tagged
 * notification, which is sent to Telegram as it is and to Discord with its
 * tags stripped; the webhook is acknowledged with 200 once formatting finished.
 *
 * The source builds the notification with successive `+=` appends; here the
 * appended pieces are the lines of a `Layout`, in source order, and the text is
 * their concatenation `RenderAll`.
 */
module Webhook {
  import opened Wrappers
  import opened Text
  import opened Html

  datatype User = User(screenName: Option<string>)
  datatype Mention = Mention(screenName: Option<string>)
  datatype Hashtag = Hashtag(text: Option<string>)
  datatype Entities = Entities(userMentions: Option<seq<Mention>>, hashtags: Option<seq<Hashtag>>)

  /**
   * The `data` object of an event. Its shape depends on the event kind (a tweet,
   * or a user record), so every field the controller reads is optional.
   * Counts are carried as the text they interpolate to.
   */
  datatype Payload = Payload(
    fullText: Option<string>, text: Option<string>, user: Option<User>, idStr: Option<string>,
    tweetCreatedAt: Option<string>, createdAt: Option<string>, entities: Option<Entities>,
    name: Option<string>, screenName: Option<string>, description: Option<string>,
    url: Option<string>, followersCount: Option<string>, friendsCount: Option<string>,
    location: Option<string>)

  datatype Meta = Meta(monitorId: Option<string>)

  /** The parsed request body `{event, data, meta}`. */
  datatype WebhookRequest = WebhookRequest(event: Option<string>, data: Option<Payload>, meta: Option<Meta>)

  /** One appended piece of the notification. */
  datatype Line =
    | TweetHeader(handle: string)
    | TweetBody(text: string)
    | TweetLink(url: string)
    | CreatedAt(at: string)
    | MentionsLine(names: seq<string>)
    | HashtagsLine(tags: seq<string>)
    | FollowingHeader
    | NameLine(name: string)
    | TwitterLine(handle: string)
    | DescriptionLine(text: string)
    | LinkLine(url: string)
    | FollowersLine(count: string)
    | FollowingLine(count: string)
    | ProfileHeader
    | BioLine(text: string)
    | LocationLine(text: string)
    | WebsiteLine(url: string)
    | EventLine(event: string)
    | MonitorIdLine(id: string)

  /** A caption in bold: `<b>caption</b>`. */
  function Bold(caption: string): string {
    "<b>" + caption + "</b>"
  }

  /** The exact text each piece appends. */
  function Render(l: Line): string {
    match l
    case TweetHeader(h) => "\U{1F426} " + Bold("New Tweet from @" + h) + "\n"
    case TweetBody(t) => Bold("Tweet:") + " " + t + "\n"
    case TweetLink(u) => Bold("Link:") + " <a href=\"" + u + "\">" + u + "</a>\n"
    case CreatedAt(a) => Bold("Created:") + " " + a + "\n"
    case MentionsLine(ns) => Bold("Mentions:") + " " + Join(PrefixEach("@", ns), ", ") + "\n"
    case HashtagsLine(ts) => Bold("Hashtags:") + " " + Join(PrefixEach("#", ts), ", ") + "\n"
    case FollowingHeader => "\U{1F91D} " + Bold("New Following") + "\n"
    case NameLine(n) => Bold("Name:") + " " + n + "\n"
    case TwitterLine(h) => Bold("Twitter:") + " <a href=\"https://twitter.com/" + h + "\">@" + h + "</a>\n"
    case DescriptionLine(t) => Bold("Description:") + " " + t + "\n"
    case LinkLine(u) => Bold("Link:") + " " + u + "\n"
    case FollowersLine(c) => Bold("Followers:") + " " + c + "\n"
    case FollowingLine(c) => Bold("Following:") + " " + c + "\n"
    case ProfileHeader => "\U{1F504} " + Bold("Profile Update") + "\n"
    case BioLine(t) => Bold("Bio:") + " " + t + "\n"
    case LocationLine(t) => Bold("Location:") + " " + t + "\n"
    case WebsiteLine(u) => Bold("Website:") + " " + u + "\n"
    case EventLine(e) => "\U{2139}\U{FE0F} " + Bold("Event \"" + e + "\" received.") + "\n"
    case MonitorIdLine(id) => MonitorIdLabel + id
  }

  /** The text the appends build: the pieces in order. */
  function RenderAll(ls: seq<Line>): string
    decreases |ls|
  {
    if ls == [] then "" else RenderAll(ls[..|ls| - 1]) + Render(ls[|ls| - 1])
  }

  const NoTweetText := "No tweet text available."
  const UnknownHandle := "unknown"

  /** The author handle of a tweet: `user.screen_name` when present, "unknown" otherwise. */
  function TweetHandle(d: Payload): (h: string)
    ensures d.user.Some? && Truthy(d.user.value.screenName) ==> h == d.user.value.screenName.value
    ensures !(d.user.Some? && Truthy(d.user.value.screenName)) ==> h == UnknownHandle
  {
    if d.user.Some? && Truthy(d.user.value.screenName) then d.user.value.screenName.value else UnknownHandle
  }

  /** The canonical status URL of a tweet. */
  function TweetUrl(handle: string, id: string): string {
    "https://twitter.com/" + handle + "/status/" + id
  }

  /** `entities.user_mentions`, or nothing when any part of that path is missing. */
  function MentionsOf(d: Payload): seq<Mention> {
    if d.entities.Some? && d.entities.value.userMentions.Some? then d.entities.value.userMentions.value else []
  }

  /** `entities.hashtags`, or nothing when any part of that path is missing. */
  function HashtagsOf(d: Payload): seq<Hashtag> {
    if d.entities.Some? && d.entities.value.hashtags.Some? then d.entities.value.hashtags.value else []
  }

  /** `user_mentions.map((um) => um.screen_name)`, each as interpolated. */
  function MentionNames(d: Payload): (ns: seq<string>)
    ensures |ns| == |MentionsOf(d)|
    ensures forall k :: 0 <= k < |ns| ==> ns[k] == Shown(MentionsOf(d)[k].screenName)
  {
    var ms := MentionsOf(d);
    seq(|ms|, k requires 0 <= k < |ms| => Shown(ms[k].screenName))
  }

  /** `hashtags.map((tag) => tag.text)`, each as interpolated. */
  function HashtagNames(d: Payload): (ts: seq<string>)
    ensures |ts| == |HashtagsOf(d)|
    ensures forall k :: 0 <= k < |ts| ==> ts[k] == Shown(HashtagsOf(d)[k].text)
  {
    var hs := HashtagsOf(d);
    seq(|hs|, k requires 0 <= k < |hs| => Shown(hs[k].text))
  }

  /** The four lines every tweet notification starts with. */
  function TweetBase(d: Payload): seq<Line> {
    var handle := TweetHandle(d);
    [ TweetHeader(handle),
      TweetBody(OrElse(Or(d.fullText, d.text), NoTweetText)),
      TweetLink(TweetUrl(handle, Shown(d.idStr))),
      CreatedAt(Shown(Or(d.tweetCreatedAt, d.createdAt))) ]
  }

  /** The mentions line, when the tweet mentions someone. */
  function MentionsPart(d: Payload): seq<Line> {
    if |MentionsOf(d)| > 0 then [MentionsLine(MentionNames(d))] else []
  }

  /** The hashtags line, when the tweet carries hashtags. */
  function HashtagsPart(d: Payload): seq<Line> {
    if |HashtagsOf(d)| > 0 then [HashtagsLine(HashtagNames(d))] else []
  }

  /** The lines of a `new_tweet` notification. */
  function TweetLines(d: Payload): seq<Line> {
    TweetBase(d) + MentionsPart(d) + HashtagsPart(d)
  }

  /**
   * A tweet notification starts with header, text, link and creation time, with
   * the `full_text`/`text`/default and `tweet_created_at`/`created_at` fallbacks.
   */
  lemma TweetLinesBase(d: Payload)
    ensures 4 <= |TweetLines(d)| <= 6
    ensures TweetLines(d)[0] == TweetHeader(TweetHandle(d))
    ensures TweetLines(d)[1] == TweetBody(if Truthy(d.fullText) then d.fullText.value
                                          else if Truthy(d.text) then d.text.value
                                          else NoTweetText)
    ensures TweetLines(d)[2] == TweetLink(TweetUrl(TweetHandle(d), Shown(d.idStr)))
    ensures TweetLines(d)[3] == CreatedAt(Shown(if Truthy(d.tweetCreatedAt) then d.tweetCreatedAt else d.createdAt))
  {
  }

  /** No line of a tweet notification carries the monitor id. */
  lemma TweetLinesNoMonitorId(d: Payload)
    ensures forall i :: 0 <= i < |TweetLines(d)| ==> !TweetLines(d)[i].MonitorIdLine?
  {
  }

  /** One more mention appends a separator and the `@`-prefixed name to the mentions text. */
  lemma MentionsTextSnoc(ns: seq<string>, n: string)
    requires |ns| > 0
    ensures Join(PrefixEach("@", ns + [n]), ", ") == Join(PrefixEach("@", ns), ", ") + ", " + ("@" + n)
  {
    assert PrefixEach("@", ns + [n]) == PrefixEach("@", ns) + ["@" + n];
    JoinSnoc(PrefixEach("@", ns), "@" + n, ", ");
  }

  /** A tweet notification has a mentions line exactly when there are mentions, and it lists them all in order. */
  lemma TweetLinesMentions(d: Payload)
    ensures (exists i :: 0 <= i < |TweetLines(d)| && TweetLines(d)[i].MentionsLine?) <==> |MentionsOf(d)| > 0
    ensures forall i :: 0 <= i < |TweetLines(d)| && TweetLines(d)[i].MentionsLine? ==>
              TweetLines(d)[i].names == MentionNames(d)
  {
    assert |MentionsOf(d)| > 0 ==> TweetLines(d)[4].MentionsLine?;
  }

  /** A tweet notification has a hashtags line exactly when there are hashtags, and it lists them all in order. */
  lemma TweetLinesHashtags(d: Payload)
    ensures (exists i :: 0 <= i < |TweetLines(d)| && TweetLines(d)[i].HashtagsLine?) <==> |HashtagsOf(d)| > 0
    ensures forall i :: 0 <= i < |TweetLines(d)| && TweetLines(d)[i].HashtagsLine? ==>
              TweetLines(d)[i].tags == HashtagNames(d)
  {
    var ls := TweetLines(d);
    assert |HashtagsOf(d)| > 0 ==> ls[|ls| - 1].HashtagsLine?;
  }

  /** The lines of a `new_following` notification; `data` is the followed user (see `FollowingLinesContents`). */
  function FollowingLines(d: Payload): seq<Line> {
    FollowingHead(d) + LinkPart(d) + [FollowersLine(Shown(d.followersCount)), FollowingLine(Shown(d.friendsCount))]
  }

  /** Header, name, handle and description of a following notification. */
  function FollowingHead(d: Payload): seq<Line> {
    [ FollowingHeader,
      NameLine(Shown(d.name)),
      TwitterLine(Shown(d.screenName)),
      DescriptionLine(OrElse(d.description, "No description")) ]
  }

  /** The link line, when the followed user has a `url`. */
  function LinkPart(d: Payload): seq<Line> {
    if Truthy(d.url) then [LinkLine(d.url.value)] else []
  }

  /**
   * A following notification has name, handle and description (with its
   * default), a link line exactly when `url` is truthy, and followers and
   * following last; no line is a monitor-id line.
   */
  lemma FollowingLinesContents(d: Payload)
    ensures var ls := FollowingLines(d);
      && 6 <= |ls| <= 7
      && ls[..4] == [FollowingHeader, NameLine(Shown(d.name)), TwitterLine(Shown(d.screenName)),
                     DescriptionLine(if Truthy(d.description) then d.description.value else "No description")]
      && ((exists i :: 0 <= i < |ls| && ls[i].LinkLine?) <==> Truthy(d.url))
      && (Truthy(d.url) ==> ls[4] == LinkLine(d.url.value))
      && ls[|ls| - 2..] == [FollowersLine(Shown(d.followersCount)), FollowingLine(Shown(d.friendsCount))]
      && (forall i :: 0 <= i < |ls| ==> !ls[i].MonitorIdLine?)
  {
    var ls := FollowingLines(d);
    assert Truthy(d.url) ==> ls[4].LinkLine?;
  }

  /** The lines of a `profile_update` notification (see `ProfileLinesContents`). */
  function ProfileLines(d: Payload): seq<Line> {
    ProfileHead(d) + (if Truthy(d.url) then [WebsiteLine(d.url.value)] else [])
  }

  /** Header, name, bio and location of a profile notification. */
  function ProfileHead(d: Payload): seq<Line> {
    [ ProfileHeader,
      NameLine(Shown(d.name)),
      BioLine(OrElse(d.description, "No bio")),
      LocationLine(OrElse(d.location, "No location")) ]
  }

  /**
   * A profile notification has name, bio and location (with their defaults),
   * a website line exactly when `url` is truthy, and no monitor-id line.
   */
  lemma ProfileLinesContents(d: Payload)
    ensures var ls := ProfileLines(d);
      && 4 <= |ls| <= 5
      && ls[..4] == [ProfileHeader, NameLine(Shown(d.name)),
                     BioLine(if Truthy(d.description) then d.description.value else "No bio"),
                     LocationLine(if Truthy(d.location) then d.location.value else "No location")]
      && ((exists i :: 0 <= i < |ls| && ls[i].WebsiteLine?) <==> Truthy(d.url))
      && (Truthy(d.url) ==> ls[4] == WebsiteLine(d.url.value))
      && (forall i :: 0 <= i < |ls| ==> !ls[i].MonitorIdLine?)
  {
    var ls := ProfileLines(d);
    assert Truthy(d.url) ==> ls[4].WebsiteLine?;
  }

  /** The three event kinds with a dedicated layout. */
  predicate KnownEvent(event: Option<string>) {
    event == Some("new_tweet") || event == Some("new_following") || event == Some("profile_update")
  }

  /** The lines of the event-kind branch, or None when the branch reads a field of a missing `data`. */
  function EventBody(req: WebhookRequest): (r: Option<seq<Line>>)
    ensures r.None? <==> KnownEvent(req.event) && req.data.None?
    ensures r.Some? && req.event == Some("new_tweet") ==> r.value == TweetLines(req.data.value)
    ensures r.Some? && req.event == Some("new_following") ==> r.value == FollowingLines(req.data.value)
    ensures r.Some? && req.event == Some("profile_update") ==> r.value == ProfileLines(req.data.value)
    ensures !KnownEvent(req.event) ==> r == Some([EventLine(Shown(req.event))])
  {
    if req.event == Some("new_tweet") then
      (if req.data.Some? then Some(TweetLines(req.data.value)) else None)
    else if req.event == Some("new_following") then
      (if req.data.Some? then Some(FollowingLines(req.data.value)) else None)
    else if req.event == Some("profile_update") then
      (if req.data.Some? then Some(ProfileLines(req.data.value)) else None)
    else Some([EventLine(Shown(req.event))])
  }

  /** The branch's lines are at least one, and none of them carries the monitor id. */
  lemma EventBodyLines(req: WebhookRequest)
    requires EventBody(req).Some?
    ensures |EventBody(req).value| >= 1
    ensures forall i :: 0 <= i < |EventBody(req).value| ==> !EventBody(req).value[i].MonitorIdLine?
  {
    if req.event == Some("new_tweet") {
      TweetLinesBase(req.data.value);
      TweetLinesNoMonitorId(req.data.value);
    } else if req.event == Some("new_following") {
      FollowingLinesContents(req.data.value);
    } else if req.event == Some("profile_update") {
      ProfileLinesContents(req.data.value);
    }
  }

  /**
   * The whole notification, or None when formatting throws: reading a field of a
   * missing `data` for a known kind, or `meta.monitor_id` of a missing `meta`.
   */
  function Layout(req: WebhookRequest): (r: Option<seq<Line>>)
    ensures r.Some? <==> req.meta.Some? && (KnownEvent(req.event) ==> req.data.Some?)
    ensures r.Some? ==>
              && |r.value| >= 2
              && r.value[|r.value| - 1] == MonitorIdLine(Shown(req.meta.value.monitorId))
              && forall i :: 0 <= i < |r.value| - 1 ==> !r.value[i].MonitorIdLine?
    ensures r.Some? && req.event == Some("new_tweet") ==> r.value[..|r.value| - 1] == TweetLines(req.data.value)
    ensures r.Some? && req.event == Some("new_following") ==> r.value[..|r.value| - 1] == FollowingLines(req.data.value)
    ensures r.Some? && req.event == Some("profile_update") ==> r.value[..|r.value| - 1] == ProfileLines(req.data.value)
    ensures r.Some? && !KnownEvent(req.event) ==>
              r.value == [EventLine(Shown(req.event)), MonitorIdLine(Shown(req.meta.value.monitorId))]
  {
    var body := EventBody(req);
    if body.None? || req.meta.None? then None
    else
      EventBodyLines(req);
      var ls := body.value + [MonitorIdLine(Shown(req.meta.value.monitorId))];
      assert ls[..|ls| - 1] == body.value;
      Some(ls)
  }

  /** The Telegram text of an event, or None when formatting throws. */
  function Message(req: WebhookRequest): (r: Option<string>)
    ensures r.Some? <==> req.meta.Some? && (KnownEvent(req.event) ==> req.data.Some?)
  {
    if Layout(req).Some? then Some(RenderAll(Layout(req).value)) else None
  }

  /** What precedes the monitor id at the end of every notification. */
  const MonitorIdLabel := "\n" + Bold("Monitor ID:") + " "

  /** Every notification ends with the monitor id caption followed by `meta.monitor_id`. */
  lemma MessageEndsWithMonitorId(req: WebhookRequest)
    requires Message(req).Some?
    ensures var m := Message(req).value;
            var suffix := MonitorIdLabel + Shown(req.meta.value.monitorId);
            |suffix| <= |m| && m[|m| - |suffix|..] == suffix
  {
    var ls := Layout(req).value;
    var id := Shown(req.meta.value.monitorId);
    assert ls[|ls| - 1] == MonitorIdLine(id);
    RenderMonitorId(id);
    RenderAllLast(ls);
    EndsWith(RenderAll(ls[..|ls| - 1]), MonitorIdLabel + id);
  }

  /** The monitor id line is the caption followed by the id. */
  lemma RenderMonitorId(id: string)
    ensures Render(MonitorIdLine(id)) == MonitorIdLabel + id
  {
  }

  /** The text of a non-empty list of pieces ends with its last piece. */
  lemma RenderAllLast(ls: seq<Line>)
    requires |ls| > 0
    ensures RenderAll(ls) == RenderAll(ls[..|ls| - 1]) + Render(ls[|ls| - 1])
  {
  }

  /** `b` is the suffix of `a + b`. */
  lemma EndsWith(a: string, b: string)
    ensures |b| <= |a + b| && (a + b)[|a + b| - |b|..] == b
  {
  }

  /** A bold caption loses its two tags on Discord. */
  lemma StripBold(caption: string, rest: string)
    requires '<' !in caption
    ensures StripTags(Bold(caption) + rest) == caption + StripTags(rest)
  {
    assert Bold(caption) + rest == "<" + "b" + ">" + (caption + ("<" + "/b" + ">" + rest));
    StripTagsDropsTag("b", caption + ("<" + "/b" + ">" + rest));
    StripTagsKeepsPlain(caption, "<" + "/b" + ">" + rest);
    StripTagsDropsTag("/b", rest);
  }

  /** A line made of plain text, a bold caption and plain text reads without its tags on Discord. */
  lemma PlainBoldLine(p: string, caption: string, tail: string)
    requires '<' !in p && '<' !in caption && '<' !in tail
    ensures StripTags(p + (Bold(caption) + tail)) == p + (caption + tail)
  {
    StripTagsKeepsPlain(p, Bold(caption) + tail);
    StripBold(caption, tail);
    StripTagsKeepsPlain(tail, []);
    assert tail + [] == tail;
  }

  /** On Discord the monitor id line reads as plain text when the id holds no `<`. */
  lemma PlainMonitorIdLine(id: string)
    requires '<' !in id
    ensures StripTags(Render(MonitorIdLine(id))) == "\n" + "Monitor ID:" + " " + id
  {
    var caption := "Monitor ID:";
    var tail := " " + id;
    assert Render(MonitorIdLine(id)) == "\n" + (Bold(caption) + tail);
    PlainBoldLine("\n", caption, tail);
  }

  /** A `new_tweet` event with data and meta is its tweet lines and then the monitor id. */
  lemma TweetLayout(d: Payload, meta: Meta)
    ensures Layout(WebhookRequest(Some("new_tweet"), Some(d), Some(meta))) ==
              Some(TweetLines(d) + [MonitorIdLine(Shown(meta.monitorId))])
  {
    var ls := Layout(WebhookRequest(Some("new_tweet"), Some(d), Some(meta))).value;
    assert ls == ls[..|ls| - 1] + [ls[|ls| - 1]];
  }

  /** A tweet with only a text, an author and an id: no mentions, no hashtags and no creation time. */
  lemma PlainTweetLines(text: string, name: string, id: string)
    requires text != "" && name != ""
    ensures TweetLines(Payload(None, Some(text), Some(User(Some(name))), Some(id),
                               None, None, None, None, None, None, None, None, None, None)) ==
              [TweetHeader(name), TweetBody(text), TweetLink(TweetUrl(name, id)), CreatedAt("undefined")]
  {
    var d := Payload(None, Some(text), Some(User(Some(name))), Some(id),
                     None, None, None, None, None, None, None, None, None, None);
    assert MentionsPart(d) == [] && HashtagsPart(d) == [];
  }

  /** The whole layout of such a tweet. */
  lemma PlainTweetLayout(text: string, name: string, id: string, monitorId: string)
    requires text != "" && name != ""
    ensures var d := Payload(None, Some(text), Some(User(Some(name))), Some(id),
                             None, None, None, None, None, None, None, None, None, None);
            Layout(WebhookRequest(Some("new_tweet"), Some(d), Some(Meta(Some(monitorId))))) ==
              Some([TweetHeader(name), TweetBody(text), TweetLink(TweetUrl(name, id)),
                    CreatedAt("undefined"), MonitorIdLine(monitorId)])
  {
    var d := Payload(None, Some(text), Some(User(Some(name))), Some(id),
                     None, None, None, None, None, None, None, None, None, None);
    TweetLayout(d, Meta(Some(monitorId)));
    PlainTweetLines(text, name, id);
    var base := [TweetHeader(name), TweetBody(text), TweetLink(TweetUrl(name, id)), CreatedAt("undefined")];
    assert base + [MonitorIdLine(monitorId)] ==
      [TweetHeader(name), TweetBody(text), TweetLink(TweetUrl(name, id)), CreatedAt("undefined"), MonitorIdLine(monitorId)];
  }

  /** The tweet of the worked example: text "hello" by alice, status 42, monitor m1. */
  lemma ExampleTweet()
    ensures var d := Payload(None, Some("hello"), Some(User(Some("alice"))), Some("42"),
                             None, None, None, None, None, None, None, None, None, None);
            Layout(WebhookRequest(Some("new_tweet"), Some(d), Some(Meta(Some("m1"))))) ==
              Some([TweetHeader("alice"), TweetBody("hello"),
                    TweetLink("https://twitter.com/" + "alice" + "/status/" + "42"),
                    CreatedAt("undefined"), MonitorIdLine("m1")])
  {
    PlainTweetLayout("hello", "alice", "42", "m1");
  }

  datatype Destination = Telegram | Discord

  /** One attempted send: where, what text, and whether it went through. */
  datatype Delivery = Delivery(destination: Destination, text: string, delivered: bool)

  /** The HTTP answer: 200 `{status: "success"}` or 500 `{status: "error", ...}`. */
  datatype Response = Response(status: nat, outcome: string)


  /** One more append is one more piece at the end. */
  lemma RenderAllSnoc(ls: seq<Line>, l: Line)
    ensures RenderAll(ls + [l]) == RenderAll(ls) + Render(l)
  {
    assert (ls + [l])[..|ls|] == ls;
  }

  /** `message += ...` for one piece, with the pieces appended so far in `lines`. */
  method Append(message: string, ghost lines: seq<Line>, l: Line) returns (message': string, ghost lines': seq<Line>)
    requires message == RenderAll(lines)
    ensures lines' == lines + [l] && message' == RenderAll(lines')
  {
    RenderAllSnoc(lines, l);
    message', lines' := message + Render(l), lines + [l];
  }

  /** The four appends every tweet notification starts with. */
  method TweetBaseMessage(d: Payload) returns (message: string, ghost lines: seq<Line>)
    ensures lines == TweetBase(d) && message == RenderAll(lines)
  {
    lines := [];
    message := "";
    var tweetText := OrElse(Or(d.fullText, d.text), NoTweetText);
    var userScreenName := TweetHandle(d);
    var tweetUrl := TweetUrl(userScreenName, Shown(d.idStr));
    message, lines := Append(message, lines, TweetHeader(userScreenName));
    message, lines := Append(message, lines, TweetBody(tweetText));
    message, lines := Append(message, lines, TweetLink(tweetUrl));
    message, lines := Append(message, lines, CreatedAt(Shown(Or(d.tweetCreatedAt, d.createdAt))));
  }

  /** The `new_tweet` branch: the appends that build the text of a tweet notification. */
  method TweetMessage(d: Payload) returns (message: string)
    ensures message == RenderAll(TweetLines(d))
  {
    ghost var lines: seq<Line>;
    message, lines := TweetBaseMessage(d);
    if |MentionsOf(d)| > 0 {
      message, lines := Append(message, lines, MentionsLine(MentionNames(d)));
    }
    assert lines == TweetBase(d) + MentionsPart(d);
    if |HashtagsOf(d)| > 0 {
      message, lines := Append(message, lines, HashtagsLine(HashtagNames(d)));
    }
    assert lines == TweetLines(d);
  }

  /** The `new_following` branch; `followedUser` is the event's `data`. */
  method FollowingMessage(followedUser: Payload) returns (message: string)
    ensures message == RenderAll(FollowingLines(followedUser))
  {
    ghost var lines: seq<Line> := [];
    message := "";
    message, lines := Append(message, lines, FollowingHeader);
    message, lines := Append(message, lines, NameLine(Shown(followedUser.name)));
    message, lines := Append(message, lines, TwitterLine(Shown(followedUser.screenName)));
    message, lines := Append(message, lines, DescriptionLine(OrElse(followedUser.description, "No description")));
    assert lines == FollowingHead(followedUser);
    if Truthy(followedUser.url) {
      message, lines := Append(message, lines, LinkLine(followedUser.url.value));
    }
    assert lines == FollowingHead(followedUser) + LinkPart(followedUser);
    message, lines := Append(message, lines, FollowersLine(Shown(followedUser.followersCount)));
    message, lines := Append(message, lines, FollowingLine(Shown(followedUser.friendsCount)));
    assert lines == FollowingLines(followedUser);
  }

  /** The `profile_update` branch. */
  method ProfileMessage(d: Payload) returns (message: string)
    ensures message == RenderAll(ProfileLines(d))
  {
    ghost var lines: seq<Line> := [];
    message := "";
    message, lines := Append(message, lines, ProfileHeader);
    message, lines := Append(message, lines, NameLine(Shown(d.name)));
    message, lines := Append(message, lines, BioLine(OrElse(d.description, "No bio")));
    message, lines := Append(message, lines, LocationLine(OrElse(d.location, "No location")));
    assert lines == ProfileHead(d);
    if Truthy(d.url) {
      message, lines := Append(message, lines, WebsiteLine(d.url.value));
    }
    assert lines == ProfileLines(d);
  }

  /**
   * The formatting half of `processWebhook`: the branch on `event`, its appends
   * and the final monitor-id append; None when one of them throws.
   */
  method FormatMessage(req: WebhookRequest) returns (message: Option<string>)
    ensures message == Message(req)
  {
    // Reading a field of a missing `data` throws.
    if KnownEvent(req.event) && req.data.None? {
      return None;
    }
    var text := "";
    ghost var body: seq<Line> := [];
    if req.event == Some("new_tweet") {
      text := TweetMessage(req.data.value);
      body := TweetLines(req.data.value);
    } else if req.event == Some("new_following") {
      text := FollowingMessage(req.data.value);
      body := FollowingLines(req.data.value);
    } else if req.event == Some("profile_update") {
      text := ProfileMessage(req.data.value);
      body := ProfileLines(req.data.value);
    } else {
      text, body := Append(text, body, EventLine(Shown(req.event)));
    }
    assert EventBody(req) == Some(body);
    // Reading `meta.monitor_id` of a missing `meta` throws.
    if req.meta.None? {
      return None;
    }
    ghost var lines;
    text, lines := Append(text, body, MonitorIdLine(Shown(req.meta.value.monitorId)));
    assert Layout(req) == Some(lines);
    message := Some(text);
  }

  /**
   * `processWebhook`: format the notification, send the HTML text to Telegram,
   * send the stripped text to Discord, answer. `telegramOk` is whether the
   * Telegram send resolves; the Discord sender catches its own errors, so that
   * send always returns.
   */
  method ProcessWebhook(req: WebhookRequest, telegramOk: bool) returns (response: Response, deliveries: seq<Delivery>)
    ensures response.status == 200 <==> Message(req).Some?
    ensures response == if Message(req).Some? then Response(200, "success") else Response(500, "error")
    ensures Message(req).None? ==> deliveries == []
    ensures Message(req).Some? ==>
              var m := Message(req).value;
              deliveries == [Delivery(Telegram, m, telegramOk), Delivery(Discord, StripTags(m), true)]
    ensures forall i :: 0 <= i < |deliveries| && deliveries[i].destination == Discord ==>
              !HasTag(deliveries[i].text)
  {
    deliveries := [];
    var formatted := FormatMessage(req);
    if formatted.None? {
      response := Response(500, "error");
      return;
    }
    var message := formatted.value;
    // The Telegram send has its own try/catch: a failure is logged and the run goes on.
    var telegram := Delivery(Telegram, message, telegramOk);
    var discordMessage := StripTags(message);
    StripTagsLeavesNoTag(message);
    deliveries := [telegram, Delivery(Discord, discordMessage, true)];
    response := Response(200, "success");
  }
}
