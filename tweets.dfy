/**
  How `postTweet` turns a tweet of the home timeline into the attachments of
  one chat post: the text choice for reshares and truncated tweets, the title
  link, and the photos (the first one inline, each further one as an
  attachment of its own).
*/
module Tweets {
  import opened Wrappers
  import opened GoStrings

  datatype TwitterUser = TwitterUser(screenName: string, name: string, profileImageUrlHttps: string)

  /** One entry of `ExtendedEntities.Media`. */
  datatype MediaEntity = MediaEntity(kind: string, mediaUrlHttps: string)

  /**
    The fields of a tweet that the bot reads. `extendedTweet` is the `FullText` of
    the `ExtendedTweet` pointer (`None` for nil), `retweetedStatus` the
    `RetweetedStatus` pointer, and `media` the `ExtendedEntities.Media` slice
    (`None` when `ExtendedEntities` or its `Media` is nil).
  */
  datatype Tweet = Tweet(
    id: int,
    user: TwitterUser,
    fullText: string,
    truncated: bool,
    extendedTweet: Option<string>,
    retweeted: bool,
    retweetedStatus: Option<Tweet>,
    media: Option<seq<MediaEntity>>)

  /** A Slack-style attachment as Mattermost renders it; `fields` holds the field values. */
  datatype Attachment = Attachment(
    pretext: string,
    fields: seq<string>,
    text: string,
    thumbUrl: string,
    title: string,
    titleLink: string,
    imageUrl: string)

  /** The attachment that carries nothing but an image. */
  function ImageOnly(url: string): Attachment {
    Attachment("", [], "", "", "", "", url)
  }

  /**
    The text of a tweet: its own `FullText`, or the extended `FullText` when it is
    truncated. `None` stands for the nil `ExtendedTweet` that Go would dereference.
  */
  function FullTextOf(t: Tweet): (r: Option<string>)
    ensures r.None? <==> t.truncated && t.extendedTweet.None?
  {
    if !t.truncated then Some(t.fullText) else t.extendedTweet
  }

  /** The reshare marker put before the text of a retweeted status. */
  function RetweetHeader(screenName: string): string {
    " RT @[" + screenName + "](https://twitter.com/" + screenName + ")\n> "
  }

  /**
    The text choice of `postTweet`; `None` when Go would dereference a nil
    `RetweetedStatus` or a nil `ExtendedTweet`.
  */
  function TweetText(t: Tweet): Option<string> {
    if t.retweeted then
      match t.retweetedStatus
      case None => None
      case Some(rs) =>
        match FullTextOf(rs)
        case None => None
        case Some(text) => Some(RetweetHeader(rs.user.screenName) + text)
    else FullTextOf(t)
  }

  /** The text of a reshare is the marker followed by the original's text; otherwise the tweet's own text. */
  lemma TextChoice(t: Tweet)
    ensures t.retweeted && t.retweetedStatus.Some? && FullTextOf(t.retweetedStatus.value).Some? ==>
      TweetText(t) == Some(RetweetHeader(t.retweetedStatus.value.user.screenName) + FullTextOf(t.retweetedStatus.value).value)
    ensures !t.retweeted ==> TweetText(t) == FullTextOf(t)
    ensures TweetText(t).None? <==>
      (if t.retweeted then t.retweetedStatus.None? || (t.retweetedStatus.value.truncated && t.retweetedStatus.value.extendedTweet.None?)
       else t.truncated && t.extendedTweet.None?)
  {
  }

  /** The image URLs of the photo media, in order; other media kinds are skipped. */
  function Photos(media: seq<MediaEntity>): (r: seq<string>)
    ensures |r| <= |media|
  {
    if media == [] then []
    else
      var last := media[|media| - 1];
      Photos(media[..|media| - 1]) + (if last.kind == "photo" then [last.mediaUrlHttps] else [])
  }

  lemma PhotosPrefix(media: seq<MediaEntity>, i: nat)
    requires i < |media|
    ensures Photos(media[..i + 1]) ==
      Photos(media[..i]) + (if media[i].kind == "photo" then [media[i].mediaUrlHttps] else [])
  {
    assert media[..i + 1][..i] == media[..i];
  }

  function MediaOf(t: Tweet): seq<MediaEntity> {
    if t.media.Some? then t.media.value else []
  }

  const StatusLinkPrefix: string := "https://twitter.com/statuses/"

  /** The first attachment, before any photo is applied to it. */
  function HeadAttachment(t: Tweet, text: string): Attachment {
    Attachment("", [text], "", t.user.profileImageUrlHttps, t.user.name, StatusLinkPrefix + FormatInt(t.id), "")
  }

  /** First photo inline in `head`, every further photo as an image-only attachment. */
  function Layout(head: Attachment, photos: seq<string>): seq<Attachment> {
    if |photos| == 0 then [head]
    else if |photos| == 1 then [head.(imageUrl := photos[0])]
    else Layout(head, photos[..|photos| - 1]) + [ImageOnly(photos[|photos| - 1])]
  }

  lemma LayoutSnoc(head: Attachment, photos: seq<string>, url: string)
    ensures Layout(head, photos + [url]) ==
      if |photos| == 0 then [head.(imageUrl := url)] else Layout(head, photos) + [ImageOnly(url)]
  {
    assert (photos + [url])[..|photos|] == photos;
  }

  lemma {:induction false} LayoutShape(head: Attachment, photos: seq<string>)
    ensures var a := Layout(head, photos);
      && |a| == 1 + (if |photos| == 0 then 0 else |photos| - 1)
      && a[0] == (if |photos| == 0 then head else head.(imageUrl := photos[0]))
      && (forall k :: 1 <= k < |a| ==> a[k] == ImageOnly(photos[k]))
  {
    if |photos| > 1 {
      var init := photos[..|photos| - 1];
      LayoutShape(head, init);
      assert forall k :: 0 <= k < |init| ==> init[k] == photos[k];
    }
  }

  /** The attachments `postTweet` sends for a tweet; `None` when it would dereference nil. */
  function Attachments(t: Tweet): Option<seq<Attachment>> {
    match TweetText(t)
    case None => None
    case Some(text) => Some(Layout(HeadAttachment(t, text), Photos(MediaOf(t))))
  }

  /**
    The rendered post: one attachment plus one per photo after the first; the
    text is the single field of the first attachment, whose title links to the
    status; photo `k` is the image of attachment `k`, in media order.
  */
  lemma AttachmentLayout(t: Tweet)
    requires TweetText(t).Some?
    ensures var a := Attachments(t).value; var photos := Photos(MediaOf(t));
      && |a| == 1 + (if |photos| == 0 then 0 else |photos| - 1)
      && a[0].fields == [TweetText(t).value]
      && a[0].titleLink == StatusLinkPrefix + FormatInt(t.id)
      && a[0].title == t.user.name && a[0].thumbUrl == t.user.profileImageUrlHttps
      && a[0].imageUrl == (if |photos| == 0 then "" else photos[0])
      && (forall k :: 1 <= k < |a| ==> a[k] == ImageOnly(photos[k]))
  {
    var head := HeadAttachment(t, TweetText(t).value);
    LayoutShape(head, Photos(MediaOf(t)));
  }

  /**
    The attachment-building part of `postTweet`: the text choice, then the loop
    over the media with its count of applied photos.
  */
  method BuildAttachments(t: Tweet) returns (r: Option<seq<Attachment>>)
    ensures r == Attachments(t)
  {
    var text := ChooseText(t);
    if text.None? {
      return None;
    }
    var head := HeadAttachment(t, text.value);
    var atts := [head];
    if t.media.Some? {
      atts := LayoutMedia(head, t.media.value);
    }
    r := Some(atts);
  }

  /** The text choice of `postTweet`, reporting the nil it would dereference as `None`. */
  method ChooseText(t: Tweet) returns (r: Option<string>)
    ensures r == TweetText(t)
  {
    var text: string;
    if t.retweeted {
      if t.retweetedStatus.None? { return None; }
      var rs := t.retweetedStatus.value;
      text := RetweetHeader(rs.user.screenName);
      if !rs.truncated {
        text := text + rs.fullText;
      } else {
        if rs.extendedTweet.None? { return None; }
        text := text + rs.extendedTweet.value;
      }
    } else {
      if !t.truncated {
        text := t.fullText;
      } else {
        if t.extendedTweet.None? { return None; }
        text := t.extendedTweet.value;
      }
    }
    r := Some(text);
  }

  /** The media loop of `postTweet`, with its count of applied photos. */
  method LayoutMedia(head: Attachment, media: seq<MediaEntity>) returns (atts: seq<Attachment>)
    ensures atts == Layout(head, Photos(media))
  {
    atts := [head];
    var applied := 0;
    for i := 0 to |media|
      invariant applied == |Photos(media[..i])|
      invariant atts == Layout(head, Photos(media[..i]))
    {
      PhotosPrefix(media, i);
      if media[i].kind != "photo" {
        assert Photos(media[..i + 1]) == Photos(media[..i]);
        continue;
      }
      LayoutSnoc(head, Photos(media[..i]), media[i].mediaUrlHttps);
      if applied == 0 {
        assert atts == [head];
        atts := atts[0 := atts[0].(imageUrl := media[i].mediaUrlHttps)];
        assert atts == [head.(imageUrl := media[i].mediaUrlHttps)];
      } else {
        atts := atts + [ImageOnly(media[i].mediaUrlHttps)];
      }
      applied := applied + 1;
      assert Photos(media[..i + 1]) == Photos(media[..i]) + [media[i].mediaUrlHttps];
      assert atts == Layout(head, Photos(media[..i + 1]));
    }
    assert media[..|media|] == media;
  }
}
