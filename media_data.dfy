/**
 * The media description a host fills in through `MediaData.Builder`, and its translation into the
 * Cast SDK's `MediaInfo` descriptor. The builder mutates one shared `MediaData` object; the
 * translation only reads it.
 */
module Media {
  import opened Options
  import opened Platform

  const STREAM_TYPE_NONE := 0
  const STREAM_TYPE_BUFFERED := 1
  const STREAM_TYPE_LIVE := 2
  const STREAM_TYPE_INVALID := -1

  const MEDIA_TYPE_GENERIC := 0
  const MEDIA_TYPE_MOVIE := 1
  const MEDIA_TYPE_TV_SHOW := 2
  const MEDIA_TYPE_MUSIC_TRACK := 3
  const MEDIA_TYPE_PHOTO := 4
  const MEDIA_TYPE_USER := 100

  const UNKNOWN_DURATION := -1

  /** The metadata keys `MediaMetadata.KEY_TITLE` and `MediaMetadata.KEY_SUBTITLE`. */
  const KEY_TITLE := "com.google.android.gms.cast.metadata.TITLE"
  const KEY_SUBTITLE := "com.google.android.gms.cast.metadata.SUBTITLE"

  /** The language every subtitle track is tagged with, whatever language the host passed. */
  const SUBTITLE_LANGUAGE := "en-US"

  const INT_MIN := -0x8000_0000
  const INT_MAX := 0x7fff_ffff

  /** `TextUtils.isEmpty`: null or of length zero. */
  predicate IsEmpty(s: Option<string>) {
    s.None? || s.value == []
  }

  /** Java's wrap-around of an integer into a 32-bit `int`. */
  function ToInt32(x: int): (r: int)
    ensures INT_MIN <= r <= INT_MAX
    ensures (r - x) % 0x1_0000_0000 == 0
  {
    (x - INT_MIN) % 0x1_0000_0000 + INT_MIN
  }

  /** `String.hashCode`: h = 31 * h + c over the characters, in 32-bit arithmetic. */
  function StringHashCode(s: string): (h: int)
    ensures INT_MIN <= h <= INT_MAX
  {
    if s == [] then 0 else ToInt32(31 * StringHashCode(s[..|s| - 1]) + s[|s| - 1] as int)
  }

  /** `Math.abs` on an `int`: the absolute value, except that the smallest int is its own negation. */
  function Abs32(x: int): (r: int)
    requires INT_MIN <= x <= INT_MAX
    ensures 0 <= r <= INT_MAX || r == INT_MIN
    ensures r == x || r == -x
    ensures r < 0 <==> x == INT_MIN
  {
    if x == INT_MIN then x else if x < 0 then -x else x
  }

  /** The text track `addSubtitle(url, language)` builds. */
  function SubtitleTrack(url: string, language: string): (t: MediaTrack)
    ensures t.contentId == url && t.name == language && t.language == SUBTITLE_LANGUAGE
    ensures t.trackType == TextTrack && t.subtype == SubtypeNone
    ensures t.id == Abs32(StringHashCode(url))
  {
    MediaTrack(Abs32(StringHashCode(url)), TextTrack, SubtypeNone, SUBTITLE_LANGUAGE, language, url)
  }

  /** The title and subtitle entries: each present only when the value is neither null nor empty. */
  function TitleEntries(title: Option<string>, subtitle: Option<string>): map<string, string> {
    (if IsEmpty(title) then map[] else map[KEY_TITLE := title.value])
    + (if IsEmpty(subtitle) then map[] else map[KEY_SUBTITLE := subtitle.value])
  }

  /**
   * The metadata `createMediaInfo` builds: the media type, the title and subtitle when non-empty,
   * the images in list order, then every custom-data entry as a string entry (put last, so a
   * custom entry under the title key replaces the title).
   */
  function Metadata(
    mediaType: int, title: Option<string>, subtitle: Option<string>,
    imageUrls: seq<string>, customData: Option<map<string, string>>): (m: MediaMetadata)
    ensures m.mediaType == mediaType
    ensures m.images == imageUrls
    ensures customData.Some? ==>
      forall k | k in customData.value :: k in m.strings && m.strings[k] == customData.value[k]
    ensures forall k | k in m.strings ::
      k == KEY_TITLE || k == KEY_SUBTITLE || (customData.Some? && k in customData.value)
    ensures customData.None? || KEY_TITLE !in customData.value ==>
      (KEY_TITLE in m.strings <==> !IsEmpty(title))
      && (KEY_TITLE in m.strings ==> m.strings[KEY_TITLE] == title.value)
    ensures customData.None? || KEY_SUBTITLE !in customData.value ==>
      (KEY_SUBTITLE in m.strings <==> !IsEmpty(subtitle))
      && (KEY_SUBTITLE in m.strings ==> m.strings[KEY_SUBTITLE] == subtitle.value)
  {
    MediaMetadata(mediaType, TitleEntries(title, subtitle) + customData.GetOr(map[]), imageUrls)
  }

  /** The description of one media item, filled in by a `Builder`. */
  class MediaData {
    const url: string
    var streamType: int
    var contentType: Option<string>
    var streamDuration: int
    var mediaType: int
    var title: Option<string>
    var subtitle: Option<string>
    var autoPlay: bool
    var position: int
    var customData: Option<map<string, string>>
    var imageUrls: seq<string>
    var mediaTracks: seq<MediaTrack>

    /** A fresh description of `url` with every other field at its default. */
    ghost predicate HasDefaults(url: string)
      reads this
    {
      && this.url == url
      && streamType == STREAM_TYPE_NONE
      && contentType == None
      && streamDuration == UNKNOWN_DURATION
      && mediaType == MEDIA_TYPE_GENERIC
      && title == None && subtitle == None
      && autoPlay && position == 0
      && customData == None
      && imageUrls == [] && mediaTracks == []
    }

    constructor (url: string)
      ensures HasDefaults(url)
    {
      this.url := url;
      streamType := STREAM_TYPE_NONE;
      contentType := None;
      streamDuration := UNKNOWN_DURATION;
      mediaType := MEDIA_TYPE_GENERIC;
      title := None;
      subtitle := None;
      autoPlay := true;
      position := 0;
      customData := None;
      imageUrls := [];
      mediaTracks := [];
    }

    /** The descriptor handed to the receiver: every field carried through, metadata as above. */
    function CreateMediaInfo(): (info: MediaInfo)
      reads this
      ensures info.contentId == url && info.streamType == streamType
      ensures info.contentType == contentType && info.streamDuration == streamDuration
      ensures info.tracks == mediaTracks
      ensures info.metadata == Metadata(mediaType, title, subtitle, imageUrls, customData)
    {
      MediaInfo(url, streamType, contentType, streamDuration,
                Metadata(mediaType, title, subtitle, imageUrls, customData), mediaTracks)
    }
  }

  /**
   * `MediaData.Builder`: every setter writes one field of the one `MediaData` it was created with
   * and returns the builder itself; `Build` hands out that same object, not a copy.
   */
  class Builder {
    const mediaData: MediaData

    constructor (url: string)
      ensures fresh(mediaData) && mediaData.HasDefaults(url)
    {
      mediaData := new MediaData(url);
    }

    method SetStreamType(streamType: int) returns (b: Builder)
      modifies mediaData`streamType
      ensures b == this && mediaData.streamType == streamType
    {
      mediaData.streamType := streamType;
      b := this;
    }

    method SetContentType(contentType: Option<string>) returns (b: Builder)
      modifies mediaData`contentType
      ensures b == this && mediaData.contentType == contentType
    {
      mediaData.contentType := contentType;
      b := this;
    }

    method SetStreamDuration(streamDuration: int) returns (b: Builder)
      modifies mediaData`streamDuration
      ensures b == this && mediaData.streamDuration == streamDuration
    {
      mediaData.streamDuration := streamDuration;
      b := this;
    }

    method SetTitle(title: Option<string>) returns (b: Builder)
      modifies mediaData`title
      ensures b == this && mediaData.title == title
    {
      mediaData.title := title;
      b := this;
    }

    method SetSubtitle(subtitle: Option<string>) returns (b: Builder)
      modifies mediaData`subtitle
      ensures b == this && mediaData.subtitle == subtitle
    {
      mediaData.subtitle := subtitle;
      b := this;
    }

    method SetMediaType(mediaType: int) returns (b: Builder)
      modifies mediaData`mediaType
      ensures b == this && mediaData.mediaType == mediaType
    {
      mediaData.mediaType := mediaType;
      b := this;
    }

    /** Appends one image; the descriptor lists images in the order they were added. */
    method AddPhotoUrl(photoUrl: string) returns (b: Builder)
      modifies mediaData`imageUrls
      ensures b == this && mediaData.imageUrls == old(mediaData.imageUrls) + [photoUrl]
      ensures mediaData.CreateMediaInfo().metadata.images
           == old(mediaData.CreateMediaInfo().metadata.images) + [photoUrl]
    {
      mediaData.imageUrls := mediaData.imageUrls + [photoUrl];
      b := this;
    }

    /** Appends one text track for `url`, named `language` and always tagged "en-US". */
    method AddSubtitle(url: string, language: string) returns (b: Builder)
      modifies mediaData`mediaTracks
      ensures b == this && mediaData.mediaTracks == old(mediaData.mediaTracks) + [SubtitleTrack(url, language)]
      ensures mediaData.CreateMediaInfo().tracks == old(mediaData.CreateMediaInfo().tracks) + [SubtitleTrack(url, language)]
    {
      var track := SubtitleTrack(url, language);
      mediaData.mediaTracks := mediaData.mediaTracks + [track];
      b := this;
    }

    method SetAutoPlay(autoPlay: bool) returns (b: Builder)
      modifies mediaData`autoPlay
      ensures b == this && mediaData.autoPlay == autoPlay
    {
      mediaData.autoPlay := autoPlay;
      b := this;
    }

    method SetPosition(position: int) returns (b: Builder)
      modifies mediaData`position
      ensures b == this && mediaData.position == position
    {
      mediaData.position := position;
      b := this;
    }

    method SetCustomData(customData: Option<map<string, string>>) returns (b: Builder)
      modifies mediaData`customData
      ensures b == this && mediaData.customData == customData
    {
      mediaData.customData := customData;
      b := this;
    }

    method Build() returns (d: MediaData)
      ensures d == mediaData
    {
      d := mediaData;
    }
  }
}
