/** The camera screen (CameraScreen.js): a tab container (Live and clip tabs) that
    keeps one change handler and one animation handler per tab, polls the camera's
    recording status until recording stops, then loads the clip list and builds one
    thumbnail URL per clip. */
module Camera {
  import opened Js

  const InitialTab: string := "Live"
  /** The number of thumbnail slots cleared at mount and before each clip list. */
  const ThumbnailSlots: int := 8
  const ThumbnailPath: string := "/api/texecom-app/camera/clips/thumbnail?panel_camera_clip_id="
  const ClipIdKey: string := "panel_camera_clip_id"

  /** A callback registered by a tab, by identity. */
  type Handler = nat

  /** The text a template string shows for a value. */
  function ValueText(v: Value): string
  {
    match v
    case Num(n) => IntToDecimal(n)
    case Str(s) => s
    case Bool(b) => if b then "true" else "false"
    case Obj(_) => "[object Object]"
  }

  /** `still.panel_camera_clip_id`; `None` is `undefined`. */
  function ClipId(clip: Value): Option<Value>
  {
    if clip.Obj? && ClipIdKey in clip.fields then Some(clip.fields[ClipIdKey]) else None
  }

  /** The part of a thumbnail URL before the clip id. */
  function UrlPrefix(server: string): string
  {
    server + ThumbnailPath
  }

  /** The part of a thumbnail URL after the clip id. */
  function UrlTail(now: int, token: string): string
  {
    "&live=" + IntToDecimal(now) + "&token=" + token
  }

  /** The thumbnail URL of clip `id`, with `live` set to the timestamp `now`. */
  function ThumbnailUrl(server: string, id: Value, now: int, token: string): string
  {
    UrlPrefix(server) + (ValueText(id) + UrlTail(now, token))
  }

  /** A numeric clip id can be read back from its thumbnail URL, right after the
      prefix: the URL names the clip. */
  lemma ThumbnailUrlNamesClip(server: string, id: int, now: int, token: string)
    ensures var url := ThumbnailUrl(server, Num(id), now, token);
      |UrlPrefix(server)| <= |url| && url[..|UrlPrefix(server)|] == UrlPrefix(server) &&
      ParseInt(url[|UrlPrefix(server)|..]) == Some(id)
  {
    var rest := UrlTail(now, token);
    assert rest[0] == '&';
    var url := ThumbnailUrl(server, Num(id), now, token);
    assert url[|UrlPrefix(server)|..] == IntToDecimal(id) + rest;
    ParseIntOfDecimalThen(id, rest);
  }

  /** Different numeric clips get different thumbnail URLs. */
  lemma ThumbnailUrlsDiffer(server: string, a: int, b: int, now: int, token: string)
    requires a != b
    ensures ThumbnailUrl(server, Num(a), now, token) != ThumbnailUrl(server, Num(b), now, token)
  {
    ThumbnailUrlNamesClip(server, a, now, token);
    ThumbnailUrlNamesClip(server, b, now, token);
  }

  /** The thumbnail slots after the first `n` clips of `clips` were processed by the
      URL loop, starting from `urls`. */
  function UrlsAfter(urls: map<int, Option<string>>, clips: seq<Value>, n: nat,
                     server: string, now: int, token: string): map<int, Option<string>>
    requires n <= |clips|
  {
    if n == 0 then urls
    else
      var m := UrlsAfter(urls, clips, n - 1, server, now, token);
      match ClipId(clips[n - 1])
      case Some(id) => m[n - 1 := Some(ThumbnailUrl(server, id, now, token))]
      case None => m
  }

  /** After the loop, every clip with an id has its thumbnail URL in its slot, all with
      the one timestamp, and every other index is as it was (present or a hole). */
  lemma {:induction false} UrlsAfterSlots(urls: map<int, Option<string>>, clips: seq<Value>, n: nat,
                                          server: string, now: int, token: string)
    requires n <= |clips|
    ensures var m := UrlsAfter(urls, clips, n, server, now, token);
      (forall i :: 0 <= i < n && ClipId(clips[i]).Some? ==>
         i in m && m[i] == Some(ThumbnailUrl(server, ClipId(clips[i]).value, now, token))) &&
      (forall i :: !(0 <= i < n && ClipId(clips[i]).Some?) ==>
         (i in m <==> i in urls) && (i in m ==> m[i] == urls[i]))
  {
    if n > 0 {
      UrlsAfterSlots(urls, clips, n - 1, server, now, token);
    }
  }

  /** `result.recording !== false` on the record-status answer. */
  predicate StillRecording(status: Value)
  {
    !(status.Obj? && "recording" in status.fields && status.fields["recording"] == Bool(false))
  }

  /** The clip-list answer: `null`, an object with `response: "error"`, or the list. */
  datatype ListAnswer = NoList | ErrorResponse | ClipList(clips: seq<Value>)

  datatype FetchOutcome = StatusFailed | Repoll(scheduled: bool) | ListFailed | Loaded

  class CameraScreen {
    const apiServer: string
    const apiToken: string
    var currentTab: string
    var changeHandlers: map<string, Handler>
    var animationHandlers: map<string, Handler>
    /** The handlers called so far, in call order. */
    var invoked: seq<Handler>
    /** `videoIndexUrl`: an absent index is a hole of the array, `None` is `null`. */
    var videoIndexUrl: map<int, Option<string>>
    var videoClips: seq<Value>
    var conversionCompleted: bool
    var unmounted: bool

    constructor (apiServer: string, apiToken: string)
      ensures this.apiServer == apiServer && this.apiToken == apiToken
      ensures currentTab == InitialTab && changeHandlers == map[] && animationHandlers == map[]
      ensures invoked == [] && videoIndexUrl == map[] && videoClips == []
      ensures !conversionCompleted && !unmounted
    {
      this.apiServer := apiServer;
      this.apiToken := apiToken;
      currentTab := InitialTab;
      changeHandlers := map[];
      animationHandlers := map[];
      invoked := [];
      videoIndexUrl := map[];
      videoClips := [];
      conversionCompleted := false;
      unmounted := false;
    }

    /** `changeTab`: an empty name is ignored; otherwise the tab becomes current and, when
        it is a different tab with a registered change handler, that handler is called. */
    method ChangeTab(name: string)
      modifies this`currentTab, this`invoked
      ensures name == "" ==> currentTab == old(currentTab) && invoked == old(invoked)
      ensures name != "" ==> currentTab == name
      ensures name != "" ==>
        invoked == old(invoked) +
          (if old(currentTab) != name && name in changeHandlers then [changeHandlers[name]] else [])
    {
      if name == "" {
        return;
      }
      var prevTab := currentTab;
      currentTab := name;
      if prevTab != name {
        if name in changeHandlers {
          invoked := invoked + [changeHandlers[name]];
        }
      }
    }

    /** `registerChangeHandler`: replaces the tab's handler, keeps the others. */
    method RegisterChangeHandler(tab: string, callback: Handler)
      modifies this`changeHandlers
      ensures changeHandlers == old(changeHandlers)[tab := callback]
      ensures forall t :: t != tab ==> (t in changeHandlers <==> t in old(changeHandlers))
    {
      changeHandlers := changeHandlers[tab := callback];
    }

    /** `registerAnimationHandler`: replaces the tab's handler, keeps the others. */
    method RegisterAnimationHandler(tab: string, callback: Handler)
      modifies this`animationHandlers
      ensures animationHandlers == old(animationHandlers)[tab := callback]
      ensures forall t :: t != tab ==> (t in animationHandlers <==> t in old(animationHandlers))
    {
      animationHandlers := animationHandlers[tab := callback];
    }

    /** Set thumbnail slots 0..7 to `null`, leaving every other index as it was. */
    method ResetSlots()
      modifies this`videoIndexUrl
      ensures forall i :: 0 <= i < ThumbnailSlots ==> i in videoIndexUrl && videoIndexUrl[i] == None
      ensures forall i :: !(0 <= i < ThumbnailSlots) ==>
        (i in videoIndexUrl <==> i in old(videoIndexUrl)) &&
        (i in videoIndexUrl ==> videoIndexUrl[i] == old(videoIndexUrl)[i])
    {
      var index := 0;
      while index < ThumbnailSlots
        invariant 0 <= index <= ThumbnailSlots
        invariant forall i :: 0 <= i < index ==> i in videoIndexUrl && videoIndexUrl[i] == None
        invariant forall i :: !(0 <= i < index) ==>
          (i in videoIndexUrl <==> i in old(videoIndexUrl)) &&
          (i in videoIndexUrl ==> videoIndexUrl[i] == old(videoIndexUrl)[i])
      {
        videoIndexUrl := videoIndexUrl[index := None];
        index := index + 1;
      }
    }

    /** The mount step of `componentWillMount` (the clip fetch is `FetchVideoClips`). */
    method WillMount()
      modifies this`videoIndexUrl
      ensures forall i :: 0 <= i < ThumbnailSlots ==> i in videoIndexUrl && videoIndexUrl[i] == None
      ensures forall i :: !(0 <= i < ThumbnailSlots) ==>
        (i in videoIndexUrl <==> i in old(videoIndexUrl)) &&
        (i in videoIndexUrl ==> videoIndexUrl[i] == old(videoIndexUrl)[i])
    {
      ResetSlots();
    }

    method WillUnmount()
      modifies this`unmounted
      ensures unmounted
    {
      unmounted := true;
    }

    /** `generateUrls`: slot i gets the thumbnail URL of clip i, all with the one
        timestamp `now`; a clip without an id leaves its slot as it was. */
    method GenerateUrls(clips: seq<Value>, now: int)
      modifies this`videoIndexUrl
      ensures videoIndexUrl == UrlsAfter(old(videoIndexUrl), clips, |clips|, apiServer, now, apiToken)
    {
      var index := 0;
      while index < |clips|
        invariant 0 <= index <= |clips|
        invariant videoIndexUrl == UrlsAfter(old(videoIndexUrl), clips, index, apiServer, now, apiToken)
      {
        var still := clips[index];
        var id := ClipId(still);
        if id.Some? {
          videoIndexUrl := videoIndexUrl[index := Some(ThumbnailUrl(apiServer, id.value, now, apiToken))];
        }
        index := index + 1;
      }
    }

    /** `fetchVideoClips`, given the backend's record-status answer (`None` is `null`),
        its clip-list answer and the clock: while recording, poll again (if still
        mounted); once stopped, clear the slots and load the list. */
    method FetchVideoClips(status: Option<Value>, list: ListAnswer, now: int) returns (r: FetchOutcome)
      modifies this`videoIndexUrl, this`videoClips, this`conversionCompleted
      ensures r == StatusFailed <==> status.None?
      ensures r.Repoll? <==> status.Some? && StillRecording(status.value)
      ensures r.Repoll? ==> r.scheduled == !unmounted
      ensures r == ListFailed <==> status.Some? && !StillRecording(status.value) && !list.ClipList?
      ensures r == Loaded <==> status.Some? && !StillRecording(status.value) && list.ClipList?
      ensures r == StatusFailed || r.Repoll? ==> unchanged(this)
      ensures r == ListFailed || r == Loaded ==>
        forall i :: 0 <= i < ThumbnailSlots &&
                    !(list.ClipList? && !unmounted && i < |list.clips| && ClipId(list.clips[i]).Some?) ==>
          i in videoIndexUrl && videoIndexUrl[i] == None
      ensures r == ListFailed || r == Loaded ==>
        forall i :: !(0 <= i < ThumbnailSlots) &&
                    !(list.ClipList? && !unmounted && 0 <= i < |list.clips| && ClipId(list.clips[i]).Some?) ==>
          (i in videoIndexUrl <==> i in old(videoIndexUrl)) &&
          (i in videoIndexUrl ==> videoIndexUrl[i] == old(videoIndexUrl)[i])
      ensures r == Loaded && !unmounted ==> videoClips == list.clips && conversionCompleted
      ensures r == Loaded && !unmounted ==> forall i :: 0 <= i < |list.clips| && ClipId(list.clips[i]).Some? ==>
        i in videoIndexUrl && videoIndexUrl[i] == Some(ThumbnailUrl(apiServer, ClipId(list.clips[i]).value, now, apiToken))
      ensures r != Loaded || unmounted ==> videoClips == old(videoClips) && conversionCompleted == old(conversionCompleted)
    {
      if status.None? {
        return StatusFailed;
      }
      if StillRecording(status.value) {
        return Repoll(!unmounted);
      }
      ResetSlots();
      if !list.ClipList? {
        return ListFailed;
      }
      r := Loaded;
      if !unmounted {
        conversionCompleted := true;
        ghost var cleared := videoIndexUrl;
        GenerateUrls(list.clips, now);
        UrlsAfterSlots(cleared, list.clips, |list.clips|, apiServer, now, apiToken);
        videoClips := list.clips;
      }
    }
  }
}
