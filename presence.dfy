/** The plugin object: session selection, activity assembly with the metadata
    cache, the polling update, and start/stop. Everything the host provides
    (the media server's answer, the handler metadata and progress functions,
    the asset resolver, the native pre-flight answers) is an input. */
module Presence {
  import opened Wrappers
  import opened Js
  import Seqs
  import opened Handlers
  import Csp

  /** The plugin's stored settings. `shows` and `books` are read but not
      declared as options, so with nothing stored they are false. */
  datatype Settings = Settings(
    jellyfinURL: Option<string>,
    jellyfinAPIKey: Option<string>,
    jellyfinUsername: Option<string>,
    audio: bool,
    movies: bool,
    shows: bool,
    books: bool,
    tmdbAPIKey: Option<string>,
    applicationID: string,
    applicationName: string,
    updateTime: int)

  const DefaultSettings := Settings(None, None, None, true, true, false, false, None, "1433957762437742722", "Jellyfin", 10)

  /** One entry of the server's `/Sessions` answer. */
  datatype Session = Session(userName: string, isPaused: bool, nowPlayingItem: Option<Item>, positionTicks: int)

  /** The per-type enable flags; a type without a flag always passes. */
  predicate TypeEnabled(settings: Settings, itemType: string)
  {
    !(itemType == "Audio" && !settings.audio)
    && !(itemType == "Movie" && !settings.movies)
    && !(itemType == "Episode" && !settings.shows)
    && !(itemType == "Book" && !settings.books)
  }

  /** The predicate of `getSessions`' filter. */
  predicate Keep(settings: Settings, session: Session)
  {
    Some(session.userName) == settings.jellyfinUsername
    && !session.isPaused
    && session.nowPlayingItem.Some?
    && TypeEnabled(settings, session.nowPlayingItem.value.itemType)
  }

  /** `getSessions()` after the server answered `sessions`. */
  function GetSessions(settings: Settings, sessions: seq<Session>): (r: seq<Session>)
    ensures forall i :: 0 <= i < |r| ==>
              r[i] in sessions
              && Some(r[i].userName) == settings.jellyfinUsername
              && !r[i].isPaused
              && r[i].nowPlayingItem.Some?
              && TypeEnabled(settings, r[i].nowPlayingItem.value.itemType)
    ensures forall i :: 0 <= i < |sessions| && Keep(settings, sessions[i]) ==> sessions[i] in r
  {
    Seqs.Filter(sessions, s => Keep(settings, s))
  }

  /** The survivors keep the server's order. */
  lemma GetSessionsKeepsOrder(settings: Settings, sessions: seq<Session>)
    ensures Seqs.IsSubsequence(GetSessions(settings, sessions), sessions)
  {
    Seqs.FilterIsSubsequence(sessions, s => Keep(settings, s));
  }

  /** The session that `update` builds from is the first eligible one the server listed. */
  lemma FirstSurvivorIsFirstEligible(settings: Settings, sessions: seq<Session>)
    requires GetSessions(settings, sessions) != []
    ensures Seqs.FindFirst(sessions, s => Keep(settings, s)).Some?
    ensures GetSessions(settings, sessions)[0] == sessions[Seqs.FindFirst(sessions, s => Keep(settings, s)).value]
  {
    Seqs.FilterHeadIsFirst(sessions, s => Keep(settings, s));
  }

  /** With the default settings Audio and Movie items pass, Episode and Book
      items are always dropped, and every other type passes. */
  lemma DefaultTypeGate(itemType: string)
    ensures TypeEnabled(DefaultSettings, itemType) <==> itemType != "Episode" && itemType != "Book"
  {
  }

  /** The request `getSessions` sends. */
  datatype Request = Request(url: string, authorization: string)

  function SessionsRequest(serverURL: string, apiKey: string): Request
  {
    Request(serverURL + "/Sessions", "MediaBrowser Token=\"" + apiKey + "\"")
  }

  /** Discord's `ActivityFlags.INSTANCE`. */
  const ActivityFlagInstance := 1

  /** The socket id under which every presence update is dispatched. */
  const SocketId := "Jellyfin"

  datatype Assets = Assets(largeImage: Value, largeText: Value, smallImage: Value, smallText: Value)

  /** The activity object `buildActivity` returns. */
  datatype Activity = Activity(
    applicationId: string,
    flags: int,
    name: string,
    activityType: Value,
    statusDisplayType: Value,
    details: Value,
    detailsUrl: Value,
    state: Value,
    stateUrl: Value,
    timestamps: Value,
    assets: Assets)

  /** The `LOCAL_ACTIVITY_UPDATE` event. */
  datatype Dispatch = LocalActivityUpdate(socketId: string, activity: Option<Activity>)

  /** The key submitted to the asset resolver: `activity.imageURL ?? handler.icon`. */
  function AssetKey(handler: Handler, activity: Record): (k: Value)
    ensures !Nullish(Get(activity, "imageURL")) ==> k == activity["imageURL"]
    ensures Nullish(Get(activity, "imageURL")) ==> k == Str(handler.Icon())
  {
    Coalesce(Get(activity, "imageURL"), Str(handler.Icon()))
  }

  /** The returned object, from the merged handler fields and the resolved asset. */
  function Assemble(settings: Settings, activity: Record, imageAsset: Value): (a: Activity)
    ensures a.applicationId == settings.applicationID && a.name == settings.applicationName
    ensures a.flags == ActivityFlagInstance
    ensures a.activityType == Get(activity, "type") && a.statusDisplayType == Get(activity, "statusType")
    ensures a.details == Get(activity, "details") && a.detailsUrl == Get(activity, "detailsURL")
    ensures a.state == Get(activity, "state") && a.stateUrl == Get(activity, "stateURL")
    ensures a.timestamps == Get(activity, "timestamps")
    ensures a.assets.largeImage == imageAsset
    ensures !Nullish(Get(activity, "imageCaption")) ==> a.assets.largeText == activity["imageCaption"]
    ensures Nullish(Get(activity, "imageCaption")) ==> a.assets.largeText == Null
    ensures a.assets.smallImage == Null && a.assets.smallText == Null
  {
    Activity(
      settings.applicationID,
      ActivityFlagInstance,
      settings.applicationName,
      Get(activity, "type"),
      Get(activity, "statusType"),
      Get(activity, "details"),
      Get(activity, "detailsURL"),
      Get(activity, "state"),
      Get(activity, "stateURL"),
      Get(activity, "timestamps"),
      Assets(imageAsset, Coalesce(Get(activity, "imageCaption"), Null), Null, Null))
  }

  /** The metadata cache, keyed by item id. */
  type Cache = map<string, Meta>

  /** `metadataCache[id] !== undefined`. */
  predicate Cached(cache: Cache, id: string)
  {
    id in cache && cache[id] != MetaUndefined
  }

  /** What one `buildActivity` call yields: the activity (None for `null`),
      the new cache, and whether the handler's metadata function was called. */
  datatype Built = Built(activity: Option<Activity>, cache: Cache, lookedUp: bool)

  /** The specification of `buildActivity` on the cache before the call.
      `getMetadata`, `getProgress` and `fetchAsset` stand for
      `handler.getMetadata`, `handler.getProgress` and the first id returned
      by `fetchAssetIds(applicationID, [key])`. */
  function Build(cache: Cache, settings: Settings, session: Session,
                 getMetadata: (Handler, Item) -> Meta,
                 getProgress: (Handler, Item, int) -> Meta,
                 fetchAsset: (string, Value) -> Value): (b: Built)
    requires session.nowPlayingItem.Some?
    ensures var item := session.nowPlayingItem.value;
            HandlerFor(item.itemType) == None ==> b == Built(None, cache, false)
    ensures var item := session.nowPlayingItem.value;
            b.lookedUp <==> HandlerFor(item.itemType).Some? && !Cached(cache, item.id)
    ensures var item := session.nowPlayingItem.value;
            b.lookedUp ==> b.cache == cache[item.id := getMetadata(HandlerFor(item.itemType).value, item)]
    ensures !b.lookedUp ==> b.cache == cache
    ensures var item := session.nowPlayingItem.value;
            forall k :: k != item.id ==> (k in b.cache <==> k in cache) && (k in cache ==> b.cache[k] == cache[k])
    ensures var item := session.nowPlayingItem.value;
            b.activity.Some? <==> HandlerFor(item.itemType).Some?
    ensures var item := session.nowPlayingItem.value;
            HandlerFor(item.itemType).Some? ==>
              var h := HandlerFor(item.itemType).value;
              var merged := Merge(b.cache[item.id], getProgress(h, item, session.positionTicks));
              b.activity == Some(Assemble(settings, merged, fetchAsset(settings.applicationID, AssetKey(h, merged))))
  {
    var item := session.nowPlayingItem.value;
    match HandlerFor(item.itemType)
    case None => Built(None, cache, false)
    case Some(h) =>
      var lookedUp := !Cached(cache, item.id);
      var metadata := if lookedUp then getMetadata(h, item) else cache[item.id];
      var merged := Merge(metadata, getProgress(h, item, session.positionTicks));
      var imageAsset := fetchAsset(settings.applicationID, AssetKey(h, merged));
      Built(Some(Assemble(settings, merged, imageAsset)),
            if lookedUp then cache[item.id := metadata] else cache,
            lookedUp)
  }

  /** Once the metadata of an item is cached (and is not `undefined`), a later
      call for the same session issues no lookup, leaves the cache alone and
      yields the same activity, whatever the metadata function now answers. */
  lemma {:induction false} MemoizedRebuild(cache: Cache, settings: Settings, session: Session,
                                           getMetadata1: (Handler, Item) -> Meta,
                                           getMetadata2: (Handler, Item) -> Meta,
                                           getProgress: (Handler, Item, int) -> Meta,
                                           fetchAsset: (string, Value) -> Value)
    requires session.nowPlayingItem.Some?
    requires var b := Build(cache, settings, session, getMetadata1, getProgress, fetchAsset);
             Cached(b.cache, session.nowPlayingItem.value.id) || b.activity == None
    ensures var b := Build(cache, settings, session, getMetadata1, getProgress, fetchAsset);
            Build(b.cache, settings, session, getMetadata2, getProgress, fetchAsset) == Built(b.activity, b.cache, false)
  {
  }

  /** `Math.max(updateTime, 10) * 1000`: the polling period in milliseconds. */
  function PollPeriodMs(updateTime: int): (ms: int)
    ensures ms >= 10000 && ms >= updateTime * 1000
    ensures ms == 10000 || ms == updateTime * 1000
  {
    (if updateTime > 10 then updateTime else 10) * 1000
  }

  /** `update` runs only when the server URL, API key and username are all set. */
  predicate Configured(settings: Settings)
  {
    Truthy(settings.jellyfinURL) && Truthy(settings.jellyfinAPIKey) && Truthy(settings.jellyfinUsername)
  }

  /** What one `update` call yields: the dispatched event, if any, and the new cache. */
  datatype Polled = Polled(dispatched: Option<Dispatch>, cache: Cache)

  /** The specification of `update` on the cache before the call. `fetchSessions`
      answers the sessions request; None stands for a failed request or
      undecodable answer, which rejects `update` before anything is dispatched. */
  function Poll(cache: Cache, settings: Settings,
                fetchSessions: Request -> Option<seq<Session>>,
                getMetadata: (Handler, Item) -> Meta,
                getProgress: (Handler, Item, int) -> Meta,
                fetchAsset: (string, Value) -> Value): (p: Polled)
    ensures !Configured(settings) ==> p == Polled(None, cache)
    ensures p.dispatched.Some? ==> Configured(settings) && p.dispatched.value.socketId == SocketId
    ensures Configured(settings) ==>
              var answer := fetchSessions(SessionsRequest(settings.jellyfinURL.value, settings.jellyfinAPIKey.value));
              (answer == None ==> p == Polled(None, cache))
              && (answer.Some? && GetSessions(settings, answer.value) == [] ==>
                    p == Polled(Some(LocalActivityUpdate(SocketId, None)), cache))
              && (answer.Some? && GetSessions(settings, answer.value) != [] ==>
                    var b := Build(cache, settings, GetSessions(settings, answer.value)[0], getMetadata, getProgress, fetchAsset);
                    p == Polled(Some(LocalActivityUpdate(SocketId, b.activity)), b.cache))
  {
    if !Configured(settings) then Polled(None, cache)
    else
      match fetchSessions(SessionsRequest(settings.jellyfinURL.value, settings.jellyfinAPIKey.value))
      case None => Polled(None, cache)
      case Some(answer) =>
        var sessions := GetSessions(settings, answer);
        if |sessions| > 0 then
          var b := Build(cache, settings, sessions[0], getMetadata, getProgress, fetchAsset);
          Polled(Some(LocalActivityUpdate(SocketId, b.activity)), b.cache)
        else Polled(Some(LocalActivityUpdate(SocketId, None)), cache)
  }

  /** A published activity always belongs to an eligible session of the
      configured user: the first one the server listed. */
  lemma PublishedActivityIsFirstEligible(cache: Cache, settings: Settings,
                                         fetchSessions: Request -> Option<seq<Session>>,
                                         getMetadata: (Handler, Item) -> Meta,
                                         getProgress: (Handler, Item, int) -> Meta,
                                         fetchAsset: (string, Value) -> Value)
    requires Poll(cache, settings, fetchSessions, getMetadata, getProgress, fetchAsset).dispatched.Some?
    requires Poll(cache, settings, fetchSessions, getMetadata, getProgress, fetchAsset).dispatched.value.activity.Some?
    ensures var answer := fetchSessions(SessionsRequest(settings.jellyfinURL.value, settings.jellyfinAPIKey.value));
            answer.Some?
            && Seqs.FindFirst(answer.value, s => Keep(settings, s)).Some?
            && var s := answer.value[Seqs.FindFirst(answer.value, s => Keep(settings, s)).value];
               s.userName == settings.jellyfinUsername.value && !s.isPaused
               && Poll(cache, settings, fetchSessions, getMetadata, getProgress, fetchAsset).dispatched.value.activity
                  == Build(cache, settings, s, getMetadata, getProgress, fetchAsset).activity
  {
    var answer := fetchSessions(SessionsRequest(settings.jellyfinURL.value, settings.jellyfinAPIKey.value));
    FirstSurvivorIsFirstEligible(settings, answer.value);
  }

  /** A timer set by `setInterval`, identified by its period. */
  datatype Timer = Timer(periodMs: int)

  /** The plugin object's own state. */
  class Plugin {
    var metadataCache: Cache
    var updateInterval: Option<Timer>

    constructor ()
      ensures metadataCache == map[] && updateInterval == None
    {
      metadataCache := map[];
      updateInterval := None;
    }

    /** `buildActivity(session)`. */
    method BuildActivity(settings: Settings, session: Session,
                         getMetadata: (Handler, Item) -> Meta,
                         getProgress: (Handler, Item, int) -> Meta,
                         fetchAsset: (string, Value) -> Value)
      returns (activity: Option<Activity>, lookedUp: bool)
      requires session.nowPlayingItem.Some?
      modifies this`metadataCache
      ensures Built(activity, metadataCache, lookedUp)
              == Build(old(metadataCache), settings, session, getMetadata, getProgress, fetchAsset)
    {
      var item := session.nowPlayingItem.value;
      var handler := HandlerFor(item.itemType);
      lookedUp := false;
      if handler.Some? {
        var h := handler.value;
        var metadata := if item.id in metadataCache then metadataCache[item.id] else MetaUndefined;
        if metadata == MetaUndefined {
          metadata := getMetadata(h, item);
          metadataCache := metadataCache[item.id := metadata];
          lookedUp := true;
        }
        var merged := Merge(metadata, getProgress(h, item, session.positionTicks));
        var imageAsset := fetchAsset(settings.applicationID, AssetKey(h, merged));
        activity := Some(Assemble(settings, merged, imageAsset));
      } else {
        activity := None;
      }
    }

    /** `update()`. */
    method Update(settings: Settings,
                  fetchSessions: Request -> Option<seq<Session>>,
                  getMetadata: (Handler, Item) -> Meta,
                  getProgress: (Handler, Item, int) -> Meta,
                  fetchAsset: (string, Value) -> Value)
      returns (dispatched: Option<Dispatch>)
      modifies this`metadataCache
      ensures Polled(dispatched, metadataCache)
              == Poll(old(metadataCache), settings, fetchSessions, getMetadata, getProgress, fetchAsset)
    {
      if !Truthy(settings.jellyfinURL) { return None; }
      if !Truthy(settings.jellyfinAPIKey) { return None; }
      if !Truthy(settings.jellyfinUsername) { return None; }
      var answer := fetchSessions(SessionsRequest(settings.jellyfinURL.value, settings.jellyfinAPIKey.value));
      if answer.None? { return None; }
      var sessions := GetSessions(settings, answer.value);
      var activity: Option<Activity> := None;
      if |sessions| > 0 {
        var lookedUp;
        activity, lookedUp := BuildActivity(settings, sessions[0], getMetadata, getProgress, fetchAsset);
      }
      dispatched := Some(LocalActivityUpdate(SocketId, activity));
    }

    /** `start()`: registers the server URL with the pre-flight table, runs the
        pre-flight, and when it calls back sets the polling timer and runs the
        first update. */
    method Start(settings: Settings, csp: Csp.Overrides, replies: seq<Csp.Reply>,
                 fetchSessions: Request -> Option<seq<Session>>,
                 getMetadata: (Handler, Item) -> Meta,
                 getProgress: (Handler, Item, int) -> Meta,
                 fetchAsset: (string, Value) -> Value)
      returns (preflight: Option<Csp.Outcome>, checks: seq<Csp.Check>, first: Option<Dispatch>)
      requires csp.Valid()
      requires |replies| > |csp.keys|
      modifies this, csp
      ensures csp.Valid()
      ensures !Truthy(settings.jellyfinURL) ==>
                preflight == None && checks == [] && first == None
                && unchanged(this) && unchanged(csp)
      ensures Truthy(settings.jellyfinURL) ==>
                csp.m == old(csp.m)[settings.jellyfinURL.value := Csp.ConnectSrc]
                && csp.keys == (if settings.jellyfinURL.value in old(csp.m) then old(csp.keys)
                                else old(csp.keys) + [settings.jellyfinURL.value])
                && preflight == Some(Csp.Decide(Csp.Entries(csp.keys, csp.m), replies, 0, false))
                && checks == Csp.ChecksUpTo(Csp.Entries(csp.keys, csp.m), replies,
                                            Csp.StopIndex(Csp.Entries(csp.keys, csp.m), replies, 0))
      ensures preflight == Some(Csp.RunCallback) ==>
                updateInterval == Some(Timer(PollPeriodMs(settings.updateTime)))
                && Polled(first, metadataCache)
                   == Poll(old(metadataCache), settings, fetchSessions, getMetadata, getProgress, fetchAsset)
      ensures preflight != Some(Csp.RunCallback) ==>
                first == None && updateInterval == old(updateInterval) && metadataCache == old(metadataCache)
    {
      preflight, checks, first := None, [], None;
      if Truthy(settings.jellyfinURL) {
        csp.AddOverride(settings.jellyfinURL.value, Csp.ConnectSrc);
        var outcome;
        outcome, checks := csp.EnsureAllOverrides(replies);
        preflight := Some(outcome);
        if outcome == Csp.RunCallback {
          updateInterval := Some(Timer(PollPeriodMs(settings.updateTime)));
          first := Update(settings, fetchSessions, getMetadata, getProgress, fetchAsset);
        }
      }
    }

    /** `stop()`: clears the timer it holds, if any (the field keeps its old
        value), and dispatches the empty activity. */
    method Stop() returns (cleared: Option<Timer>, dispatched: Dispatch)
      ensures cleared == updateInterval
      ensures dispatched == LocalActivityUpdate(SocketId, None)
    {
      cleared := updateInterval;
      dispatched := LocalActivityUpdate(SocketId, None);
    }
  }
}
