/**
 * The GET handler of app/api/youtube/playlists/route.ts: its guard chain,
 * the channel lookup, and the mapping of the channel's playlists to
 * `{ id, title }` records with defaults.
 *
 * The session, the database lookup, the token refresh and the two YouTube
 * list calls are I/O; their outcomes are the fields of `Env`.
 */
module YouTubePlaylistsRoute {
  import opened Optional
  import opened YouTubeErrors

  datatype User = User(googleRefreshToken: Option<string>)

  /** A YouTube call either answers or fails with an (optional) message. */
  datatype ApiResult<T> = Answered(value: T) | Failed(message: Option<string>)

  datatype Channel = Channel(id: Option<string>)
  datatype Snippet = Snippet(title: Option<string>)
  datatype PlaylistItem = PlaylistItem(id: Option<string>, snippet: Option<Snippet>)

  /** What the route returns for one playlist. */
  datatype Playlist = Playlist(id: string, title: string)

  /** What the handler's environment answers; `items` is `None` where the API leaves it out. */
  datatype Env = Env(
    email: Option<string>,
    user: Option<User>,
    tokenRefreshed: bool,
    channels: ApiResult<Option<seq<Channel>>>,
    playlists: string -> ApiResult<Option<seq<PlaylistItem>>>)

  datatype Response = Plain(status: int, body: string) | Playlists(playlists: seq<Playlist>)

  predicate Truthy(s: Option<string>) {
    s.Some? && s.value != ""
  }

  const DefaultTitle := "Untitled Playlist"

  /** `{ id: item.id || '', title: item.snippet?.title || 'Untitled Playlist' }`. */
  function ToPlaylist(item: PlaylistItem): (p: Playlist)
    ensures Truthy(item.id) ==> p.id == item.id.value
    ensures !Truthy(item.id) ==> p.id == ""
    ensures item.snippet.Some? && Truthy(item.snippet.value.title) ==> p.title == item.snippet.value.title.value
    ensures !(item.snippet.Some? && Truthy(item.snippet.value.title)) ==> p.title == DefaultTitle
  {
    Playlist(
      if Truthy(item.id) then item.id.value else "",
      if item.snippet.Some? && Truthy(item.snippet.value.title) then item.snippet.value.title.value else DefaultTitle)
  }

  /** `items.map(...)`, one element at a time. */
  function MapItems(items: seq<PlaylistItem>): seq<Playlist>
    decreases |items|
  {
    if items == [] then [] else [ToPlaylist(items[0])] + MapItems(items[1..])
  }

  /** `items ? items.map(...) : []`. */
  function PlaylistsOf(items: Option<seq<PlaylistItem>>): (r: seq<Playlist>)
    ensures items.None? ==> r == []
  {
    if items.Some? then MapItems(items.value) else []
  }

  /** The mapping keeps the count and the order: the k-th playlist comes from the k-th item. */
  lemma {:induction false} MapItemsPointwise(items: seq<PlaylistItem>)
    ensures |MapItems(items)| == |items|
    ensures forall k :: 0 <= k < |items| ==> MapItems(items)[k] == ToPlaylist(items[k])
    decreases |items|
  {
    if items != [] {
      MapItemsPointwise(items[1..]);
      forall k | 0 <= k < |items| ensures MapItems(items)[k] == ToPlaylist(items[k]) {
        if k > 0 {
          assert items[k] == items[1..][k - 1];
        }
      }
    }
  }

  const NotConnectedMessage := "Google account not properly connected. Please reconnect your Google account."
  const ReauthenticateMessage := "Failed to authenticate with YouTube. Please reconnect your Google account."
  const NoChannelMessage := "No YouTube channel found for this user"
  const NoChannelIdMessage := "Unable to determine channel ID"

  /**
   * GET: the guards in order, the channel lookup, then the playlists of the
   * first channel.  Every refusal carries a 4xx or 5xx status, and playlists
   * are answered only after every guard passed and a channel was found.
   */
  function Get(env: Env): (r: Response)
    ensures r.Plain? ==> 400 <= r.status <= 599
    ensures r.Playlists? ==>
      && Truthy(env.email) && env.user.Some? && Truthy(env.user.value.googleRefreshToken) && env.tokenRefreshed
      && env.channels.Answered? && env.channels.value.Some? && env.channels.value.value != []
  {
    if !Truthy(env.email) then Plain(401, "Unauthorized")
    else if env.user.None? then Plain(404, "User not found")
    else if !Truthy(env.user.value.googleRefreshToken) then Plain(400, NotConnectedMessage)
    else if !env.tokenRefreshed then Plain(401, ReauthenticateMessage)
    else match env.channels
      case Failed(message) => Plain(ErrorStatus(message), ErrorBody(message, "Failed to fetch playlists: "))
      case Answered(channels) =>
        if channels.None? || channels.value == [] then Plain(404, NoChannelMessage)
        else if !Truthy(channels.value[0].id) then Plain(404, NoChannelIdMessage)
        else match env.playlists(channels.value[0].id.value)
          case Failed(message) => Plain(ErrorStatus(message), ErrorBody(message, "Failed to fetch playlists: "))
          case Answered(items) => Playlists(PlaylistsOf(items))
  }

  /** The guard chain: 401 without a session user, then 404 without a database user, then 400 without a refresh token. */
  lemma GuardOrder(env: Env)
    ensures !Truthy(env.email) ==> Get(env) == Plain(401, "Unauthorized")
    ensures Truthy(env.email) && env.user.None? ==> Get(env) == Plain(404, "User not found")
    ensures Truthy(env.email) && env.user.Some? && !Truthy(env.user.value.googleRefreshToken) ==>
      Get(env) == Plain(400, NotConnectedMessage)
  {
  }

  /** Once the guards pass, a missing channel or a first channel without an id is a 404. */
  lemma MissingChannelIsNotFound(env: Env)
    requires Truthy(env.email) && env.user.Some? && Truthy(env.user.value.googleRefreshToken) && env.tokenRefreshed
    requires env.channels.Answered?
    requires var cs := env.channels.value; cs.None? || cs.value == [] || !Truthy(cs.value[0].id)
    ensures Get(env).Plain? && Get(env).status == 404
  {
  }

  /** A failing YouTube call is answered with the status its message maps to. */
  lemma ListFailureStatus(env: Env)
    requires Truthy(env.email) && env.user.Some? && Truthy(env.user.value.googleRefreshToken) && env.tokenRefreshed
    requires env.channels.Failed?
    ensures Get(env) == Plain(ErrorStatus(env.channels.message), ErrorBody(env.channels.message, "Failed to fetch playlists: "))
  {
  }

  /**
   * With a channel found, the response lists one playlist per item of the
   * first channel's playlists, in order, with defaults for missing fields,
   * and an empty list when the API sent no items.
   */
  lemma PlaylistsOfFirstChannel(env: Env, id: string, items: Option<seq<PlaylistItem>>)
    requires Truthy(env.email) && env.user.Some? && Truthy(env.user.value.googleRefreshToken) && env.tokenRefreshed
    requires env.channels.Answered? && env.channels.value.Some? && env.channels.value.value != []
    requires env.channels.value.value[0].id == Some(id) && id != ""
    requires env.playlists(id) == Answered(items)
    ensures Get(env).Playlists?
    ensures items.None? ==> Get(env).playlists == []
    ensures items.Some? ==>
      (&& |Get(env).playlists| == |items.value|
       && forall k :: 0 <= k < |items.value| ==> Get(env).playlists[k] == ToPlaylist(items.value[k]))
  {
    if items.Some? {
      MapItemsPointwise(items.value);
    }
  }
}
