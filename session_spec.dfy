/**
 * Values of the peer session: peers, roles, messages, the effects the
 * controller has on the transport and on observers, and the pure list and
 * dictionary operations its callbacks apply.
 */
module SessionSpec {
  import opened Wrappers
  import opened Music

  /**
   * A peer (`MCPeerID`). The model compares peers by value, `uid` and
   * `displayName` together; a `uid` is meant to be given to one peer only.
   */
  datatype Peer = Peer(uid: nat, displayName: string)

  /** `isDJ: Bool?`: nil, true or false. */
  datatype Role = Unset | DJ | Listener

  /** The message envelope's kinds, with their decoded payloads. */
  datatype Msg =
    | RequestSong(song: Song)
    | RequestSongs(songs: seq<Song>)
    | NowPlaying(index: int)
    | PeerProfile(profile: Option<Profile>)

  datatype SessionState = NotConnected | Connecting | Connected

  /** Notifications posted to observers and delegate calls. */
  datatype Notice =
    | UserStateDidUpdate
    | PeerConnectionStateDidUpdate
    | PlayerQueueDidUpdate
    | PlayerQueueNowPlayingSongDidChange
    | NowPlayingSongDidChange(index: int)
    | ConnectableDevicesDidChange(peers: seq<Peer>)

  /** What the controller asks of the transport, in order, plus what it tells observers. */
  datatype Effect =
    | Send(to: Peer, msg: Msg)
    | Invite(peer: Peer)
    | CloseSession
    | StartAdvertising(info: map<string, string>)
    | StopAdvertising
    | Notify(notice: Notice)

  predicate NoDuplicates<T(==)>(s: seq<T>) {
    forall i, j | 0 <= i < j < |s| :: s[i] != s[j]
  }

  /** foundPeer's update of the candidate list: append unless already present. */
  function AppendIfAbsent(s: seq<Peer>, p: Peer): (r: seq<Peer>)
    ensures p in r
    ensures forall q :: q in r <==> q in s || q == p
    ensures p in s ==> r == s
    ensures p !in s ==> r == s + [p]
    ensures NoDuplicates(s) ==> NoDuplicates(r)
  {
    if p in s then s else s + [p]
  }

  /** lostPeer's update of the candidate list: filter out every occurrence, keep every other peer. */
  function Without(s: seq<Peer>, p: Peer): (r: seq<Peer>)
    ensures forall q :: q in r <==> q in s && q != p
  {
    if s == [] then []
    else
      assert s == [s[0]] + s[1..];
      (if s[0] == p then [] else [s[0]]) + Without(s[1..], p)
  }

  /** Assigning an optional profile into the dictionary: nil removes the entry. */
  function SetProfile(m: map<Peer, Profile>, p: Peer, profile: Option<Profile>): (r: map<Peer, Profile>)
    ensures profile.Some? ==> p in r && r[p] == profile.value
    ensures profile.None? ==> p !in r
    ensures forall q | q != p :: (q in r <==> q in m) && (q in m ==> r[q] == m[q])
  {
    if profile.Some? then m[p := profile.value] else m - {p}
  }

  /** URL(string:): nil for the empty string (other strings are taken to be well-formed). */
  function ParseUrl(s: string): (u: Option<Url>)
    ensures u.None? <==> s == ""
    ensures u.Some? ==> u.value == s
  {
    if s == "" then None else Some(s)
  }

  /** The profile foundPeer records from a peer's discovery info (both keys must be present). */
  function ProfileFromInfo(info: map<string, string>): (r: Profile)
    requires "name" in info && "imageUrl" in info
    ensures r.name == info["name"]
    ensures r.imageUrl.None? <==> info["imageUrl"] == ""
    ensures r.imageUrl.Some? ==> r.imageUrl.value == info["imageUrl"]
  {
    Profile(info["name"], ParseUrl(info["imageUrl"]))
  }

  /**
   * The discovery info startDJ advertises: the profile's name and image URL
   * (empty when absent), or the device name and an empty URL when no profile
   * is set. A browsing peer reads back exactly that profile.
   */
  function AdvertisedInfo(own: Option<Profile>, deviceName: string): (info: map<string, string>)
    ensures "name" in info && "imageUrl" in info
    ensures ProfileFromInfo(info) == if own.Some? then own.value else Profile(deviceName, None)
  {
    if own.Some? then
      map["name" := own.value.name, "imageUrl" := if own.value.imageUrl.Some? then own.value.imageUrl.value else ""]
    else
      map["name" := deviceName, "imageUrl" := ""]
  }

  // ------------------------------------------------------------------ lemmas

  /** Discovering the same peer again leaves the candidate list as it is. */
  lemma AppendIfAbsentIdempotent(s: seq<Peer>, p: Peer)
    ensures AppendIfAbsent(AppendIfAbsent(s, p), p) == AppendIfAbsent(s, p)
  {
  }

  /** lostPeer removes every occurrence of p and no occurrence of any other peer. */
  lemma {:induction false} WithoutCounts(s: seq<Peer>, p: Peer)
    ensures multiset(Without(s, p)) == multiset(s)[p := 0]
    decreases |s|
  {
    if s != [] {
      WithoutCounts(s[1..], p);
      assert s == [s[0]] + s[1..];
    }
  }

  /** lostPeer keeps the relative order of the remaining peers: it distributes over concatenation. */
  lemma {:induction false} WithoutConcat(a: seq<Peer>, b: seq<Peer>, p: Peer)
    ensures Without(a + b, p) == Without(a, p) + Without(b, p)
    decreases |a|
  {
    if a != [] {
      WithoutConcat(a[1..], b, p);
      assert (a + b)[1..] == a[1..] + b;
    } else {
      assert a + b == b;
    }
  }

  /** A candidate list without duplicates stays without duplicates when a peer is lost. */
  lemma {:induction false} WithoutNoDuplicates(s: seq<Peer>, p: Peer)
    requires NoDuplicates(s)
    ensures NoDuplicates(Without(s, p))
    decreases |s|
  {
    if s != [] {
      WithoutNoDuplicates(s[1..], p);
      assert s[0] !in s[1..];
    }
  }
}
