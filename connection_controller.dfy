/**
 * ConnectionController: the local role, the remembered DJ, the candidate
 * DJs found by browsing, the listener's mirror of the DJ's queue and the
 * per-peer profiles, updated in place by role transitions and transport
 * callbacks. The transport itself is not modelled: what the controller asks
 * of it (sends, invitations, advertising, closing the session) and what it
 * posts to observers is appended to `effects`.
 */
module Connection {
  import opened Wrappers
  import opened Music
  import opened QueueSpec
  import opened SessionSpec
  import opened Playback

  /** The notifications a received message leads to, by role and message kind. */
  function ReceiveEffects(role: Role, msg: Msg): seq<Effect> {
    match (role, msg)
    case (DJ, PeerProfile(_)) => [Notify(PeerConnectionStateDidUpdate)]
    case (Listener, RequestSongs(_)) => [Notify(PlayerQueueDidUpdate)]
    case (Listener, NowPlaying(i)) => [Notify(NowPlayingSongDidChange(i))]
    case (Listener, PeerProfile(_)) => [Notify(PeerConnectionStateDidUpdate)]
    case _ => []
  }

  /** What a connection to `peer` triggers: the own profile if set, and on the DJ side the queue snapshot. */
  function ConnectedEffects(role: Role, own: Option<Profile>, snapshot: seq<Song>, peer: Peer): seq<Effect> {
    [Notify(PeerConnectionStateDidUpdate)]
    + (if own.Some? then [Send(peer, PeerProfile(own))] else [])
    + (if role == DJ then [Send(peer, RequestSongs(snapshot)), Notify(PlayerQueueNowPlayingSongDidChange)] else [])
  }

  class ConnectionController {
    const playerQueue: PlayerQueue
    const deviceName: string
    var isInitialized: bool
    var role: Role
    var connectableDJs: seq<Peer>
    var connectedDJ: Option<Peer>
    var receivedSongs: seq<Song>
    var peerProfileCorrespondence: map<Peer, Profile>
    var hasAdvertiser: bool
    var effects: seq<Effect>

    ghost predicate Valid()
      reads this, playerQueue, playerQueue.player
    {
      NoDuplicates(connectableDJs) && playerQueue.Valid()
    }

    /** The initial state followed by initialize(). */
    constructor (queue: PlayerQueue, deviceName: string)
      requires queue.Valid()
      ensures Valid() && playerQueue == queue && this.deviceName == deviceName
      ensures isInitialized && role == Unset && connectedDJ == None
      ensures connectableDJs == [] && receivedSongs == [] && peerProfileCorrespondence == map[]
      ensures !hasAdvertiser && effects == []
    {
      playerQueue := queue;
      this.deviceName := deviceName;
      role := Unset;
      connectableDJs := [];
      connectedDJ := None;
      receivedSongs := [];
      peerProfileCorrespondence := map[];
      hasAdvertiser := false;
      effects := [];
      isInitialized := true;
    }

    /** Back in the foreground: re-invite the remembered DJ, if there is one. */
    method HandleViewWillEnterForeground()
      modifies this`effects
      ensures effects == old(effects) + if connectedDJ.Some? then [Invite(connectedDJ.value)] else []
    {
      if connectedDJ.Some? {
        effects := effects + [Invite(connectedDJ.value)];
      }
    }

    /** Close the session and forget the DJ. */
    method Disconnect()
      modifies this`connectedDJ, this`effects
      ensures connectedDJ == None
      ensures effects == old(effects) + [CloseSession]
    {
      effects := effects + [CloseSession];
      connectedDJ := None;
    }

    /** Become the DJ: disconnect, then advertise the own profile (or the device name). */
    method StartDJ(own: Option<Profile>)
      modifies this`connectedDJ, this`effects, this`hasAdvertiser, this`role
      ensures role == DJ && connectedDJ == None && hasAdvertiser
      ensures effects == old(effects) + [CloseSession, StartAdvertising(AdvertisedInfo(own, deviceName)), Notify(UserStateDidUpdate)]
    {
      Disconnect();
      var info := AdvertisedInfo(own, deviceName);
      hasAdvertiser := true;
      role := DJ;
      effects := effects + [StartAdvertising(info), Notify(UserStateDidUpdate)];
    }

    /** Become a listener of `selectedDJ`: disconnect only from a different DJ, invite, stop advertising. */
    method StartListener(selectedDJ: Peer)
      modifies this`connectedDJ, this`effects, this`role
      ensures role == Listener && connectedDJ == Some(selectedDJ)
      ensures effects == old(effects)
        + (if old(connectedDJ) != Some(selectedDJ) then [CloseSession] else [])
        + [Invite(selectedDJ)]
        + (if hasAdvertiser then [StopAdvertising] else [])
        + [Notify(UserStateDidUpdate)]
    {
      if Some(selectedDJ) != connectedDJ {
        Disconnect();
      }
      effects := effects + [Invite(selectedDJ)];
      connectedDJ := Some(selectedDJ);
      role := Listener;
      if hasAdvertiser {
        effects := effects + [StopAdvertising];
      }
      effects := effects + [Notify(UserStateDidUpdate)];
    }

    /** A DJ was found: list it once and record the profile it advertises. */
    method FoundPeer(peer: Peer, info: map<string, string>)
      requires Valid() && "name" in info && "imageUrl" in info
      modifies this`connectableDJs, this`peerProfileCorrespondence, this`effects
      ensures Valid()
      ensures connectableDJs == AppendIfAbsent(old(connectableDJs), peer)
      ensures peerProfileCorrespondence == SetProfile(old(peerProfileCorrespondence), peer, Some(ProfileFromInfo(info)))
      ensures effects == old(effects) + [Notify(ConnectableDevicesDidChange(connectableDJs))]
    {
      if peer !in connectableDJs {
        connectableDJs := connectableDJs + [peer];
      }
      peerProfileCorrespondence := peerProfileCorrespondence[peer := ProfileFromInfo(info)];
      effects := effects + [Notify(ConnectableDevicesDidChange(connectableDJs))];
    }

    /** A DJ disappeared: drop it from the candidates. */
    method LostPeer(peer: Peer)
      requires Valid()
      modifies this`connectableDJs, this`effects
      ensures Valid()
      ensures connectableDJs == Without(old(connectableDJs), peer)
      ensures effects == old(effects) + [Notify(ConnectableDevicesDidChange(connectableDJs))]
    {
      WithoutNoDuplicates(connectableDJs, peer);
      connectableDJs := Without(connectableDJs, peer);
      effects := effects + [Notify(ConnectableDevicesDidChange(connectableDJs))];
    }

    /** The songs of the queue entries 0 ..< count(), in order. */
    method QueueSnapshot() returns (songs: seq<Song>)
      ensures songs == Songs(playerQueue.items)
    {
      songs := [];
      for i := 0 to playerQueue.Count()
        invariant |songs| == i
        invariant forall k | 0 <= k < i :: songs[k] == playerQueue.items[k].song
      {
        var item := playerQueue.Get(i);
        songs := songs + [item.value.song];
      }
    }

    /** A peer's connection state changed; only the transition to connected acts. */
    method PeerStateChanged(peer: Peer, state: SessionState, own: Option<Profile>)
      requires state == Connected ==> role != Unset
      modifies this`effects
      ensures effects == old(effects) + if state == Connected then ConnectedEffects(role, own, Songs(playerQueue.items), peer) else []
    {
      if state != Connected {
        return;
      }
      effects := effects + [Notify(PeerConnectionStateDidUpdate)];
      if own.Some? {
        effects := effects + [Send(peer, PeerProfile(own))];
      }
      if role == DJ {
        var songs := QueueSnapshot();
        effects := effects + [Send(peer, RequestSongs(songs)), Notify(PlayerQueueNowPlayingSongDidChange)];
      }
    }

    /** A message from `peer`, dispatched on the local role and the message kind. */
    method Receive(peer: Peer, msg: Msg)
      requires Valid() && role != Unset
      modifies this`receivedSongs, this`peerProfileCorrespondence, this`effects, playerQueue`waiting
      ensures Valid()
      ensures role == DJ && msg.RequestSong? ==> playerQueue.State() == Next(old(playerQueue.State()), AddCalled(msg.song))
      ensures !(role == DJ && msg.RequestSong?) ==> playerQueue.State() == old(playerQueue.State())
      ensures receivedSongs == if role == Listener && msg.RequestSongs? then msg.songs else old(receivedSongs)
      ensures peerProfileCorrespondence == if msg.PeerProfile? then SetProfile(old(peerProfileCorrespondence), peer, msg.profile) else old(peerProfileCorrespondence)
      ensures effects == old(effects) + ReceiveEffects(role, msg)
    {
      if role == DJ {
        match msg
        case RequestSong(song) =>
          playerQueue.Add(song);
        case PeerProfile(profile) =>
          peerProfileCorrespondence := SetProfile(peerProfileCorrespondence, peer, profile);
          effects := effects + [Notify(PeerConnectionStateDidUpdate)];
        case _ =>
      } else {
        match msg
        case RequestSongs(songs) =>
          receivedSongs := songs;
          effects := effects + [Notify(PlayerQueueDidUpdate)];
        case NowPlaying(i) =>
          effects := effects + [Notify(NowPlayingSongDidChange(i))];
        case PeerProfile(profile) =>
          peerProfileCorrespondence := SetProfile(peerProfileCorrespondence, peer, profile);
          effects := effects + [Notify(PeerConnectionStateDidUpdate)];
        case _ =>
      }
    }
  }

  /** A song list delivered twice leaves the listener's mirror as one delivery does. */
  method SongListTwice(listener: ConnectionController, dj: Peer, songs: seq<Song>)
    requires listener.Valid() && listener.role == Listener
    modifies listener`receivedSongs, listener`peerProfileCorrespondence, listener`effects, listener.playerQueue`waiting
    ensures listener.receivedSongs == songs
    ensures listener.playerQueue.State() == old(listener.playerQueue.State())
    ensures listener.peerProfileCorrespondence == old(listener.peerProfileCorrespondence)
  {
    listener.Receive(dj, RequestSongs(songs));
    listener.Receive(dj, RequestSongs(songs));
  }

  /**
   * A listener connecting to a DJ: the snapshot the DJ sends on the new
   * connection, once received, makes the listener's mirror equal the songs
   * of the DJ's queue.
   */
  method ConnectListener(dj: ConnectionController, listener: ConnectionController, djPeer: Peer, listenerPeer: Peer, own: Option<Profile>)
    requires dj != listener && dj.playerQueue != listener.playerQueue
    requires dj.Valid() && listener.Valid() && dj.role == DJ && listener.role == Listener
    modifies dj`effects, listener`receivedSongs, listener`peerProfileCorrespondence, listener`effects
    modifies listener.playerQueue`waiting
    ensures listener.receivedSongs == Songs(dj.playerQueue.items)
  {
    dj.PeerStateChanged(listenerPeer, Connected, own);
    var snapshot := dj.effects[|dj.effects| - 2];
    assert snapshot == Send(listenerPeer, RequestSongs(Songs(dj.playerQueue.items)));
    listener.Receive(djPeer, snapshot.msg);
  }
}
