/**
 * The handlers of the announcement handshake as code: each method runs one handler without
 * interruption and accounts for every step it takes, so that it goes from one reachable
 * state of the protocol to another and inherits its guarantees.
 */
module AnnouncingPeer {
  import opened Announcement

  function Scanning(kind: Kind, todo: set<string>): Notif {
    if kind.Relay? then ScanRelays(todo) else ScanDelegates(todo)
  }

  function Other(kind: Kind): Kind {
    if kind.Relay? then Delegate else Relay
  }

  predicate Enabled(c: Config, kind: Kind) {
    if kind.Relay? then c.relayEnabled else c.delegateEnabled
  }

  class DhtPeer {
    const config: Config
    var dhtAddresses: set<string>
    var tcpAddresses: set<string>
    var addressAnnouncedMap: set<string>
    var enableAddressAnnouncement: bool
    var enableAddressAnnouncementWg: int
    ghost const stored: set<string>
    ghost var clients: map<nat, Client>
    ghost var notifs: map<nat, Notif>

    ghost function View(): State
      reads this
    {
      State(dhtAddresses, tcpAddresses, addressAnnouncedMap, enableAddressAnnouncement,
            enableAddressAnnouncementWg, clients, notifs)
    }

    /** The present state is one the protocol can reach. */
    ghost predicate Valid()
      reads this
    {
      Reachable(config, stored, View())
    }

    /** `New` without bootstrap peers, after replaying the relay clients `stored` in the log. */
    constructor (config: Config, stored: set<string>)
      ensures Valid() && this.config == config && this.stored == stored
    {
      this.config, this.stored := config, stored;
      dhtAddresses, tcpAddresses, addressAnnouncedMap := stored, {}, {};
      enableAddressAnnouncement, enableAddressAnnouncementWg := false, 0;
      clients, notifs := map[], map[];
      new;
      assert IsRun(config, stored, [View()]);
    }

    /** `RegisterAgentAddress`: the mark comes first, whatever `Provide` then returns. */
    method RegisterAgentAddress(addr: string)
      modifies this`addressAnnouncedMap
      ensures addressAnnouncedMap == old(addressAnnouncedMap) + {addr}
    {
      if addr in addressAnnouncedMap {
        return;
      }
      addressAnnouncedMap := addressAnnouncedMap + {addr};
    }

    /** The registration part of the relay and delegate handlers, where `Wait` returns at once. */
    method RegisterClient(p: nat, kind: Kind, addr: string)
      requires Valid() && p !in clients && enableAddressAnnouncementWg == 0 && Unlocked(View(), kind)
      requires Enabled(config, kind)
      modifies this`dhtAddresses, this`tcpAddresses, this`addressAnnouncedMap, this`clients
      ensures Valid() && clients == old(clients)[p := Client(kind, addr, Settled)]
      ensures Published(View(), kind) == Published(old(View()), kind) + {addr}
      ensures Published(View(), Other(kind)) == Published(old(View()), Other(kind))
      ensures addressAnnouncedMap == old(addressAnnouncedMap) + (if enableAddressAnnouncement then {addr} else {})
    {
      Publish(p, kind, addr);
      FinishRegistration(p, kind, addr);
    }

    /** What follows the map write, once `Wait` returns; any handlers may have run since `Publish`. */
    method FinishRegistration(p: nat, kind: Kind, addr: string)
      requires Valid() && p in clients && clients[p] == Client(kind, addr, Waiting) && enableAddressAnnouncementWg == 0
      modifies this`addressAnnouncedMap, this`clients
      ensures Valid() && clients == old(clients)[p := Client(kind, addr, Settled)]
      ensures addressAnnouncedMap == old(addressAnnouncedMap) + (if enableAddressAnnouncement then {addr} else {})
    {
      ghost var s := View();
      clients := clients[p := Client(kind, addr, Passed)];
      Extend(config, stored, s, WaitReturns(p), View());
      s := View();
      var enabled := enableAddressAnnouncement;
      clients := clients[p := Client(kind, addr, if enabled then Announcing else Settled)];
      Extend(config, stored, s, ReadFlag(p), View());
      s := View();
      if enabled {
        RegisterAgentAddress(addr);
        clients := clients[p := Client(kind, addr, Settled)];
        Extend(config, stored, s, Announce(p), View());
      }
    }

    /** A delegate connection ends: its address leaves the map, and nothing else changes. */
    method RemoveClient(p: nat, addr: string)
      requires Valid() && p in clients && clients[p] == Client(Delegate, addr, Settled) && Unlocked(View(), Delegate)
      modifies this`tcpAddresses, this`clients
      ensures Valid() && tcpAddresses == old(tcpAddresses) - {addr} && clients == old(clients) - {p}
    {
      ghost var s := View();
      tcpAddresses := tcpAddresses - {addr};
      clients := clients - {p};
      Extend(config, stored, s, Disconnect(p), View());
    }

    /** The map write of a registration. */
    method Publish(p: nat, kind: Kind, addr: string)
      requires Valid() && p !in clients && Unlocked(View(), kind) && Enabled(config, kind)
      modifies this`dhtAddresses, this`tcpAddresses, this`clients
      ensures Valid() && clients == old(clients)[p := Client(kind, addr, Waiting)]
      ensures Published(View(), kind) == Published(old(View()), kind) + {addr}
      ensures Published(View(), Other(kind)) == Published(old(View()), Other(kind))
    {
      ghost var s := View();
      clients := clients[p := Client(kind, addr, Arriving)];
      Extend(config, stored, s, Connect(p, kind, addr), View());
      s := View();
      if kind.Relay? {
        dhtAddresses := dhtAddresses + {addr};
      } else {
        tcpAddresses := tcpAddresses + {addr};
      }
      clients := clients[p := Client(kind, addr, Waiting)];
      Extend(config, stored, s, Insert(p), View());
    }

    /** The loop of a scan: every address the map held when its read lock was taken is marked. */
    method ScanAll(q: nat, kind: Kind, addrs: set<string>)
      requires Valid() && q in notifs && notifs[q] == Scanning(kind, addrs)
      modifies this`addressAnnouncedMap, this`notifs
      ensures Valid() && notifs == old(notifs)[q := Scanning(kind, {})]
      ensures addressAnnouncedMap == old(addressAnnouncedMap) + addrs
    {
      var todo := addrs;
      while todo != {}
        invariant Valid() && todo <= addrs && notifs == old(notifs)[q := Scanning(kind, todo)]
        invariant addressAnnouncedMap == old(addressAnnouncedMap) + (addrs - todo)
        decreases |todo|
      {
        ghost var s := View();
        var addr :| addr in todo;
        RegisterAgentAddress(addr);
        todo := todo - {addr};
        notifs := notifs[q := Scanning(kind, todo)];
        Extend(config, stored, s, Scan(q, addr), View());
      }
    }

    /** Announce the relay or delegate clients, if the service is on. */
    method AnnouncePublished(q: nat, kind: Kind)
      requires Valid() && q in notifs && notifs[q] == (if kind.Relay? then OwnDone else RelaysDone)
      modifies this`addressAnnouncedMap, this`notifs
      ensures Valid() && notifs == old(notifs)[q := if kind.Relay? then RelaysDone else DelegatesDone]
      ensures addressAnnouncedMap == old(addressAnnouncedMap) + (if Enabled(config, kind) then Published(View(), kind) else {})
    {
      ghost var s := View();
      var done := if kind.Relay? then RelaysDone else DelegatesDone;
      if !Enabled(config, kind) {
        notifs := notifs[q := done];
        Extend(config, stored, s, Proceed(q), View());
        return;
      }
      var addrs := if kind.Relay? then dhtAddresses else tcpAddresses;
      notifs := notifs[q := Scanning(kind, addrs)];
      Extend(config, stored, s, Proceed(q), View());
      ScanAll(q, kind, addrs);
      s := View();
      notifs := notifs[q := done];
      Extend(config, stored, s, Proceed(q), View());
    }

    /**
     * `handleAeaNotifStream`: `routed` says whether the notifying peer reached the routing
     * table in time, `ownOk` whether announcing the own address succeeded.
     */
    method HandleAeaNotifStream(q: nat, routed: bool, ownOk: bool)
      requires Valid() && q !in notifs
      modifies this
      ensures Valid()
      ensures enableAddressAnnouncementWg == old(enableAddressAnnouncementWg) && notifs == old(notifs)
      ensures enableAddressAnnouncement <==> old(enableAddressAnnouncement) || (routed && ownOk)
      ensures routed && ownOk ==>
                addressAnnouncedMap == old(addressAnnouncedMap) + Own(config)
                                       + (if config.relayEnabled then dhtAddresses else {})
                                       + (if config.delegateEnabled then tcpAddresses else {})
      ensures !routed ==> addressAnnouncedMap == old(addressAnnouncedMap)
      ensures routed && !ownOk ==> addressAnnouncedMap == old(addressAnnouncedMap) + Own(config)
      ensures dhtAddresses == old(dhtAddresses) && tcpAddresses == old(tcpAddresses) && clients == old(clients)
    {
      Begin(q);
      if !routed {
        Finish(q);
        return;
      }
      AnnounceOwnAddress(q);
      if !ownOk {
        Finish(q);
        return;
      }
      AnnounceClients(q);
      Finish(q);
    }

    /** Both scans, and only then the flag. */
    method AnnounceClients(q: nat)
      requires Valid() && q in notifs && notifs[q] == OwnDone
      modifies this`addressAnnouncedMap, this`notifs, this`enableAddressAnnouncement
      ensures Valid() && notifs == old(notifs)[q := FlagSet] && enableAddressAnnouncement
      ensures addressAnnouncedMap == old(addressAnnouncedMap) + (if config.relayEnabled then dhtAddresses else {})
                                     + (if config.delegateEnabled then tcpAddresses else {})
    {
      AnnouncePublished(q, Relay);
      AnnouncePublished(q, Delegate);
      EnableAnnouncements(q);
    }

    /** The handler arrives and raises the WaitGroup. */
    method Begin(q: nat)
      requires Valid() && q !in notifs
      modifies this`enableAddressAnnouncementWg, this`notifs
      ensures Valid()
      ensures notifs == old(notifs)[q := Raised] && enableAddressAnnouncementWg == old(enableAddressAnnouncementWg) + 1
    {
      ghost var s := View();
      notifs := notifs[q := Arrived];
      Extend(config, stored, s, Notify(q), View());
      s := View();
      enableAddressAnnouncementWg := enableAddressAnnouncementWg + 1;
      notifs := notifs[q := Raised];
      Extend(config, stored, s, WaitGroupAdd(q), View());
    }

    method AnnounceOwnAddress(q: nat)
      requires Valid() && q in notifs && notifs[q] == Raised
      modifies this`addressAnnouncedMap, this`notifs
      ensures Valid()
      ensures notifs == old(notifs)[q := OwnDone] && addressAnnouncedMap == old(addressAnnouncedMap) + Own(config)
    {
      ghost var s := View();
      if config.own != "" && config.own !in addressAnnouncedMap {
        RegisterAgentAddress(config.own);
      }
      notifs := notifs[q := OwnDone];
      Extend(config, stored, s, AnnounceOwn(q), View());
    }

    method EnableAnnouncements(q: nat)
      requires Valid() && q in notifs && notifs[q] == DelegatesDone
      modifies this`enableAddressAnnouncement, this`notifs
      ensures Valid() && notifs == old(notifs)[q := FlagSet] && enableAddressAnnouncement
    {
      ghost var s := View();
      enableAddressAnnouncement := true;
      notifs := notifs[q := FlagSet];
      Extend(config, stored, s, Proceed(q), View());
    }

    /** The deferred `Done`. */
    method Finish(q: nat)
      requires Valid() && q in notifs && (notifs[q] == FlagSet || notifs[q] == Raised || notifs[q] == OwnDone)
      modifies this`enableAddressAnnouncementWg, this`notifs
      ensures Valid()
      ensures notifs == old(notifs) - {q} && enableAddressAnnouncementWg == old(enableAddressAnnouncementWg) - 1
    {
      ghost var s := View();
      enableAddressAnnouncementWg := enableAddressAnnouncementWg - 1;
      notifs := notifs - {q};
      Extend(config, stored, s, WaitGroupDone(q), View());
    }
  }

  /** Whatever handlers have run, in whatever order, no published address is lost. */
  lemma NothingLost(peer: DhtPeer)
    requires peer.Valid() && (peer.config.relayEnabled || peer.stored <= Own(peer.config))
    ensures NoneLost(peer.config, peer.View())
  {
    assert Reachable(peer.config, peer.stored, peer.View());
    NoneLostWhenScanned(peer.config, peer.stored, peer.View());
  }
}
