/**
 * `lookupAddressDHT`: ask the DHT for providers of an address, query them in turn, and
 * retry every 200 ms while nobody provides it, until the deadline.
 */
module DhtLookup {
  import opened Wrappers
  import opened Por

  const ADDRESS_LOOKUP_TIMEOUT: nat := 20_000
  const RETRY_DELAY: nat := 200

  /** One provider the DHT returns: whether a stream to it opens, and what it answers. */
  datatype Provider = Provider(id: string, opens: bool, reply: Result<AgentRecord>)

  /** The network seen by one lookup: the providers found in each round, and time in milliseconds. */
  datatype Network = Network(found: nat -> seq<Provider>, queryTime: nat -> nat, oversleep: nat -> nat)

  /** The deadline of the derived context. */
  function Deadline(callerTimeout: Option<nat>): (d: nat)
    ensures d <= 20_000 && (callerTimeout.Some? ==> d <= callerTimeout.value)
    ensures d == 20_000 || callerTimeout == Some(d)
  {
    if callerTimeout.Some? && callerTimeout.value < ADDRESS_LOOKUP_TIMEOUT then callerTimeout.value
    else ADDRESS_LOOKUP_TIMEOUT
  }

  /** The provider hands out a record that proves itself for the address. */
  predicate Usable(l: Ledgers, address: string, p: Provider) {
    && p.opens && p.reply.Ok?
    && CheckPor(l, p.reply.value, address, p.reply.value.peerPublicKey).Success?
  }

  ghost predicate NoneUsable(l: Ledgers, address: string, ps: seq<Provider>) {
    forall i :: 0 <= i < |ps| ==> !Usable(l, address, ps[i])
  }

  /** Provider `i` is the first usable one. */
  ghost predicate FirstUsable(l: Ledgers, address: string, ps: seq<Provider>, i: nat) {
    i < |ps| && Usable(l, address, ps[i]) && forall j :: 0 <= j < i ==> !Usable(l, address, ps[j])
  }

  /** The round saw nobody; a last provider without an ID counts as nobody, as in the code. */
  predicate Nobody(ps: seq<Provider>) {
    ps == [] || ps[|ps| - 1].id == ""
  }

  /** When round `k` has been answered, counting from the start of the lookup. */
  function Answered(net: Network, k: nat): nat {
    (if k == 0 then 0 else Answered(net, k - 1) + 200 + net.oversleep(k - 1)) + net.queryTime(k)
  }

  /** Round `k` leads to another one: it saw nobody and the deadline has not passed. */
  ghost predicate Retried(l: Ledgers, address: string, net: Network, deadline: nat, k: nat) {
    Nobody(net.found(k)) && NoneUsable(l, address, net.found(k)) && Answered(net, k) < deadline
  }

  /** Round `k` is the last one. */
  ghost predicate Decisive(l: Ledgers, address: string, net: Network, deadline: nat, k: nat) {
    && (forall j: nat :: j < k ==> Retried(l, address, net, deadline, j))
    && !Retried(l, address, net, deadline, k)
  }

  /** The round hands over a record: that of its first usable provider, whose key denotes a peer. */
  ghost predicate Yields(l: Ledgers, peerIdOf: string -> Option<string>, address: string, ps: seq<Provider>,
                         r: AgentRecord, id: string) {
    peerIdOf(r.peerPublicKey) == Some(id) && exists i: nat :: FirstUsable(l, address, ps, i) && ps[i].reply == Ok(r)
  }

  /** The round hands over nothing: no provider is usable, or the key of the first usable one denotes no peer. */
  ghost predicate Barren(l: Ledgers, peerIdOf: string -> Option<string>, address: string, ps: seq<Provider>) {
    forall i: nat :: FirstUsable(l, address, ps, i) ==> peerIdOf(ps[i].reply.value.peerPublicKey).None?
  }

  /** There is only one last round. */
  lemma DecisiveOnce(l: Ledgers, address: string, net: Network, deadline: nat, k: nat, m: nat)
    requires Decisive(l, address, net, deadline, k) && Decisive(l, address, net, deadline, m)
    ensures k == m
  {
  }

  /** A round hands over one record or none. */
  lemma YieldsOnce(l: Ledgers, peerIdOf: string -> Option<string>, address: string, ps: seq<Provider>,
                   r: AgentRecord, id: string)
    requires Yields(l, peerIdOf, address, ps, r, id)
    ensures !Barren(l, peerIdOf, address, ps)
    ensures forall q, other :: Yields(l, peerIdOf, address, ps, q, other) ==> q == r && other == id
  {
    var i: nat :| FirstUsable(l, address, ps, i) && ps[i].reply == Ok(r);
    forall j: nat | FirstUsable(l, address, ps, j)
      ensures i == j
    {
    }
  }

  lemma {:induction false} AnsweredLater(net: Network, j: nat, k: nat)
    requires j <= k
    ensures Answered(net, j) <= Answered(net, k)
  {
    if j == k {
    } else {
      AnsweredLater(net, j, k - 1);
    }
  }

  /**
   * An address that somebody provides is found: the first round that returns providers is the
   * last one if it holds a usable record and the retry that led to it came before the deadline.
   */
  lemma FirstProvidersDecide(l: Ledgers, address: string, net: Network, deadline: nat, k: nat)
    requires forall j: nat :: j < k ==> net.found(j) == []
    requires !NoneUsable(l, address, net.found(k)) && (k == 0 || Answered(net, k - 1) < deadline)
    ensures Decisive(l, address, net, deadline, k)
  {
    forall j: nat | j < k
      ensures Retried(l, address, net, deadline, j)
    {
      AnsweredLater(net, j, k - 1);
    }
  }

  /** `ceil(timeout / 200 ms) + 1`. */
  function RoundLimit(timeout: nat): nat {
    (timeout + 199) / 200 + 1
  }

  /** Every retry takes at least the delay. */
  lemma {:induction false} RoundsTakeTime(net: Network, k: nat)
    ensures RETRY_DELAY * k <= Answered(net, k)
  {
    if k == 0 {
    } else {
      RoundsTakeTime(net, k - 1);
    }
  }

  /**
   * The providers of one round, in turn.  `done` says that the lookup ends here: a usable record
   * was found.  `last` is the ID of the last provider seen.
   */
  method AskProviders(l: Ledgers, peerIdOf: string -> Option<string>, address: string, providers: seq<Provider>)
    returns (done: bool, last: string, peerId: string, record: Option<AgentRecord>, err: Option<string>)
    ensures done <==> !NoneUsable(l, address, providers)
    ensures record.Some? ==> done && err.None? && Yields(l, peerIdOf, address, providers, record.value, peerId)
    ensures record.None? ==> peerId == "" && Barren(l, peerIdOf, address, providers)
    ensures record.None? && providers != [] ==> err.Some?
    ensures !done ==> last == if providers == [] then "" else providers[|providers| - 1].id
  {
    done, last, peerId, record, err := false, "", "", None, None;
    for i := 0 to |providers|
      invariant last == if i == 0 then "" else providers[i - 1].id
      invariant i > 0 ==> err.Some?
      invariant forall j :: 0 <= j < i ==> !Usable(l, address, providers[j])
    {
      var p := providers[i];
      last := p.id;
      if !p.opens {
        err := Some("couldn't open stream to address provider");
        continue;
      }
      if p.reply.Err? {
        err := Some(p.reply.error);
        continue;
      }
      var candidate := p.reply.value;
      var code := CheckPor(l, candidate, address, candidate.peerPublicKey);
      if !code.Success? {
        err := Some("invalid agent record");
        continue;
      }
      assert FirstUsable(l, address, providers, i);
      done := true;
      var id := peerIdOf(candidate.peerPublicKey);
      if id.None? {
        err := Some("CRITICAL couldn't get peer ID from message");
      } else {
        peerId, record, err := id.value, Some(candidate), None;
      }
      return;
    }
  }

  /**
   * Returns as the Go function does: an ID, a record and an error.  The lookup goes on exactly
   * while rounds see nobody and the deadline is ahead, and succeeds exactly when its last round
   * yields a record.
   */
  method LookupAddressDht(l: Ledgers, peerIdOf: string -> Option<string>, address: string, cidOk: bool,
                          callerTimeout: Option<nat>, net: Network)
    returns (peerId: string, record: Option<AgentRecord>, err: Option<string>, rounds: nat)
    requires forall k :: peerIdOf(k) != Some("")
    ensures err.None? ==>
              && record.Some? && CheckPor(l, record.value, address, record.value.peerPublicKey).Success?
              && peerId != "" && peerIdOf(record.value.peerPublicKey) == Some(peerId)
    ensures err.Some? ==> peerId == "" && record.None?
    ensures !cidOk ==> err.Some? && rounds == 0
    ensures cidOk ==> rounds > 0 && Decisive(l, address, net, Deadline(callerTimeout), rounds - 1)
    ensures cidOk && err.None? ==> Yields(l, peerIdOf, address, net.found(rounds - 1), record.value, peerId)
    ensures cidOk && err.Some? ==> Barren(l, peerIdOf, address, net.found(rounds - 1))
    ensures rounds <= RoundLimit(Deadline(callerTimeout))
  {
    peerId, record, err, rounds := "", None, None, 0;
    if !cidOk {
      err := Some("cid");
      return;
    }
    var deadline, now := Deadline(callerTimeout), 0;
    while true
      invariant now == if rounds == 0 then 0 else Answered(net, rounds - 1) + RETRY_DELAY + net.oversleep(rounds - 1)
      invariant rounds > 0 ==> RETRY_DELAY * (rounds - 1) < deadline
      invariant forall j: nat :: j < rounds ==> Retried(l, address, net, deadline, j)
      decreases deadline - RETRY_DELAY * (rounds - 1)
    {
      RoundsTakeTime(net, rounds);
      var done, last;
      done, last, peerId, record, err := AskProviders(l, peerIdOf, address, net.found(rounds));
      rounds := rounds + 1;
      if done || last != "" {
        return;
      }
      now := now + net.queryTime(rounds - 1);
      if now >= deadline {
        err := Some("didn't find any provider for address within timeout");
        return;
      }
      now := now + RETRY_DELAY + net.oversleep(rounds - 1);
    }
  }
}
