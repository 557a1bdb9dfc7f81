/**
 * The delegate map against the delegate connections that are alive.  A connection enters its
 * address when it is accepted and deletes it when it ends, whoever else uses the address.
 */
module DelegateClients {
  import opened Por
  import opened Registry
  import Sequences

  ghost predicate LiveAs(s: Shared, a: string, t: nat) {
    t in s.tasks && s.tasks[t].Connected? && s.tasks[t].record.address == a
  }

  /** The connections of `a` that are alive. */
  ghost function Live(s: Shared, a: string): set<nat> {
    set t | t in s.tasks && LiveAs(s, a, t)
  }

  /** The map lists `a` exactly while a connection of `a` is alive. */
  ghost predicate Listed(s: Shared, a: string) {
    a in s.delegates <==> exists t :: LiveAs(s, a, t)
  }

  /** A run in which `a` has at most `k` live connections at any time. */
  ghost predicate IsRunWithin(n: Node, run: seq<State>, a: string, k: nat) {
    IsRun(n, run) && forall i :: 0 <= i < |run| ==> |Live(run[i].shared, a)| <= k
  }

  ghost predicate ReachableWithin(n: Node, s: State, a: string, k: nat) {
    exists run :: IsRunWithin(n, run, a, k) && run[|run| - 1] == s
  }

  /** A delegate client can register `a` with this node. */
  ghost predicate Admissible(n: Node, a: string) {
    exists r :: CheckPor(n.ledgers, r, a, n.myKey).Success?
  }

  /** With one connection at a time, only the one that ends is there. */
  lemma LastOne(s: Shared, a: string, t: nat, u: nat)
    requires |Live(s, a)| <= 1 && LiveAs(s, a, t) && LiveAs(s, a, u)
    ensures t == u
  {
    assert t in Live(s, a) && u in Live(s, a);
    var rest := Live(s, a) - {t};
    assert |rest| == |Live(s, a)| - 1;
    assert u == t || u in rest;
  }

  lemma ListedRegisters(n: Node, s: Shared, reg: Registration, s': Shared, a: string)
    requires |Live(s, a)| <= 1 && Listed(s, a) && Registers(n, s, reg, s')
    ensures Listed(s', a)
  {
    match reg
    case InsertDelegate(t) => InsertListed(n, s, t, s', a);
    case Disconnect(t) => DisconnectListed(n, s, t, s', a);
    case _ => LiveStays(n, s, reg, s', a);
  }

  lemma InsertListed(n: Node, s: Shared, t: nat, s': Shared, a: string)
    requires Listed(s, a) && Registers(n, s, InsertDelegate(t), s')
    ensures Listed(s', a)
  {
    forall u
      ensures LiveAs(s', a, u) <==> LiveAs(s, a, u) || (u == t && s.tasks[t].record.address == a)
    {
    }
    if s.tasks[t].record.address == a {
      assert LiveAs(s', a, t);
    }
  }

  lemma DisconnectListed(n: Node, s: Shared, t: nat, s': Shared, a: string)
    requires |Live(s, a)| <= 1 && Listed(s, a) && Registers(n, s, Disconnect(t), s')
    ensures Listed(s', a)
  {
    forall u
      ensures LiveAs(s', a, u) <==> LiveAs(s, a, u) && u != t
    {
    }
    if s.tasks[t].record.address == a {
      forall u | LiveAs(s, a, u)
        ensures u == t
      {
        LastOne(s, a, t, u);
      }
    }
  }

  lemma LiveStays(n: Node, s: Shared, reg: Registration, s': Shared, a: string)
    requires Registers(n, s, reg, s') && !reg.InsertDelegate? && !reg.Disconnect?
    ensures s'.delegates == s.delegates && forall t :: LiveAs(s', a, t) <==> LiveAs(s, a, t)
  {
  }

  lemma {:induction false} RunListed(n: Node, run: seq<State>, a: string, i: nat)
    requires IsRunWithin(n, run, a, 1) && i < |run|
    ensures Listed(run[i].shared, a)
  {
    if i == 0 {
    } else {
      RunListed(n, run, a, i - 1);
      assert Steps(n, run[i - 1], run[i]);
      var step :| Next(n, run[i - 1], step, run[i]);
      if step.Register? {
        ListedRegisters(n, run[i - 1].shared, step.reg, run[i].shared, a);
      }
    }
  }

  /** Nobody lives under an address this node admits nobody for, however many might. */
  lemma NobodyAdmitted(n: Node, run: seq<State>, a: string, k: nat)
    requires Started(n) && !Admissible(n, a) && IsRunWithin(n, run, a, k)
    ensures IsRunWithin(n, run, a, 1)
  {
    forall i | 0 <= i < |run|
      ensures |Live(run[i].shared, a)| <= 1
    {
      RunKeepsInv(n, run, i);
      NoneLive(n, run[i].shared, a);
    }
  }

  lemma NoneLive(n: Node, s: Shared, a: string)
    requires TasksOk(n, s) && !Admissible(n, a)
    ensures Live(s, a) == {}
  {
    forall t | LiveAs(s, a, t)
      ensures CheckPor(n.ledgers, s.tasks[t].record, a, n.myKey).Success?
    {
      assert TaskOk(n, s, s.tasks[t]);
    }
  }

  // ---------------------------------------------------------------------------
  // Two connections of one address
  // ---------------------------------------------------------------------------

  lemma ExtendWithin(n: Node, s: State, reg: Registration, s': State, a: string, k: nat)
    requires ReachableWithin(n, s, a, k) && k >= 2
    requires Next(n, s, Register(reg), s') && s'.shared.tasks.Keys <= {0, 1}
    ensures ReachableWithin(n, s', a, k)
  {
    Sequences.SubsetSize(Live(s'.shared, a), {0, 1});
    var run :| IsRunWithin(n, run, a, k) && run[|run| - 1] == s;
    var longer := run + [s'];
    assert Steps(n, s, s');
    assert IsRunWithin(n, longer, a, k) && longer[|longer| - 1] == s';
  }

  /** A delegate client of `a` is accepted. */
  lemma ClientJoins(n: Node, s: State, t: nat, r: AgentRecord, a: string, k: nat) returns (s': State)
    requires ReachableWithin(n, s, a, k) && k >= 2 && s.shared.tasks.Keys <= {0, 1}
    requires t in {0, 1} && t !in s.shared.tasks && r.address == a && CheckPor(n.ledgers, r, a, n.myKey).Success?
    ensures ReachableWithin(n, s', a, k) && s'.shared.tasks == s.shared.tasks[t := Connected(r)]
  {
    var verified := s.(shared := s.shared.(tasks := s.shared.tasks[t := Delegate(r, false)]));
    ExtendWithin(n, s, VerifyDelegate(t, r), verified, a, k);
    s' := RecordedJoins(n, verified, t, r, a, k);
    assert s'.shared.tasks == s.shared.tasks[t := Connected(r)];
  }

  lemma RecordedJoins(n: Node, s: State, t: nat, r: AgentRecord, a: string, k: nat) returns (s': State)
    requires ReachableWithin(n, s, a, k) && k >= 2 && s.shared.tasks.Keys <= {0, 1}
    requires t in s.shared.tasks && s.shared.tasks[t] == Delegate(r, false)
    ensures ReachableWithin(n, s', a, k) && s'.shared.tasks == s.shared.tasks[t := Connected(r)]
  {
    var recorded := s.(shared := s.shared.(records := s.shared.records[r.address := r],
                                           tasks := s.shared.tasks[t := Delegate(r, true)]));
    ExtendWithin(n, s, Record(t), recorded, a, k);
    s' := recorded.(shared := recorded.shared.(delegates := recorded.shared.delegates + {r.address},
                                               tasks := recorded.shared.tasks[t := Connected(r)]));
    ExtendWithin(n, recorded, InsertDelegate(t), s', a, k);
    assert s'.shared.tasks == s.shared.tasks[t := Connected(r)];
  }

  /** One of two connections of an address ends, and the other is no longer found. */
  lemma LiveClientUnlisted(n: Node, a: string, k: nat, r: AgentRecord) returns (s: State)
    requires k >= 2 && CheckPor(n.ledgers, r, a, n.myKey).Success?
    ensures ReachableWithin(n, s, a, k) && LiveAs(s.shared, a, 1) && a !in s.shared.delegates
  {
    PorBindsAgentAndPeer(n.ledgers, r, a, n.myKey);
    var start := State(Registry.Shared(map[], map[], {}, [], map[], map[]), map[], []);
    assert Live(start.shared, a) == {};
    assert IsRunWithin(n, [start], a, k);
    var one := ClientJoins(n, start, 0, r, a, k);
    var two := ClientJoins(n, one, 1, r, a, k);
    s := two.(shared := two.shared.(delegates := two.shared.delegates - {a}, tasks := two.shared.tasks - {0}));
    ExtendWithin(n, two, Disconnect(0), s, a, k);
  }

  /**
   * The delegate map lists an address exactly while a connection of it is alive, in every run,
   * if and only if it has one connection at a time or this node admits none for it.
   */
  lemma DelegateMapIsCurrent(n: Node, a: string, k: nat)
    requires Started(n)
    ensures (forall s :: ReachableWithin(n, s, a, k) ==> Listed(s.shared, a)) <==> k <= 1 || !Admissible(n, a)
  {
    if k <= 1 || !Admissible(n, a) {
      forall s | ReachableWithin(n, s, a, k)
        ensures Listed(s.shared, a)
      {
        var run :| IsRunWithin(n, run, a, k) && run[|run| - 1] == s;
        if !Admissible(n, a) {
          NobodyAdmitted(n, run, a, k);
        }
        RunListed(n, run, a, |run| - 1);
      }
    } else {
      var r :| CheckPor(n.ledgers, r, a, n.myKey).Success?;
      var s := LiveClientUnlisted(n, a, k, r);
    }
  }
}
