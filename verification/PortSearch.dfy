/** How a server finds a port: the candidates after the desired one, tried until one can be bound. */
module PortSearch {
  import opened Options

  const PORTS: nat := 65536

  type Port = p: nat | p < 65536

  /**
   What binding can do on the host: the ports other than 0 that can be bound, and the port that
   binding the wildcard port 0 gives, if any.
   */
  datatype Host = Host(bindable: set<Port>, wildcard: Option<Port>)

  predicate Sane(host: Host) {
    0 !in host.bindable && (host.wildcard.Some? ==> host.wildcard.value in host.bindable)
  }

  /** One attempt: the port that is then bound. */
  function TryBind(host: Host, port: Port): Option<Port> {
    if port == 0 then host.wildcard
    else if port in host.bindable then Some(port)
    else None
  }

  /** The candidates are numbered from 0. */
  function Candidate(desired: Port, k: nat): Port {
    (desired + k) % PORTS
  }

  /** The iterator of addresses to try. */
  class SocketAddrsToTry {
    var nextPort: Port

    constructor (desired: Port)
      ensures nextPort == desired
    {
      nextPort := desired;
    }

    method Next() returns (port: Port)
      modifies this
      ensures port == old(nextPort)
      ensures nextPort == (old(nextPort) + 1) % PORTS
    {
      port := nextPort;
      nextPort := if nextPort == 65535 then 0 else nextPort + 1;
    }
  }

  /** The attempt numbered `k` is the first that succeeds. */
  ghost predicate FirstSuccess(host: Host, desired: Port, k: nat) {
    && TryBind(host, Candidate(desired, k)).Some?
    && forall j :: 0 <= j < k ==> TryBind(host, Candidate(desired, j)).None?
  }

  /**
   The loop inside `bind`, cut off after `patience` attempts: the original goes on as long as no
   attempt succeeds.
   */
  method Bind(host: Host, desired: Port, patience: nat) returns (bound: Option<Port>, attempts: nat)
    ensures attempts <= patience
    ensures bound.Some? ==>
              && attempts > 0
              && FirstSuccess(host, desired, attempts - 1)
              && bound == TryBind(host, Candidate(desired, attempts - 1))
    ensures bound.None? ==>
              attempts == patience && forall j :: 0 <= j < patience ==> TryBind(host, Candidate(desired, j)).None?
    ensures Sane(host) && patience >= PORTS ==> (bound.Some? <==> host.bindable != {})
  {
    var addresses := new SocketAddrsToTry(desired);
    attempts := 0;
    while attempts < patience
      invariant attempts <= patience
      invariant addresses.nextPort == Candidate(desired, attempts)
      invariant forall j :: 0 <= j < attempts ==> TryBind(host, Candidate(desired, j)).None?
    {
      var port := addresses.Next();
      CandidateNext(desired, attempts);
      attempts := attempts + 1;
      bound := TryBind(host, port);
      if bound.Some? {
        if Sane(host) {
          SomeIsBindable(host, port);
        }
        return;
      }
    }
    bound := None;
    if Sane(host) && patience >= PORTS && host.bindable != {} {
      ghost var p :| p in host.bindable;
      ghost var k := SearchEnds(host, desired, p);
    }
  }

  lemma SomeIsBindable(host: Host, port: Port)
    requires Sane(host) && TryBind(host, port).Some?
    ensures host.bindable != {}
  {
  }

  lemma CandidateNext(desired: Port, k: nat)
    ensures Candidate(desired, k + 1) == (Candidate(desired, k) + 1) % PORTS
  {
  }

  // ---------------------------------------------------------------------------------------------
  // The candidates
  // ---------------------------------------------------------------------------------------------

  /** When a port comes up for the first time. */
  function Turn(desired: Port, port: Port): (k: nat)
    ensures k < PORTS
  {
    if port >= desired then port - desired else PORTS - desired + port
  }

  /** The first 65536 candidates are all ports, each once. */
  lemma CandidatesArePermutation(desired: Port, k: nat, port: Port)
    requires k < PORTS
    ensures Candidate(desired, k) == port <==> k == Turn(desired, port)
  {
    if desired + k >= PORTS {
      assert Candidate(desired, k) == desired + k - PORTS;
    }
  }

  // ---------------------------------------------------------------------------------------------
  // The outcome of the search
  // ---------------------------------------------------------------------------------------------

  /** `p` is the least bindable port from `low` on. */
  ghost predicate Least(host: Host, low: nat, p: Port) {
    p in host.bindable && p >= low && forall q :: q in host.bindable && q >= low ==> p <= q
  }

  /**
   A candidate's attempt succeeds before the wrap exactly if its port is bindable, at the wrap if
   the wildcard gives something, and after it again if its port is bindable.
   */
  lemma AttemptAt(host: Host, desired: Port, k: nat)
    requires Sane(host) && k < PORTS
    ensures var p := Candidate(desired, k);
            && k == Turn(desired, p)
            && (p == 0 ==> TryBind(host, p) == host.wildcard)
            && (p != 0 ==> (TryBind(host, p).Some? <==> p in host.bindable))
  {
    CandidatesArePermutation(desired, k, Candidate(desired, k));
  }

  /** If some port can be bound the search ends, within one round of all ports. */
  lemma SearchEnds(host: Host, desired: Port, p: Port) returns (k: nat)
    requires Sane(host) && p in host.bindable
    ensures k <= Turn(desired, p) && FirstSuccess(host, desired, k)
  {
    k := 0;
    CandidatesArePermutation(desired, Turn(desired, p), p);
    while TryBind(host, Candidate(desired, k)).None?
      invariant k <= Turn(desired, p)
      invariant forall j :: 0 <= j < k ==> TryBind(host, Candidate(desired, j)).None?
      decreases Turn(desired, p) - k
    {
      k := k + 1;
    }
  }

  /** The search ends exactly if some port can be bound; else it goes on forever. */
  lemma SearchEndsIff(host: Host, desired: Port)
    requires Sane(host)
    ensures (exists k: nat :: FirstSuccess(host, desired, k)) <==> host.bindable != {}
  {
    if p: Port :| p in host.bindable {
      var k := SearchEnds(host, desired, p);
    }
  }

  /** A first success comes no later than the turn of any bindable port. */
  lemma NotLaterThan(host: Host, desired: Port, k: nat, q: Port)
    requires Sane(host) && FirstSuccess(host, desired, k) && q in host.bindable
    ensures k <= Turn(desired, q)
  {
    CandidatesArePermutation(desired, Turn(desired, q), q);
  }

  lemma FoundIsBindable(host: Host, desired: Port, k: nat)
    requires Sane(host) && FirstSuccess(host, desired, k)
    ensures TryBind(host, Candidate(desired, k)).value in host.bindable && k < PORTS
  {
    NotLaterThan(host, desired, k, TryBind(host, Candidate(desired, k)).value);
  }

  ghost predicate SomeBindableFrom(host: Host, low: nat) {
    exists q :: q in host.bindable && q >= low
  }

  /** What is found first: the least bindable port from the desired one on, if there is one. */
  lemma FindsLeastFromDesired(host: Host, desired: Port, k: nat)
    requires Sane(host) && FirstSuccess(host, desired, k)
    requires desired > 0 && SomeBindableFrom(host, desired)
    ensures var found := TryBind(host, Candidate(desired, k)).value;
            Least(host, desired, found) && k == found - desired
  {
    FoundIsBindable(host, desired, k);
    forall q | q in host.bindable && q >= desired ensures k <= q - desired {
      NotLaterThan(host, desired, k, q);
    }
    assert Candidate(desired, k) == desired + k;
  }

  /** Failing that, what binding the wildcard gives, if it gives anything; at the wrap. */
  lemma FindsWildcard(host: Host, desired: Port, k: nat)
    requires Sane(host) && FirstSuccess(host, desired, k)
    requires desired == 0 || !SomeBindableFrom(host, desired)
    requires host.wildcard.Some?
    ensures TryBind(host, Candidate(desired, k)) == host.wildcard && k == Turn(desired, 0)
  {
    CandidatesArePermutation(desired, Turn(desired, 0), 0);
    AttemptAt(host, desired, Turn(desired, 0));
    if k < Turn(desired, 0) {
      AttemptAt(host, desired, k);
    }
  }

  /** Failing that too, the least bindable port of all, in the next round. */
  lemma FindsLeastOfAll(host: Host, desired: Port, k: nat)
    requires Sane(host) && FirstSuccess(host, desired, k)
    requires desired == 0 || !SomeBindableFrom(host, desired)
    requires host.wildcard.None?
    ensures var found := TryBind(host, Candidate(desired, k)).value;
            Least(host, 1, found) && k == Turn(desired, found)
  {
    FoundIsBindable(host, desired, k);
    AttemptAt(host, desired, k);
    var found := TryBind(host, Candidate(desired, k)).value;
    forall q | q in host.bindable ensures found <= q {
      NotLaterThan(host, desired, k, q);
    }
  }

  /**
   With some port free and a wildcard that gives a free port, the search ends within
   65536 - desired + 1 attempts, or one if the desired port is 0, with the least free port from the
   desired one on if there is one and with the wildcard's otherwise.
   */
  lemma SearchFinds(host: Host, desired: Port) returns (k: nat)
    requires Sane(host) && host.bindable != {} && host.wildcard.Some?
    ensures FirstSuccess(host, desired, k)
    ensures k + 1 <= if desired == 0 then 1 else PORTS - desired + 1
    ensures var found := TryBind(host, Candidate(desired, k)).value;
            if desired > 0 && SomeBindableFrom(host, desired) then Least(host, desired, found)
            else found == host.wildcard.value
  {
    k := SearchEnds(host, desired, host.wildcard.value);
    CandidatesArePermutation(desired, Turn(desired, 0), 0);
    if desired > 0 && SomeBindableFrom(host, desired) {
      FindsLeastFromDesired(host, desired, k);
    } else {
      FindsWildcard(host, desired, k);
    }
  }
}
