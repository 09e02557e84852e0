/** What a history of the switch protocol must look like, said about the history alone. */
module SwitchHistory {
  import opened Wrappers
  import opened Lifecycle
  import opened SwitchProtocol

  type History = seq<Event>

  predicate About(e: Event, x: Alias) {
    match e
    case Issued(_, m) => m == x
    case Observed(m, _) => m == x
    case Failed(m) => m == x
    case _ => false
  }

  /** The most recent lifecycle call, probe answer or failed transition of `x`. */
  function Latest(h: History, x: Alias): Option<Event> {
    if h == [] then None
    else
      var n := |h| - 1;
      if About(h[n], x) then Some(h[n]) else Latest(h[..n], x)
  }

  predicate SeenAsleep(h: History, x: Alias) {
    Latest(h, x) == Some(Observed(x, true))
  }

  predicate SeenAwake(h: History, x: Alias) {
    Latest(h, x) == Some(Observed(x, false))
  }

  /** A sleep or wake of `x` has failed and no probe of `x` has answered since. */
  predicate Broken(h: History, x: Alias) {
    if h == [] then false
    else
      var n := |h| - 1;
      match h[n]
      case Failed(m) => m == x || Broken(h[..n], x)
      case Observed(m, _) => m != x && Broken(h[..n], x)
      case _ => Broken(h[..n], x)
  }

  /** Reservations of `x` entered and not yet exited. */
  function Outstanding(h: History, x: Alias): int {
    if h == [] then 0
    else
      var n := |h| - 1;
      Outstanding(h[..n], x) +
      match h[n]
      case Reserved(_, m) => if m == x then 1 else 0
      case Released(_, m) => if m == x then -1 else 0
      case _ => 0
  }

  /** Sleep (or wake) calls since the lock was last acquired. */
  function CallsHeld(h: History, asleep: bool): nat {
    if h == [] then 0
    else
      var n := |h| - 1;
      match h[n]
      case Acquired(_) => 0
      case Issued(b, _) => CallsHeld(h[..n], asleep) + if b == asleep then 1 else 0
      case _ => CallsHeld(h[..n], asleep)
  }

  /** Every alias but `m` was last seen asleep. */
  ghost predicate OthersSeenAsleep(c: Config, h: History, m: Alias) {
    forall x <- c.names :: x != m ==> SeenAsleep(h, x)
  }

  ghost predicate NothingBroken(h: History) {
    forall x :: !Broken(h, x)
  }

  /** No request is between entering and exiting a reservation or an upstream stream. */
  ghost predicate NobodyInside(h: History) {
    && (forall r, m :: multiset(h)[Reserved(r, m)] == multiset(h)[Released(r, m)])
    && (forall r :: multiset(h)[Opened(r)] == multiset(h)[Closed(r)])
  }

  /** When event `e` may follow the history `past`. */
  ghost predicate EntryOk(c: Config, past: History, e: Event) {
    match e
    case Issued(asleep, m) =>
      // One awake model at most, nobody using it, and nothing in doubt.
      && m in c.names
      && OthersSeenAsleep(c, past, m)
      && Latest(past, m) == Some(Observed(m, !asleep))
      && NobodyInside(past)
      && NothingBroken(past)
    case Ready(_, m) =>
      && OthersSeenAsleep(c, past, m) && SeenAwake(past, m)
      && CallsHeld(past, true) <= 1 && CallsHeld(past, false) <= 1
      && NothingBroken(past)
    case Reserved(r, m) =>
      && OthersSeenAsleep(c, past, m) && SeenAwake(past, m)
      && NothingBroken(past)
      && multiset(past)[e] == 0
    case Released(r, m) =>
      && multiset(past)[Reserved(r, m)] == 1 && multiset(past)[e] == 0
      // The reservation outlives the upstream stream it protects.
      && multiset(past)[Opened(r)] == multiset(past)[Closed(r)]
    case Opened(_) => multiset(past)[e] == 0
    case Closed(r) => multiset(past)[Opened(r)] == 1 && multiset(past)[e] == 0
    case _ => true
  }

  ghost predicate HistoryOk(c: Config, h: History) {
    forall i :: 0 <= i < |h| ==> EntryOk(c, h[..i], h[i])
  }

  lemma HistoryGrows(c: Config, h: History, e: Event)
    requires HistoryOk(c, h) && EntryOk(c, h, e)
    ensures HistoryOk(c, h + [e])
  {
    var h' := h + [e];
    forall i | 0 <= i < |h'|
      ensures EntryOk(c, h'[..i], h'[i])
    {
      if i < |h| {
        assert h'[..i] == h[..i];
      } else {
        assert h'[..i] == h;
      }
    }
  }

  /** How each observer of the history reads one more event. */
  lemma Snoc(h: History, e: Event)
    ensures forall x :: Latest(h + [e], x) == if About(e, x) then Some(e) else Latest(h, x)
    ensures forall x :: Broken(h + [e], x) ==
                        (e == Failed(x) || (Broken(h, x) && !(e.Observed? && e.m == x)))
    ensures forall x :: Outstanding(h + [e], x) == Outstanding(h, x) +
                        (if e.Reserved? && e.m == x then 1 else if e.Released? && e.m == x then -1 else 0)
    ensures forall b :: CallsHeld(h + [e], b) ==
                        if e.Acquired? then 0 else CallsHeld(h, b) + if e.Issued? && e.asleep == b then 1 else 0
    ensures forall f :: multiset(h + [e])[f] == multiset(h)[f] + if e == f then 1 else 0
  {
    assert (h + [e])[..|h|] == h;
    assert multiset(h + [e]) == multiset(h) + multiset{e};
  }
}
