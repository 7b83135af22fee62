/** The rendezvous between the thread that moves the server from state to state and the threads
    that wait for a state. */
module StateWaiters {

  datatype ServerState =
    | Disconnected | Initializing | Initialized | Connected | Joiner | Joined | Donor | Synced | Disconnecting

  /** The table of server_state::state(). */
  predicate Allowed(from: ServerState, to: ServerState) {
    match from
    case Disconnected => to.Initializing? || to.Connected?
    case Initializing => to.Disconnected? || to.Initialized? || to.Disconnecting?
    case Initialized => to.Disconnected? || to.Connected? || to.Joined? || to.Disconnecting?
    case Connected => to.Disconnected? || to.Connected? || to.Joiner? || to.Synced? || to.Disconnecting?
    case Joiner => to.Disconnected? || to.Initializing? || to.Joined? || to.Disconnecting?
    case Joined => to.Disconnected? || to.Connected? || to.Donor? || to.Synced? || to.Disconnecting?
    case Donor => to.Disconnected? || to.Connected? || to.Joined? || to.Disconnecting?
    case Synced => to.Disconnected? || to.Connected? || to.Joined? || to.Donor? || to.Disconnecting?
    case Disconnecting => to.Disconnected?
  }

  function Index(s: ServerState): (i: nat)
    ensures i < 9
  {
    match s
    case Disconnected => 0 case Initializing => 1 case Initialized => 2 case Connected => 3 case Joiner => 4
    case Joined => 5 case Donor => 6 case Synced => 7 case Disconnecting => 8
  }

  /** The rows of the source. */
  lemma TransitionTable(from: ServerState, to: ServerState)
    ensures Allowed(from, to) <==>
      [[0, 1, 0, 1, 0, 0, 0, 0, 0],
       [1, 0, 1, 0, 0, 0, 0, 0, 1],
       [1, 0, 0, 1, 0, 1, 0, 0, 1],
       [1, 0, 0, 1, 1, 0, 0, 1, 1],
       [1, 1, 0, 0, 0, 1, 0, 0, 1],
       [1, 0, 0, 1, 0, 0, 1, 1, 1],
       [1, 0, 0, 1, 0, 1, 0, 0, 1],
       [1, 0, 0, 1, 0, 1, 1, 0, 1],
       [1, 0, 0, 0, 0, 0, 0, 0, 0]][Index(from)][Index(to)] == 1
  {
  }

  predicate Down(s: ServerState) { s.Disconnected? || s.Disconnecting? }

  /** How a wait ended. */
  datatype Outcome = Observed | Interrupted

  class Rendezvous {
    var state: ServerState
    var waiters: map<nat, ServerState>    // waits in wait_until_state(), and what they wait for
    var setters: nat                      // threads inside the setter, waiting for their waiters
    var outcomes: map<nat, Outcome>       // waits that have ended
    var visited: seq<ServerState>         // states entered, the present one last
    var due: set<nat>                     // waits that were on for a state when it was entered
    var missed: bool                      // some thread was still waiting for a state that was left

    /** With one setter at a time: whoever waits for the present state is being waited for, and every
        wait that was on for a state when it was entered has observed it or is about to. */
    ghost predicate Valid()
      reads this
    {
      && !missed && setters <= 1
      && visited != [] && visited[|visited| - 1] == state
      && (forall w | w in waiters :: w !in outcomes && (waiters[w] == state ==> setters == 1))
      && (forall w | w in due :: Met(w) || (w in waiters && waiters[w] == state))
    }

    predicate Met(w: nat) reads this { w in outcomes && outcomes[w].Observed? }

    constructor ()
      ensures Valid() && state.Disconnected? && setters == 0 && waiters == map[] && outcomes == map[] && due == {}
    {
      state, waiters, setters, outcomes, missed := Disconnected, map[], 0, map[], false;
      visited, due := [Disconnected], {};
    }

    /** wait_until_state() up to the first wait on the condition variable.  Every wait has a number of
        its own. */
    method BeginWait(w: nat, wanted: ServerState)
      requires w !in waiters && w !in outcomes && w !in due
      modifies `waiters, `outcomes
      ensures old(Valid()) ==> Valid()
      ensures waiters == if wanted == state then old(waiters) else old(waiters)[w := wanted]
      ensures outcomes == if wanted == state then old(outcomes)[w := Observed] else old(outcomes)
    {
      if wanted == state {
        outcomes := outcomes[w := Observed];
      } else {
        waiters := waiters[w := wanted];
      }
    }

    /** A waiter looks up from the condition variable. */
    method Wake(w: nat)
      requires w in waiters
      modifies `waiters, `outcomes
      ensures old(Valid()) ==> Valid()
      ensures var wanted := old(waiters)[w];
        if Down(state) && !Down(wanted) then
          waiters == old(waiters) - {w} && outcomes == old(outcomes)[w := Interrupted]
        else if state == wanted then
          waiters == old(waiters) - {w} && outcomes == old(outcomes)[w := Observed]
        else waiters == old(waiters) && outcomes == old(outcomes)
    {
      var wanted := waiters[w];
      if !wanted.Disconnecting? && !wanted.Disconnected? && (state.Disconnecting? || state.Disconnected?) {
        waiters, outcomes := waiters - {w}, outcomes[w := Interrupted];
      } else if state == wanted {
        waiters, outcomes := waiters - {w}, outcomes[w := Observed];
      }
    }

    /** state() up to its wait for the waiters; ignored while disconnecting if not allowed. */
    method SetState(next: ServerState)
      requires Allowed(state, next) || state.Disconnecting?
      modifies `state, `setters, `visited, `due, `missed
      ensures old(Valid()) && old(setters) == 0 ==> Valid()
      ensures if Allowed(old(state), next)
        then
          && state == next && setters == old(setters) + 1 && visited == old(visited) + [next]
          && due == old(due) + (set w | w in waiters && waiters[w] == next)
        else state == old(state) && setters == old(setters) && visited == old(visited) && due == old(due)
      ensures missed == (old(missed) || (Allowed(old(state), next) && next != old(state) &&
        exists w :: w in waiters && waiters[w] == old(state)))
    {
      if !Allowed(state, next) { return; }
      if next != state && exists w :: w in waiters && waiters[w] == state { missed := true; }
      state := next;
      setters := setters + 1;
      visited := visited + [next];
      due := due + set w | w in waiters && waiters[w] == next;
    }

    /** state() finds no waiter for the present state and returns. */
    method SetterReturns()
      requires setters > 0 && forall w | w in waiters :: waiters[w] != state
      modifies `setters
      ensures old(Valid()) ==> Valid()
      ensures setters == old(setters) - 1
    {
      setters := setters - 1;
    }
  }

  datatype Event = Wait(w: nat, wanted: ServerState) | WakeUp(w: nat) | Set(next: ServerState) | Return

  predicate Enabled(r: Rendezvous, e: Event, singleSetter: bool)
    reads r
  {
    match e
    case Wait(w, _) => w !in r.waiters && w !in r.outcomes && w !in r.due
    case WakeUp(w) => w in r.waiters
    case Set(next) => (Allowed(r.state, next) || r.state.Disconnecting?) && (singleSetter ==> r.setters == 0)
    case Return => r.setters > 0 && forall w | w in r.waiters :: r.waiters[w] != r.state
  }

  method Do(r: Rendezvous, e: Event)
    requires Enabled(r, e, false)
    modifies r
    ensures old(r.Valid()) && old(Enabled(r, e, true)) ==> r.Valid()
    ensures !e.Set? ==> r.state == old(r.state) && r.visited == old(r.visited) && r.due == old(r.due)
  {
    match e
    case Wait(w, wanted) => r.BeginWait(w, wanted);
    case WakeUp(w) => r.Wake(w);
    case Set(next) => r.SetState(next);
    case Return => r.SetterReturns();
  }

  /** With one setter at a time, in any run: no state is left while a thread still waits for it, and
      every wait that was on for a state when it was entered ends observed, before the state is left.
      Between two transitions none is left over. */
  method NoMissedState(script: seq<Event>) returns (r: Rendezvous)
    ensures !r.missed
    ensures forall w | w in r.due :: r.Met(w) || (w in r.waiters && r.waiters[w] == r.state && r.setters == 1)
    ensures r.setters == 0 ==> forall w | w in r.due :: r.Met(w)
    ensures r.setters == 0 ==> forall w | w in r.waiters :: r.waiters[w] != r.state
  {
    r := new Rendezvous();
    for n := 0 to |script|
      invariant fresh(r) && r.Valid()
    {
      if Enabled(r, script[n], true) { Do(r, script[n]); }
    }
  }

  /** on_primary_view() with SST before initialisation: joiner, initializing and, if the server was
      initialised before, initialized, whatever waits begin and wake up meanwhile.  The walk visits
      exactly these states, and everyone who was waiting for one of them observes it. */
  method Walk(r: Rendezvous, wasInitialized: bool, first: seq<Event>, second: seq<Event>, third: seq<Event>)
    requires r.Valid() && r.setters == 0 && r.state.Connected?
    modifies r
    ensures r.Valid() && r.setters == 0
    ensures r.visited == old(r.visited) + [Joiner, Initializing] + (if wasInitialized then [Initialized] else [])
    ensures forall w | w in old(r.waiters) && (old(r.waiters)[w].Joiner? || old(r.waiters)[w].Initializing? ||
      (wasInitialized && old(r.waiters)[w].Initialized?)) :: r.Met(w)
  {
    ghost var start := r.waiters;
    r.SetState(Joiner);
    Settle(r, first, start);
    r.SetState(Initializing);
    Settle(r, second, start);
    if wasInitialized {
      r.SetState(Initialized);
      Settle(r, third, start);
    }
  }

  /** The waits in `earlier` that have not been met are still on. */
  ghost predicate Carried(r: Rendezvous, earlier: map<nat, ServerState>)
    reads r
  {
    forall w | w in earlier :: r.Met(w) || (w in r.waiters && r.waiters[w] == earlier[w])
  }

  /** Other threads run while the setter waits, and it returns when the last waiter for the state is
      gone.  Of the waits in `earlier`, only those for the present state have come to an end. */
  method Settle(r: Rendezvous, script: seq<Event>, ghost earlier: map<nat, ServerState>)
    requires r.Valid() && r.setters == 1 && !Down(r.state) && Carried(r, earlier)
    modifies r`waiters, r`outcomes, r`setters
    ensures r.Valid() && r.setters == 0 && Carried(r, earlier)
    ensures forall w | w in earlier :: r.Met(w) || earlier[w] != r.state
    ensures forall w :: old(r.Met(w)) ==> r.Met(w)
  {
    Meanwhile(r, script, earlier);
    WakeAll(r, earlier);
    r.SetterReturns();
  }

  /** Waits begin and wake up while the setter waits. */
  method Meanwhile(r: Rendezvous, script: seq<Event>, ghost earlier: map<nat, ServerState>)
    requires r.Valid() && r.setters == 1 && !Down(r.state) && Carried(r, earlier)
    modifies r`waiters, r`outcomes
    ensures r.Valid() && Carried(r, earlier)
    ensures forall w :: old(r.Met(w)) ==> r.Met(w)
  {
    for n := 0 to |script|
      invariant r.Valid() && Carried(r, earlier)
      invariant forall w :: old(r.Met(w)) ==> r.Met(w)
    {
      match script[n]
      case Wait(w, wanted) => if w !in r.waiters && w !in r.outcomes && w !in r.due { r.BeginWait(w, wanted); }
      case WakeUp(w) => if w in r.waiters { r.Wake(w); }
      case _ =>
    }
  }

  /** Everyone who waits for the present state wakes up to it. */
  method WakeAll(r: Rendezvous, ghost earlier: map<nat, ServerState>)
    requires r.Valid() && r.setters == 1 && !Down(r.state) && Carried(r, earlier)
    modifies r`waiters, r`outcomes
    ensures r.Valid() && Carried(r, earlier) && forall w | w in r.waiters :: r.waiters[w] != r.state
    ensures forall w :: old(r.Met(w)) ==> r.Met(w)
  {
    while exists w :: w in r.waiters && r.waiters[w] == r.state
      invariant r.Valid() && Carried(r, earlier)
      invariant forall w :: old(r.Met(w)) ==> r.Met(w)
      decreases r.waiters.Keys
    {
      var w :| w in r.waiters && r.waiters[w] == r.state;
      r.Wake(w);
    }
  }

  /** Two setters at a time can leave a state that a thread is waiting for. */
  method TwoSettersMissState() returns (r: Rendezvous)
    ensures r.missed
  {
    r := new Rendezvous();
    r.BeginWait(7, Connected);
    r.SetState(Connected);
    assert 7 in r.waiters && r.waiters[7] == Connected;
    r.SetState(Synced);
  }
}
