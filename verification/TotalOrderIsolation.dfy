/** The TOI, RSU and NBO brackets of a client: modes, meta data, and the balance of entries to
    and departures from total order isolation in the provider. */
module TotalOrderIsolation {

  datatype Mode = Undefined | Local | HighPriority | Toi | Rsu | Nbo

  /** The table of client_state::mode(). */
  predicate ModeAllowed(from: Mode, to: Mode) {
    match from
    case Undefined => false
    case Local => to.HighPriority? || to.Toi? || to.Rsu? || to.Nbo?
    case HighPriority => to.Local? || to.Toi? || to.Nbo?
    case Toi => to.Local? || to.HighPriority?
    case Rsu => to.Local?
    case Nbo => to.Local? || to.HighPriority?
  }

  function ModeIndex(m: Mode): (i: nat)
    ensures i < 6
  {
    match m case Undefined => 0 case Local => 1 case HighPriority => 2 case Toi => 3 case Rsu => 4 case Nbo => 5
  }

  /** The rows of the source. */
  lemma ModeTable(from: Mode, to: Mode)
    ensures ModeAllowed(from, to) <==>
      [[0, 0, 0, 0, 0, 0],
       [0, 0, 1, 1, 1, 1],
       [0, 1, 0, 1, 0, 1],
       [0, 1, 1, 0, 0, 0],
       [0, 1, 0, 0, 0, 0],
       [0, 1, 1, 0, 0, 0]][ModeIndex(from)][ModeIndex(to)] == 1
  {
  }

  /** ws_meta, as far as it is defined. */
  datatype Meta = NoMeta | Meta(seqno: nat)

  datatype Status = Success | CertificationFailed | ConnectionFailed | ProviderFailed | OtherError

  /** One answer of provider::enter_toi() and what the client finds when it looks up from it.
      By contract a call that succeeds has entered TOI, and a call that fails returns a defined
      GTID exactly when it has entered TOI. */
  datatype Poll = Poll(status: Status, meta: Meta, timedOut: bool, interrupted: bool)

  predicate Possible(p: Poll) { p.status.Success? ==> p.meta.Meta? }

  /** The answers after which poll_enter_toi() tries again. */
  predicate Retries(p: Poll) {
    (p.status == CertificationFailed || p.status == ConnectionFailed) && !p.timedOut && !p.interrupted
  }

  /** The first answer that is not followed by another try is the i-th. */
  predicate Ends(polls: seq<Poll>, i: nat) {
    i < |polls| && !Retries(polls[i]) && forall j :: 0 <= j < i ==> Retries(polls[j])
  }

  /** An answer for every try, the last one ending the loop. */
  predicate Answered(polls: seq<Poll>) {
    && polls != [] && !Retries(polls[|polls| - 1])
    && forall i :: 0 <= i < |polls| ==> Possible(polls[i])
  }

  /** How many of the answers have entered TOI. */
  function Entries(polls: seq<Poll>): nat {
    if |polls| == 0 then 0 else Entries(polls[..|polls| - 1]) + if polls[|polls| - 1].meta.Meta? then 1 else 0
  }

  class Client {
    var mode: Mode
    var toiMode: Mode
    var toiMeta: Meta
    var nboMeta: Meta
    // observation: calls to the provider
    var entries: nat
    var departures: nat

    predicate InToi() reads this { toiMeta.Meta? }

    /** Holds between any two calls. */
    ghost predicate Valid()
      reads this
    {
      && entries == departures + (if InToi() && !toiMode.HighPriority? then 1 else 0)
      && match mode
         case Undefined => false
         case Local => toiMode.Undefined? && !InToi() && nboMeta.NoMeta?
         case HighPriority => toiMode.Undefined? && !InToi() && nboMeta.NoMeta?
         case Toi => (toiMode.Local? || toiMode.HighPriority?) && InToi() && nboMeta.NoMeta?
         case Rsu => toiMode.Local? && !InToi() && nboMeta.NoMeta?
         case Nbo => if InToi() then toiMode.Local? else toiMode.Undefined? && nboMeta.Meta?
    }

    constructor ()
      ensures Valid() && mode.Local? && entries == 0 && departures == 0
    {
      mode, toiMode, toiMeta, nboMeta, entries, departures := Local, Undefined, NoMeta, NoMeta, 0, 0;
    }

    /** client_state::mode(). */
    method SetMode(to: Mode)
      requires ModeAllowed(mode, to)
      modifies `mode
      ensures mode == to
    {
      mode := to;
    }

    /** poll_enter_toi(): the first answer that is no certification or connection failure, or at which the
        client has timed out or was interrupted, is the last.  However often it has tried, every entry but
        a successful last one is left. */
    method PollEnterToi(polls: seq<Poll>) returns (status: Status, meta: Meta, last: nat)
      requires Answered(polls)
      modifies `entries, `departures
      ensures Ends(polls, last) && status == polls[last].status
      ensures meta == if status.Success? then polls[last].meta else NoMeta
      ensures entries == old(entries) + Entries(polls[..last + 1])
      ensures entries - departures == old(entries) - old(departures) + if status.Success? then 1 else 0
    {
      last := 0;
      while true
        invariant 0 <= last < |polls| && forall j :: 0 <= j < last ==> Retries(polls[j])
        invariant entries == old(entries) + Entries(polls[..last])
        invariant entries - departures == old(entries) - old(departures)
        decreases |polls| - last
      {
        var p := polls[last];
        assert polls[..last + 1][..last] == polls[..last];
        status, meta := p.status, p.meta;
        if meta.Meta? { entries := entries + 1; }
        if !status.Success? && meta.Meta? {
          departures := departures + 1;
          meta := NoMeta;
        }
        if !((status.CertificationFailed? || status.ConnectionFailed?) && !p.timedOut && !p.interrupted) { return; }
        last := last + 1;
      }
    }

    // -------------------------------------------------------------- TOI

    /** enter_toi_local(): on failure nothing has changed. */
    method EnterToiLocal(polls: seq<Poll>) returns (error: bool)
      requires Valid() && mode.Local? && Answered(polls)
      modifies this
      ensures Valid() && nboMeta == old(nboMeta)
      ensures exists i: nat :: Ends(polls, i) && (error <==> polls[i].status != Success)
      ensures if error then mode.Local? && toiMode.Undefined? && !InToi() else mode.Toi? && toiMode.Local? && InToi()
    {
      var status, last;
      status, toiMeta, last := PollEnterToi(polls);
      error := !status.Success?;
      if !error {
        toiMode := mode;
        SetMode(Toi);
      }
    }

    /** enter_toi_mode(): an applier enters TOI; the provider has done so for it. */
    method EnterToiMode(seqno: nat)
      requires Valid() && mode.HighPriority?
      modifies this
      ensures Valid() && mode.Toi? && toiMode.HighPriority? && InToi()
      ensures entries == old(entries) && departures == old(departures)
    {
      toiMode := mode;
      SetMode(Toi);
      toiMeta := Meta(seqno);
    }

    method LeaveToiCommon()
      requires mode.Toi? && (toiMode.Local? || toiMode.HighPriority?)
      modifies `mode, `toiMode, `toiMeta
      ensures mode == old(toiMode) && toiMode.Undefined? && !InToi()
    {
      SetMode(toiMode);
      toiMode := Undefined;
      toiMeta := NoMeta;
    }

    method LeaveToiLocal()
      requires Valid() && mode.Toi? && toiMode.Local?
      modifies this
      ensures Valid() && mode.Local? && entries == departures
    {
      departures := departures + 1;
      LeaveToiCommon();
    }

    method LeaveToiMode()
      requires Valid() && mode.Toi? && toiMode.HighPriority?
      modifies this
      ensures Valid() && mode.HighPriority? && entries == departures == old(departures)
    {
      LeaveToiCommon();
    }

    // -------------------------------------------------------------- RSU

    /** begin_rsu(); `ok`: desync, waiting for commits and pause all succeed. */
    method BeginRsu(ok: bool) returns (error: bool)
      requires Valid() && mode.Local?
      modifies this
      ensures Valid() && error == !ok && mode == if error then Local else Rsu
      ensures entries == old(entries) && departures == old(departures)
    {
      error := !ok;
      if ok {
        toiMode := mode;
        SetMode(Rsu);
      }
    }

    method EndRsu()
      requires Valid() && mode.Rsu?
      modifies this
      ensures Valid() && mode.Local? && entries == old(entries) && departures == old(departures)
    {
      SetMode(toiMode);
      toiMode := Undefined;
    }

    // -------------------------------------------------------------- NBO

    method BeginNboPhaseOne(polls: seq<Poll>) returns (error: bool)
      requires Valid() && mode.Local? && Answered(polls)
      modifies this
      ensures Valid() && exists i: nat :: Ends(polls, i) && (error <==> polls[i].status != Success)
      ensures if error then mode.Local? && !InToi() else mode.Nbo? && InToi() && nboMeta.NoMeta?
    {
      var status, last;
      status, toiMeta, last := PollEnterToi(polls);
      error := !status.Success?;
      if !error {
        toiMode := mode;
        SetMode(Nbo);
      }
    }

    /** end_nbo_phase_one(): the mode stays, the meta data moves. */
    method EndNboPhaseOne()
      requires Valid() && mode.Nbo? && InToi()
      modifies this
      ensures Valid() && mode.Nbo? && !InToi() && nboMeta == old(toiMeta) && toiMode.Undefined?
    {
      departures := departures + 1;
      nboMeta := toiMeta;
      toiMeta := NoMeta;
      toiMode := Undefined;
    }

    /** enter_nbo_mode(): a local client takes over an NBO that an applier has begun. */
    method EnterNboMode(seqno: nat)
      requires Valid() && mode.Local?
      modifies this
      ensures Valid() && mode.Nbo? && !InToi() && nboMeta == Meta(seqno)
      ensures entries == old(entries) && departures == old(departures)
    {
      nboMeta := Meta(seqno);
      SetMode(Nbo);
    }

    /** begin_nbo_phase_two(): a failure ends the NBO. */
    method BeginNboPhaseTwo(polls: seq<Poll>) returns (error: bool)
      requires Valid() && mode.Nbo? && !InToi() && Answered(polls)
      modifies this
      ensures Valid() && exists i: nat ::
        Ends(polls, i) && (error <==> polls[i].status != Success) && (!error ==> nboMeta == toiMeta == polls[i].meta)
      ensures if error then mode.Local? && nboMeta.NoMeta? else mode.Nbo? && InToi()
    {
      var status, last;
      status, nboMeta, last := PollEnterToi(polls);
      error := !status.Success?;
      if error {
        SetMode(Local);
        nboMeta := NoMeta;
      } else {
        toiMeta := nboMeta;
        toiMode := Local;
      }
    }

    method EndNboPhaseTwo()
      requires Valid() && mode.Nbo? && InToi()
      modifies this
      ensures Valid() && mode.Local? && entries == departures
    {
      departures := departures + 1;
      toiMeta := NoMeta;
      toiMode := Undefined;
      nboMeta := NoMeta;
      SetMode(Local);
    }

    // -------------------------------------------------------------- all sequences

    predicate Enabled(op: Op)
      reads this
    {
      match op
      case EnterToiLocal(polls) => mode.Local? && Answered(polls)
      case LeaveToiLocal => mode.Toi? && toiMode.Local?
      case EnterToiMode(_) => mode.HighPriority?
      case LeaveToiMode => mode.Toi? && toiMode.HighPriority?
      case BeginRsu(_) => mode.Local?
      case EndRsu => mode.Rsu?
      case BeginNboPhaseOne(polls) => mode.Local? && Answered(polls)
      case EndNboPhaseOne => mode.Nbo? && InToi()
      case EnterNboMode(_) => mode.Local?
      case BeginNboPhaseTwo(polls) => mode.Nbo? && !InToi() && Answered(polls)
      case EndNboPhaseTwo => mode.Nbo? && InToi()
      case Switch => mode.Local? || mode.HighPriority?
    }

    method Do(op: Op)
      requires Valid() && Enabled(op)
      modifies this
      ensures Valid() && departures <= entries <= departures + 1
      ensures entries == departures + 1 <==> InToi() && !toiMode.HighPriority?
    {
      match op
      case EnterToiLocal(polls) => var _ := EnterToiLocal(polls);
      case LeaveToiLocal => LeaveToiLocal();
      case EnterToiMode(seqno) => EnterToiMode(seqno);
      case LeaveToiMode => LeaveToiMode();
      case BeginRsu(ok) => var _ := BeginRsu(ok);
      case EndRsu => EndRsu();
      case BeginNboPhaseOne(polls) => var _ := BeginNboPhaseOne(polls);
      case EndNboPhaseOne => EndNboPhaseOne();
      case EnterNboMode(seqno) => EnterNboMode(seqno);
      case BeginNboPhaseTwo(polls) => var _ := BeginNboPhaseTwo(polls);
      case EndNboPhaseTwo => EndNboPhaseTwo();
      case Switch => SetMode(if mode.Local? then HighPriority else Local);
    }
  }

  /** What a client can be asked to do; Switch enters or leaves a high priority context. */
  datatype Op =
    | EnterToiLocal(polls: seq<Poll>) | LeaveToiLocal | EnterToiMode(seqno: nat) | LeaveToiMode
    | BeginRsu(ok: bool) | EndRsu
    | BeginNboPhaseOne(polls: seq<Poll>) | EndNboPhaseOne | EnterNboMode(seqno: nat)
    | BeginNboPhaseTwo(polls: seq<Poll>) | EndNboPhaseTwo | Switch

  /** Over every sequence of brackets, with any number of retries, entries and departures
      balance: one more entry exactly while the client itself is in TOI, and none in a base mode. */
  method Balance(script: seq<Op>) returns (client: Client)
    ensures client.departures <= client.entries <= client.departures + 1
    ensures client.entries == client.departures + 1 <==> client.InToi() && !client.toiMode.HighPriority?
    ensures client.mode.Local? || client.mode.HighPriority? ==>
      client.entries == client.departures && client.toiMode.Undefined? && client.nboMeta.NoMeta?
  {
    client := new Client();
    for n := 0 to |script|
      invariant fresh(client) && client.Valid()
    {
      if client.Enabled(script[n]) { client.Do(script[n]); }
    }
  }

  /** A complete non-blocking operation, whichever phases fail, ends in the mode it began in. */
  method NonBlockingOperation(client: Client, one: seq<Poll>, two: seq<Poll>)
    requires client.Valid() && client.mode.Local? && Answered(one) && Answered(two)
    modifies client
    ensures client.Valid() && client.mode.Local? && client.entries == client.departures
  {
    var error := client.BeginNboPhaseOne(one);
    if !error {
      client.EndNboPhaseOne();
      error := client.BeginNboPhaseTwo(two);
      if !error { client.EndNboPhaseTwo(); }
    }
  }
}
