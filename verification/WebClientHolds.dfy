/** What holds sessions off, until when, and what the small steps of the services do. */
module WebClientHolds {
  import opened WebClientState
  import opened WebClientLifecycle
  import opened WebClientRuns
  import opened Wrappers

  /** Whether sessions are held off, and by which checks. */
  predicate SameHold(s: State, s': State) {
    s'.overdue == s.overdue && s'.stopped == s.stopped
  }

  lemma CloseGrantKeepsHold(s: State, g: Guid)
    ensures SameHold(s, CloseGrant(s, g))
  {
  }

  lemma StopKeepsHold(s: State, c: ChannelId, retain: bool)
    ensures SameHold(s, Stop(s, c, retain))
  {
    hide CloseGrant;
    forall t: State, g: Guid ensures SameHold(t, CloseGrant(t, g)) {
      CloseGrantKeepsHold(t, g);
    }
  }

  lemma RecheckKeepsHold(s: State, g: Guid, allowed: bool, expiry: int)
    ensures SameHold(s, Recheck(s, g, allowed, expiry).0)
  {
    hide CloseGrant, ParentAllows, Current;
    CloseGrantKeepsHold(s, g);
    if allowed && Current(s, g) {
      CurrentIsThere(s, g);
      var x := s.sessions[g];
      CloseGrantKeepsHold(s.(sessions := s.sessions[g := x.(expiresAt := if expiry < x.expiresAt then expiry else x.expiresAt)]), g);
    }
  }

  lemma ServiceKeepsHold(s: State, step: Step)
    requires !OfChannel(step) && !step.TimeOutStep? && !step.SettleStep? && !step.ShutDownStep?
    ensures SameHold(s, Next(s, step))
  {
    hide Recheck, CloseGrant, MayReserve, ParentAvailable;
    match step
    case ParentCheckedStep(g, allowed, expiry) =>
      if g in s.creates && s.creates[g].parent.Some? {
        RecheckKeepsHold(s, s.creates[g].parent.value, allowed, expiry);
      }
    case RecheckStep(g, allowed, expiry) => RecheckKeepsHold(s, g, allowed, expiry);
    case CloseGrantStep(g) => CloseGrantKeepsHold(s, g);
    case _ =>
  }

  lemma CheckKeepsHold(s: State, c: ChannelId, allowed: bool, expiry: int)
    ensures SameHold(s, CheckDone(s, c, allowed, expiry))
  {
    hide Recheck;
    if c in s.channels && s.channels[c].task.Checking? {
      var g := CheckedSession(s.channels[c], s.channels[c].task.check);
      if g.Some? {
        RecheckKeepsHold(s, g.value, allowed, expiry);
      }
    }
  }

  lemma ForwardKeepsHold(s: State, c: ChannelId, frame: Frame, sent: bool)
    requires c in s.channels
    ensures SameHold(s, Forward(s, c, frame, sent)) && SameHold(s, ForwardDown(s, c, sent))
  {
    hide Stop;
    StopKeepsHold(s, c, false);
  }

  lemma UpstreamKeepsHold(s: State, c: ChannelId, relay: Option<Uuid>, wellFormed: bool, sent: bool)
    ensures SameHold(s, ReceiveUpstream(s, c, relay, wellFormed, sent))
  {
    hide Stop, MayBind, ForwardDown;
    StopKeepsHold(s, c, false);
    forall t: State | c in t.channels ensures SameHold(t, ForwardDown(t, c, sent)) {
      ForwardKeepsHold(t, c, Payload, sent);
    }
  }

  lemma ConnectedKeepsHold(s: State, c: ChannelId, sent: bool)
    ensures SameHold(s, Connected(s, c, sent))
  {
    hide Forward, Current;
    forall t: State, frame: Frame | c in t.channels ensures SameHold(t, Forward(t, c, frame, sent)) {
      ForwardKeepsHold(t, c, frame, sent);
    }
  }

  lemma SendingKeepsHold(s: State, c: ChannelId, sent: bool)
    ensures SameHold(s, RelayOpened(s, c, sent)) && SameHold(s, ReceivePayload(s, c, sent))
  {
    hide Stop, Forward;
    StopKeepsHold(s, c, false);
    forall t: State, frame: Frame | c in t.channels ensures SameHold(t, Forward(t, c, frame, sent)) {
      ForwardKeepsHold(t, c, frame, sent);
    }
  }

  lemma AuthorizeKeepsHold(s: State, c: ChannelId)
    ensures SameHold(s, Authorize(s, c))
  {
    hide Stop, CloseGrant, Current;
    if c in s.channels && s.channels[c].task.Claimed? {
      var claim := s.channels[c].task.claim;
      var s1 := SetChannel(s, c, s.channels[c].(claim := Some(claim), task := Idle));
      StopKeepsHold(s1, c, false);
      CloseGrantKeepsHold(s1, claim.session);
    }
  }

  lemma AuditKeepsHold(s: State, c: ChannelId, stored: bool)
    ensures SameHold(s, RelayAudited(s, c, stored))
  {
    hide CloseGrant, Current;
    if c in s.channels && s.channels[c].claim.Some? {
      CloseGrantKeepsHold(SetChannel(s, c, s.channels[c].(task := Idle)), s.channels[c].claim.value.session);
    }
  }

  lemma ChannelKeepsHold(s: State, step: Step)
    requires OfChannel(step)
    ensures SameHold(s, Next(s, step))
  {
    hide BeginCreate, ParentChecked, CreateValidated, CreateAudited, CreateDenied, Recheck, CloseGrant, TimeOut, ShutDown, Destroy;
    hide CheckDone, Connected, RelayOpened, ReceivePayload, ReceiveUpstream, Authorize, RelayAudited, Stop;
    hide Connect, ReceiveTicket, Proceed, ReceiveRequest;
    match step
    case CheckStep(c, allowed, expiry) => CheckKeepsHold(s, c, allowed, expiry);
    case AuthorizeStep(c) => AuthorizeKeepsHold(s, c);
    case RelayAuditedStep(c, stored) => AuditKeepsHold(s, c, stored);
    case ConnectedStep(c, sent) => ConnectedKeepsHold(s, c, sent);
    case RelayOpenedStep(c, sent) => SendingKeepsHold(s, c, sent);
    case PayloadStep(c, sent) => SendingKeepsHold(s, c, sent);
    case UpstreamStep(c, bind, wellFormed, sent) => UpstreamKeepsHold(s, c, bind, wellFormed, sent);
    case StopStep(c, retain) => StopKeepsHold(s, c, retain);
    case RequestStep(c, request) => RequestKeepsHold(s, c, request);
    case ConnectStep(c) => QuietKeepsHold(s, c, 0);
    case TicketStep(c, h) => QuietKeepsHold(s, c, h);
    case ProceedStep(c) => QuietKeepsHold(s, c, 0);
  }

  lemma RequestKeepsHold(s: State, c: ChannelId, request: Frame)
    ensures SameHold(s, ReceiveRequest(s, c, request))
  {
    hide Stop;
    StopKeepsHold(s, c, false);
  }

  lemma QuietKeepsHold(s: State, c: ChannelId, h: Hash)
    ensures SameHold(s, Connect(s, c)) && SameHold(s, ReceiveTicket(s, c, h)) && SameHold(s, Proceed(s, c))
  {
    hide TicketTask, AfterCheck;
  }

  /** Only the end of the overdue check itself lets sessions start again, and nothing does after shutdown. */
  lemma HoldStays(s: State, step: Step, id: nat)
    ensures id in s.overdue && step != SettleStep(id) ==> id in Next(s, step).overdue
    ensures s.stopped ==> Next(s, step).stopped
    ensures step == TimeOutStep(id) ==> id in Next(s, step).overdue
    ensures step == ShutDownStep ==> Next(s, step).stopped
  {
    if step.TimeOutStep? || step.SettleStep? || step.ShutDownStep? {
      HoldChanges(s, step, id);
    } else {
      hide Next;
      if OfChannel(step) {
        ChannelKeepsHold(s, step);
      } else {
        ServiceKeepsHold(s, step);
      }
    }
  }

  lemma HoldChanges(s: State, step: Step, id: nat)
    requires step.TimeOutStep? || step.SettleStep? || step.ShutDownStep?
    ensures
      var s' := Next(s, step);
      && (step == TimeOutStep(id) || (id in s.overdue && step != SettleStep(id)) ==> id in s'.overdue)
      && (step == ShutDownStep || s.stopped ==> s'.stopped)
  {
  }

  /** From the moment a check exceeds its deadline until that very check ends, and for ever after shutdown,
      there is no session and no ticket. */
  lemma {:induction false} HeldOffUntilSettled(steps: seq<Step>, k: nat, id: nat)
    requires k < |steps|
    ensures steps[k] == TimeOutStep(id) && (forall j :: k < j < |steps| ==> steps[j] != SettleStep(id)) ==>
      id in After(steps).overdue && After(steps).sessions == map[] && After(steps).tickets == map[]
    ensures steps[k] == ShutDownStep ==>
      After(steps).stopped && After(steps).sessions == map[] && After(steps).tickets == map[]
    decreases |steps|
  {
    hide Next;
    var before := steps[..|steps| - 1];
    HoldStays(After(before), steps[|steps| - 1], id);
    NoSessionWhileHeldOff(steps);
    if k < |before| {
      HeldOffUntilSettled(before, k, id);
    }
  }

  /** A denied request ends, and with it its reservation; no other request does. */
  lemma DeniedRequestsEnd(s: State, g: Guid)
    ensures
      var s' := Next(s, CreateDeniedStep(g));
      && s' == s.(creates := s'.creates)
      && s'.creates == s.creates - if g in s.creates && s.creates[g].step == Denying then {g} else {}
  {
  }

  /** Of the tickets exactly the ones that ended are dropped. */
  lemma PurgingDropsTheEnded(s: State, h: Hash)
    ensures
      var s' := Next(s, PurgeStep);
      && s' == s.(tickets := s'.tickets)
      && (h in s'.tickets <==> h in s.tickets && s.now < s.tickets[h].expiresAt)
      && (h in s'.tickets ==> s'.tickets[h] == s.tickets[h])
  {
  }
}
