/** What the web client's services guarantee over every run: any number of steps, in any order. */
module WebClientRuns {
  import opened WebClientState
  import opened WebClientInvariant
  import opened WebClientSteps
  import opened WebClientChannels
  import opened WebClientLifecycle
  import opened WebClientHistory
  import opened Wrappers

  /** The state after a run that started with both services idle. */
  function After(steps: seq<Step>): State {
    if steps == [] then START else Next(After(steps[..|steps| - 1]), steps[|steps| - 1])
  }

  lemma {:induction false} EveryRunKeepsInv(steps: seq<Step>)
    ensures Inv(After(steps))
  {
    hide Inv, Next;
    if steps == [] {
      StartIsOk();
    } else {
      EveryRunKeepsInv(steps[..|steps| - 1]);
      NextKeepsInv(After(steps[..|steps| - 1]), steps[|steps| - 1]);
    }
  }

  lemma {:induction false} EveryRunEvolves(steps: seq<Step>, i: nat)
    requires i <= |steps|
    ensures Evolves(After(steps[..i]), After(steps))
    ensures i < |steps| ==> Evolves(Next(After(steps[..i]), steps[i]), After(steps))
  {
    hide Inv, Next, Evolves;
    if i == |steps| {
      assert steps[..i] == steps;
      NothingEvolves(After(steps));
    } else {
      var before, s := steps[..|steps| - 1], After(steps[..|steps| - 1]);
      EveryRunEvolves(before, i);
      assert before[..i] == steps[..i];
      EveryRunKeepsInv(before);
      NextEvolves(s, steps[|steps| - 1]);
      EvolvesIsTransitive(After(steps[..i]), s, After(steps));
      if i == |before| {
        NothingEvolves(After(steps));
      } else {
        EvolvesIsTransitive(Next(After(steps[..i]), steps[i]), s, After(steps));
      }
    }
  }

  lemma NextEvolves(s: State, step: Step)
    requires Inv(s)
    ensures Evolves(s, Next(s, step)) && ChannelsMove(s, Next(s, step))
  {
    hide Next, Inv;
    NextMoves(s, step);
  }

  // ---- revocation ----

  /** At every point of every run an attached channel is registered with its live session. */
  lemma AttachedChannelsAreRegistered(steps: seq<Step>, c: ChannelId)
    requires c in After(steps).channels && Attached(After(steps).channels[c])
    ensures Registered(After(steps), c)
  {
    hide After;
    EveryRunKeepsInv(steps);
  }

  function Up(s: State, c: ChannelId): seq<Frame> {
    if c in s.channels then s.channels[c].up else []
  }

  function Down(s: State, c: ChannelId): nat {
    if c in s.channels then s.channels[c].down else 0
  }

  /** Once a session has ended, none of its channels carries another frame, either way. */
  lemma {:induction false} NothingFlowsForAnEndedSession(steps: seq<Step>, i: nat, c: ChannelId)
    requires i <= |steps| && c in After(steps).channels && After(steps).channels[c].claim.Some?
    requires After(steps).channels[c].claim.value.session in After(steps[..i]).ended
    ensures Up(After(steps), c) == Up(After(steps[..i]), c)
    ensures Down(After(steps), c) == Down(After(steps[..i]), c)
    decreases |steps|
  {
    hide Inv, Next, LooksOk, Evolves;
    if i == |steps| {
      assert steps[..i] == steps;
    } else {
      var before, step := steps[..|steps| - 1], steps[|steps| - 1];
      var s := After(before);
      assert before[..i] == steps[..i];
      EveryRunKeepsInv(before);
      NextEvolves(s, step);
      if c in s.channels {
        if s.channels[c].claim.Some? {
          NothingFlowsForAnEndedSession(before, i, c);
          EndedStaysEnded(before, i, s.channels[c].claim.value.session);
          EndedIsUnattached(s, c);
        } else {
          LooksOkAt(s, c);
          UnclaimedIsSilent(PastOf(s), s.channels[c]);
          UnclaimedIsUnattached(s, c);
          SilentWasSilent(before, i, c);
        }
      } else {
        SilentWasSilent(before, i, c);
      }
    }
  }

  lemma EndedIsUnattached(s: State, c: ChannelId)
    requires Inv(s) && c in s.channels && s.channels[c].claim.Some? && s.channels[c].claim.value.session in s.ended
    ensures !Attached(s.channels[c])
  {
  }

  lemma UnclaimedIsSilent(p: Past, ch: Channel)
    requires LooksOk(p, ch) && ch.claim.None?
    ensures ch.up == [] && ch.down == 0
  {
  }

  lemma UnclaimedIsUnattached(s: State, c: ChannelId)
    requires Inv(s) && c in s.channels && s.channels[c].claim.None?
    ensures !Attached(s.channels[c])
  {
  }

  /** Frames are never taken back. */
  lemma {:induction false} SilentWasSilent(steps: seq<Step>, i: nat, c: ChannelId)
    requires i <= |steps|
    ensures Up(After(steps[..i]), c) <= Up(After(steps), c) && Down(After(steps[..i]), c) <= Down(After(steps), c)
  {
    hide Inv, Next, Evolves;
    if i == |steps| {
      assert steps[..i] == steps;
    } else {
      var before := steps[..|steps| - 1];
      assert before[..i] == steps[..i];
      SilentWasSilent(before, i, c);
      EveryRunKeepsInv(before);
      NextEvolves(After(before), steps[|steps| - 1]);
    }
  }

  lemma EndedStaysEnded(steps: seq<Step>, i: nat, g: Guid)
    requires i <= |steps| && g in After(steps[..i]).ended
    ensures g in After(steps).ended && g !in After(steps).sessions && g !in After(steps).creates
  {
    hide After, Next;
    EveryRunEvolves(steps, i);
    EveryRunKeepsInv(steps);
  }

  // ---- ended sessions, timeouts and shutdown ----

  /** A session that has left the map never returns, whatever checks of it are still pending. */
  lemma SessionsNeverReturn(steps: seq<Step>, i: nat, j: nat, g: Guid)
    requires i <= j <= |steps| && g in After(steps[..i]).sessions && g !in After(steps[..j]).sessions
    ensures g !in After(steps).sessions && g in After(steps[..j]).ended
  {
    hide After, Next;
    assert steps[..j][..i] == steps[..i];
    EveryRunEvolves(steps[..j], i);
    EndedStaysEnded(steps, j, g);
  }

  /** From its request to its end a session keeps its login, target, kind, parent and configuration. */
  lemma SessionsKeepTheirIdentity(steps: seq<Step>, i: nat, g: Guid)
    requires i <= |steps| && (g in After(steps[..i]).creates || g in After(steps[..i]).sessions)
    ensures g in After(steps).sessions ==> Some(SessionIdentity(After(steps).sessions[g])) == Origin(After(steps[..i]), g)
  {
    hide After, Next;
    EveryRunEvolves(steps, i);
    EveryRunKeepsInv(steps[..i]);
    OriginIsPast(After(steps[..i]), g);
  }

  /** While a session lives its expiry only comes closer, and once active it stays so. */
  lemma SessionsOnlyAge(steps: seq<Step>, i: nat, g: Guid)
    requires i <= |steps| && g in After(steps[..i]).sessions && g in After(steps).sessions
    ensures Ages(After(steps[..i]).sessions[g], After(steps).sessions[g])
  {
    hide After, Next;
    EveryRunEvolves(steps, i);
    EveryRunKeepsInv(steps);
  }

  /** A passed check leaves a session that ends no later than its login, under today's configuration,
      and below a parent that is live and active. */
  lemma PassedChecksAreStrict(s: State, g: Guid, allowed: bool, loginExpiry: int)
    requires Recheck(s, g, allowed, loginExpiry).1
    ensures
      var s' := Recheck(s, g, allowed, loginExpiry).0;
      && allowed && Current(s, g) && Current(s', g) && s'.now < s'.sessions[g].expiresAt <= loginExpiry
      && Ages(s.sessions[g], s'.sessions[g]) && s'.sessions[g].profile == s'.profile && ParentAllows(s', s'.sessions[g])
      && (s'.sessions[g].expiresAt == loginExpiry || s'.sessions[g].expiresAt == s.sessions[g].expiresAt)
      && forall h :: h in s.sessions && h != g ==> h in s'.sessions && s'.sessions[h] == s.sessions[h]
  {
  }

  /** A check passes exactly for a session that may be used, whose login goes on, under today's configuration
      and below a parent that may be used. */
  lemma ChecksPassExactly(s: State, g: Guid, allowed: bool, loginExpiry: int)
    requires Inv(s)
    ensures Recheck(s, g, allowed, loginExpiry).1 <==>
            && allowed && g in s.sessions && !s.stopped && s.now < s.sessions[g].expiresAt && s.now < loginExpiry
            && (s.sessions[g].active || s.now < s.sessions[g].createdAt + 120_000)
            && s.sessions[g].profile == s.profile
            && (s.sessions[g].parent.Some? ==>
                  var p := s.sessions[g].parent.value;
                  p in s.sessions && s.now < s.sessions[p].expiresAt && s.sessions[p].active
                  && s.sessions[p].actor == s.sessions[g].actor)
  {
    hide ChannelsInv, QuotaOk, QuietOk, TicketsOk, RelaysOk, CloseGrant;
    if g in s.sessions {
      assert ParentOk(s, s.sessions[g]);
    }
  }

  /** A check that fails ends the session and its children, and no other. */
  lemma FailedChecksEndTheFamily(s: State, g: Guid, allowed: bool, loginExpiry: int, h: Guid)
    requires Inv(s) && !Recheck(s, g, allowed, loginExpiry).1
    ensures h in Recheck(s, g, allowed, loginExpiry).0.sessions <==> h in s.sessions && h != g && s.sessions[h].parent != Some(g)
  {
    hide Inv, CloseGrant, Current, ParentAllows;
    ClosingEndsTheFamily(s, g, h);
    if allowed && Current(s, g) {
      CurrentIsThere(s, g);
      var x := s.sessions[g];
      var s' := s.(sessions := s.sessions[g := x.(expiresAt := if loginExpiry < x.expiresAt then loginExpiry else x.expiresAt)]);
      ClosingEndsTheFamily(s', g, h);
    } else if g !in s.sessions && h in s.sessions {
      NoParentIsMissing(s, g, h);
    }
  }

  lemma ClosingEndsTheFamily(s: State, g: Guid, h: Guid)
    ensures h in CloseGrant(s, g).sessions <==> h in s.sessions && (g in s.sessions ==> h != g && s.sessions[h].parent != Some(g))
  {
  }

  lemma CurrentIsThere(s: State, g: Guid)
    requires Current(s, g)
    ensures g in s.sessions
  {
  }

  lemma NoParentIsMissing(s: State, g: Guid, h: Guid)
    requires Inv(s) && g !in s.sessions && h in s.sessions
    ensures s.sessions[h].parent != Some(g)
  {
    assert ParentOk(s, s.sessions[h]);
  }

  /** While a check is overdue, or after shutdown, no session and no ticket exists. */
  lemma NoSessionWhileHeldOff(steps: seq<Step>)
    ensures After(steps).overdue != {} || After(steps).stopped ==> After(steps).sessions == map[] && After(steps).tickets == map[]
  {
    hide After;
    EveryRunKeepsInv(steps);
  }

  /** A request pending when a check times out never becomes a session. */
  lemma NoSessionStraddlesATimeout(steps: seq<Step>, i: nat, k: nat, g: Guid)
    requires i <= k < |steps| && steps[k].TimeOutStep?
    requires g in After(steps[..i]).creates || g in After(steps[..i]).sessions
    ensures g !in After(steps).sessions
  {
    hide After, Next, Inv, Evolves;
    var s0, s1, s2 := After(steps[..i]), After(steps[..k]), After(steps);
    assert steps[..k][..i] == steps[..i];
    EveryRunEvolves(steps[..k], i);
    EveryRunEvolves(steps, k);
    EveryRunEvolves(steps, i);
    EveryRunKeepsInv(steps[..i]);
    EveryRunKeepsInv(steps);
    TimeOutStartsAnEpoch(s1, steps[k]);
    StraddlingHasEnded(s0, s1, Next(s1, steps[k]), s2, g);
  }

  lemma StraddlingHasEnded(s0: State, s1: State, s1': State, s2: State, g: Guid)
    requires Inv(s0) && Inv(s2) && s1.epoch < s1'.epoch && (g in s0.creates || g in s0.sessions)
    requires Evolves(s0, s1) && Evolves(s1', s2) && Evolves(s0, s2)
    ensures g !in s2.sessions
  {
    hide Inv;
    OriginIsPast(s0, g);
    if g in s2.sessions {
      LiveOriginIsPresent(s2, g);
    }
  }

  lemma TimeOutStartsAnEpoch(s: State, step: Step)
    requires step.TimeOutStep?
    ensures Next(s, step).epoch == s.epoch + 1
  {
  }

  lemma OriginIsPast(s: State, g: Guid)
    requires Inv(s) && (g in s.creates || g in s.sessions)
    ensures g in s.used && Origin(s, g).Some? && Origin(s, g).value.epoch <= s.epoch
  {
  }

  lemma LiveOriginIsPresent(s: State, g: Guid)
    requires Inv(s) && g in s.sessions
    ensures Origin(s, g).Some? && Origin(s, g).value.epoch == s.epoch
  {
  }

  // ---- tickets and relays ----

  /** Each ticket gives a claim to one channel at most. */
  lemma OneClaimPerTicket(steps: seq<Step>, c: ChannelId, d: ChannelId)
    requires c in After(steps).channels && d in After(steps).channels && c != d
    requires After(steps).channels[c].claim.Some? && After(steps).channels[d].claim.Some?
    ensures After(steps).channels[c].claim.value.ticket != After(steps).channels[d].claim.value.ticket
  {
    hide After;
    EveryRunKeepsInv(steps);
    var s := After(steps);
    assert TicketOf(s.channels[c]) == Some(s.channels[c].claim.value.ticket);
    assert TicketOf(s.channels[d]) == Some(s.channels[d].claim.value.ticket);
  }

  /** A rendezvous channel carries at most one frame each way. */
  lemma RendezvousCarriesOneFrameEachWay(steps: seq<Step>, c: ChannelId)
    requires c in After(steps).channels && After(steps).channels[c].claim.Some?
    requires After(steps).channels[c].claim.value.phase == Rendezvous
    ensures |Up(After(steps), c)| <= 1 && Down(After(steps), c) <= 1
  {
    hide After;
    EveryRunKeepsInv(steps);
    LooksOkAt(After(steps), c);
  }

  /** What a relay channel carries starts with the relay that a reply bound to its session, once and
      for ever, and nothing flows before the session's opening is audited. */
  lemma RelayTrafficIsBoundAndAudited(steps: seq<Step>, c: ChannelId)
    requires c in After(steps).channels && After(steps).channels[c].claim.Some?
    requires After(steps).channels[c].claim.value.phase == Relay
    requires Up(After(steps), c) != [] || Down(After(steps), c) != 0
    ensures
      var s, g := After(steps), After(steps).channels[c].claim.value.session;
      && g in s.audited && g in s.bound && Up(s, c) != [] && Up(s, c)[0] == Request(Some(s.bound[g]))
      && g in s.boundBy && BoundByReply(s, g) && s.boundBy[g] != c
  {
    hide After;
    EveryRunKeepsInv(steps);
    LooksOkAt(After(steps), c);
  }

  /** A binding is never changed, even after the session's end. */
  lemma RelaysAreBoundOnce(steps: seq<Step>, i: nat, g: Guid)
    requires i <= |steps| && g in After(steps[..i]).bound
    ensures g in After(steps).bound && After(steps).bound[g] == After(steps[..i]).bound[g]
  {
    hide After, Next;
    EveryRunEvolves(steps, i);
  }

  lemma LiveSessionsNeverShareARelay(steps: seq<Step>, g: Guid, h: Guid)
    requires g in After(steps).sessions && h in After(steps).sessions && g != h
    requires After(steps).sessions[g].relay.Some?
    ensures After(steps).sessions[h].relay != After(steps).sessions[g].relay
    ensures g in After(steps).bound && After(steps).sessions[g].relay == Some(After(steps).bound[g])
  {
    hide After;
    EveryRunKeepsInv(steps);
  }

  // ---- quotas, tickets and families ----

  lemma QuotasHold(steps: seq<Step>, actor: nat)
    ensures |After(steps).sessions| + |After(steps).creates| <= MAX_SESSIONS
    ensures |SessionsOf(After(steps), actor)| + |CreatesOf(After(steps), actor)| <= MAX_PER_ACTOR
  {
    hide After;
    EveryRunKeepsInv(steps);
  }

  lemma TicketsBelongToLiveSessions(steps: seq<Step>, h: Hash)
    requires h in After(steps).tickets
    ensures After(steps).tickets[h].session in After(steps).sessions
    ensures h in After(steps).sessions[After(steps).tickets[h].session].ticketHashes
  {
    hide After;
    EveryRunKeepsInv(steps);
  }

  /** A live file session has a live, active desktop session of the same login and target. */
  lemma FileSessionsHaveLiveParents(steps: seq<Step>, g: Guid)
    requires g in After(steps).sessions && After(steps).sessions[g].kind == File
    ensures
      var s, x := After(steps), After(steps).sessions[g];
      && x.parent.Some? && x.parent.value in s.sessions && x.parent.value != g
      && var p := s.sessions[x.parent.value];
         p.kind == Desktop && p.active && p.actor == x.actor && p.target == x.target
  {
    hide After;
    EveryRunKeepsInv(steps);
    assert ParentOk(After(steps), After(steps).sessions[g]);
  }
}
