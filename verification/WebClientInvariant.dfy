/** What holds between any two steps of the web client's services. */
module WebClientInvariant {
  import opened FiniteSets
  import opened WebClientState
  import opened Wrappers

  ghost predicate GuidsOk(s: State) {
    && s.sessions.Keys <= s.used && s.creates.Keys <= s.used && s.ended <= s.used
    && s.sessions.Keys !! s.creates.Keys && s.ended !! s.sessions.Keys && s.ended !! s.creates.Keys
  }

  /** No sessions while a check is overdue or after shutdown, and none requested before a timeout. */
  ghost predicate QuietOk(s: State) {
    && (s.overdue != {} || s.stopped ==> s.sessions == map[] && s.tickets == map[])
    && (forall g :: g in s.sessions ==> s.sessions[g].epoch == s.epoch)
    && (forall g :: g in s.creates ==> s.creates[g].epoch <= s.epoch)
  }

  ghost predicate QuotaOk(s: State) {
    && |s.sessions| + |s.creates| <= MAX_SESSIONS
    && (forall a: nat :: |SessionsOf(s, a)| + |CreatesOf(s, a)| <= MAX_PER_ACTOR)
  }

  ghost predicate TicketsOk(s: State) {
    && (forall h :: h in s.tickets ==>
          && h in s.issued && h !in s.redeemed
          && s.tickets[h].session in s.sessions && h in s.sessions[s.tickets[h].session].ticketHashes)
    && s.redeemed <= s.issued
  }

  ghost predicate ParentOk(s: State, x: Session) {
    match x.kind
    case Desktop => x.parent.None?
    case File =>
      && x.parent.Some? && x.parent.value in s.sessions
      && var p := s.sessions[x.parent.value];
         p.kind == Desktop && p.active && p.actor == x.actor && p.target == x.target
  }

  ghost predicate CreateOk(s: State, x: Create) {
    x.step != Denying ==>
      match x.kind
      case Desktop => x.parent.None?
      case File =>
        && x.parent.Some?
        && (x.parent.value in s.sessions ==>
              var p := s.sessions[x.parent.value];
              p.kind == Desktop && p.active && p.actor == x.actor && p.target == x.target)
        && x.parent.value !in s.creates && x.parent.value in s.used
  }

  ghost predicate ParentsOk(s: State) {
    && (forall g :: g in s.sessions ==> ParentOk(s, s.sessions[g]))
    && (forall g :: g in s.creates ==> CreateOk(s, s.creates[g]))
  }

  ghost predicate RelaysOk(s: State) {
    && (forall g :: g in s.sessions ==>
          && s.sessions[g].relay == (if g in s.bound then Some(s.bound[g]) else None)
          && (s.sessions[g].active ==> g in s.audited))
    && (forall g, h :: g in s.sessions && h in s.sessions && g != h && s.sessions[g].relay.Some? ==>
          s.sessions[h].relay != s.sessions[g].relay)
    && s.bound.Keys <= s.sessions.Keys + s.ended
  }

  /** The relay of a session was bound by the reply on a rendezvous channel of that session. */
  ghost predicate BoundByReply(s: State, g: Guid)
    requires g in s.boundBy
  {
    && s.boundBy[g] in s.channels && s.channels[s.boundBy[g]].claim.Some? && s.channels[s.boundBy[g]].replied
    && s.channels[s.boundBy[g]].claim.value.session == g && s.channels[s.boundBy[g]].claim.value.phase == Rendezvous
  }

  ghost predicate BoundOk(s: State) {
    s.boundBy.Keys == s.bound.Keys && forall g :: g in s.boundBy ==> BoundByReply(s, g)
  }

  /** What a channel may rely on for ever: nothing here is taken back. */
  datatype Past = Past(bound: map<Guid, Uuid>, redeemed: set<Hash>, audited: set<Guid>)

  function PastOf(s: State): Past {
    Past(s.bound, s.redeemed, s.audited)
  }

  ghost predicate Grows(p: Past, p': Past) {
    && p.bound.Keys <= p'.bound.Keys && (forall g :: g in p.bound ==> p'.bound[g] == p.bound[g])
    && p.redeemed <= p'.redeemed && p.audited <= p'.audited
  }

  ghost predicate ClaimOk(p: Past, claim: Claim) {
    && claim.ticket in p.redeemed
    && (claim.phase == Relay ==> claim.session in p.bound && claim.relay == Some(p.bound[claim.session]))
  }

  ghost predicate CheckOk(p: Past, ch: Channel, check: Check) {
    match check
    case TicketCheck(g, phase, h) =>
      ch.stage == Authorizing && ch.claim.None? && h in p.redeemed && (phase == Relay ==> g in p.bound)
    case OpenCheck => ch.stage == Opening
    case RelayCheck => ch.stage == Opening && ch.claim.Some? && ch.claim.value.phase == Relay
  }

  ghost predicate TaskOk(p: Past, ch: Channel) {
    match ch.task
    case Idle => true
    case Checking(check) => CheckOk(p, ch, check)
    case Passed(check) => CheckOk(p, ch, check)
    case Claimed(claim) => ch.stage == Authorizing && ch.claim.None? && ClaimOk(p, claim)
    case Connecting => ch.stage == Opening
    case _ =>
      && ch.stage == Opening && ch.claim.Some? && ch.claim.value.phase == Relay
      && (ch.task == RelayMarked ==> ch.claim.value.session in p.audited)
  }

  ghost predicate TrafficOk(p: Past, ch: Channel) {
    match ch.stage
    case AwaitingTicket => ch.claim.None? && ch.up == [] && ch.down == 0 && !ch.replied
    case Opening =>
      && ch.up == [] && ch.down == 0 && !ch.replied && ch.claim.Some? && ch.request.Request?
      && (ch.claim.value.phase == Relay ==> ch.request.relay == ch.claim.value.relay)
    case AwaitingReply =>
      && ch.claim.Some? && ch.claim.value.phase == Rendezvous
      && |ch.up| <= 1 && ch.down <= (if ch.replied then 1 else 0)
    case Opaque =>
      && ch.claim.Some? && ch.claim.value.phase == Relay && ch.claim.value.session in p.audited
      && (!ch.stopped ==> ch.up != []) && (ch.up != [] ==> ch.up[0] == Request(ch.claim.value.relay))
      && (ch.up == [] ==> ch.down == 0)
    case _ => ch.up == [] && ch.down == 0 && !ch.replied
  }

  /** Nothing here depends on which sessions are live. */
  ghost predicate LooksOk(p: Past, ch: Channel) {
    (ch.claim.Some? ==> ClaimOk(p, ch.claim.value)) && TaskOk(p, ch) && TrafficOk(p, ch)
  }

  ghost predicate AllLookOk(s: State) {
    forall c :: c in s.channels ==> LooksOk(PastOf(s), s.channels[c])
  }

  predicate Attached(ch: Channel) {
    !ch.stopped && ch.stage in {AwaitingRequest, Opening, AwaitingReply, Opaque}
  }

  /** The channel's close callback is registered with its live session. */
  ghost predicate Registered(s: State, c: ChannelId)
    requires c in s.channels
  {
    && s.channels[c].claim.Some? && s.channels[c].claim.value.session in s.sessions
    && c in s.sessions[s.channels[c].claim.value.session].sockets
  }

  ghost predicate AttachedOk(s: State) {
    forall c :: c in s.channels && Attached(s.channels[c]) ==> Registered(s, c)
  }

  ghost predicate SocketsOk(s: State) {
    forall g :: g in s.sessions ==>
      && |s.sessions[g].sockets| <= MAX_SOCKETS
      && forall c :: c in s.sessions[g].sockets ==>
          && c in s.channels && !s.channels[c].stopped
          && s.channels[c].claim.Some? && s.channels[c].claim.value.session == g
  }

  function TicketOf(ch: Channel): Option<Hash> {
    if ch.claim.Some? then Some(ch.claim.value.ticket)
    else match ch.task
      case Checking(check) => if check.TicketCheck? then Some(check.ticket) else None
      case Passed(check) => if check.TicketCheck? then Some(check.ticket) else None
      case Claimed(claim) => Some(claim.ticket)
      case _ => None
  }

  /** A ticket gives at most one channel its claim. */
  ghost predicate TicketUseOk(s: State) {
    && (forall c :: c in s.channels && TicketOf(s.channels[c]).Some? ==> TicketOf(s.channels[c]).value in s.redeemed)
    && (forall c, d :: c in s.channels && d in s.channels && c != d && TicketOf(s.channels[c]).Some? ==>
          TicketOf(s.channels[d]) != TicketOf(s.channels[c]))
  }

  ghost predicate SessionsInv(s: State) {
    GuidsOk(s) && QuietOk(s) && QuotaOk(s) && TicketsOk(s) && ParentsOk(s) && RelaysOk(s)
  }

  ghost predicate ChannelsInv(s: State) {
    AllLookOk(s) && AttachedOk(s) && SocketsOk(s) && TicketUseOk(s) && BoundOk(s)
  }

  ghost predicate Inv(s: State) {
    SessionsInv(s) && ChannelsInv(s)
  }

  /** Children go with their parent. */
  ghost predicate Closed(s: State, dead: set<Guid>) {
    forall h :: h in s.sessions && s.sessions[h].parent.Some? && s.sessions[h].parent.value in dead ==> h in dead
  }

  lemma FewerSessionsKeepQuota(s: State, s': State)
    requires QuotaOk(s) && s'.creates == s.creates && s'.sessions.Keys <= s.sessions.Keys
    requires forall g :: g in s'.sessions ==> s'.sessions[g].actor == s.sessions[g].actor
    ensures QuotaOk(s')
  {
    Subset(s'.sessions.Keys, s.sessions.Keys);
    forall a: nat ensures |SessionsOf(s', a)| + |CreatesOf(s', a)| <= MAX_PER_ACTOR {
      Subset(SessionsOf(s', a), SessionsOf(s, a));
      assert CreatesOf(s', a) == CreatesOf(s, a);
    }
  }

  /** `x'` may replace session `x`: identity, tickets and relay stay, and activity only grows. */
  predicate SameSession(x: Session, x': Session) {
    && x'.actor == x.actor && x'.target == x.target && x'.kind == x.kind && x'.parent == x.parent
    && x'.epoch == x.epoch && x'.relay == x.relay && x'.ticketHashes == x.ticketHashes
    && (x.active ==> x'.active)
  }

  /** Sessions, requests and tickets are the same but for expiry, activity and channels. */
  ghost predicate SameSessions(s: State, s': State) {
    && s'.sessions.Keys == s.sessions.Keys
    && (forall g :: g in s.sessions ==> SameSession(s.sessions[g], s'.sessions[g]))
    && (forall g :: g in s'.sessions ==> s'.sessions[g].active ==> g in s'.audited)
    && s'.creates == s.creates && s'.tickets == s.tickets
    && s'.used == s.used && s'.ended == s.ended && s'.issued == s.issued && s'.redeemed == s.redeemed
    && s'.bound == s.bound && s'.epoch == s.epoch && s'.stopped == s.stopped && s'.overdue == s.overdue
  }

  lemma SameSessionsKeepQuiet(s: State, s': State)
    requires GuidsOk(s) && QuietOk(s) && SameSessions(s, s')
    ensures GuidsOk(s') && QuietOk(s')
  {
  }

  lemma SameSessionsKeepTickets(s: State, s': State)
    requires TicketsOk(s) && SameSessions(s, s')
    ensures TicketsOk(s')
  {
  }

  lemma SameSessionsKeepParents(s: State, s': State)
    requires ParentsOk(s) && SameSessions(s, s')
    ensures ParentsOk(s')
  {
  }

  lemma SameSessionsKeepRelays(s: State, s': State)
    requires RelaysOk(s) && SameSessions(s, s')
    ensures RelaysOk(s')
  {
  }

  lemma SameSessionsKeepInv(s: State, s': State)
    requires SessionsInv(s) && SameSessions(s, s')
    ensures SessionsInv(s')
  {
    SameSessionsKeepQuiet(s, s');
    SameSessionsKeepTickets(s, s');
    SameSessionsKeepParents(s, s');
    SameSessionsKeepRelays(s, s');
    FewerSessionsKeepQuota(s, s');
  }

  lemma InvalidateKeepsSessions(s: State, dead: set<Guid>)
    requires GuidsOk(s) && QuietOk(s) && QuotaOk(s) && ParentsOk(s) && Closed(s, dead)
    ensures var s' := Invalidate(s, dead); GuidsOk(s') && QuietOk(s') && QuotaOk(s') && ParentsOk(s')
  {
    InvalidateKeepsGuids(s, dead);
    InvalidateKeepsParents(s, dead);
    hide GuidsOk, QuietOk, ParentsOk, QuotaOk, Closed;
    FewerSessionsKeepQuota(s, Invalidate(s, dead));
  }

  lemma InvalidateKeepsGuids(s: State, dead: set<Guid>)
    requires GuidsOk(s) && QuietOk(s)
    ensures var s' := Invalidate(s, dead); GuidsOk(s') && QuietOk(s')
  {
  }

  lemma InvalidateKeepsParents(s: State, dead: set<Guid>)
    requires ParentsOk(s) && Closed(s, dead)
    ensures ParentsOk(Invalidate(s, dead))
  {
  }

  lemma InvalidateKeepsTickets(s: State, dead: set<Guid>)
    requires TicketsOk(s)
    ensures TicketsOk(Invalidate(s, dead))
  {
  }

  lemma InvalidateKeepsRelays(s: State, dead: set<Guid>)
    requires RelaysOk(s)
    ensures RelaysOk(Invalidate(s, dead))
  {
  }

  lemma StoppedLooksOk(p: Past, ch: Channel)
    requires LooksOk(p, ch)
    ensures LooksOk(p, ch.(stopped := true))
  {
  }

  lemma InvalidateKeepsLooks(s: State, dead: set<Guid>)
    requires AllLookOk(s)
    ensures AllLookOk(Invalidate(s, dead))
  {
    hide LooksOk;
    var s' := Invalidate(s, dead);
    forall c | c in s'.channels ensures LooksOk(PastOf(s'), s'.channels[c]) {
      StoppedLooksOk(PastOf(s), s.channels[c]);
    }
  }

  lemma InvalidateKeepsAttached(s: State, dead: set<Guid>)
    requires AttachedOk(s)
    ensures AttachedOk(Invalidate(s, dead))
  {
  }

  lemma InvalidateKeepsSockets(s: State, dead: set<Guid>)
    requires SocketsOk(s)
    ensures SocketsOk(Invalidate(s, dead))
  {
  }

  lemma InvalidateKeepsTicketUse(s: State, dead: set<Guid>)
    requires TicketUseOk(s) && BoundOk(s)
    ensures TicketUseOk(Invalidate(s, dead)) && BoundOk(Invalidate(s, dead))
  {
    var s' := Invalidate(s, dead);
    assert forall c :: c in s.channels ==> TicketOf(s'.channels[c]) == TicketOf(s.channels[c]);
  }

  lemma InvalidateKeepsInv(s: State, dead: set<Guid>)
    requires Inv(s) && Closed(s, dead)
    ensures Inv(Invalidate(s, dead))
  {
    hide GuidsOk, QuietOk, QuotaOk, TicketsOk, ParentsOk, RelaysOk, AllLookOk, AttachedOk, SocketsOk, TicketUseOk, BoundOk;
    hide Invalidate;
    InvalidateKeepsSessions(s, dead);
    InvalidateKeepsTickets(s, dead);
    InvalidateKeepsRelays(s, dead);
    InvalidateKeepsSockets(s, dead);
    InvalidateKeepsTicketUse(s, dead);
    InvalidateKeepsLooks(s, dead);
    InvalidateKeepsAttached(s, dead);
  }

  /** Only desktop sessions have children, so a family has no grandchildren. */
  lemma FamilyIsClosed(s: State, g: Guid)
    requires ParentsOk(s)
    ensures Closed(s, Family(s, g))
  {
  }

  lemma CloseGrantKeepsInv(s: State, g: Guid)
    requires Inv(s)
    ensures Inv(CloseGrant(s, g)) && g !in CloseGrant(s, g).sessions
  {
    FamilyIsClosed(s, g);
    InvalidateKeepsInv(s, Family(s, g));
  }
}
