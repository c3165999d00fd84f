/** The session service as it runs: fields updated in place, loops over the sessions, and a count of
    reservations per login instead of the requests themselves.  Every method is proved against the
    step it stands for, so that what holds over all runs of the steps holds of the service. */
module WebClientService {
  import opened FiniteSets
  import opened WebClientState
  import opened WebClientInvariant
  import opened WebClientCreation
  import opened Wrappers

  // ---- counting reservations ----

  /** The sum of the counts, in any order. */
  ghost function Total(counts: map<nat, nat>): nat {
    if counts == map[] then 0
    else
      var a :| a in counts;
      counts[a] + Total(counts - {a})
  }

  lemma {:induction false} TotalWithout(counts: map<nat, nat>, a: nat)
    requires a in counts
    ensures Total(counts) == counts[a] + Total(counts - {a})
    decreases |counts|
  {
    var b :| b in counts && Total(counts) == counts[b] + Total(counts - {b});
    if b != a {
      TotalWithout(counts - {b}, a);
      TotalWithout(counts - {a}, b);
      assert counts - {b} - {a} == counts - {a} - {b};
    }
  }

  ghost predicate Counts(counts: map<nat, nat>, creates: map<Guid, Create>) {
    && (forall g :: g in creates ==> creates[g].actor.id in counts)
    && (forall a :: a in counts ==> counts[a] == |Requests(creates, a)|)
  }

  ghost function Requests(creates: map<Guid, Create>, actor: nat): set<Guid> {
    set g | g in creates && creates[g].actor.id == actor
  }

  /** The counts of all logins add up to the number of requests. */
  lemma {:induction false} CountsAddUp(counts: map<nat, nat>, creates: map<Guid, Create>)
    requires Counts(counts, creates)
    ensures Total(counts) == |creates|
    decreases |counts|
  {
    if counts == map[] {
      assert forall g :: g !in creates;
      assert creates == map[];
    } else {
      var a :| a in counts;
      var mine := Requests(creates, a);
      var others := creates - mine;
      forall b | b in counts && b != a ensures Requests(others, b) == Requests(creates, b) {
      }
      CountsAddUp(counts - {a}, others);
      TotalWithout(counts, a);
      assert mine <= creates.Keys && others.Keys == creates.Keys - mine;
      assert |creates| == |creates.Keys| && |others| == |others.Keys|;
    }
  }

  lemma RequestsWithOneMore(creates: map<Guid, Create>, g: Guid, x: Create, b: nat)
    requires g !in creates
    ensures |Requests(creates[g := x], b)| == |Requests(creates, b)| + if b == x.actor.id then 1 else 0
  {
    assert g !in Requests(creates, b);
    assert Requests(creates[g := x], b) == Requests(creates, b) + if b == x.actor.id then {g} else {};
  }

  lemma RequestAdded(counts: map<nat, nat>, creates: map<Guid, Create>, g: Guid, x: Create)
    requires Counts(counts, creates) && g !in creates
    ensures Counts(counts[x.actor.id := |Requests(creates, x.actor.id)| + 1], creates[g := x])
  {
    var a := x.actor.id;
    var counts', creates' := counts[a := |Requests(creates, a)| + 1], creates[g := x];
    forall b | b in counts' ensures counts'[b] == |Requests(creates', b)| {
      hide Requests;
      RequestsWithOneMore(creates, g, x, b);
    }
    hide Requests;
  }

  lemma SameRequests(counts: map<nat, nat>, creates: map<Guid, Create>, g: Guid, x: Create)
    requires Counts(counts, creates) && g in creates && x.actor == creates[g].actor
    ensures Counts(counts, creates[g := x])
  {
    forall b: nat ensures Requests(creates[g := x], b) == Requests(creates, b) {
    }
  }

  lemma RequestRemoved(counts: map<nat, nat>, creates: map<Guid, Create>, g: Guid)
    requires Counts(counts, creates) && g in creates
    ensures var a := creates[g].actor.id;
      Counts(if counts[a] <= 1 then counts - {a} else counts[a := counts[a] - 1], creates - {g})
  {
    var a := creates[g].actor.id;
    forall b: nat ensures Requests(creates - {g}, b) == Requests(creates, b) - if b == a then {g} else {} {
    }
    assert g in Requests(creates, a);
    if counts[a] <= 1 {
      OnlyElement(Requests(creates, a), g);
      assert forall h :: h in creates && creates[h].actor.id == a ==> h in Requests(creates, a);
    }
  }

  class SessionService {
    var now: int
    var profile: nat
    var stopped: bool
    var verificationEpoch: nat
    var pendingTimeouts: set<nat>
    var sessions: map<Guid, Session>
    var tickets: map<Hash, Ticket>
    var reservations: map<nat, nat>
    /** The gateway's channels, reached through the close callbacks of the sessions. */
    var channels: map<ChannelId, Channel>
    /** The requests the reservations stand for. */
    ghost var creates: map<Guid, Create>
    ghost var used: set<Guid>
    ghost var ended: set<Guid>
    /** What only the gateway changes. */
    ghost var rest: State

    ghost predicate Valid()
      reads this
    {
      Counts(reservations, creates)
    }

    ghost function View(): State
      reads this
    {
      rest.(now := now, profile := profile, stopped := stopped, epoch := verificationEpoch, overdue := pendingTimeouts,
            sessions := sessions, tickets := tickets, creates := creates, channels := channels, used := used, ended := ended)
    }

    constructor ()
      ensures Valid() && View() == START
    {
      now, profile, stopped, verificationEpoch, pendingTimeouts := 0, 0, false, 0, {};
      sessions, tickets, reservations, channels := map[], map[], map[], map[];
      creates, used, ended, rest := map[], {}, {}, START;
    }

    // ---- reservations ----

    method PendingTotal() returns (total: nat)
      requires Valid()
      ensures total == |creates|
    {
      var left := reservations;
      total := 0;
      while left != map[]
        invariant Total(left) + total == Total(reservations)
        decreases |left|
      {
        var a :| a in left;
        TotalWithout(left, a);
        total := total + left[a];
        left := left - {a};
      }
      CountsAddUp(reservations, creates);
    }

    ghost function Mine(seen: set<Guid>, actor: nat): set<Guid>
      requires seen <= sessions.Keys
      reads this
    {
      set g | g in seen && sessions[g].actor.id == actor
    }

    lemma MineGrows(seen: set<Guid>, g: Guid, actor: nat)
      requires seen <= sessions.Keys && g in sessions && g !in seen
      ensures Mine(seen + {g}, actor) == Mine(seen, actor) + if sessions[g].actor.id == actor then {g} else {}
      ensures g !in Mine(seen, actor)
    {
    }

    method SessionCount(actor: nat) returns (count: nat)
      ensures count == |SessionsOf(View(), actor)|
    {
      var left := sessions.Keys;
      ghost var seen: set<Guid> := {};
      count := 0;
      while left != {}
        invariant seen + left == sessions.Keys && seen !! left
        invariant count == |Mine(seen, actor)|
        decreases |left|
      {
        var g :| g in left;
        MineGrows(seen, g, actor);
        if sessions[g].actor.id == actor {
          count := count + 1;
        }
        seen, left := seen + {g}, left - {g};
      }
      assert SessionsOf(View(), actor) == Mine(seen, actor);
    }

    method Reserve(actor: nat) returns (ok: bool)
      requires Valid()
      modifies this`reservations
      ensures ok == MayReserve(View(), actor)
      ensures reservations == if ok then old(reservations)[actor := |CreatesOf(View(), actor)| + 1] else old(reservations)
    {
      var pending := PendingTotal();
      var userSessions := SessionCount(actor);
      var userPending := if actor in reservations then reservations[actor] else 0;
      assert CreatesOf(View(), actor) == Requests(creates, actor);
      assert actor !in reservations ==> Requests(creates, actor) == {};
      if |sessions| + pending >= MAX_SESSIONS || userSessions + userPending >= MAX_PER_ACTOR {
        return false;
      }
      reservations := reservations[actor := userPending + 1];
      return true;
    }

    method ReleaseReservation(actor: nat)
      requires actor in reservations
      modifies this`reservations
      ensures reservations == var was := old(reservations);
        if was[actor] <= 1 then was - {actor} else was[actor := was[actor] - 1]
    {
      var count := if actor in reservations then reservations[actor] else 0;
      if count <= 1 {
        reservations := reservations - {actor};
      } else {
        reservations := reservations[actor := count - 1];
      }
    }

    // ---- ending sessions ----

    /** What the close callback of a channel does, once its session is out of the map. */
    method CloseChannel(c: ChannelId)
      modifies this`channels
      ensures channels == Closing(old(channels), {c})
    {
      if c in channels {
        channels := channels[c := channels[c].(stopped := true)];
      }
    }

    method ForgetTickets(hashes: set<Hash>)
      modifies this`tickets
      ensures tickets == old(tickets) - hashes
    {
      var left := hashes;
      while left != {}
        invariant left <= hashes && tickets == old(tickets) - (hashes - left)
        decreases |left|
      {
        var h :| h in left;
        tickets := tickets - {h};
        left := left - {h};
      }
    }

    method CloseChannels(sockets: set<ChannelId>)
      modifies this`channels
      ensures channels == Closing(old(channels), sockets)
    {
      var left := sockets;
      while left != {}
        invariant left <= sockets && channels == Closing(old(channels), sockets - left)
        decreases |left|
      {
        var c :| c in left;
        CloseChannel(c);
        left := left - {c};
      }
    }

    /** Sessions leave the map with their tickets. */
    method RemoveSessions(closed: seq<Guid>)
      requires forall g :: g in closed ==> g in sessions
      modifies this`sessions, this`tickets
      ensures sessions == old(sessions) - AsSet(closed) && tickets == old(tickets) - HashesOf(old(sessions), closed)
    {
      var all := sessions;
      for i := 0 to |closed|
        invariant sessions == all - AsSet(closed[..i])
        invariant tickets == old(tickets) - HashesOf(all, closed[..i])
      {
        sessions := sessions - {closed[i]};
        ForgetTickets(all[closed[i]].ticketHashes);
        HashesOfNext(all, closed, i);
      }
      assert closed[..|closed|] == closed;
    }

    /** The channels that were registered with the sessions. */
    method CloseSockets(all: map<Guid, Session>, closed: seq<Guid>)
      requires forall g :: g in closed ==> g in all
      modifies this`channels
      ensures channels == Closing(old(channels), SocketsOf(all, closed))
    {
      for i := 0 to |closed|
        invariant channels == Closing(old(channels), SocketsOf(all, closed[..i]))
      {
        CloseChannels(all[closed[i]].sockets);
        SocketsOfNext(all, closed, i);
      }
      assert closed[..|closed|] == closed;
    }

    /** All sessions and their tickets first, and only then the channels. */
    method Invalidate(items: seq<Guid>)
      modifies this`sessions, this`tickets, this`channels, this`ended
      ensures View() == WebClientState.Invalidate(old(View()), AsSet(items))
    {
      var all := sessions;
      var closed: seq<Guid> := [];
      for i := 0 to |items|
        invariant sessions == all && tickets == old(tickets) && channels == old(channels) && ended == old(ended)
        invariant forall g :: g in closed <==> g in items[..i] && g in all
      {
        if items[i] in sessions {
          closed := closed + [items[i]];
        }
      }
      assert items[..|items|] == items;
      InvalidatedIs(View(), items, closed);
      RemoveSessions(closed);
      CloseSockets(all, closed);
      ended := ended + AsSet(closed);
    }

    /** The session and its children. */
    method FamilyOf(g: Guid) returns (family: seq<Guid>)
      ensures AsSet(family) == Family(View(), g)
    {
      if g !in sessions {
        return [];
      }
      family := [g];
      var left := sessions.Keys;
      while left != {}
        invariant left <= sessions.Keys
        invariant forall h :: h in AsSet(family) <==> h == g || (h in sessions && h !in left && sessions[h].parent == Some(g))
        decreases |left|
      {
        var h :| h in left;
        AsSetAppend(family, h);
        if sessions[h].parent == Some(g) {
          family := family + [h];
        }
        left := left - {h};
      }
      FamilyIs(View(), g, AsSet(family));
    }

    method CloseGrant(g: Guid)
      modifies this`sessions, this`tickets, this`channels, this`ended
      ensures View() == WebClientState.CloseGrant(old(View()), g)
    {
      var family := FamilyOf(g);
      Invalidate(family);
    }

    /** The deadline of a check passes. */
    method TimeOut(id: nat)
      modifies this`pendingTimeouts, this`verificationEpoch, this`sessions, this`tickets, this`channels, this`ended
      ensures View() == WebClientState.TimeOut(old(View()), id)
    {
      pendingTimeouts := pendingTimeouts + {id};
      verificationEpoch := verificationEpoch + 1;
      var all := AllSessions();
      Invalidate(all);
    }

    method AllSessions() returns (all: seq<Guid>)
      ensures AsSet(all) == sessions.Keys
    {
      all := [];
      var left := sessions.Keys;
      while left != {}
        invariant left <= sessions.Keys && AsSet(all) == sessions.Keys - left
        decreases |left|
      {
        var g :| g in left;
        AsSetAppend(all, g);
        all, left := all + [g], left - {g};
      }
    }

    method ShutDown()
      modifies this`stopped, this`sessions, this`tickets, this`channels, this`ended
      ensures View() == WebClientState.ShutDown(old(View()))
    {
      stopped := true;
      var all := AllSessions();
      Invalidate(all);
    }

    // ---- requests ----

    method IsCurrent(g: Guid) returns (r: bool)
      ensures r == Current(View(), g)
    {
      r := g in sessions && !stopped && now < sessions[g].expiresAt
           && (sessions[g].active || now - sessions[g].createdAt < PENDING_MS);
    }

    /** The part of a session request before its first wait. */
    method BeginCreate(g: Guid, actor: Actor, target: nat, kind: Kind, parent: Option<Guid>) returns (step: Option<CreateStep>)
      requires Valid() && g !in used && g !in creates
      modifies this`reservations, this`creates, this`used
      ensures Valid()
      ensures View() == WebClientState.BeginCreate(old(View()), g, actor, target, kind, parent)
      ensures step == if g in creates then Some(creates[g].step) else None
    {
      if stopped || pendingTimeouts != {} {
        return None;
      }
      var ok := Reserve(actor.id);
      if !ok {
        return None;
      }
      var available := false;
      if kind == File && parent.Some? {
        available := IsCurrent(parent.value);
        available := available && sessions[parent.value].actor == actor && sessions[parent.value].kind == Desktop
          && sessions[parent.value].target == target && sessions[parent.value].active;
      }
      var next := if kind == File then (if available then CheckingParent else Denying) else if parent.Some? then Denying else Validating;
      ghost var x := Create(actor, target, kind, parent, profile, verificationEpoch, next);
      assert CreatesOf(View(), actor.id) == Requests(creates, actor.id);
      RequestAdded(old(reservations), creates, g, x);
      creates, used := creates[g := x], used + {g};
      return Some(next);
    }

    method DropRequest(g: Guid, actor: nat)
      requires Valid() && g in creates && creates[g].actor.id == actor
      modifies this`reservations, this`creates
      ensures Valid() && creates == old(creates) - {g}
    {
      RequestRemoved(reservations, creates, g);
      ReleaseReservation(actor);
      creates := creates - {g};
    }

    /** A request ends without a session; its reservation goes with it. */
    method EndCreate(g: Guid, actor: nat)
      requires Valid() && g in creates && creates[g].step == Denying && creates[g].actor.id == actor
      modifies this`reservations, this`creates
      ensures Valid() && View() == WebClientState.CreateDenied(old(View()), g)
    {
      DropRequest(g, actor);
    }

    /** The authorization answered for a new session: its end is the earliest of three. */
    method ValidateCreate(g: Guid, x: Create, allowed: bool, loginExpiry: int)
      requires Valid() && g in creates && creates[g] == x && x.step == Validating
      modifies this`creates
      ensures Valid() && View() == CreateValidated(old(View()), g, allowed, loginExpiry)
    {
      var next := Denying;
      if allowed {
        var expiresAt := now + SESSION_MS;
        if loginExpiry < expiresAt {
          expiresAt := loginExpiry;
        }
        if x.parent.Some? && x.parent.value in sessions && sessions[x.parent.value].expiresAt < expiresAt {
          expiresAt := sessions[x.parent.value].expiresAt;
        }
        next := Auditing(now, expiresAt);
      }
      SameRequests(reservations, creates, g, x.(step := next));
      creates := creates[g := x.(step := next)];
    }

    /** The permission audit ended: tickets and session appear together, or the request is denied after all. */
    method FinishCreate(g: Guid, x: Create, stored: bool, rendezvous: Hash, relay: Hash) returns (issued: bool)
      requires Valid() && g in creates && creates[g] == x && x.step.Auditing?
      requires rendezvous !in rest.issued && relay !in rest.issued && rendezvous != relay
      modifies this`sessions, this`tickets, this`reservations, this`creates, this`rest
      ensures Valid() && View() == CreateAudited(old(View()), g, stored, rendezvous, relay)
      ensures issued == (g in sessions && g !in creates)
    {
      if !stored || stopped || pendingTimeouts != {} || x.epoch != verificationEpoch || x.profile != profile
         || x.step.expiresAt <= now || (x.parent.Some? && x.parent.value !in sessions)
      {
        SameRequests(reservations, creates, g, x.(step := Denying));
        creates := creates[g := x.(step := Denying)];
        return false;
      }
      Issue(g, x, rendezvous, relay);
      return true;
    }

    method Issue(g: Guid, x: Create, rendezvous: Hash, relay: Hash)
      requires Valid() && g in creates && creates[g] == x && MayIssue(View(), x, rendezvous, relay)
      modifies this`sessions, this`tickets, this`reservations, this`creates, this`rest
      ensures Valid() && View() == CreateAudited(old(View()), g, true, rendezvous, relay)
      ensures g in sessions && g !in creates
    {
      var lifetime := if now + TICKET_MS < x.step.expiresAt then now + TICKET_MS else x.step.expiresAt;
      IssuedIs(View(), g, x, rendezvous, relay, lifetime);
      hide Counts, CreateAudited, MayIssue, FreshSession;
      Insert(g, FreshSession(x, {rendezvous, relay}), rendezvous, relay, lifetime);
      DropRequest(g, x.actor.id);
    }

    /** A session and its two tickets. */
    method Insert(g: Guid, session: Session, rendezvous: Hash, relay: Hash, lifetime: int)
      modifies this`sessions, this`tickets, this`rest
      ensures View() == old(View()).(
          sessions := old(sessions)[g := session], issued := old(rest).issued + {rendezvous, relay},
          tickets := old(tickets)[rendezvous := Ticket(g, Rendezvous, lifetime)][relay := Ticket(g, Relay, lifetime)])
    {
      tickets := tickets[rendezvous := Ticket(g, Rendezvous, lifetime)];
      tickets := tickets[relay := Ticket(g, Relay, lifetime)];
      sessions := sessions[g := session];
      rest := rest.(issued := rest.issued + {rendezvous, relay});
    }

    // ---- checks ----

    /** The part of a session check after the authorization answered. */
    method EnsureValid(g: Guid, allowed: bool, loginExpiry: int) returns (ok: bool)
      modifies this`sessions, this`tickets, this`channels, this`ended
      ensures (View(), ok) == Recheck(old(View()), g, allowed, loginExpiry)
    {
      var current := IsCurrent(g);
      if !allowed || !current {
        CloseGrant(g);
        return false;
      }
      var x := sessions[g];
      sessions := sessions[g := x.(expiresAt := if loginExpiry < x.expiresAt then loginExpiry else x.expiresAt)];
      ok := x.profile == profile;
      if ok && x.parent.Some? {
        ok := IsCurrent(x.parent.value);
        ok := ok && sessions[x.parent.value].active && sessions[x.parent.value].actor == x.actor;
      }
      if ok {
        ok := IsCurrent(g);
      }
      if !ok {
        CloseGrant(g);
      }
    }

    /** The gateway stops a channel. */
    method StopChannel(c: ChannelId, retain: bool)
      modifies this`sessions, this`tickets, this`channels, this`ended
      ensures View() == Stop(old(View()), c, retain)
    {
      if c !in channels || channels[c].stopped {
        return;
      }
      channels := channels[c := channels[c].(stopped := true)];
      if channels[c].claim.Some? {
        var g := channels[c].claim.value.session;
        if g in sessions {
          sessions := sessions[g := sessions[g].(sockets := sessions[g].sockets - {c})];
        }
        if !retain {
          CloseGrant(g);
        }
      }
    }

    // ---- tickets and relays ----

    /** The part of a ticket's redemption before its wait: the ticket is gone whatever comes of it. */
    method ConsumeTicket(h: Hash) returns (task: Task)
      modifies this`tickets, this`rest
      ensures View() == Spend(old(View()), h) && task == TicketTask(old(View()), h)
    {
      if h !in tickets {
        return Idle;
      }
      var t := tickets[h];
      tickets := tickets - {h};
      rest := rest.(redeemed := rest.redeemed + {h});
      if t.expiresAt <= now {
        return Idle;
      }
      var current := IsCurrent(t.session);
      if !current || (t.phase == Relay && sessions[t.session].relay.None?) {
        return Idle;
      }
      return Checking(TicketCheck(t.session, t.phase, h));
    }

    /** A relay may be bound when no other session has it. */
    method MayBindRelay(g: Guid, uuid: Uuid) returns (r: bool)
      ensures r == MayBind(View(), g, uuid)
    {
      r := IsCurrent(g);
      if !r || sessions[g].relay.Some? {
        return false;
      }
      var left := sessions.Keys;
      while left != {}
        invariant left <= sessions.Keys
        invariant forall h :: h in sessions && h !in left && h != g ==> sessions[h].relay != Some(uuid)
        decreases |left|
      {
        var h :| h in left;
        if h != g && sessions[h].relay == Some(uuid) {
          return false;
        }
        left := left - {h};
      }
    }

    method PurgeTickets()
      modifies this`tickets
      ensures View() == WebClientState.PurgeTickets(old(View()))
    {
      var left := tickets.Keys;
      while left != {}
        invariant left <= tickets.Keys <= old(tickets.Keys)
        invariant forall h :: h in tickets <==> h in old(tickets) && (h in left || now < old(tickets)[h].expiresAt)
        invariant forall h :: h in tickets ==> tickets[h] == old(tickets)[h]
        decreases |left|
      {
        var h :| h in left;
        if tickets[h].expiresAt <= now {
          tickets := tickets - {h};
        }
        left := left - {h};
      }
      assert tickets == WebClientState.PurgeTickets(old(View())).tickets;
    }
  }

  function AsSet(gs: seq<Guid>): set<Guid> {
    set g | g in gs
  }

  lemma AsSetAppend(gs: seq<Guid>, g: Guid)
    ensures AsSet(gs + [g]) == AsSet(gs) + {g}
  {
  }

  /** The channels after the callbacks of `sockets` ran. */
  function Closing(channels: map<ChannelId, Channel>, sockets: set<ChannelId>): map<ChannelId, Channel> {
    map c | c in channels :: if c in sockets then channels[c].(stopped := true) else channels[c]
  }

  function HashesOf(sessions: map<Guid, Session>, gs: seq<Guid>): set<Hash> {
    set g, h | g in gs && g in sessions && h in sessions[g].ticketHashes :: h
  }

  function SocketsOf(sessions: map<Guid, Session>, gs: seq<Guid>): set<ChannelId> {
    set g, c | g in gs && g in sessions && c in sessions[g].sockets :: c
  }

  lemma HashesOfNext(sessions: map<Guid, Session>, gs: seq<Guid>, i: nat)
    requires i < |gs| && gs[i] in sessions
    ensures HashesOf(sessions, gs[..i + 1]) == HashesOf(sessions, gs[..i]) + sessions[gs[i]].ticketHashes
    ensures AsSet(gs[..i + 1]) == AsSet(gs[..i]) + {gs[i]}
  {
  }

  lemma SocketsOfNext(sessions: map<Guid, Session>, gs: seq<Guid>, i: nat)
    requires i < |gs| && gs[i] in sessions
    ensures SocketsOf(sessions, gs[..i + 1]) == SocketsOf(sessions, gs[..i]) + sessions[gs[i]].sockets
  {
  }

  lemma InvalidatedIs(s: State, items: seq<Guid>, closed: seq<Guid>)
    requires forall g :: g in closed <==> g in items && g in s.sessions
    ensures Invalidate(s, AsSet(items)) ==
      s.(sessions := s.sessions - AsSet(closed), tickets := s.tickets - HashesOf(s.sessions, closed),
         channels := Closing(s.channels, SocketsOf(s.sessions, closed)), ended := s.ended + AsSet(closed))
  {
  }

  lemma FamilyIs(s: State, g: Guid, family: set<Guid>)
    requires g in s.sessions
    requires forall h :: h in family <==> h == g || (h in s.sessions && s.sessions[h].parent == Some(g))
    ensures Family(s, g) == family
  {
  }
}
