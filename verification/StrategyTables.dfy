/** Strategies, the rows that refer to them, and what a device's strategy is. */
module StrategyTables {
  import opened Wrappers

  type Guid = nat

  datatype Strategy = Strategy(guid: Guid, name: string, note: string, options: string)

  datatype Peer = Peer(user: Option<Guid>, group: Option<Guid>, strategy: Option<Guid>, note: string)

  /** Users and device groups are kept as the strategy they refer to; `scopes` are the device groups
      that role assignments are limited to. */
  datatype Tables = Tables(
    strategies: map<Guid, Strategy>, peers: map<Guid, Peer>,
    users: map<Guid, Option<Guid>>, groups: map<Guid, Option<Guid>>, scopes: set<Guid>)

  datatype Target = Device | User | DeviceGroup

  predicate Exists<V>(m: map<Guid, V>, ref: Option<Guid>) {
    ref.Some? ==> ref.value in m
  }

  /** The constraints of the schema; the user of a device is not one of them. */
  ghost predicate ForeignKeys(t: Tables) {
    && (forall g :: g in t.strategies ==> t.strategies[g].guid == g)
    && (forall u :: u in t.peers ==> Exists(t.strategies, t.peers[u].strategy) && Exists(t.groups, t.peers[u].group))
    && (forall u :: u in t.users ==> Exists(t.strategies, t.users[u]))
    && (forall g :: g in t.groups ==> Exists(t.strategies, t.groups[g]))
  }

  function Found(t: Tables, ref: Option<Guid>): Option<Strategy> {
    if ref.Some? && ref.value in t.strategies then Some(t.strategies[ref.value]) else None
  }

  function RefOf(rows: map<Guid, Option<Guid>>, row: Option<Guid>): Option<Guid> {
    if row.Some? && row.value in rows then rows[row.value] else None
  }

  /** The device's own strategy, else its user's, else its group's. */
  function Resolve(t: Tables, p: Peer): Option<Strategy> {
    if Found(t, p.strategy).Some? then Found(t, p.strategy)
    else if Found(t, RefOf(t.users, p.user)).Some? then Found(t, RefOf(t.users, p.user))
    else Found(t, RefOf(t.groups, p.group))
  }

  /** The reference names a strategy that exists. */
  predicate Names(t: Tables, ref: Option<Guid>) {
    ref.Some? && ref.value in t.strategies
  }

  /** The answer read off the rows: the own strategy whatever else there is, without one the user's
      whatever the group has, the group's only without either, and none only without all three. */
  predicate FollowsRows(t: Tables, u: Guid, s: Option<Strategy>) {
    && (u !in t.peers ==> s.None?)
    && (u in t.peers ==>
          var p := t.peers[u];
          var own, user, group :=
            Names(t, p.strategy),
            p.user.Some? && p.user.value in t.users && Names(t, t.users[p.user.value]),
            p.group.Some? && p.group.value in t.groups && Names(t, t.groups[p.group.value]);
          && (own ==> s == Some(t.strategies[p.strategy.value]))
          && (!own && user ==> s == Some(t.strategies[t.users[p.user.value].value]))
          && (!own && !user && group ==> s == Some(t.strategies[t.groups[p.group.value].value]))
          && (!own && !user && !group ==> s.None?))
  }

  lemma ResolutionFollowsRows(t: Tables, u: Guid)
    ensures FollowsRows(t, u, if u in t.peers then Resolve(t, t.peers[u]) else None)
  {
  }

  // ---- changes ----

  function Unless(ref: Option<Guid>, g: Guid): Option<Guid> {
    if ref == Some(g) then None else ref
  }

  /** Deleting a strategy sets every reference to it to null. */
  function WithoutStrategy(t: Tables, g: Guid): Tables {
    t.(strategies := t.strategies - {g},
       peers := map u | u in t.peers :: t.peers[u].(strategy := Unless(t.peers[u].strategy, g)),
       users := map u | u in t.users :: Unless(t.users[u], g),
       groups := map h | h in t.groups :: Unless(t.groups[h], g))
  }

  function WithoutGroup(t: Tables, h: Guid): Tables {
    t.(groups := t.groups - {h}, peers := map u | u in t.peers :: t.peers[u].(group := Unless(t.peers[u].group, h)))
  }

  function Rows(t: Tables, kind: Target): set<Guid> {
    match kind
    case Device => t.peers.Keys
    case User => t.users.Keys
    case DeviceGroup => t.groups.Keys
  }

  /** The strategy a row of any kind refers to. */
  function StrategyRef(t: Tables, kind: Target, row: Guid): Option<Guid>
    requires row in Rows(t, kind)
  {
    match kind
    case Device => t.peers[row].strategy
    case User => t.users[row]
    case DeviceGroup => t.groups[row]
  }

  /** Set the strategy of some rows. */
  function Refer(t: Tables, kind: Target, rows: set<Guid>, ref: Option<Guid>): Tables {
    match kind
    case Device => t.(peers := map u | u in t.peers :: if u in rows then t.peers[u].(strategy := ref) else t.peers[u])
    case User => t.(users := map u | u in t.users :: if u in rows then ref else t.users[u])
    case DeviceGroup => t.(groups := map h | h in t.groups :: if h in rows then ref else t.groups[h])
  }

  /** Setting the strategy of some rows sets that one column of just those rows. */
  lemma ReferringChangesOneColumn(t: Tables, kind: Target, rows: set<Guid>, ref: Option<Guid>)
    ensures
      var t' := Refer(t, kind, rows, ref);
      && t'.strategies == t.strategies && t'.scopes == t.scopes
      && t'.peers.Keys == t.peers.Keys && t'.users.Keys == t.users.Keys && t'.groups.Keys == t.groups.Keys
      && (forall u :: u in t.peers ==>
            && t'.peers[u].user == t.peers[u].user && t'.peers[u].group == t.peers[u].group && t'.peers[u].note == t.peers[u].note
            && t'.peers[u].strategy == if kind.Device? && u in rows then ref else t.peers[u].strategy)
      && (forall u :: u in t.users ==> t'.users[u] == if kind.User? && u in rows then ref else t.users[u])
      && (forall h :: h in t.groups ==> t'.groups[h] == if kind.DeviceGroup? && h in rows then ref else t.groups[h])
  {
  }

  /** What a deletion leaves: everything but the strategy and the references to it. */
  lemma DeletionClearsReferences(t: Tables, g: Guid)
    ensures
      var t' := WithoutStrategy(t, g);
      && t'.strategies.Keys == t.strategies.Keys - {g} && (forall h :: h in t'.strategies ==> t'.strategies[h] == t.strategies[h])
      && t'.peers.Keys == t.peers.Keys && t'.users.Keys == t.users.Keys && t'.groups.Keys == t.groups.Keys
      && t'.scopes == t.scopes
      && (forall u :: u in t.peers ==>
            && t'.peers[u].user == t.peers[u].user && t'.peers[u].group == t.peers[u].group && t'.peers[u].note == t.peers[u].note
            && (t.peers[u].strategy == Some(g) ==> t'.peers[u].strategy == None)
            && (t.peers[u].strategy != Some(g) ==> t'.peers[u].strategy == t.peers[u].strategy))
      && (forall u :: u in t.users ==>
            (t.users[u] == Some(g) ==> t'.users[u] == None) && (t.users[u] != Some(g) ==> t'.users[u] == t.users[u]))
      && (forall h :: h in t.groups ==>
            (t.groups[h] == Some(g) ==> t'.groups[h] == None) && (t.groups[h] != Some(g) ==> t'.groups[h] == t.groups[h]))
  {
  }

  /** What a group's deletion leaves: its devices are in no group, and nothing else changes. */
  lemma GroupDeletionClearsMembership(t: Tables, h: Guid)
    ensures
      var t' := WithoutGroup(t, h);
      && t'.strategies == t.strategies && t'.users == t.users && t'.scopes == t.scopes
      && t'.groups.Keys == t.groups.Keys - {h} && (forall k :: k in t'.groups ==> t'.groups[k] == t.groups[k])
      && t'.peers.Keys == t.peers.Keys
      && (forall u :: u in t.peers ==>
            && t'.peers[u].user == t.peers[u].user && t'.peers[u].strategy == t.peers[u].strategy
            && t'.peers[u].note == t.peers[u].note
            && (t.peers[u].group == Some(h) ==> t'.peers[u].group == None)
            && (t.peers[u].group != Some(h) ==> t'.peers[u].group == t.peers[u].group))
  {
  }

  /** A strategy's deletion changes the answer for no device that got another answer. */
  lemma DeletionChangesNoOtherDevice(t: Tables, g: Guid, u: Guid)
    requires ForeignKeys(t) && u in t.peers
    ensures
      var before, after := Resolve(t, t.peers[u]), Resolve(WithoutStrategy(t, g), WithoutStrategy(t, g).peers[u]);
      && (before.None? || before.value.guid != g ==> after == before)
      && (after.Some? ==> after.value.guid != g)
  {
  }

  lemma DeletionKeepsKeys(t: Tables, g: Guid)
    requires ForeignKeys(t)
    ensures ForeignKeys(WithoutStrategy(t, g))
  {
  }

  lemma ReferringKeepsKeys(t: Tables, kind: Target, rows: set<Guid>, ref: Option<Guid>)
    requires ForeignKeys(t) && Exists(t.strategies, ref)
    ensures ForeignKeys(Refer(t, kind, rows, ref)) && Refer(t, kind, rows, ref).strategies == t.strategies
  {
  }

  lemma GroupDeletionKeepsKeys(t: Tables, h: Guid)
    requires ForeignKeys(t)
    ensures ForeignKeys(WithoutGroup(t, h)) && WithoutGroup(t, h).strategies == t.strategies
    ensures WithoutGroup(t, h).peers.Keys == t.peers.Keys
  {
  }

  /** A group's deletion changes the answer only for its own devices. */
  lemma GroupDeletionChangesOnlyMembers(t: Tables, h: Guid, u: Guid)
    requires ForeignKeys(t) && u in t.peers && t.peers[u].group != Some(h)
    ensures Resolve(WithoutGroup(t, h), WithoutGroup(t, h).peers[u]) == Resolve(t, t.peers[u])
  {
  }

  /** A strategy nothing refers to yet answers for no device. */
  lemma CreationChangesNoDevice(t: Tables, s: Strategy, u: Guid)
    requires ForeignKeys(t) && s.guid !in t.strategies && u in t.peers
    ensures Resolve(t.(strategies := t.strategies[s.guid := s]), t.peers[u]) == Resolve(t, t.peers[u])
  {
  }

  lemma UpdateKeepsKeys(t: Tables, s: Strategy)
    requires ForeignKeys(t)
    ensures ForeignKeys(t.(strategies := t.strategies[s.guid := s]))
  {
  }

  /** A strategy's own columns do not decide for whom it answers. */
  lemma UpdateChangesNoChoice(t: Tables, s: Strategy, u: Guid)
    requires ForeignKeys(t) && s.guid in t.strategies && u in t.peers
    ensures
      var before, after := Resolve(t, t.peers[u]), Resolve(t.(strategies := t.strategies[s.guid := s]), t.peers[u]);
      && (before.Some? <==> after.Some?)
      && (before.Some? ==> after.value == if before.value.guid == s.guid then s else before.value)
  {
  }

  /** Writing one device's row changes the answer for no other. */
  lemma WriteChangesOneDevice(t: Tables, u: Guid, p: Peer)
    requires ForeignKeys(t) && u in t.peers && Exists(t.strategies, p.strategy) && Exists(t.groups, p.group)
    ensures
      var after := t.(peers := t.peers[u := p]);
      ForeignKeys(after) && forall v :: v in t.peers && v != u ==> Resolve(after, after.peers[v]) == Resolve(t, t.peers[v])
  {
  }
}
