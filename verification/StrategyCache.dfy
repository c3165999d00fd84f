/** The strategy service: two caches in front of the tables, emptied by whoever changes an answer. */
module StrategyCache {
  import opened StrategyTables
  import opened Wrappers

  class StrategyService {
    var tables: Tables
    /** By strategy: its row. */
    var strategyObjectCache: map<Guid, Strategy>
    /** By device: the strategy it resolved to, or none. */
    var deviceStrategyCache: map<Guid, Option<Guid>>

    /** Cached rows are the current rows, and cached answers the current answers. */
    ghost predicate Coherent()
      reads this
    {
      && (forall g :: g in strategyObjectCache ==> g in tables.strategies && strategyObjectCache[g] == tables.strategies[g])
      && (forall u :: u in deviceStrategyCache && u in tables.peers ==> IsAnswer(tables, u, deviceStrategyCache[u]))
    }

    ghost predicate Valid()
      reads this
    {
      ForeignKeys(tables) && Coherent()
    }

    constructor (t: Tables)
      requires ForeignKeys(t)
      ensures Valid() && tables == t
    {
      tables, strategyObjectCache, deviceStrategyCache := t, map[], map[];
    }

    // ---- lookups ----

    method ResolveStrategyForPeer(p: Peer) returns (s: Option<Strategy>)
      ensures s == Resolve(tables, p)
    {
      if p.strategy.Some? && p.strategy.value in tables.strategies {
        return Some(tables.strategies[p.strategy.value]);
      }
      if p.user.Some? && p.user.value in tables.users {
        var ref := tables.users[p.user.value];
        if ref.Some? && ref.value in tables.strategies {
          return Some(tables.strategies[ref.value]);
        }
      }
      if p.group.Some? && p.group.value in tables.groups {
        var ref := tables.groups[p.group.value];
        if ref.Some? && ref.value in tables.strategies {
          return Some(tables.strategies[ref.value]);
        }
      }
      return None;
    }

    /** The next lookup of this device is answered from the caches. */
    ghost predicate Remembered(u: Guid, s: Option<Strategy>)
      reads this
    {
      && u in deviceStrategyCache
      && match s
         case None => deviceStrategyCache[u] == None
         case Some(x) =>
           deviceStrategyCache[u] == Some(x.guid) && x.guid in strategyObjectCache && strategyObjectCache[x.guid] == x
    }

    /** Cached or not, the answer is what the tables say now. */
    method FindStrategyForDevice(u: Guid) returns (s: Option<Strategy>)
      requires Valid()
      modifies this`strategyObjectCache, this`deviceStrategyCache
      ensures Valid() && s == if u in tables.peers then Resolve(tables, tables.peers[u]) else None
      ensures FollowsRows(tables, u, s)
      ensures u in tables.peers ==> Remembered(u, s)
      ensures forall v :: v in old(deviceStrategyCache) && v != u ==>
        v in deviceStrategyCache && deviceStrategyCache[v] == old(deviceStrategyCache)[v]
    {
      ResolutionFollowsRows(tables, u);
      if u !in tables.peers {
        return None;
      }
      if u in deviceStrategyCache {
        var cached := deviceStrategyCache[u];
        if cached.None? {
          return None;
        }
        if cached.value in strategyObjectCache {
          return Some(strategyObjectCache[cached.value]);
        }
      }
      s := ResolveStrategyForPeer(tables.peers[u]);
      if s.Some? {
        strategyObjectCache := strategyObjectCache[s.value.guid := s.value];
        deviceStrategyCache := deviceStrategyCache[u := Some(s.value.guid)];
      } else {
        deviceStrategyCache := deviceStrategyCache[u := None];
      }
    }

    // ---- strategies ----

    /** A new strategy has a random identifier, which no row refers to. */
    method CreateStrategy(guid: Guid, name: string, note: string, options: string) returns (ok: bool)
      requires Valid() && guid !in tables.strategies
      modifies this`tables
      ensures Valid()
      ensures ok == !exists g :: g in old(tables).strategies && old(tables).strategies[g].name == name
      ensures
        tables == if !ok then old(tables) else
          old(tables).(strategies := old(tables).strategies[guid := Strategy(guid, name, note, options)])
    {
      ok := !exists g :: g in tables.strategies && tables.strategies[g].name == name;
      if ok {
        var s := Strategy(guid, name, note, options);
        ghost var before := tables;
        tables := tables.(strategies := tables.strategies[guid := s]);
        forall u | u in before.peers ensures Resolve(tables, tables.peers[u]) == Resolve(before, before.peers[u]) {
          CreationChangesNoDevice(before, s, u);
        }
      }
    }

    method UpdateStrategy(guid: Guid, name: Option<string>, note: Option<string>, options: Option<string>) returns (ok: bool)
      requires Valid()
      modifies this`tables, this`strategyObjectCache
      ensures Valid()
      ensures ok == (guid in old(tables).strategies && (name.Some? ==>
          !exists g :: g in old(tables).strategies && old(tables).strategies[g].name == name.value && g != guid))
      ensures !ok ==> tables == old(tables) && strategyObjectCache == old(strategyObjectCache)
      ensures ok ==> tables == old(tables).(strategies := old(tables).strategies[guid :=
          Strategy(guid,
                   if name.Some? then name.value else old(tables).strategies[guid].name,
                   if note.Some? then note.value else old(tables).strategies[guid].note,
                   if options.Some? then options.value else old(tables).strategies[guid].options)])
    {
      if guid !in tables.strategies {
        return false;
      }
      var s := tables.strategies[guid];
      if name.Some? {
        if exists g :: g in tables.strategies && tables.strategies[g].name == name.value && g != guid {
          return false;
        }
        s := s.(name := name.value);
      }
      if note.Some? {
        s := s.(note := note.value);
      }
      if options.Some? {
        s := s.(options := options.value);
      }
      ghost var before := tables;
      UpdateKeepsKeys(tables, s);
      hide ForeignKeys, Resolve;
      tables := tables.(strategies := tables.strategies[guid := s]);
      strategyObjectCache := strategyObjectCache[guid := s];
      forall u | u in before.peers && u in deviceStrategyCache ensures IsAnswer(tables, u, deviceStrategyCache[u]) {
        UpdateChangesNoChoice(before, s, u);
      }
      return true;
    }

    /** Only the answers that named the strategy are dropped; that is enough. */
    method DeleteStrategy(guid: Guid) returns (ok: bool)
      requires Valid()
      modifies this
      ensures Valid()
      ensures ok == (guid in old(tables).strategies)
      ensures tables == if ok then WithoutStrategy(old(tables), guid) else old(tables)
      ensures ok ==> forall u :: u in old(deviceStrategyCache) && old(deviceStrategyCache)[u] != Some(guid) ==> u in deviceStrategyCache
    {
      if guid !in tables.strategies {
        return false;
      }
      ghost var before := tables;
      tables := WithoutStrategy(tables, guid);
      strategyObjectCache := strategyObjectCache - {guid};
      DropAnswers(guid);
      DeletionKeepsKeys(before, guid);
      forall u | u in tables.peers && u in deviceStrategyCache ensures IsAnswer(tables, u, deviceStrategyCache[u]) {
        DeletionChangesNoOtherDevice(before, guid, u);
      }
      return true;
    }

    method DropAnswers(guid: Guid)
      modifies this`deviceStrategyCache
      ensures
        deviceStrategyCache ==
        map u | u in old(deviceStrategyCache) && old(deviceStrategyCache)[u] != Some(guid) :: old(deviceStrategyCache)[u]
    {
      var left := deviceStrategyCache.Keys;
      while left != {}
        invariant left <= deviceStrategyCache.Keys <= old(deviceStrategyCache).Keys
        invariant forall u :: u in old(deviceStrategyCache) ==>
          (u in deviceStrategyCache <==> u in left || old(deviceStrategyCache)[u] != Some(guid))
        invariant forall u :: u in deviceStrategyCache ==> deviceStrategyCache[u] == old(deviceStrategyCache)[u]
        decreases |left|
      {
        var u :| u in left;
        if deviceStrategyCache[u] == Some(guid) {
          deviceStrategyCache := deviceStrategyCache - {u};
        }
        left := left - {u};
      }
    }

    // ---- assignments ----

    /** `allowed` is the answer of the authorization check, and whether no row changed meanwhile. */
    method AssignStrategy(guid: Guid, kind: Target, targets: seq<Guid>, allowed: bool)
      returns (ok: bool, success: set<Guid>, errors: seq<Failure>)
      requires Valid()
      modifies this`tables, this`deviceStrategyCache
      ensures Valid() && ok == (allowed && guid in old(tables).strategies)
      ensures !ok ==> tables == old(tables)
      ensures ok ==> success == set u | u in targets && u in Rows(old(tables), kind)
      ensures ok ==> errors == Failures(Distinct(targets), Rows(old(tables), kind), success)
      ensures ok ==> tables == Refer(old(tables), kind, success, Some(guid))
    {
      if !allowed || guid !in tables.strategies {
        return false, {}, [];
      }
      hide ForeignKeys, Refer, Distinct, Failures;
      var rows := Rows(tables, kind);
      success := set u | u in targets && u in rows;
      ReferringKeepsKeys(tables, kind, success, Some(guid));
      errors := Report(targets, rows, success);
      tables := Refer(tables, kind, success, Some(guid));
      deviceStrategyCache := map[];
      return true, success, errors;
    }

    /** Only rows that refer to this strategy lose it. */
    method UnassignStrategy(guid: Guid, kind: Target, targets: seq<Guid>, allowed: bool)
      returns (ok: bool, success: set<Guid>, errors: seq<Failure>)
      requires Valid()
      modifies this`tables, this`deviceStrategyCache
      ensures Valid() && ok == (allowed && guid in old(tables).strategies)
      ensures !ok ==> tables == old(tables)
      ensures ok ==> success == Bound(old(tables), kind, guid, targets)
      ensures ok ==> errors == Failures(Distinct(targets), Rows(old(tables), kind), success)
      ensures ok ==> tables == Refer(old(tables), kind, success, None)
    {
      if !allowed || guid !in tables.strategies {
        return false, {}, [];
      }
      hide ForeignKeys, Refer, Bound, Distinct, Failures;
      success := Bound(tables, kind, guid, targets);
      ReferringKeepsKeys(tables, kind, success, None);
      errors := Report(targets, Rows(tables, kind), success);
      tables := Refer(tables, kind, success, None);
      deviceStrategyCache := map[];
      return true, success, errors;
    }

    /** The targets without repetitions, and what is wrong with each that was not chosen. */
    static method Report(targets: seq<Guid>, rows: set<Guid>, chosen: set<Guid>) returns (errors: seq<Failure>)
      ensures errors == Failures(Distinct(targets), rows, chosen)
    {
      var unique := [];
      for i := 0 to |targets|
        invariant unique == Distinct(targets[..i])
      {
        assert targets[..i + 1][..i] == targets[..i];
        if targets[i] !in unique {
          unique := unique + [targets[i]];
        }
      }
      assert targets[..|targets|] == targets;
      errors := [];
      for i := 0 to |unique|
        invariant errors == Failures(unique[..i], rows, chosen)
      {
        assert unique[..i + 1][..i] == unique[..i];
        if unique[i] !in rows {
          errors := errors + [NotFound(unique[i])];
        } else if unique[i] !in chosen {
          errors := errors + [NotBound(unique[i])];
        }
      }
      assert unique[..|unique|] == unique;
    }

    // ---- the writers of device groups ----

    method InvalidateDeviceStrategyCache(u: Option<Guid>)
      modifies this`deviceStrategyCache
      ensures deviceStrategyCache == if u.Some? then old(deviceStrategyCache) - {u.value} else map[]
    {
      deviceStrategyCache := if u.Some? then deviceStrategyCache - {u.value} else map[];
    }

    /** Refused while a role assignment is limited to the group. */
    method DeleteDeviceGroup(h: Guid) returns (ok: bool)
      requires Valid()
      modifies this`tables, this`deviceStrategyCache
      ensures Valid() && ok == (h in old(tables).groups && h !in old(tables).scopes)
      ensures tables == if ok then WithoutGroup(old(tables), h) else old(tables)
    {
      if h !in tables.groups || h in tables.scopes {
        return false;
      }
      var affected := set u | u in tables.peers && tables.peers[u].group == Some(h);
      ghost var before := tables;
      GroupDeletionKeepsKeys(tables, h);
      hide ForeignKeys, WithoutGroup, Resolve;
      tables := WithoutGroup(tables, h);
      var left := affected;
      while left != {}
        invariant left <= affected && tables == WithoutGroup(before, h)
        invariant deviceStrategyCache == old(deviceStrategyCache) - (affected - left)
        decreases |left|
      {
        var u :| u in left;
        InvalidateDeviceStrategyCache(Some(u));
        left := left - {u};
      }
      forall u | u in tables.peers && u in deviceStrategyCache ensures IsAnswer(tables, u, deviceStrategyCache[u]) {
        GroupDeletionChangesOnlyMembers(before, h, u);
      }
      return true;
    }

    /** A write of one device's row, and the invalidation that goes with it. */
    method WriteDevice(u: Guid, p: Peer)
      requires Valid() && u in tables.peers && Exists(tables.strategies, p.strategy) && Exists(tables.groups, p.group)
      modifies this`tables, this`deviceStrategyCache
      ensures Valid() && tables == old(tables).(peers := old(tables).peers[u := p])
    {
      hide Resolve, ForeignKeys;
      WriteChangesOneDevice(tables, u, p);
      tables := tables.(peers := tables.peers[u := p]);
      InvalidateDeviceStrategyCache(Some(u));
    }

    /** One write after the other. */
    method SetGroup(us: seq<Guid>, group: Option<Guid>)
      requires Valid() && Exists(tables.groups, group) && forall u :: u in us ==> u in tables.peers
      modifies this`tables, this`deviceStrategyCache
      ensures Valid() && tables == InGroup(old(tables), us, group)
    {
      hide InGroup, Coherent;
      NobodyMoves(tables, group);
      for i := 0 to |us|
        invariant Valid() && tables == InGroup(old(tables), us[..i], group)
      {
        OneMoreMoves(old(tables), us, i, group);
        WriteDevice(us[i], tables.peers[us[i]].(group := group));
      }
      assert us[..|us|] == us;
    }

    /** Fails when the group, or every one of the devices, is unknown. */
    method AddDevicesToGroup(h: Guid, devices: seq<Guid>) returns (ok: bool)
      requires Valid()
      modifies this`tables, this`deviceStrategyCache
      ensures Valid() && ok == (h in old(tables).groups && exists u :: u in devices && u in old(tables).peers)
      ensures tables == if ok then InGroup(old(tables), Known(old(tables), devices), Some(h)) else old(tables)
    {
      KnownAreKnown(tables, devices);
      var known := Known(tables, devices);
      ok := h in tables.groups && known != [];
      if ok {
        assert known[0] in known;
        SetGroup(known, Some(h));
      }
    }

    /** Only devices that are in this group leave it. */
    method RemoveDevicesFromGroup(h: Guid, devices: seq<Guid>) returns (ok: bool)
      requires Valid()
      modifies this`tables, this`deviceStrategyCache
      ensures Valid()
      ensures ok == (h in old(tables).groups && exists u :: u in devices && u in old(tables).peers && old(tables).peers[u].group == Some(h))
      ensures tables == if ok then InGroup(old(tables), MembersOf(old(tables), devices, h), None) else old(tables)
    {
      MembersAreMembers(tables, devices, h);
      var members := MembersOf(tables, devices, h);
      ok := h in tables.groups && members != [];
      if ok {
        assert members[0] in members;
        SetGroup(members, None);
      }
    }

    /** Any of one device's user, group, strategy and note; each reference is left alone, cleared or set to
        an existing row.  `allowed` is the answer of the authorization, and `scope` the groups it is limited to. */
    method UpdateDevice(u: Guid, c: Change, scope: Option<set<Guid>>, allowed: bool) returns (ok: bool)
      requires Valid()
      modifies this`tables, this`deviceStrategyCache
      ensures Valid()
      ensures ok == (allowed && Refers(c.user, old(tables).users) && Refers(c.group, old(tables).groups)
                     && Refers(c.strategy, old(tables).strategies)
                     && (c == UNCHANGED || (u in old(tables).peers && InScope(old(tables).peers[u], scope))))
      ensures
        tables == if !ok || c == UNCHANGED then old(tables) else
          old(tables).(peers := old(tables).peers[u := Changed(old(tables).peers[u], c)])
    {
      if !allowed {
        return false;
      }
      if !Refers(c.user, tables.users) || !Refers(c.group, tables.groups) || !Refers(c.strategy, tables.strategies) {
        return false;
      }
      if c == UNCHANGED {
        return true;
      }
      if u !in tables.peers || !InScope(tables.peers[u], scope) {
        return false;
      }
      WriteDevice(u, Changed(tables.peers[u], c));
      return true;
    }
  }

  /** For each reference of a device: not mentioned, cleared, or set. */
  datatype Change = Change(
    user: Option<Option<Guid>>, group: Option<Option<Guid>>, strategy: Option<Option<Guid>>, note: Option<string>)

  const UNCHANGED := Change(None, None, None, None)

  predicate Refers<V>(wanted: Option<Option<Guid>>, rows: map<Guid, V>) {
    wanted.Some? ==> Exists(rows, wanted.value)
  }

  predicate InScope(p: Peer, scope: Option<set<Guid>>) {
    scope.Some? ==> p.group.Some? && p.group.value in scope.value
  }

  function Changed(p: Peer, c: Change): Peer {
    Peer(if c.user.Some? then c.user.value else p.user, if c.group.Some? then c.group.value else p.group,
         if c.strategy.Some? then c.strategy.value else p.strategy, if c.note.Some? then c.note.value else p.note)
  }

  function InGroup(t: Tables, us: seq<Guid>, group: Option<Guid>): Tables {
    t.(peers := map u | u in t.peers :: if u in us then t.peers[u].(group := group) else t.peers[u])
  }

  lemma NobodyMoves(t: Tables, group: Option<Guid>)
    ensures InGroup(t, [], group) == t
  {
    assert InGroup(t, [], group).peers == t.peers;
  }

  lemma OneMoreMoves(t: Tables, us: seq<Guid>, i: nat, group: Option<Guid>)
    requires i < |us| && us[i] in t.peers && ForeignKeys(t) && Exists(t.groups, group)
    ensures
      var before := InGroup(t, us[..i], group);
      && us[i] in before.peers && Exists(before.strategies, before.peers[us[i]].strategy) && Exists(before.groups, group)
      && InGroup(t, us[..i + 1], group) == before.(peers := before.peers[us[i] := before.peers[us[i]].(group := group)])
  {
    assert us[..i + 1] == us[..i] + [us[i]];
  }

  function Known(t: Tables, us: seq<Guid>): seq<Guid> {
    if us == [] then [] else (if us[0] in t.peers then [us[0]] else []) + Known(t, us[1..])
  }

  lemma {:induction false} KnownAreKnown(t: Tables, us: seq<Guid>)
    ensures forall u :: u in Known(t, us) <==> u in us && u in t.peers
    decreases |us|
  {
    if us != [] {
      KnownAreKnown(t, us[1..]);
    }
  }

  function MembersOf(t: Tables, us: seq<Guid>, h: Guid): seq<Guid> {
    if us == [] then []
    else (if us[0] in t.peers && t.peers[us[0]].group == Some(h) then [us[0]] else []) + MembersOf(t, us[1..], h)
  }

  lemma {:induction false} MembersAreMembers(t: Tables, us: seq<Guid>, h: Guid)
    ensures forall u :: u in MembersOf(t, us, h) <==> u in us && u in t.peers && t.peers[u].group == Some(h)
    decreases |us|
  {
    if us != [] {
      MembersAreMembers(t, us[1..], h);
    }
  }

  datatype Request =
    | Lookup(device: Guid)
    | Create(guid: Guid, name: string, note: string, options: string)
    | Update(guid: Guid, newName: Option<string>, newNote: Option<string>, newOptions: Option<string>)
    | Delete(guid: Guid)
    | Assign(guid: Guid, kind: Target, targets: seq<Guid>, allowed: bool)
    | Unassign(guid: Guid, kind: Target, targets: seq<Guid>, allowed: bool)
    | DeleteGroup(guid: Guid)
    | Join(guid: Guid, devices: seq<Guid>)
    | Leave(guid: Guid, devices: seq<Guid>)
    | Edit(device: Guid, change: Change, scope: Option<set<Guid>>, allowed: bool)

  /** An answer and the tables at the time. */
  datatype Answer = Answer(tables: Tables, device: Guid, strategy: Option<Strategy>)

  predicate Current(a: Answer) {
    FollowsRows(a.tables, a.device, a.strategy)
  }

  /** The devices that are looked up, in order. */
  function LookedUp(requests: seq<Request>): seq<Guid> {
    if requests == [] then []
    else
      var last := requests[|requests| - 1];
      LookedUp(requests[..|requests| - 1]) + if last.Lookup? then [last.device] else []
  }

  /** Over any sequence of requests, every lookup is answered from the tables as they are at that moment. */
  method Serve(service: StrategyService, requests: seq<Request>) returns (answers: seq<Answer>)
    requires service.Valid()
    modifies service
    ensures service.Valid() && forall k :: 0 <= k < |answers| ==> Current(answers[k])
    ensures |answers| == |LookedUp(requests)| && forall k :: 0 <= k < |answers| ==> answers[k].device == LookedUp(requests)[k]
  {
    answers := [];
    for i := 0 to |requests|
      invariant service.Valid() && forall k :: 0 <= k < |answers| ==> Current(answers[k])
      invariant |answers| == |LookedUp(requests[..i])|
      invariant forall k :: 0 <= k < |answers| ==> answers[k].device == LookedUp(requests[..i])[k]
    {
      assert requests[..i + 1][..i] == requests[..i];
      match requests[i]
      case Lookup(u) =>
        var s := service.FindStrategyForDevice(u);
        answers := answers + [Answer(service.tables, u, s)];
      case Create(guid, name, note, options) =>
        if guid !in service.tables.strategies {
          var _ := service.CreateStrategy(guid, name, note, options);
        }
      case Update(guid, name, note, options) => var _ := service.UpdateStrategy(guid, name, note, options);
      case Delete(guid) => var _ := service.DeleteStrategy(guid);
      case Assign(guid, kind, targets, allowed) => var _, _, _ := service.AssignStrategy(guid, kind, targets, allowed);
      case Unassign(guid, kind, targets, allowed) => var _, _, _ := service.UnassignStrategy(guid, kind, targets, allowed);
      case DeleteGroup(h) => var _ := service.DeleteDeviceGroup(h);
      case Join(h, us) => var _ := service.AddDevicesToGroup(h, us);
      case Leave(h, us) => var _ := service.RemoveDevicesFromGroup(h, us);
      case Edit(u, change, scope, allowed) => var _ := service.UpdateDevice(u, change, scope, allowed);
    }
    assert requests[..|requests|] == requests;
  }

  /** What the cache says of a device is what the tables say. */
  ghost predicate IsAnswer(t: Tables, u: Guid, cached: Option<Guid>)
    requires u in t.peers
  {
    match Resolve(t, t.peers[u])
    case None => cached == None
    case Some(s) => cached == Some(s.guid)
  }

  function Bound(t: Tables, kind: Target, guid: Guid, targets: seq<Guid>): set<Guid> {
    set u | u in targets && u in Rows(t, kind) && StrategyRef(t, kind, u) == Some(guid)
  }

  /** Unassigning clears the strategy of just those targets that have it: no other column, row or kind. */
  lemma UnassigningIsExact(t: Tables, kind: Target, guid: Guid, targets: seq<Guid>)
    ensures
      var t' := Refer(t, kind, Bound(t, kind, guid, targets), None);
      && t' == t.(peers := t'.peers, users := t'.users, groups := t'.groups)
      && t'.peers.Keys == t.peers.Keys && t'.users.Keys == t.users.Keys && t'.groups.Keys == t.groups.Keys
      && (forall u :: u in t.peers ==>
            t'.peers[u] == t.peers[u].(strategy :=
              if kind == Device && u in targets && t.peers[u].strategy == Some(guid) then None else t.peers[u].strategy))
      && (forall u :: u in t.users ==>
            t'.users[u] == if kind == User && u in targets && t.users[u] == Some(guid) then None else t.users[u])
      && (forall h :: h in t.groups ==>
            t'.groups[h] == if kind == DeviceGroup && h in targets && t.groups[h] == Some(guid) then None else t.groups[h])
  {
    hide Refer;
    ReferringChangesOneColumn(t, kind, Bound(t, kind, guid, targets), None);
  }

  /** An editor limited to some groups reaches the devices in one of them, and no device without a group. */
  lemma ScopesAreGroups(p: Peer, groups: set<Guid>)
    ensures InScope(p, None)
    ensures InScope(p, Some(groups)) <==> exists h :: h in groups && p.group == Some(h)
  {
  }

  /** Why a target was left alone. */
  datatype Failure = NotFound(target: Guid) | NotBound(target: Guid)

  /** Each target where it comes first. */
  function Distinct(targets: seq<Guid>): (unique: seq<Guid>)
    ensures forall u :: u in unique <==> u in targets
    ensures forall i, j :: 0 <= i < j < |unique| ==> unique[i] != unique[j]
  {
    if targets == [] then []
    else
      var before, last := Distinct(targets[..|targets| - 1]), targets[|targets| - 1];
      assert targets == targets[..|targets| - 1] + [last];
      if last in before then before else before + [last]
  }

  /** What is wrong with the targets that were not chosen, in order. */
  function Failures(targets: seq<Guid>, rows: set<Guid>, chosen: set<Guid>): seq<Failure> {
    if targets == [] then []
    else
      var before, last := Failures(targets[..|targets| - 1], rows, chosen), targets[|targets| - 1];
      if last !in rows then before + [NotFound(last)] else if last !in chosen then before + [NotBound(last)] else before
  }

  /** Each target is either chosen or reported once, and nothing else is reported. */
  lemma {:induction false} TargetsAreAnswered(targets: seq<Guid>, rows: set<Guid>, chosen: set<Guid>)
    requires forall i, j :: 0 <= i < j < |targets| ==> targets[i] != targets[j]
    requires chosen <= rows
    ensures
      var errors := Failures(targets, rows, chosen);
      && (forall u :: u in targets && u !in chosen <==> exists k :: 0 <= k < |errors| && errors[k].target == u)
      && (forall j, k :: 0 <= j < k < |errors| ==> errors[j].target != errors[k].target)
      && (forall k :: 0 <= k < |errors| ==> (errors[k].NotFound? <==> errors[k].target !in rows))
    decreases |targets|
  {
    if targets != [] {
      var rest, last := targets[..|targets| - 1], targets[|targets| - 1];
      assert targets == rest + [last];
      TargetsAreAnswered(rest, rows, chosen);
      var before, errors := Failures(rest, rows, chosen), Failures(targets, rows, chosen);
      forall u | u in targets && u !in chosen ensures exists k :: 0 <= k < |errors| && errors[k].target == u {
        if u == last {
          assert errors[|errors| - 1].target == last;
        } else {
          var k :| 0 <= k < |before| && before[k].target == u;
          assert errors[k] == before[k];
        }
      }
      forall k | 0 <= k < |before| ensures before[k].target in rest {
      }
    }
  }
}
