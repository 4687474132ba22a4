/** The alliance routes: the membership state machine (create, join, leave
    with leader succession) and the resource and unit transfers between
    members of one alliance. */
module Alliances {
  import opened Ledger
  import opened Store

  /** `SELECT * FROM alliance_members WHERE user_id = $1` returns a row. */
  predicate InAlliance(members: map<(AllianceId, UserId), Role>, user: UserId) {
    exists m :: m in members && m.1 == user
  }

  /** `heir` is a possible `members.rows[0]` of `SELECT * FROM alliance_members
      WHERE alliance_id = $1 AND user_id != $2`: some other member of the
      alliance, or None when there is none. The query has no ORDER BY, so
      any other member may come first. */
  predicate Succession(members: map<(AllianceId, UserId), Role>, a: AllianceId, user: UserId, heir: Option<UserId>) {
    && (heir.Some? ==> (a, heir.value) in members && heir.value != user)
    && (heir.None? ==> forall m :: m in members && m.0 == a ==> m.1 == user)
  }

  /** Every membership names an existing alliance. */
  ghost predicate MembersBelong(alliances: map<AllianceId, Alliance>, members: map<(AllianceId, UserId), Role>) {
    forall m :: m in members ==> m.0 in alliances
  }

  /** Every alliance has a leader among its members. */
  ghost predicate EveryAllianceLed(alliances: map<AllianceId, Alliance>, members: map<(AllianceId, UserId), Role>) {
    forall a :: a in alliances ==> exists u :: (a, u) in members && members[(a, u)] == Leader
  }

  /** No alliance has two leaders. */
  ghost predicate OneLeader(members: map<(AllianceId, UserId), Role>) {
    forall m1, m2 ::
      (m1 in members && m2 in members && m1.0 == m2.0 && members[m1] == Leader && members[m2] == Leader) ==> m1 == m2
  }

  /** The leadership invariant the membership routes keep. */
  ghost predicate Led(alliances: map<AllianceId, Alliance>, members: map<(AllianceId, UserId), Role>) {
    MembersBelong(alliances, members) && EveryAllianceLed(alliances, members) && OneLeader(members)
  }

  /** The membership table after `user` leaves `a`: a leader first hands the
      leader role to the heir, if there is one; then the leaver's row goes. */
  function Departed(members: map<(AllianceId, UserId), Role>, a: AllianceId, user: UserId, heir: Option<UserId>)
    : map<(AllianceId, UserId), Role>
    requires (a, user) in members
  {
    if members[(a, user)] == Leader && heir.Some? then members[(a, heir.value) := Leader] - {(a, user)}
    else members - {(a, user)}
  }

  /** The alliances table after `user` leaves `a`: deleted only when a leader leaves alone. */
  function Dissolved(alliances: map<AllianceId, Alliance>, members: map<(AllianceId, UserId), Role>,
                     a: AllianceId, user: UserId, heir: Option<UserId>): map<AllianceId, Alliance>
    requires (a, user) in members
  {
    if members[(a, user)] == Leader && heir.None? then alliances - {a} else alliances
  }

  lemma ValidAfterMembership(w: World, alliances: map<AllianceId, Alliance>,
                             members: map<(AllianceId, UserId), Role>)
    requires WorldValid(w)
    requires alliances.Keys <= w.alliances.Keys
    requires OneAlliancePerUser(members)
    ensures WorldValid(w.(alliances := alliances, members := members))
  {
  }

  /** `POST /alliances` on the database as a value. */
  function CreateAlliance(w: World, user: UserId, name: string): (r: (Result<(AllianceId, Alliance)>, World))
    requires WorldValid(w)
    ensures WorldValid(r.1)
    ensures r.0.Err? ==> r.1 == w
  {
    if InAlliance(w.members, user) then (Err(AlreadyInAlliance), w)
    else
      var id := w.serial.alliance;
      (Ok((id, Alliance(name, user))),
       w.(alliances := w.alliances[id := Alliance(name, user)], members := w.members[(id, user) := Leader],
          serial := w.serial.(alliance := id + 1)))
  }

  /** `POST /alliances/:id/join` on the database as a value. */
  function JoinAlliance(w: World, user: UserId, a: AllianceId): (r: (Result<(AllianceId, UserId, Role)>, World))
    requires WorldValid(w)
    ensures WorldValid(r.1)
    ensures r.0.Err? ==> r.1 == w
  {
    if InAlliance(w.members, user) then (Err(AlreadyInAlliance), w)
    else if a !in w.alliances then (Err(AllianceNotFound), w)
    else
      ValidAfterMembership(w, w.alliances, w.members[(a, user) := Member]);
      (Ok((a, user, Member)), w.(members := w.members[(a, user) := Member]))
  }

  /** `POST /alliances/:id/leave` on the database as a value; `heir` is the
      member the successor query returns first. */
  function LeaveAlliance(w: World, user: UserId, a: AllianceId, heir: Option<UserId>): (r: (Result<()>, World))
    requires WorldValid(w)
    requires Succession(w.members, a, user, heir)
    ensures WorldValid(r.1)
    ensures r.0.Err? ==> r.1 == w
  {
    if (a, user) !in w.members then (Err(NotInThisAlliance), w)
    else
      ValidAfterMembership(w, Dissolved(w.alliances, w.members, a, user, heir), Departed(w.members, a, user, heir));
      (Ok(()), w.(alliances := Dissolved(w.alliances, w.members, a, user, heir),
                  members := Departed(w.members, a, user, heir)))
  }

  /** `POST /alliances/:id/send-resources` on the database as a value. */
  function SendResources(w: World, user: UserId, a: AllianceId, target: UserId, t: ResourceType, amount: int)
    : (r: (Result<()>, World))
    requires WorldValid(w)
    ensures WorldValid(r.1)
    ensures r.0.Err? ==> r.1 == w
  {
    if (a, user) !in w.members then (Err(NotAMember), w)
    else if (a, target) !in w.members then (Err(TargetNotInAlliance), w)
    else match (KingdomOf(w.kingdoms, user), KingdomOf(w.kingdoms, target))
      case (None, _) => (Err(SenderKingdomNotFound), w)
      case (Some(_), None) => (Err(ReceiverKingdomNotFound), w)
      case (Some(s), Some(d)) =>
        if (s, t) !in w.resources || w.resources[(s, t)] < amount then (Err(NotEnoughResources), w)
        else
          var resources := Adjust(Adjust(w.resources, s, t, -amount), d, t, amount);
          ValidUnderRowWrites(w, w.units, resources, w.attacks);
          (Ok(()), w.(resources := resources))
  }

  /** The unit table after q units of type t move from kingdom s to kingdom
      d: the sender's row drops, then the receiver's row grows and keeps its
      own level, or is inserted at the sender's level. */
  function Reinforced(units: map<(KingdomId, UnitType), UnitRow>, s: KingdomId, d: KingdomId, t: UnitType,
                      quantity: int): map<(KingdomId, UnitType), UnitRow>
    requires (s, t) in units
  {
    var sent := units[(s, t) := units[(s, t)].(quantity := units[(s, t)].quantity - quantity)];
    if (d, t) in sent then sent[(d, t) := sent[(d, t)].(quantity := sent[(d, t)].quantity + quantity)]
    else sent[(d, t) := UnitRow(quantity, units[(s, t)].level, false, None)]
  }

  /** `POST /alliances/:id/send-units` on the database as a value. A name
      that is no unit type matches no row, as a missing row does. */
  function SendUnits(w: World, user: UserId, a: AllianceId, target: UserId, name: string, quantity: int)
    : (r: (Result<()>, World))
    requires WorldValid(w)
    ensures WorldValid(r.1)
    ensures r.0.Err? ==> r.1 == w
  {
    if (a, user) !in w.members then (Err(NotAMember), w)
    else if (a, target) !in w.members then (Err(TargetNotInAlliance), w)
    else match (KingdomOf(w.kingdoms, user), KingdomOf(w.kingdoms, target))
      case (None, _) => (Err(SenderKingdomNotFound), w)
      case (Some(_), None) => (Err(ReceiverKingdomNotFound), w)
      case (Some(s), Some(d)) =>
        match ParseUnitType(name)
        case None => (Err(NotEnoughUnits), w)
        case Some(t) =>
          if (s, t) !in w.units || w.units[(s, t)].quantity < quantity then (Err(NotEnoughUnits), w)
          else
            var units := Reinforced(w.units, s, d, t, quantity);
            ValidUnderRowWrites(w, units, w.resources, w.attacks);
            (Ok(()), w.(units := units))
  }

  /** The create-alliance route: the alliance INSERT, then the leader's membership INSERT. */
  method HandleCreateAlliance(db: Db, user: UserId, name: string) returns (r: Result<(AllianceId, Alliance)>)
    requires db.Valid()
    modifies db
    ensures db.Valid()
    ensures (r, db.Snapshot()) == CreateAlliance(old(db.Snapshot()), user, name)
  {
    if InAlliance(db.members, user) {
      return Err(AlreadyInAlliance);
    }
    ghost var w := db.Snapshot();
    var id := db.serial.alliance;
    db.alliances := db.alliances[id := Alliance(name, user)];
    db.serial := db.serial.(alliance := id + 1);
    db.members := db.members[(id, user) := Leader];
    assert db.Snapshot() == w.(alliances := db.alliances, members := db.members, serial := db.serial);
    r := Ok((id, Alliance(name, user)));
  }

  /** The join route, query by query. */
  method HandleJoinAlliance(db: Db, user: UserId, a: AllianceId) returns (r: Result<(AllianceId, UserId, Role)>)
    requires db.Valid()
    modifies db
    ensures db.Valid()
    ensures (r, db.Snapshot()) == JoinAlliance(old(db.Snapshot()), user, a)
  {
    if InAlliance(db.members, user) {
      return Err(AlreadyInAlliance);
    }
    if a !in db.alliances {
      return Err(AllianceNotFound);
    }
    ghost var w := db.Snapshot();
    db.members := db.members[(a, user) := Member];
    assert db.Snapshot() == w.(members := db.members);
    ValidAfterMembership(w, w.alliances, db.members);
    r := Ok((a, user, Member));
  }

  /** The leave route: succession or deletion for a leader, then the
      membership DELETE; `heir` is the member the successor query returned. */
  method HandleLeaveAlliance(db: Db, user: UserId, a: AllianceId) returns (r: Result<()>, heir: Option<UserId>)
    requires db.Valid()
    modifies db
    ensures db.Valid()
    ensures Succession(old(db.members), a, user, heir)
    ensures (r, db.Snapshot()) == LeaveAlliance(old(db.Snapshot()), user, a, heir)
  {
    heir := None;
    if exists m :: m in db.members && m.0 == a && m.1 != user {
      var m :| m in db.members && m.0 == a && m.1 != user;
      heir := Some(m.1);
    }
    if (a, user) !in db.members {
      return Err(NotInThisAlliance), heir;
    }
    ghost var w := db.Snapshot();
    if db.members[(a, user)] == Leader {
      if heir.None? {
        db.alliances := db.alliances - {a};
      } else {
        db.members := db.members[(a, heir.value) := Leader];
      }
    }
    db.members := db.members - {(a, user)};
    assert db.alliances == Dissolved(w.alliances, w.members, a, user, heir);
    assert db.members == Departed(w.members, a, user, heir);
    assert db.Snapshot() == w.(alliances := db.alliances, members := db.members);
    ValidAfterMembership(w, db.alliances, db.members);
    r := Ok(());
  }

  /** The send-resources route, query by query. */
  method HandleSendResources(db: Db, user: UserId, a: AllianceId, target: UserId, t: ResourceType, amount: int)
    returns (r: Result<()>)
    requires db.Valid()
    modifies db
    ensures db.Valid()
    ensures (r, db.Snapshot()) == SendResources(old(db.Snapshot()), user, a, target, t, amount)
  {
    if (a, user) !in db.members {
      return Err(NotAMember);
    }
    if (a, target) !in db.members {
      return Err(TargetNotInAlliance);
    }
    var sender := KingdomOf(db.kingdoms, user);
    if sender.None? {
      return Err(SenderKingdomNotFound);
    }
    var receiver := KingdomOf(db.kingdoms, target);
    if receiver.None? {
      return Err(ReceiverKingdomNotFound);
    }
    var s, d := sender.value, receiver.value;
    if (s, t) !in db.resources || db.resources[(s, t)] < amount {
      return Err(NotEnoughResources);
    }
    ghost var w := db.Snapshot();
    db.resources := Adjust(db.resources, s, t, -amount);
    db.resources := Adjust(db.resources, d, t, amount);
    assert db.Snapshot() == w.(resources := db.resources);
    ValidUnderRowWrites(w, w.units, db.resources, w.attacks);
    r := Ok(());
  }

  /** The send-units route, query by query. */
  method HandleSendUnits(db: Db, user: UserId, a: AllianceId, target: UserId, name: string, quantity: int)
    returns (r: Result<()>)
    requires db.Valid()
    modifies db
    ensures db.Valid()
    ensures (r, db.Snapshot()) == SendUnits(old(db.Snapshot()), user, a, target, name, quantity)
  {
    if (a, user) !in db.members {
      return Err(NotAMember);
    }
    if (a, target) !in db.members {
      return Err(TargetNotInAlliance);
    }
    var sender := KingdomOf(db.kingdoms, user);
    if sender.None? {
      return Err(SenderKingdomNotFound);
    }
    var receiver := KingdomOf(db.kingdoms, target);
    if receiver.None? {
      return Err(ReceiverKingdomNotFound);
    }
    var parsed := ParseUnitType(name);
    if parsed.None? {
      return Err(NotEnoughUnits);
    }
    var s, d, t := sender.value, receiver.value, parsed.value;
    if (s, t) !in db.units || db.units[(s, t)].quantity < quantity {
      return Err(NotEnoughUnits);
    }
    ghost var w := db.Snapshot();
    var level := db.units[(s, t)].level;
    db.units := db.units[(s, t) := db.units[(s, t)].(quantity := db.units[(s, t)].quantity - quantity)];
    if (d, t) !in db.units {
      db.units := db.units[(d, t) := UnitRow(quantity, level, false, None)];
    } else {
      db.units := db.units[(d, t) := db.units[(d, t)].(quantity := db.units[(d, t)].quantity + quantity)];
    }
    assert db.units == Reinforced(w.units, s, d, t, quantity);
    assert db.Snapshot() == w.(units := db.units);
    ValidUnderRowWrites(w, db.units, w.resources, w.attacks);
    r := Ok(());
  }

  /** Creating an alliance is refused exactly when the user already belongs
      to one; otherwise the alliance gets a fresh id, names the user its
      leader, and the user becomes its member with role leader. */
  lemma CreateAllianceOutcome(w: World, user: UserId, name: string)
    requires WorldValid(w)
    ensures var (r, w') := CreateAlliance(w, user, name);
      && (r.Ok? <==> !InAlliance(w.members, user))
      && (r.Err? ==> r.error == AlreadyInAlliance)
      && (r.Ok? ==>
            var id := r.value.0;
            && id !in w.alliances
            && w'.alliances == w.alliances[id := Alliance(name, user)]
            && w'.members == w.members[(id, user) := Leader])
  {
  }

  /** Joining is refused when the user already belongs to an alliance, or
      else when the alliance does not exist; otherwise the user becomes a
      plain member of it and nothing else changes. */
  lemma JoinAllianceOutcome(w: World, user: UserId, a: AllianceId)
    requires WorldValid(w)
    ensures var (r, w') := JoinAlliance(w, user, a);
      && (r.Ok? <==> !InAlliance(w.members, user) && a in w.alliances)
      && (InAlliance(w.members, user) ==> r == Err(AlreadyInAlliance))
      && (!InAlliance(w.members, user) && a !in w.alliances ==> r == Err(AllianceNotFound))
      && (r.Ok? ==> w' == w.(members := w.members[(a, user) := Member]))
  {
  }

  /** Leaving is refused exactly when the user is not a member of that
      alliance. Afterwards the user belongs to no alliance; a member's
      departure changes nothing else; a leader's hands the leader role to
      whichever other member the query returns, or deletes the alliance when
      no other member is left. */
  lemma LeaveAllianceOutcome(w: World, user: UserId, a: AllianceId, heir: Option<UserId>)
    requires WorldValid(w)
    requires Succession(w.members, a, user, heir)
    ensures var (r, w') := LeaveAlliance(w, user, a, heir);
      && (r.Ok? <==> (a, user) in w.members)
      && (r.Err? ==> r.error == NotInThisAlliance)
      && (r.Ok? ==>
            && !InAlliance(w'.members, user)
            && (w.members[(a, user)] == Member ==>
                  w'.members == w.members - {(a, user)} && w'.alliances == w.alliances)
            && (w.members[(a, user)] == Leader && heir.Some? ==>
                  && heir.value != user && (a, heir.value) in w.members
                  && w'.members == w.members[(a, heir.value) := Leader] - {(a, user)}
                  && w'.alliances == w.alliances)
            && (w.members[(a, user)] == Leader && heir.None? ==>
                  w'.members == w.members - {(a, user)} && w'.alliances == w.alliances - {a}))
  {
    var (r, w') := LeaveAlliance(w, user, a, heir);
    if r.Ok? {
      assert forall m :: m in w.members && m.1 == user ==> m.0 == a;
    }
  }

  /** A new alliance under an id no membership uses, led by its founder, keeps the leadership invariant. */
  lemma FoundingKeepsLeadership(alliances: map<AllianceId, Alliance>, members: map<(AllianceId, UserId), Role>,
                                id: AllianceId, user: UserId, name: string)
    requires Led(alliances, members)
    requires id !in alliances
    ensures Led(alliances[id := Alliance(name, user)], members[(id, user) := Leader])
  {
    var alliances', members' := alliances[id := Alliance(name, user)], members[(id, user) := Leader];
    forall b | b in alliances'
      ensures exists u :: (b, u) in members' && members'[(b, u)] == Leader
    {
      if b == id {
        assert (id, user) in members' && members'[(id, user)] == Leader;
      } else {
        var u :| (b, u) in members && members[(b, u)] == Leader;
        assert (b, u) in members' && members'[(b, u)] == Leader;
      }
    }
  }

  /** A plain member added to an existing alliance keeps the leadership invariant. */
  lemma JoiningKeepsLeadership(alliances: map<AllianceId, Alliance>, members: map<(AllianceId, UserId), Role>,
                               a: AllianceId, user: UserId)
    requires Led(alliances, members)
    requires a in alliances && (a, user) !in members
    ensures Led(alliances, members[(a, user) := Member])
  {
    var members' := members[(a, user) := Member];
    forall b | b in alliances
      ensures exists u :: (b, u) in members' && members'[(b, u)] == Leader
    {
      var u :| (b, u) in members && members[(b, u)] == Leader;
      assert (b, u) in members' && members'[(b, u)] == Leader;
    }
  }

  /** A departure keeps the leadership invariant, whichever member succeeds. */
  lemma LeavingKeepsLeadership(alliances: map<AllianceId, Alliance>, members: map<(AllianceId, UserId), Role>,
                               a: AllianceId, user: UserId, heir: Option<UserId>)
    requires Led(alliances, members)
    requires (a, user) in members && Succession(members, a, user, heir)
    ensures Led(Dissolved(alliances, members, a, user, heir), Departed(members, a, user, heir))
  {
    var alliances', members' := Dissolved(alliances, members, a, user, heir), Departed(members, a, user, heir);
    var leader := members[(a, user)] == Leader;
    forall b | b in alliances'
      ensures exists u :: (b, u) in members' && members'[(b, u)] == Leader
    {
      if b == a && leader {
        assert (a, heir.value) in members' && members'[(a, heir.value)] == Leader;
      } else {
        var u :| (b, u) in members && members[(b, u)] == Leader;
        assert (b, u) in members' && members'[(b, u)] == Leader;
      }
    }
  }

  /** Create, join and leave keep the leadership invariant: every
      membership names an existing alliance, and every alliance has exactly
      one leader among its members. */
  lemma MembershipRoutesKeepLeadership(w: World, user: UserId, name: string, a: AllianceId, heir: Option<UserId>)
    requires WorldValid(w) && Led(w.alliances, w.members)
    requires Succession(w.members, a, user, heir)
    ensures var w' := CreateAlliance(w, user, name).1; Led(w'.alliances, w'.members)
    ensures var w' := JoinAlliance(w, user, a).1; Led(w'.alliances, w'.members)
    ensures var w' := LeaveAlliance(w, user, a, heir).1; Led(w'.alliances, w'.members)
  {
    if !InAlliance(w.members, user) {
      FoundingKeepsLeadership(w.alliances, w.members, w.serial.alliance, user, name);
      if a in w.alliances {
        JoiningKeepsLeadership(w.alliances, w.members, a, user);
      }
    }
    if (a, user) in w.members {
      LeavingKeepsLeadership(w.alliances, w.members, a, user, heir);
    }
  }

  /** The alliance row keeps naming the founder as its leader after the
      founder leaves and another member takes the leader role: succession
      updates the membership role but not the alliance row. */
  lemma SuccessionKeepsLeaderColumn(w: World, user: UserId, a: AllianceId, heir: Option<UserId>)
    requires WorldValid(w)
    requires a in w.alliances && w.alliances[a].leader == user
    requires (a, user) in w.members && w.members[(a, user)] == Leader
    requires Succession(w.members, a, user, heir) && heir.Some?
    ensures var w' := LeaveAlliance(w, user, a, heir).1;
      && a in w'.alliances && w'.alliances[a].leader == user && (a, user) !in w'.members
  {
  }

  /** Sending resources is accepted exactly when both users belong to the
      alliance, both have kingdoms, and the sender's row exists and holds at
      least the amount; it then debits the sender's row and credits the
      receiver's, each when it exists, changing no other row or table. */
  lemma SendResourcesOutcome(w: World, user: UserId, a: AllianceId, target: UserId, t: ResourceType, amount: int)
    requires WorldValid(w)
    ensures var (r, w') := SendResources(w, user, a, target, t, amount);
      var s := KingdomOf(w.kingdoms, user);
      var d := KingdomOf(w.kingdoms, target);
      && (r.Ok? <==>
            && (a, user) in w.members && (a, target) in w.members && s.Some? && d.Some?
            && (s.value, t) in w.resources && w.resources[(s.value, t)] >= amount)
      && ((a, user) !in w.members ==> r == Err(NotAMember))
      && ((a, user) in w.members && (a, target) !in w.members ==> r == Err(TargetNotInAlliance))
      && (r.Ok? ==> w' == w.(resources := Adjust(Adjust(w.resources, s.value, t, -amount), d.value, t, amount)))
  {
  }

  /** Between two different kingdoms that both hold a row of the type, a
      transfer moves exactly the amount and keeps the sum of the two rows. */
  lemma SendResourcesConserves(w: World, user: UserId, a: AllianceId, target: UserId, t: ResourceType, amount: int)
    requires WorldValid(w)
    requires SendResources(w, user, a, target, t, amount).0.Ok?
    requires KingdomOf(w.kingdoms, user) != KingdomOf(w.kingdoms, target)
    requires (KingdomOf(w.kingdoms, target).value, t) in w.resources
    ensures var w' := SendResources(w, user, a, target, t, amount).1;
      var s := KingdomOf(w.kingdoms, user).value;
      var d := KingdomOf(w.kingdoms, target).value;
      && w'.resources[(s, t)] == w.resources[(s, t)] - amount
      && w'.resources[(d, t)] == w.resources[(d, t)] + amount
      && w'.resources[(s, t)] + w'.resources[(d, t)] == w.resources[(s, t)] + w.resources[(d, t)]
  {
    var s := KingdomOf(w.kingdoms, user).value;
    var d := KingdomOf(w.kingdoms, target).value;
    TransferConserves(w.resources, s, d, t, amount);
  }

  /** No check bounds the amount from below: a negative amount passes the
      sender's balance test and takes resources from the receiver. */
  lemma SendNegativeResourcesDrainsReceiver(w: World, user: UserId, a: AllianceId, target: UserId,
                                            t: ResourceType, amount: int)
    requires WorldValid(w)
    requires amount < 0
    requires (a, user) in w.members && (a, target) in w.members
    requires KingdomOf(w.kingdoms, user).Some? && KingdomOf(w.kingdoms, target).Some?
    requires KingdomOf(w.kingdoms, user) != KingdomOf(w.kingdoms, target)
    requires (KingdomOf(w.kingdoms, user).value, t) in w.resources
    requires w.resources[(KingdomOf(w.kingdoms, user).value, t)] >= 0
    requires (KingdomOf(w.kingdoms, target).value, t) in w.resources
    ensures var (r, w') := SendResources(w, user, a, target, t, amount);
      var d := KingdomOf(w.kingdoms, target).value;
      r.Ok? && w'.resources[(d, t)] < w.resources[(d, t)]
  {
  }

  /** Sending units is accepted exactly when both users belong to the
      alliance, both have kingdoms, the name is a unit type, and the sender's
      row exists and holds at least the quantity; it then changes the unit
      table as `Reinforced` says and no other table. */
  lemma SendUnitsAccepted(w: World, user: UserId, a: AllianceId, target: UserId, name: string, quantity: int)
    requires WorldValid(w)
    ensures var (r, w') := SendUnits(w, user, a, target, name, quantity);
      var s := KingdomOf(w.kingdoms, user);
      var d := KingdomOf(w.kingdoms, target);
      var t := ParseUnitType(name);
      && (r.Ok? <==>
            && (a, user) in w.members && (a, target) in w.members && s.Some? && d.Some? && t.Some?
            && (s.value, t.value) in w.units && w.units[(s.value, t.value)].quantity >= quantity)
      && ((a, user) !in w.members ==> r == Err(NotAMember))
      && ((a, user) in w.members && (a, target) !in w.members ==> r == Err(TargetNotInAlliance))
      && (r.Ok? ==> w' == w.(units := Reinforced(w.units, s.value, d.value, t.value, quantity)))
  {
  }

  /** Between two different kingdoms, a unit transfer lowers the sender's
      quantity by q and raises the receiver's by q; a receiver that had a row
      keeps its own level and training state, one that had none gets a row
      at the sender's level; no other row changes. */
  lemma SendUnitsMovesUnits(units: map<(KingdomId, UnitType), UnitRow>, s: KingdomId, d: KingdomId, t: UnitType,
                            quantity: int)
    requires (s, t) in units && s != d
    ensures var u := Reinforced(units, s, d, t, quantity);
      && u.Keys == units.Keys + {(d, t)}
      && u[(s, t)] == units[(s, t)].(quantity := units[(s, t)].quantity - quantity)
      && ((d, t) in units ==> u[(d, t)] == units[(d, t)].(quantity := units[(d, t)].quantity + quantity))
      && ((d, t) !in units ==> u[(d, t)] == UnitRow(quantity, units[(s, t)].level, false, None))
      && u[(s, t)].quantity + u[(d, t)].quantity
         == units[(s, t)].quantity + (if (d, t) in units then units[(d, t)].quantity else 0)
      && (forall key :: key in units && key != (s, t) && key != (d, t) ==> u[key] == units[key])
  {
  }

  /** Sending units to one's own kingdom changes nothing. */
  lemma SendUnitsToSelf(units: map<(KingdomId, UnitType), UnitRow>, s: KingdomId, t: UnitType, quantity: int)
    requires (s, t) in units
    ensures Reinforced(units, s, s, t, quantity) == units
  {
    assert Reinforced(units, s, s, t, quantity)[(s, t)] == units[(s, t)];
  }
}
