/** What each room command leaves behind, room by room and field by field. */
module RoomsSpec {
  import opened Core
  import opened Ordering
  import opened Rooms
  import Text

  predicate IsRoom(rooms: seq<Room>, name: string, i: nat) {
    i < |rooms| && rooms[i].name == name && forall k :: 0 <= k < i ==> rooms[k].name != name
  }

  predicate IsMember(members: seq<Member>, id: string, i: nat) {
    i < |members| && members[i].id == id && forall k :: 0 <= k < i ==> members[k].id != id
  }

  predicate IsRole(roles: seq<Role>, name: string, i: nat) {
    i < |roles| && roles[i].name == name && forall k :: 0 <= k < i ==> roles[k].name != name
  }

  // --- permissions -----------------------------------------------------------------------------

  /** A peer has a permission in a room if its first record there names a role that grants it; of rooms,
      records and roles with one name the first counts. */
  ghost predicate Permitted(rooms: seq<Room>, name: string, id: string, p: Permission) {
    exists i: nat, k: nat, n: nat, r: nat ::
      && IsRoom(rooms, name, i)
      && IsMember(rooms[i].members, id, k)
      && n < |rooms[i].members[k].roles|
      && IsRole(rooms[i].roles, rooms[i].members[k].roles[n], r)
      && p in rooms[i].roles[r].permissions
  }

  lemma PermissionMeaning(rooms: seq<Room>, name: string, id: string, p: Permission)
    ensures RoomHasPermission(rooms, name, id, p) <==> Permitted(rooms, name, id, p)
  {
    if RoomHasPermission(rooms, name, id, p) {
      PermissionIsGranted(rooms, name, id, p);
    }
    if Permitted(rooms, name, id, p) {
      var i: nat, k: nat, n: nat, r: nat :|
        && IsRoom(rooms, name, i) && IsMember(rooms[i].members, id, k) && n < |rooms[i].members[k].roles|
        && IsRole(rooms[i].roles, rooms[i].members[k].roles[n], r) && p in rooms[i].roles[r].permissions;
      FirstRoom(rooms, name, i);
      FirstMember(rooms[i].members, id, k);
      FirstRole(rooms[i].roles, rooms[i].members[k].roles[n], r);
      assert Grants(rooms[i].roles, rooms[i].members[k].roles[n], p);
    }
  }

  lemma PermissionIsGranted(rooms: seq<Room>, name: string, id: string, p: Permission)
    requires RoomHasPermission(rooms, name, id, p)
    ensures Permitted(rooms, name, id, p)
  {
    var i := FindRoom(rooms, name);
    var k := FindMember(rooms[i].members, id);
    var roles := rooms[i].members[k].roles;
    var n :| 0 <= n < |roles| && Grants(rooms[i].roles, roles[n], p);
    var r := FindRole(rooms[i].roles, roles[n]);
    assert IsRoom(rooms, name, i) && IsMember(rooms[i].members, id, k) && IsRole(rooms[i].roles, roles[n], r);
  }

  // --- one room --------------------------------------------------------------------------------

  /** An admin role with all four permissions, unless there is an admin role already. */
  predicate HasAdminRole(before: seq<Role>, after: seq<Role>) {
    if exists i :: 0 <= i < |before| && before[i].name == "admin" then after == before
    else after == before + [Role("admin", [CreateRoomInvite, CreateRole, EditRole, AssignRole])]
  }

  predicate IsOwn(m: Member, local: string) { m.id == local || m.id == "" }

  /** The local peer takes over the first record with its own or no id, or gets a new one; `admin` makes it
      an admin. */
  predicate Enrolled(before: seq<Member>, after: seq<Member>, local: string, display: string, admin: bool) {
    && (forall i :: 0 <= i < |before| && IsOwn(before[i], local)
                    && (forall k :: 0 <= k < i ==> !IsOwn(before[k], local)) ==>
          var roles := before[i].roles;
          after == before[i := Member(local, display,
                                      if admin && "admin" !in roles then roles + ["admin"] else roles)])
    && ((forall k :: 0 <= k < |before| ==> !IsOwn(before[k], local)) ==>
          after == before + [Member(local, display, if admin then ["admin"] else [])])
  }

  lemma EnrollmentMeaning(r: Room, local: string, display: string, admin: bool)
    ensures var a := EnsureLocalMember(r, local, display, admin);
            Enrolled(r.members, a.members, local, display, admin) && a == r.(members := a.members)
  {
    forall i | 0 <= i < |r.members| && IsOwn(r.members[i], local)
               && (forall k :: 0 <= k < i ==> !IsOwn(r.members[k], local))
      ensures FindLocal(r.members, local) == i
    {
      FirstLocal(r.members, local, i);
    }
  }

  lemma AdminRoleMeaning(r: Room)
    ensures var a := EnsureAdminRole(r);
            HasAdminRole(r.roles, a.roles) && a == r.(roles := a.roles)
  {
    var i := FindRole(r.roles, "admin");
    assert AdminRole == Role("admin", [CreateRoomInvite, CreateRole, EditRole, AssignRole]);
  }

  /** What becomes of a room that is entered: `was` is the room so far, or a new one. */
  predicate EnteredFrom(was: Room, after: Room, local: string, display: string) {
    && HasAdminRole(was.roles, after.roles)
    && Enrolled(was.members, after.members, local, display, true)
    && after == Room(was.name, true, after.roles, after.members, was.invite)
  }

  lemma AdmissionMeaning(r: Room, local: string, display: string)
    ensures EnteredFrom(r, Admitted(r, local, display), local, display)
  {
    var e := r.(engaged := true);
    AdminRoleMeaning(e);
    EnrollmentMeaning(EnsureAdminRole(e), local, display, true);
  }

  // --- the list of rooms -----------------------------------------------------------------------

  /** The room of this name, if there is one. */
  function Named(rooms: seq<Room>, name: string): Option<Room> {
    if rooms == [] then None else if rooms[0].name == name then Some(rooms[0]) else Named(rooms[1..], name)
  }

  lemma {:induction false} NamedMeaning(rooms: seq<Room>, name: string)
    ensures var i := FindRoom(rooms, name);
            Named(rooms, name) == if i < |rooms| then Some(rooms[i]) else None
  {
    if rooms != [] && rooms[0].name != name {
      NamedMeaning(rooms[1..], name);
      FirstRoom(rooms, name, 1 + FindRoom(rooms[1..], name));
    }
  }

  lemma NamedIs(rooms: seq<Room>, r: Room)
    requires NamesSorted(rooms) && r in rooms
    ensures Named(rooms, r.name) == Some(r)
  {
    var i :| 0 <= i < |rooms| && rooms[i] == r;
    FirstRoom(rooms, r.name, i);
    NamedMeaning(rooms, r.name);
  }

  /** No other room is touched, except that it is left. */
  predicate OthersAreLeft(before: seq<Room>, after: seq<Room>, name: string, other: string) {
    other != name ==>
      Named(after, other) == match Named(before, other)
                             case None => None
                             case Some(r) => Some(r.(engaged := false))
  }

  lemma EngagedNamed(rooms: seq<Room>, name: string, n: string)
    ensures Named(Engaged(rooms, name), n) == match Named(rooms, n)
                                              case None => None
                                              case Some(r) => Some(r.(engaged := n == name))
  {
    var engaged := Engaged(rooms, name);
    SameNames(engaged, rooms);
    NamedMeaning(engaged, n);
    NamedMeaning(rooms, n);
  }

  /** The room as it was before it is entered, or a new one. */
  function RoomToEnter(rooms: seq<Room>, name: string): Room {
    match Named(rooms, name) case Some(r) => r case None => Room(name, false, [], [], None)
  }

  lemma EnteringMeaning(h: Hall, name: string, other: string)
    requires InOrder(h) && name != ""
    ensures var after := Enter(h, name);
            && after == h.(rooms := after.rooms, session := Some(name))
            && Named(after.rooms, name).Some?
            && EnteredFrom(RoomToEnter(h.rooms, name), Named(after.rooms, name).value, h.local, h.display)
            && OthersAreLeft(h.rooms, after.rooms, name, other)
  {
    var engaged := Engaged(h.rooms, name);
    var i := FindRoom(engaged, name);
    var after := Enter(h, name).rooms;
    EnterKeepsOrder(h, name);
    EngagedNamed(h.rooms, name, name);
    EngagedNamed(h.rooms, name, other);
    NamedMeaning(engaged, name);
    NamedMeaning(engaged, other);
    if i < |engaged| {
      AdmissionMeaning(engaged[i], h.local, h.display);
      SameNames(engaged, after);
      NamedMeaning(after, name);
      NamedMeaning(after, other);
    } else {
      NewRoomNamed(h, name, other);
    }
  }

  lemma NewRoomNamed(h: Hall, name: string, other: string)
    requires InOrder(h) && name != "" && FindRoom(Engaged(h.rooms, name), name) == |h.rooms|
    ensures var after, r := Enter(h, name).rooms, Admitted(Room(name, true, [], [], None), h.local, h.display);
            && Named(after, name) == Some(r)
            && EnteredFrom(Room(name, false, [], [], None), r, h.local, h.display)
            && (other != name ==> Named(after, other) == Named(Engaged(h.rooms, name), other))
  {
    var engaged := Engaged(h.rooms, name);
    var newcomer := Room(name, true, [], [], None);
    var r := Admitted(newcomer, h.local, h.display);
    var all := engaged + [r];
    AdmissionMeaning(newcomer, h.local, h.display);
    forall i, k | 0 <= i < k < |all| ensures all[i].name != all[k].name {
      if k < |engaged| { assert h.rooms[i].name != h.rooms[k].name; }
    }
    SortedByName(all);
    var after := Sort(all, ByName());
    assert Enter(h, name).rooms == after;
    assert all[|engaged|] == r;
    NamedIs(after, r);
    OtherNamed(engaged, r, after, other);
  }

  lemma NobodyNamed(rooms: seq<Room>, name: string)
    requires forall r :: r in rooms ==> r.name != name
    ensures FindRoom(rooms, name) == |rooms|
  {
    assert forall i :: 0 <= i < |rooms| ==> rooms[i] in rooms;
  }

  lemma OtherNamed(engaged: seq<Room>, r: Room, after: seq<Room>, other: string)
    requires NamesSorted(after) && forall x :: x in after <==> x in engaged + [r]
    requires forall i, k :: 0 <= i < k < |engaged| ==> engaged[i].name != engaged[k].name
    ensures other != r.name ==> Named(after, other) == Named(engaged, other)
  {
    if other != r.name {
      var i := FindRoom(engaged, other);
      NamedMeaning(engaged, other);
      NamedMeaning(after, other);
      if i < |engaged| {
        assert engaged[i] in engaged + [r];
        NamedIs(after, engaged[i]);
      } else {
        NobodyNamed(after, other);
      }
    }
  }

  // --- commands --------------------------------------------------------------------------------

  /** Setting an invite touches nothing else. */
  lemma InviteNamed(rooms: seq<Room>, name: string, invite: Option<Invite>, n: string)
    ensures Named(WithInvite(rooms, name, invite), n) ==
            match Named(rooms, n)
            case None => None
            case Some(r) => Some(if n == name then r.(invite := invite) else r)
  {
    var after := WithInvite(rooms, name, invite);
    SameNames(after, rooms);
    NamedMeaning(after, n);
    NamedMeaning(rooms, n);
  }

  /** The share text of the room of the session, if it has an invite, is the one just rendered; nothing else
      changes. */
  lemma ShareNamed(h: Hall, share: Option<string>, n: string)
    requires InOrder(h) && h.session.Some?
    ensures Named(UpdateShareInvite(h.rooms, share), n) ==
            match Named(h.rooms, n)
            case None => None
            case Some(r) => Some(if n == h.session.value && r.invite.Some?
                                 then r.(invite := Some(r.invite.value.(share := share))) else r)
  {
    var k := FindRoom(h.rooms, h.session.value);
    forall i | 0 <= i < |h.rooms| ensures h.rooms[i].engaged <==> h.rooms[i].name == h.session.value {
      assert RoomInOrder(h, h.rooms[i]);
    }
    FirstEngaged(h.rooms, k);
    NamedMeaning(h.rooms, h.session.value);
    NamedMeaning(h.rooms, n);
    var invite := h.rooms[k].invite;
    if invite.Some? {
      InviteNamed(h.rooms, h.session.value, Some(invite.value.(share := share)), n);
    }
  }

  /** Creating a room enters it: the local peer is an admin in it, and every other room is left.  A custom
      room gets a new invite of the local peer's, in place of an older one, and "main" none. */
  lemma CreationMeaning(h: Hall, name: string, code: string, expires: nat, share: Option<string>, other: string)
    requires InOrder(h)
    ensures var (after, answer) := Obey(h, CreateRoom(name, code, expires, share));
            var room := if Text.Trim(name) == "" then "main" else Text.Trim(name);
            var now := Named(after.rooms, room);
            var invite := if room == "main" then None else Some(Invite(code, share, Some(expires), Some(h.local)));
            && answer == Done
            && after == h.(rooms := after.rooms, session := Some(room))
            && now.Some? && now.value.invite == invite
            && EnteredFrom(RoomToEnter(h.rooms, room).(invite := invite), now.value, h.local, h.display)
            && OthersAreLeft(h.rooms, after.rooms, room, other)
  {
    var room := NormalizeRoomName(name);
    var e := Enter(h, room);
    var invite := if room != "main" then Some(Invite(code, None, Some(expires), Some(h.local))) else None;
    EnteringMeaning(h, room, other);
    EnterKeepsOrder(h, room);
    InviteNamed(e.rooms, room, invite, room);
    InviteNamed(e.rooms, room, invite, other);
    InviteKeepsOrder(e, room, invite);
    var i := e.(rooms := WithInvite(e.rooms, room, invite));
    ShareNamed(i, share, room);
    ShareNamed(i, share, other);
  }

  /** Adopting a room from an invite enters it too, and leaves its own invite as it was. */
  lemma AdoptionMeaning(h: Hall, name: string, other: string)
    requires InOrder(h)
    ensures var (after, answer) := Obey(h, AdoptRoom(name));
            var room := if Text.Trim(name) == "" then "main" else Text.Trim(name);
            var now := Named(after.rooms, room);
            && answer == Done
            && after == h.(rooms := after.rooms, session := Some(room))
            && now.Some?
            && EnteredFrom(RoomToEnter(h.rooms, room), now.value, h.local, h.display)
            && OthersAreLeft(h.rooms, after.rooms, room, other)
  {
    EnteringMeaning(h, NormalizeRoomName(name), other);
  }

  /** A room brought in line with the local peer's name: every room has an admin role, and the local peer's
      record is renamed where it is a member or engaged; it becomes an admin only of an empty room. */
  predicate InLine(was: Room, after: Room, local: string, display: string) {
    && HasAdminRole(was.roles, after.roles)
    && after == Room(was.name, was.engaged, after.roles, after.members, was.invite)
    && if was.engaged || (exists k :: 0 <= k < |was.members| && was.members[k].id == local)
       then Enrolled(was.members, after.members, local, display, was.members == [])
       else after.members == was.members
  }

  lemma SyncMeaning(rooms: seq<Room>, local: string, display: string, i: nat)
    requires i < |rooms|
    ensures InLine(rooms[i], SyncMemberships(rooms, local, display)[i], local, display)
  {
    var r := rooms[i];
    AdminRoleMeaning(r);
    EnrollmentMeaning(EnsureAdminRole(r), local, display, r.members == []);
  }

  /** A new display name is trimmed; if nothing is left it is refused, otherwise every room follows it. */
  lemma RenamingMeaning(h: Hall, display: string)
    ensures var (after, answer) := Obey(h, SetDisplayName(display));
            var name := Text.Trim(display);
            if name == "" then answer == EmptyName && after == h
            else
              && answer == Done
              && after == Hall(h.local, name, h.session, after.rooms)
              && |after.rooms| == |h.rooms|
              && forall i :: 0 <= i < |h.rooms| ==> InLine(h.rooms[i], after.rooms[i], h.local, name)
  {
    var name := Text.Trim(display);
    forall i | 0 <= i < |h.rooms|
      ensures InLine(h.rooms[i], SyncMemberships(h.rooms, h.local, name)[i], h.local, name)
    {
      SyncMeaning(h.rooms, h.local, name, i);
    }
  }

  /** When an invite code is not rotated: outside a custom room, and without the permission to invite.  Then
      nothing changes. */
  lemma RefusalMeaning(h: Hall, code: string, expires: nat, share: Option<string>)
    ensures var (after, answer) := Obey(h, RotateInvite(code, expires, share));
            var custom := h.session.Some? && h.session.value != "main" && h.session.value != "";
            && (answer == NoCustomRoom <==> !custom)
            && (answer == NotAdmin <==> custom && !Permitted(h.rooms, h.session.value, h.local, CreateRoomInvite))
            && (answer == NoCustomRoom || answer == NotAdmin || answer == Done)
            && (answer != Done ==> after == h)
  {
    if h.session.Some? { PermissionMeaning(h.rooms, h.session.value, h.local, CreateRoomInvite); }
  }

  /** New addresses change the share text of the session room's invite, and nothing else. */
  lemma NewAddressesMeaning(h: Hall, share: Option<string>, n: string)
    requires InOrder(h) && h.session.Some?
    ensures var after := Obey(h, AddressesChanged(share)).0;
            && after == h.(rooms := after.rooms)
            && Named(after.rooms, n) == match Named(h.rooms, n)
                                        case None => None
                                        case Some(r) =>
                                          Some(if n == h.session.value && r.invite.Some?
                                               then r.(invite := Some(r.invite.value.(share := share))) else r)
  {
    ShareNamed(h, share, n);
    AddressesObeyed(h, share);
  }

  lemma AddressesObeyed(h: Hall, share: Option<string>)
    ensures Obey(h, AddressesChanged(share)).0 == h.(rooms := UpdateShareInvite(h.rooms, share))
  {
  }
}
