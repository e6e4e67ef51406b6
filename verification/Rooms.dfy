/** Rooms, roles and room invites: crates/voicersd/src/app/state.rs and the room commands of app.rs. */
module Rooms {
  import opened Core
  import opened Ordering
  import Text

  const MAIN: string := "main"
  const ADMIN: string := "admin"

  datatype Permission = CreateRoomInvite | CreateRole | EditRole | AssignRole
  datatype Role = Role(name: string, permissions: seq<Permission>)
  datatype Member = Member(id: string, name: string, roles: seq<string>)
  datatype Invite = Invite(code: string, share: Option<string>, expires: Option<nat>, creator: Option<string>)
  datatype Room = Room(name: string, engaged: bool, roles: seq<Role>, members: seq<Member>, invite: Option<Invite>)

  /** The part of the daemon's status that room commands read and write. */
  datatype Hall = Hall(local: string, display: string, session: Option<string>, rooms: seq<Room>)

  function NormalizeRoomName(name: string): string {
    var trimmed := Text.Trim(name);
    if trimmed == "" then MAIN else trimmed
  }

  /** A room name is trimmed and never empty, and naming the room by it again names the same room. */
  lemma NormalizedName(name: string)
    ensures var room := NormalizeRoomName(name);
            room != "" && Text.Trimmed(room) && NormalizeRoomName(room) == room
  {
    Text.TrimSpec(name);
    var main := MAIN;
    assert !Text.IsSpace(main[0]) && !Text.IsSpace(main[|main| - 1]);
  }

  // --- lists -----------------------------------------------------------------------------------

  function FindRole(roles: seq<Role>, name: string): (i: nat)
    ensures i <= |roles|
    ensures i < |roles| ==> roles[i].name == name
    ensures forall k :: 0 <= k < i ==> roles[k].name != name
  {
    if roles == [] || roles[0].name == name then 0 else 1 + FindRole(roles[1..], name)
  }

  /** The first member that is the local one, or has no id yet. */
  function FindLocal(members: seq<Member>, local: string): (i: nat)
    ensures i <= |members|
    ensures i < |members| ==> members[i].id == local || members[i].id == ""
    ensures forall k :: 0 <= k < i ==> members[k].id != local && members[k].id != ""
  {
    if members == [] || members[0].id == local || members[0].id == "" then 0 else 1 + FindLocal(members[1..], local)
  }

  function FindMember(members: seq<Member>, id: string): (i: nat)
    ensures i <= |members|
    ensures i < |members| ==> members[i].id == id
    ensures forall k :: 0 <= k < i ==> members[k].id != id
  {
    if members == [] || members[0].id == id then 0 else 1 + FindMember(members[1..], id)
  }

  function FindRoom(rooms: seq<Room>, name: string): (i: nat)
    ensures i <= |rooms|
    ensures i < |rooms| ==> rooms[i].name == name
    ensures forall k :: 0 <= k < i ==> rooms[k].name != name
  {
    if rooms == [] || rooms[0].name == name then 0 else 1 + FindRoom(rooms[1..], name)
  }

  // --- one room --------------------------------------------------------------------------------

  const AdminRole: Role := Role(ADMIN, [CreateRoomInvite, CreateRole, EditRole, AssignRole])

  function EnsureAdminRole(r: Room): Room {
    if FindRole(r.roles, ADMIN) < |r.roles| then r else r.(roles := r.roles + [AdminRole])
  }

  function EnsureLocalMember(r: Room, local: string, display: string, seedAdmin: bool): Room {
    var i := FindLocal(r.members, local);
    if i < |r.members| then
      var m := r.members[i];
      var roles := if seedAdmin && ADMIN !in m.roles then m.roles + [ADMIN] else m.roles;
      r.(members := r.members[i := Member(local, display, roles)])
    else r.(members := r.members + [Member(local, display, if seedAdmin then [ADMIN] else [])])
  }

  predicate Grants(roles: seq<Role>, roleName: string, p: Permission) {
    var i := FindRole(roles, roleName);
    i < |roles| && p in roles[i].permissions
  }

  predicate RoomHasPermission(rooms: seq<Room>, name: string, id: string, p: Permission) {
    var i := FindRoom(rooms, name);
    i < |rooms| &&
    var room := rooms[i];
    var k := FindMember(room.members, id);
    k < |room.members| &&
    var roles := room.members[k].roles;
    exists n :: 0 <= n < |roles| && Grants(room.roles, roles[n], p)
  }

  /** The local peer is the first member with its own or no id, and an admin. */
  predicate LocalAdmin(r: Room, local: string) {
    var i := FindLocal(r.members, local);
    && i < |r.members| && r.members[i].id == local && ADMIN in r.members[i].roles
    && FindRole(r.roles, ADMIN) < |r.roles|
  }

  /** Wherever there is an admin role it allows invites. */
  predicate AdminMayInvite(r: Room) {
    FindRole(r.roles, ADMIN) < |r.roles| ==> Grants(r.roles, ADMIN, CreateRoomInvite)
  }

  lemma FirstRole(roles: seq<Role>, name: string, i: nat)
    requires i <= |roles| && forall k :: 0 <= k < i ==> roles[k].name != name
    requires i < |roles| ==> roles[i].name == name
    ensures FindRole(roles, name) == i
  {
  }

  lemma FirstLocal(members: seq<Member>, local: string, i: nat)
    requires i <= |members| && forall k :: 0 <= k < i ==> members[k].id != local && members[k].id != ""
    requires i < |members| ==> members[i].id == local || members[i].id == ""
    ensures FindLocal(members, local) == i
  {
  }

  lemma AdminRoleSpec(r: Room)
    requires AdminMayInvite(r)
    ensures AdminMayInvite(EnsureAdminRole(r)) && FindRole(EnsureAdminRole(r).roles, ADMIN) < |EnsureAdminRole(r).roles|
  {
    FirstRole(EnsureAdminRole(r).roles, ADMIN, FindRole(r.roles, ADMIN));
  }

  lemma LocalMemberSpec(r: Room, local: string, display: string, seedAdmin: bool)
    ensures var a := EnsureLocalMember(r, local, display, seedAdmin);
            && a.name == r.name && a.engaged == r.engaged && a.roles == r.roles && a.invite == r.invite
            && (FindRole(r.roles, ADMIN) < |r.roles| && (seedAdmin || LocalAdmin(r, local)) ==> LocalAdmin(a, local))
  {
    FirstLocal(EnsureLocalMember(r, local, display, seedAdmin).members, local, FindLocal(r.members, local));
  }

  /** An admin may invite: the permission query finds the first record of the local peer. */
  lemma LocalAdminMayInvite(rooms: seq<Room>, name: string, local: string)
    requires var i := FindRoom(rooms, name);
             i < |rooms| && LocalAdmin(rooms[i], local) && AdminMayInvite(rooms[i])
    ensures RoomHasPermission(rooms, name, local, CreateRoomInvite)
  {
    var r := rooms[FindRoom(rooms, name)];
    var m := FindLocal(r.members, local);
    FirstMember(r.members, local, m);
    var n :| 0 <= n < |r.members[m].roles| && r.members[m].roles[n] == ADMIN;
    assert Grants(r.roles, r.members[m].roles[n], CreateRoomInvite);
  }

  lemma FirstMember(members: seq<Member>, id: string, i: nat)
    requires i < |members| && members[i].id == id && forall k :: 0 <= k < i ==> members[k].id != id
    ensures FindMember(members, id) == i
  {
  }

  // --- the list of rooms -----------------------------------------------------------------------

  function Engaged(rooms: seq<Room>, name: string): (r: seq<Room>)
    ensures |r| == |rooms|
  {
    seq(|rooms|, i requires 0 <= i < |rooms| => rooms[i].(engaged := rooms[i].name == name))
  }

  function ByName(): (Room, Room) -> bool { (a: Room, b: Room) => LexLe(a.name, b.name) }

  function Admitted(r: Room, local: string, display: string): Room {
    EnsureLocalMember(EnsureAdminRole(r.(engaged := true)), local, display, true)
  }

  function CreateOrUpdateRoom(rooms: seq<Room>, name: string, local: string, display: string): seq<Room> {
    var engaged := Engaged(rooms, name);
    var i := FindRoom(engaged, name);
    if i < |engaged| then engaged[i := Admitted(engaged[i], local, display)]
    else Sort(engaged + [Admitted(Room(name, true, [], [], None), local, display)], ByName())
  }

  function WithInvite(rooms: seq<Room>, name: string, invite: Option<Invite>): seq<Room> {
    var i := FindRoom(rooms, name);
    if i < |rooms| then rooms[i := rooms[i].(invite := invite)] else rooms
  }

  function SyncedRoom(r: Room, local: string, display: string): Room {
    var a := EnsureAdminRole(r);
    if a.engaged || (exists k :: 0 <= k < |a.members| && a.members[k].id == local)
    then EnsureLocalMember(a, local, display, a.members == [])
    else a
  }

  function SyncMemberships(rooms: seq<Room>, local: string, display: string): (r: seq<Room>)
    ensures |r| == |rooms|
  {
    seq(|rooms|, i requires 0 <= i < |rooms| => SyncedRoom(rooms[i], local, display))
  }

  function FindEngaged(rooms: seq<Room>): (i: nat)
    ensures i <= |rooms|
    ensures i < |rooms| ==> rooms[i].engaged
    ensures forall k :: 0 <= k < i ==> !rooms[k].engaged
  {
    if rooms == [] || rooms[0].engaged then 0 else 1 + FindEngaged(rooms[1..])
  }

  /** Rendering the engaged room's invite: the text itself comes from the invite encoder. */
  function UpdateShareInvite(rooms: seq<Room>, share: Option<string>): seq<Room> {
    var i := FindEngaged(rooms);
    if i < |rooms| && rooms[i].invite.Some?
    then WithInvite(rooms, rooms[i].name, Some(rooms[i].invite.value.(share := share)))
    else rooms
  }

  // --- commands --------------------------------------------------------------------------------

  datatype Command =
    | CreateRoom(name: string, code: string, expires: nat, share: Option<string>)
    | AdoptRoom(adopted: string)
    | SetDisplayName(display: string)
    | RotateInvite(newCode: string, newExpires: nat, newShare: Option<string>)
    | AddressesChanged(rendered: Option<string>)

  datatype Answer = Done | NoCustomRoom | NotAdmin | EmptyName

  function Enter(h: Hall, name: string): Hall {
    h.(rooms := CreateOrUpdateRoom(h.rooms, name, h.local, h.display), session := Some(name))
  }

  function MakeInvite(h: Hall, code: string, expires: nat): Option<Invite> {
    Some(Invite(code, None, Some(expires), Some(h.local)))
  }

  function Obey(h: Hall, c: Command): (Hall, Answer) {
    match c
    case CreateRoom(name, code, expires, share) =>
      var room := NormalizeRoomName(name);
      var e := Enter(h, room);
      var invite := if room != MAIN then MakeInvite(h, code, expires) else None;
      (e.(rooms := UpdateShareInvite(WithInvite(e.rooms, room, invite), share)), Done)
    case AdoptRoom(name) => (Enter(h, NormalizeRoomName(name)), Done)
    case SetDisplayName(display) =>
      var name := Text.Trim(display);
      if name == "" then (h, EmptyName)
      else (h.(display := name, rooms := SyncMemberships(h.rooms, h.local, name)), Done)
    case RotateInvite(code, expires, share) =>
      if h.session.None? || h.session == Some(MAIN) || h.session == Some("") then (h, NoCustomRoom)
      else if !RoomHasPermission(h.rooms, h.session.value, h.local, CreateRoomInvite) then (h, NotAdmin)
      else
        var rooms := WithInvite(h.rooms, h.session.value, MakeInvite(h, code, expires));
        (h.(rooms := UpdateShareInvite(rooms, share)), Done)
    case AddressesChanged(share) => (h.(rooms := UpdateShareInvite(h.rooms, share)), Done)
  }

  // --- the invariant ---------------------------------------------------------------------------

  predicate RoomInOrder(h: Hall, r: Room) {
    && AdminMayInvite(r)
    && (r.name == MAIN ==> r.invite.None?)
    && (h.session.Some? ==>
          && (r.engaged <==> r.name == h.session.value)
          && (r.name == h.session.value ==> LocalAdmin(r, h.local)))
  }

  predicate NamesSorted(rooms: seq<Room>) {
    forall i, k :: 0 <= i < k < |rooms| ==> rooms[i].name != rooms[k].name && LexLe(rooms[i].name, rooms[k].name)
  }

  predicate InOrder(h: Hall) {
    && NamesSorted(h.rooms)
    && (forall i :: 0 <= i < |h.rooms| ==> RoomInOrder(h, h.rooms[i]))
    && (h.session.Some? ==> h.session.value != "" && FindRoom(h.rooms, h.session.value) < |h.rooms|)
  }

  lemma FirstRoom(rooms: seq<Room>, name: string, i: nat)
    requires i <= |rooms| && forall k :: 0 <= k < i ==> rooms[k].name != name
    requires i < |rooms| ==> rooms[i].name == name
    ensures FindRoom(rooms, name) == i
  {
  }

  lemma SameNames(a: seq<Room>, b: seq<Room>)
    requires |a| == |b| && forall i :: 0 <= i < |a| ==> a[i].name == b[i].name
    ensures NamesSorted(a) <==> NamesSorted(b)
    ensures forall n :: FindRoom(a, n) == FindRoom(b, n)
  {
    forall n ensures FindRoom(a, n) == FindRoom(b, n) {
      FirstRoom(b, n, FindRoom(a, n));
    }
  }

  lemma AdmittedSpec(r: Room, local: string, display: string)
    requires AdminMayInvite(r)
    ensures var a := Admitted(r, local, display);
            && a.name == r.name && a.engaged && a.invite == r.invite && AdminMayInvite(a) && LocalAdmin(a, local)
  {
    AdminRoleSpec(r.(engaged := true));
    LocalMemberSpec(EnsureAdminRole(r.(engaged := true)), local, display, true);
  }

  /** Sorting a list of rooms with distinct names sorts the names strictly. */
  lemma SortedByName(rooms: seq<Room>)
    requires forall i, k :: 0 <= i < k < |rooms| ==> rooms[i].name != rooms[k].name
    ensures NamesSorted(Sort(rooms, ByName()))
    ensures |Sort(rooms, ByName())| == |rooms|
    ensures forall r :: r in Sort(rooms, ByName()) <==> r in rooms
  {
    var le := ByName();
    LexIsATotalOrder();
    forall a: Room, b: Room ensures le(a, b) || le(b, a) { LexTotal(a.name, b.name); }
    forall a: Room, b: Room, c: Room | le(a, b) && le(b, c) ensures le(a, c) {
      LexTransitive(a.name, b.name, c.name);
    }
    SortSpec(rooms, le);
    var s := Sort(rooms, le);
    forall i, k | 0 <= i < k < |s| ensures s[i].name != s[k].name && LexLe(s[i].name, s[k].name) {
      assert le(s[i], s[k]) && s[i] != s[k];
      assert s[i] in rooms && s[k] in rooms;
    }
  }

  lemma EnterKeepsOrder(h: Hall, name: string)
    requires InOrder(h) && name != ""
    ensures InOrder(Enter(h, name))
  {
    var engaged := Engaged(h.rooms, name);
    SameNames(engaged, h.rooms);
    var i := FindRoom(engaged, name);
    var e := Enter(h, name);
    if i < |engaged| {
      AdmittedSpec(engaged[i], h.local, h.display);
      SameNames(e.rooms, engaged);
      EngagedRoomsInOrder(h, name, i);
    } else {
      var newcomer := Room(name, true, [], [], None);
      AdmittedSpec(newcomer, h.local, h.display);
      NewRoomInOrder(h, name, Admitted(newcomer, h.local, h.display));
    }
  }

  lemma EngagedRoomsInOrder(h: Hall, name: string, i: nat)
    requires InOrder(h) && i < |h.rooms| && i == FindRoom(Engaged(h.rooms, name), name)
    ensures var rooms := Engaged(h.rooms, name)[i := Admitted(Engaged(h.rooms, name)[i], h.local, h.display)];
            forall k :: 0 <= k < |rooms| ==> RoomInOrder(h.(session := Some(name), rooms := rooms), rooms[k])
  {
    var engaged := Engaged(h.rooms, name);
    AdmittedSpec(engaged[i], h.local, h.display);
    var rooms := engaged[i := Admitted(engaged[i], h.local, h.display)];
    forall k | 0 <= k < |rooms| ensures RoomInOrder(h.(session := Some(name), rooms := rooms), rooms[k]) {
      assert RoomInOrder(h, h.rooms[k]);
      if k != i { assert h.rooms[k].name != h.rooms[i].name; }
    }
  }

  lemma NewRoomInOrder(h: Hall, name: string, r: Room)
    requires InOrder(h) && FindRoom(Engaged(h.rooms, name), name) == |h.rooms|
    requires r.name == name && r.engaged && r.invite.None? && AdminMayInvite(r) && LocalAdmin(r, h.local)
    requires name != ""
    ensures InOrder(h.(session := Some(name), rooms := Sort(Engaged(h.rooms, name) + [r], ByName())))
  {
    var engaged := Engaged(h.rooms, name);
    var all := engaged + [r];
    forall i, k | 0 <= i < k < |all| ensures all[i].name != all[k].name {
      if k < |engaged| { assert h.rooms[i].name != h.rooms[k].name; }
    }
    SortedByName(all);
    var s := Sort(all, ByName());
    var after := h.(session := Some(name), rooms := s);
    forall i | 0 <= i < |s| ensures RoomInOrder(after, s[i]) {
      assert s[i] in all;
      var k :| 0 <= k < |all| && all[k] == s[i];
      if k < |engaged| { assert RoomInOrder(h, h.rooms[k]) && engaged[k].name != name; }
    }
    assert all[|engaged|] == r && r in s;
    var k :| 0 <= k < |s| && s[k] == r;
    assert FindRoom(s, name) <= k;
  }

  lemma InviteKeepsOrder(h: Hall, name: string, invite: Option<Invite>)
    requires InOrder(h) && (name == MAIN ==> invite.None?)
    ensures InOrder(h.(rooms := WithInvite(h.rooms, name, invite)))
  {
    var i := FindRoom(h.rooms, name);
    if i < |h.rooms| {
      var after := h.(rooms := WithInvite(h.rooms, name, invite));
      SameNames(after.rooms, h.rooms);
      forall k | 0 <= k < |after.rooms| ensures RoomInOrder(after, after.rooms[k]) {
        assert RoomInOrder(h, h.rooms[k]);
      }
    }
  }

  lemma ShareKeepsOrder(h: Hall, share: Option<string>)
    requires InOrder(h)
    ensures InOrder(h.(rooms := UpdateShareInvite(h.rooms, share)))
  {
    var i := FindEngaged(h.rooms);
    if i < |h.rooms| && h.rooms[i].invite.Some? {
      assert RoomInOrder(h, h.rooms[i]);
      InviteKeepsOrder(h, h.rooms[i].name, Some(h.rooms[i].invite.value.(share := share)));
    }
  }

  lemma SyncedSpec(r: Room, local: string, display: string)
    requires AdminMayInvite(r)
    ensures var a := SyncedRoom(r, local, display);
            && a.name == r.name && a.engaged == r.engaged && a.invite == r.invite && AdminMayInvite(a)
            && (LocalAdmin(r, local) ==> LocalAdmin(a, local))
  {
    AdminRoleSpec(r);
    LocalMemberSpec(EnsureAdminRole(r), local, display, EnsureAdminRole(r).members == []);
  }

  lemma SyncKeepsOrder(h: Hall, display: string)
    requires InOrder(h)
    ensures InOrder(h.(display := display, rooms := SyncMemberships(h.rooms, h.local, display)))
  {
    var after := h.(display := display, rooms := SyncMemberships(h.rooms, h.local, display));
    forall k | 0 <= k < |h.rooms|
      ensures after.rooms[k].name == h.rooms[k].name && RoomInOrder(after, after.rooms[k])
    {
      assert RoomInOrder(h, h.rooms[k]);
      SyncedSpec(h.rooms[k], h.local, display);
    }
    SameNames(after.rooms, h.rooms);
  }

  lemma ObeyKeepsOrder(h: Hall, c: Command)
    requires InOrder(h)
    ensures InOrder(Obey(h, c).0) && Obey(h, c).0.local == h.local
  {
    match c
    case CreateRoom(name, code, expires, share) =>
      var room := NormalizeRoomName(name);
      EnterKeepsOrder(h, room);
      var e := Enter(h, room);
      var invite := if room != MAIN then MakeInvite(h, code, expires) else None;
      InviteKeepsOrder(e, room, invite);
      ShareKeepsOrder(e.(rooms := WithInvite(e.rooms, room, invite)), share);
    case AdoptRoom(name) => EnterKeepsOrder(h, NormalizeRoomName(name));
    case SetDisplayName(display) => SyncKeepsOrder(h, Text.Trim(display));
    case RotateInvite(code, expires, share) =>
      if Obey(h, c).1.Done? {
        InviteKeepsOrder(h, h.session.value, MakeInvite(h, code, expires));
        ShareKeepsOrder(h.(rooms := WithInvite(h.rooms, h.session.value, MakeInvite(h, code, expires))), share);
      }
    case AddressesChanged(share) => ShareKeepsOrder(h, share);
  }

  function ObeyAll(h: Hall, cs: seq<Command>): Hall
    decreases |cs|
  {
    if cs == [] then h else ObeyAll(Obey(h, cs[0]).0, cs[1..])
  }

  lemma {:induction false} RunKeepsOrder(h: Hall, cs: seq<Command>)
    requires InOrder(h)
    ensures InOrder(ObeyAll(h, cs)) && ObeyAll(h, cs).local == h.local
    decreases |cs|
  {
    if cs != [] {
      ObeyKeepsOrder(h, cs[0]);
      RunKeepsOrder(Obey(h, cs[0]).0, cs[1..]);
    }
  }

  // --- restarts --------------------------------------------------------------------------------

  /** One life of the daemon: its identity and display name, and the commands it obeyed before the
      rooms were last stored. */
  datatype Life = Life(local: string, display: string, commands: seq<Command>)

  /** Stored rooms come back with the local memberships renewed, and no session. */
  function Bootstrap(rooms: seq<Room>, life: Life): Hall {
    Hall(life.local, life.display, None, SyncMemberships(rooms, life.local, life.display))
  }

  function Lived(rooms: seq<Room>, life: Life): Hall {
    ObeyAll(Bootstrap(rooms, life), life.commands)
  }

  function Stored(lives: seq<Life>): seq<Room>
    decreases |lives|
  {
    if lives == [] then [] else Lived(Stored(lives[..|lives| - 1]), lives[|lives| - 1]).rooms
  }

  lemma BootstrapInOrder(h: Hall, life: Life)
    requires InOrder(h)
    ensures InOrder(Bootstrap(h.rooms, life))
  {
    var bare := Hall(life.local, h.display, None, h.rooms);
    forall i | 0 <= i < |h.rooms| ensures RoomInOrder(bare, h.rooms[i]) { assert RoomInOrder(h, h.rooms[i]); }
    SyncKeepsOrder(bare, life.display);
  }

  /** The invariant holds in every life since the first start, which found no rooms, whatever was done
      in the lives before: `RoomsOverRuns` speaks of every hall the daemon can be in. */
  lemma {:induction false} EveryLifeIsInOrder(lives: seq<Life>, life: Life)
    ensures InOrder(Bootstrap(Stored(lives), life)) && InOrder(Lived(Stored(lives), life))
    decreases |lives|
  {
    if lives == [] {
      BootstrapInOrder(Hall("", "", None, []), life);
    } else {
      var n := |lives| - 1;
      EveryLifeIsInOrder(lives[..n], lives[n]);
      BootstrapInOrder(Lived(Stored(lives[..n]), lives[n]), life);
    }
    RunKeepsOrder(Bootstrap(Stored(lives), life), life.commands);
  }

  // --- the main result -------------------------------------------------------------------------

  /** After any commands, from any well-formed start: the room names are strictly sorted; once a session
      room is set it is exactly the engaged one and the local peer may invite to it; "main" holds no
      invite; and a rotation is carried out if and only if the session is in a custom room. */
  lemma RoomsOverRuns(h: Hall, cs: seq<Command>, code: string, expires: nat, share: Option<string>)
    requires InOrder(h)
    ensures var a := ObeyAll(h, cs);
            && NamesSorted(a.rooms)
            && (forall i :: 0 <= i < |a.rooms| ==>
                  && (a.rooms[i].name == MAIN ==> a.rooms[i].invite.None?)
                  && (a.session.Some? ==> (a.rooms[i].engaged <==> a.rooms[i].name == a.session.value)))
            && (a.session.Some? ==> RoomHasPermission(a.rooms, a.session.value, a.local, CreateRoomInvite))
            && (Obey(a, RotateInvite(code, expires, share)).1.Done? <==> a.session.Some? && a.session.value != MAIN)
  {
    RunKeepsOrder(h, cs);
    var a := ObeyAll(h, cs);
    forall i | 0 <= i < |a.rooms| ensures RoomInOrder(a, a.rooms[i]) { }
    if a.session.Some? {
      var i := FindRoom(a.rooms, a.session.value);
      assert RoomInOrder(a, a.rooms[i]);
      LocalAdminMayInvite(a.rooms, a.session.value, a.local);
    }
  }

  /** A rotation replaces the invite of the session room, rendered share text included, and touches no
      other room: the engaged room whose share text is refreshed is the room that was rotated. */
  lemma RotationReplacesOneInvite(h: Hall, code: string, expires: nat, share: Option<string>, i: nat)
    requires InOrder(h) && i < |h.rooms|
    requires Obey(h, RotateInvite(code, expires, share)).1.Done?
    ensures var after := Obey(h, RotateInvite(code, expires, share)).0.rooms;
            && |after| == |h.rooms|
            && after[i] == (if h.rooms[i].name == h.session.value
                            then h.rooms[i].(invite := Some(Invite(code, share, Some(expires), Some(h.local))))
                            else h.rooms[i])
  {
    var room := h.session.value;
    var k := FindRoom(h.rooms, room);
    var rotated := WithInvite(h.rooms, room, MakeInvite(h, code, expires));
    assert RoomInOrder(h, h.rooms[k]) && RoomInOrder(h, h.rooms[i]);
    SameNames(rotated, h.rooms);
    forall j | 0 <= j < k ensures !rotated[j].engaged { assert RoomInOrder(h, h.rooms[j]); }
    FirstEngaged(rotated, k);
  }

  lemma FirstEngaged(rooms: seq<Room>, i: nat)
    requires i < |rooms| && rooms[i].engaged && forall k :: 0 <= k < i ==> !rooms[k].engaged
    ensures FindEngaged(rooms) == i
  {
  }

  // --- the rooms, edited in place --------------------------------------------------------------

  class RoomBook {
    const local: string
    var display: string
    var session: Option<string>
    var rooms: seq<Room>

    function View(): Hall
      reads this
    {
      Hall(local, display, session, rooms)
    }

    constructor (id: string, name: string, persisted: seq<Room>)
      ensures View() == Hall(id, name, None, SyncMemberships(persisted, id, name))
    {
      local, display, session, rooms := id, name, None, persisted;
      new;
      SyncLocalRoomMemberships();
    }

    method Position(name: string) returns (i: nat)
      ensures i == FindRoom(rooms, name)
    {
      i := 0;
      while i < |rooms| && rooms[i].name != name
        invariant i <= |rooms|
        invariant forall k :: 0 <= k < i ==> rooms[k].name != name
      {
        i := i + 1;
      }
      FirstRoom(rooms, name, i);
    }

    method EngageOnly(name: string)
      modifies this`rooms
      ensures rooms == Engaged(old(rooms), name)
    {
      ghost var was := rooms;
      for i := 0 to |rooms|
        invariant |rooms| == |was|
        invariant forall k :: 0 <= k < i ==> rooms[k] == Engaged(was, name)[k]
        invariant forall k :: i <= k < |was| ==> rooms[k] == was[k]
      {
        rooms := rooms[i := rooms[i].(engaged := rooms[i].name == name)];
      }
    }

    method CreateOrUpdate(name: string)
      modifies this`rooms
      ensures rooms == CreateOrUpdateRoom(old(rooms), name, local, display)
    {
      EngageOnly(name);
      var i := Position(name);
      if i < |rooms| {
        var room := EnsureAdminRole(rooms[i].(engaged := true));
        rooms := rooms[i := EnsureLocalMember(room, local, display, true)];
        return;
      }
      var room := EnsureAdminRole(Room(name, true, [], [], None));
      rooms := rooms + [EnsureLocalMember(room, local, display, true)];
      rooms := Sort(rooms, ByName());
    }

    method SetRoomInvite(name: string, invite: Option<Invite>)
      modifies this`rooms
      ensures rooms == WithInvite(old(rooms), name, invite)
    {
      var i := Position(name);
      if i < |rooms| {
        rooms := rooms[i := rooms[i].(invite := invite)];
      }
    }

    method SyncLocalRoomMemberships()
      modifies this`rooms
      ensures rooms == SyncMemberships(old(rooms), local, display)
    {
      ghost var was := rooms;
      for i := 0 to |rooms|
        invariant |rooms| == |was|
        invariant forall k :: 0 <= k < i ==> rooms[k] == SyncMemberships(was, local, display)[k]
        invariant forall k :: i <= k < |was| ==> rooms[k] == was[k]
      {
        var room := EnsureAdminRole(rooms[i]);
        if room.engaged || (exists k :: 0 <= k < |room.members| && room.members[k].id == local) {
          room := EnsureLocalMember(room, local, display, room.members == []);
        }
        rooms := rooms[i := room];
      }
    }

    method RefreshShareInvite(share: Option<string>)
      modifies this`rooms
      ensures rooms == UpdateShareInvite(old(rooms), share)
    {
      var i := FindEngaged(rooms);
      if i < |rooms| && rooms[i].invite.Some? {
        SetRoomInvite(rooms[i].name, Some(rooms[i].invite.value.(share := share)));
      }
    }

    method HandleCreateRoom(name: string, code: string, expires: nat, share: Option<string>)
      modifies this`rooms, this`session
      ensures View() == Obey(old(View()), CreateRoom(name, code, expires, share)).0
    {
      var room := NormalizeRoomName(name);
      CreateOrUpdate(room);
      session := Some(room);
      if room != MAIN {
        SetRoomInvite(room, Some(Invite(code, None, Some(expires), Some(local))));
      } else {
        SetRoomInvite(room, None);
      }
      RefreshShareInvite(share);
    }

    method AdoptRoomInvite(name: string)
      modifies this`rooms, this`session
      ensures View() == Obey(old(View()), AdoptRoom(name)).0
    {
      var room := NormalizeRoomName(name);
      CreateOrUpdate(room);
      session := Some(room);
    }

    method HandleSetDisplayName(name: string) returns (answer: Answer)
      modifies this`rooms, this`display
      ensures (View(), answer) == Obey(old(View()), SetDisplayName(name))
    {
      var newName := Text.Trim(name);
      if newName == "" {
        return EmptyName;
      }
      display := newName;
      SyncLocalRoomMemberships();
      return Done;
    }

    method HandleRotateInviteCode(code: string, expires: nat, share: Option<string>) returns (answer: Answer)
      modifies this`rooms
      ensures (View(), answer) == Obey(old(View()), RotateInvite(code, expires, share))
    {
      if session == Some(MAIN) || session.None? || session.value == "" {
        return NoCustomRoom;
      }
      var room := session.value;
      if !RoomHasPermission(rooms, room, local, CreateRoomInvite) {
        return NotAdmin;
      }
      SetRoomInvite(room, Some(Invite(code, None, Some(expires), Some(local))));
      RefreshShareInvite(share);
      return Done;
    }
  }
}
