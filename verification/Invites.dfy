/** Which of our own addresses go into an invite: crates/voicersd/src/network/invite.rs. */
module Invites {
  import opened Core
  import opened Ordering
  import Text

  const MAX_SHARE_INVITE_ADDRS: nat := 4
  const STARTING: string := "<starting>"

  /** `usable` stands for: the text parses as a multiaddress of a supported, publicly meaningful kind. */
  function ShareableAddress(usable: string -> bool, address: string, local: string): Option<string> {
    if local == STARTING || local == "" then None
    else if !usable(address) then None
    else if Text.Contains(address, "/p2p/") then Some(address)
    else Some(address + "/p2p/" + local)
  }

  function Shareable(usable: string -> bool, addresses: seq<string>, local: string): seq<string> {
    if addresses == [] then []
    else
      Just(ShareableAddress(usable, addresses[0], local)) + Shareable(usable, addresses[1..], local)
  }

  datatype Addresses = Addresses(external: seq<string>, observed: seq<string>, listening: seq<string>)

  /** The rendezvous record lists every shareable address once, external ones first. */
  function RendezvousAddresses(usable: string -> bool, a: Addresses, local: string): seq<string> {
    DedupOnto([], Shareable(usable, a.external + a.observed + a.listening, local))
  }

  /** One capped pass. */
  function Collected(usable: string -> bool, dest: seq<string>, addresses: seq<string>, local: string): seq<string>
    decreases |addresses|
  {
    if addresses == [] || |dest| >= MAX_SHARE_INVITE_ADDRS then dest
    else
      var s := ShareableAddress(usable, addresses[0], local);
      Collected(usable, if s.Some? && s.value !in dest then dest + [s.value] else dest, addresses[1..], local)
  }

  function InviteAddresses(usable: string -> bool, a: Addresses, local: string): seq<string> {
    var external := Collected(usable, [], a.external, local);
    var observed := Collected(usable, external, a.observed, local);
    Collected(usable, observed, a.listening, local)
  }

  function Capped(s: seq<string>): seq<string> {
    if |s| <= MAX_SHARE_INVITE_ADDRS then s else s[..MAX_SHARE_INVITE_ADDRS]
  }

  lemma {:induction false} ShareableConcat(usable: string -> bool, a: seq<string>, b: seq<string>, local: string)
    ensures Shareable(usable, a + b, local) == Shareable(usable, a, local) + Shareable(usable, b, local)
  {
    if a == [] {
      assert a + b == b;
    } else {
      assert (a + b)[1..] == a[1..] + b;
      ShareableConcat(usable, a[1..], b, local);
    }
  }

  lemma {:induction false} DedupExtends(acc: seq<string>, s: seq<string>)
    ensures acc <= DedupOnto(acc, s)
    decreases |s|
  {
    if s != [] { DedupExtends(if s[0] in acc then acc else acc + [s[0]], s[1..]); }
  }

  /** A capped pass over a capped start is the cap of the uncapped pass over the uncapped start. */
  lemma {:induction false} PassIsCapped(usable: string -> bool, full: seq<string>, addresses: seq<string>,
                                        local: string)
    ensures Collected(usable, Capped(full), addresses, local)
            == Capped(DedupOnto(full, Shareable(usable, addresses, local)))
    decreases |addresses|
  {
    var more := Shareable(usable, addresses, local);
    DedupExtends(full, more);
    if addresses != [] && |full| < MAX_SHARE_INVITE_ADDRS {
      var s := ShareableAddress(usable, addresses[0], local);
      var next := if s.Some? && s.value !in full then full + [s.value] else full;
      var rest := Shareable(usable, addresses[1..], local);
      assert more == Just(s) + rest;
      PassIsCapped(usable, next, addresses[1..], local);
      if s.Some? {
        assert more[0] == s.value && more[1..] == rest;
      } else {
        assert more == rest;
      }
    }
  }

  /** The invite's three capped passes give the first four addresses of the rendezvous record. */
  lemma InviteIsThePrefixOfTheRecord(usable: string -> bool, a: Addresses, local: string)
    ensures InviteAddresses(usable, a, local) == Capped(RendezvousAddresses(usable, a, local))
  {
    var e, o, l := Shareable(usable, a.external, local), Shareable(usable, a.observed, local),
                   Shareable(usable, a.listening, local);
    ShareableConcat(usable, a.external + a.observed, a.listening, local);
    ShareableConcat(usable, a.external, a.observed, local);
    DedupConcat([], e + o, l);
    DedupConcat([], e, o);
    PassIsCapped(usable, [], a.external, local);
    PassIsCapped(usable, DedupOnto([], e), a.observed, local);
    PassIsCapped(usable, DedupOnto(DedupOnto([], e), o), a.listening, local);
  }

  /** So an invite is empty exactly when there is nothing to publish, and repeats no address. */
  lemma InviteSpec(usable: string -> bool, a: Addresses, local: string)
    ensures var r := InviteAddresses(usable, a, local);
            && |r| <= MAX_SHARE_INVITE_ADDRS && Distinct(r)
            && (r == [] <==> RendezvousAddresses(usable, a, local) == [])
            && (local == STARTING || local == "" ==> r == [])
  {
    InviteIsThePrefixOfTheRecord(usable, a, local);
    DedupSpec([], Shareable(usable, a.external + a.observed + a.listening, local));
    if local == STARTING || local == "" {
      NothingBeforeStartup(usable, a.external + a.observed + a.listening, local);
    }
  }

  lemma {:induction false} NothingBeforeStartup(usable: string -> bool, addresses: seq<string>, local: string)
    requires local == STARTING || local == ""
    ensures Shareable(usable, addresses, local) == []
  {
    if addresses != [] { NothingBeforeStartup(usable, addresses[1..], local); }
  }

  /** Nothing is published before the peer id is known.  After that a usable address is published with a peer
      id: its own if it has one, else the local one. */
  lemma PublishedMeaning(usable: string -> bool, address: string, local: string)
    ensures var r := ShareableAddress(usable, address, local);
            && (r.Some? <==> local != "<starting>" && local != "" && usable(address))
            && (r.Some? && HasPart(address, "/p2p/") ==> r.value == address)
            && (r.Some? && !HasPart(address, "/p2p/") ==> r.value == address + "/p2p/" + local)
  {
    ContainsMeaning(address, "/p2p/");
  }

  predicate PartAt(text: string, part: string, i: nat) {
    i + |part| <= |text| && text[i..i + |part|] == part
  }

  predicate HasPart(text: string, part: string) {
    exists i: nat :: i <= |text| && PartAt(text, part, i)
  }

  lemma HasPartStep(text: string, part: string)
    requires text != []
    ensures HasPart(text, part) <==> PartAt(text, part, 0) || HasPart(text[1..], part)
  {
    var rest := text[1..];
    forall i: nat | i <= |rest| ensures PartAt(rest, part, i) <==> PartAt(text, part, i + 1) {
      if i + |part| <= |rest| { assert rest[i..i + |part|] == text[i + 1..i + 1 + |part|]; }
    }
    if i: nat :| i <= |text| && PartAt(text, part, i) {
      assert i > 0 ==> PartAt(rest, part, i - 1);
    }
  }

  lemma {:induction false} ContainsMeaning(text: string, part: string)
    ensures Text.Contains(text, part) <==> HasPart(text, part)
  {
    if text != [] {
      HasPartStep(text, part);
      ContainsMeaning(text[1..], part);
      assert |part| <= |text| ==> text[0..0 + |part|] == text[..|part|];
    } else {
      assert HasPart(text, part) <==> PartAt(text, part, 0);
    }
  }

  /** An address is in the list published. */
  predicate Published(usable: string -> bool, addresses: seq<string>, local: string, published: string) {
    exists i :: 0 <= i < |addresses| && ShareableAddress(usable, addresses[i], local) == Some(published)
  }

  lemma {:induction false} ShareableMeaning(usable: string -> bool, addresses: seq<string>, local: string, x: string)
    ensures x in Shareable(usable, addresses, local) <==> Published(usable, addresses, local, x)
  {
    if addresses != [] {
      var rest := addresses[1..];
      ShareableMeaning(usable, rest, local, x);
      if Published(usable, rest, local, x) {
        var k :| 0 <= k < |rest| && ShareableAddress(usable, rest[k], local) == Some(x);
        assert ShareableAddress(usable, addresses[k + 1], local) == Some(x);
      }
      if Published(usable, addresses, local, x) {
        var i :| 0 <= i < |addresses| && ShareableAddress(usable, addresses[i], local) == Some(x);
        assert i > 0 ==> ShareableAddress(usable, rest[i - 1], local) == Some(x);
      }
    }
  }

  /** An invite has four addresses, or all there are; each is the published form of one of the daemon's. */
  lemma InviteIsFull(usable: string -> bool, a: Addresses, local: string, x: string)
    ensures var r := InviteAddresses(usable, a, local);
            var published := Published(usable, a.external, local, x) || Published(usable, a.observed, local, x)
                             || Published(usable, a.listening, local, x);
            && (x in r ==> published)
            && (published && x !in r ==> |r| == 4)
            && |r| <= 4
  {
    var all := Shareable(usable, a.external + a.observed + a.listening, local);
    InviteIsThePrefixOfTheRecord(usable, a, local);
    DedupSpec([], all);
    ShareableConcat(usable, a.external + a.observed, a.listening, local);
    ShareableConcat(usable, a.external, a.observed, local);
    ShareableMeaning(usable, a.external, local, x);
    ShareableMeaning(usable, a.observed, local, x);
    ShareableMeaning(usable, a.listening, local, x);
  }

  /** External addresses come before observed ones, and those before the ones listened on: if an address that
      is of neither earlier kind is in an invite, then all of the earlier kinds are, further in front. */
  lemma EarlierKindsComeFirst(usable: string -> bool, a: Addresses, local: string, x: string, i: nat)
    requires i < |InviteAddresses(usable, a, local)|
    ensures var r := InviteAddresses(usable, a, local);
            var external := (y: string) => Published(usable, a.external, local, y);
            var observed := (y: string) => Published(usable, a.observed, local, y);
            && (external(x) && !external(r[i]) ==> x in r[..i])
            && (observed(x) && !external(r[i]) && !observed(r[i]) ==> x in r[..i])
  {
    var e, o, l := Shareable(usable, a.external, local), Shareable(usable, a.observed, local),
                   Shareable(usable, a.listening, local);
    ShareableMeaning(usable, a.external, local, x);
    ShareableMeaning(usable, a.observed, local, x);
    ShareableMeaning(usable, a.external, local, InviteAddresses(usable, a, local)[i]);
    ShareableMeaning(usable, a.observed, local, InviteAddresses(usable, a, local)[i]);
    FrontOfInvite(usable, a, local, e, o + l, x, i);
    FrontOfInvite(usable, a, local, e + o, l, x, i);
  }

  lemma FrontOfInvite(usable: string -> bool, a: Addresses, local: string,
                      s: seq<string>, t: seq<string>, x: string, i: nat)
    requires s + t == Shareable(usable, a.external, local)
                      + (Shareable(usable, a.observed, local) + Shareable(usable, a.listening, local))
    requires i < |InviteAddresses(usable, a, local)|
    ensures x in s && InviteAddresses(usable, a, local)[i] !in s ==> x in InviteAddresses(usable, a, local)[..i]
  {
    InviteIsThePrefixOfTheRecord(usable, a, local);
    ShareableConcat(usable, a.external + a.observed, a.listening, local);
    ShareableConcat(usable, a.external, a.observed, local);
    assert Shareable(usable, a.external + a.observed + a.listening, local) == s + t;
    var full := DedupOnto([], s + t);
    if x in s && full[i] !in s {
      InFront(s, t, x, i);
      assert InviteAddresses(usable, a, local)[..i] == full[..i];
    }
  }

  /** Deduplication leaves the elements of the front part in front. */
  lemma InFront(s: seq<string>, t: seq<string>, x: string, i: nat)
    requires i < |DedupOnto([], s + t)| && x in s && DedupOnto([], s + t)[i] !in s
    ensures x in DedupOnto([], s + t)[..i]
  {
    var d := DedupOnto([], s);
    DedupConcat([], s, t);
    DedupSpec([], s);
    DedupSpec(d, t);
    var k :| 0 <= k < |d| && d[k] == x;
    assert DedupOnto([], s + t)[k] == x && k < i;
  }

  // --- as the daemon computes them ---------------------------------------------------------------

  method CollectShareableInviteAddrs(usable: string -> bool, dest: seq<string>, addresses: seq<string>, local: string)
    returns (r: seq<string>)
    ensures r == Collected(usable, dest, addresses, local)
  {
    r := dest;
    var i := 0;
    while i < |addresses|
      invariant i <= |addresses|
      invariant Collected(usable, r, addresses[i..], local) == Collected(usable, dest, addresses, local)
    {
      if |r| >= MAX_SHARE_INVITE_ADDRS {
        break;
      }
      assert addresses[i..][1..] == addresses[i + 1..];
      var address := ShareableAddress(usable, addresses[i], local);
      i := i + 1;
      if address.None? {
        continue;
      }
      if address.value in r {
        continue;
      }
      r := r + [address.value];
    }
  }

  method BestDirectCallInvite(usable: string -> bool, a: Addresses, local: string) returns (addrs: Option<seq<string>>)
    ensures addrs == if RendezvousAddresses(usable, a, local) == [] then None
                     else Some(Capped(RendezvousAddresses(usable, a, local)))
  {
    InviteIsThePrefixOfTheRecord(usable, a, local);
    var found := CollectShareableInviteAddrs(usable, [], a.external, local);
    found := CollectShareableInviteAddrs(usable, found, a.observed, local);
    found := CollectShareableInviteAddrs(usable, found, a.listening, local);
    return if found == [] then None else Some(found);
  }
}
