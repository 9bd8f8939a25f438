/** Permission-overwrite editing behind lobby lock/unlock and ban/unban
    (extensions/lobbies.py and its copy campfire/extensions/lobbies.py).

    A channel carries a list of overwrites; each names a role or member id and
    two permission bitsets, allow and deny.  Only the CONNECT bit is touched:
    a lobby is locked when the @everyone role's entry denies CONNECT, and a
    member is banned when the member's entry denies it.  Only the FIRST entry
    carrying an id is ever read or edited. */
module Overwrites {
  import opened Common

  /** Bit index of CONNECT in the platform's permission bitfield (1 << 20). */
  const CONNECT: nat := 20

  datatype OverwriteKind = RoleOverwrite | MemberOverwrite

  /** A permission overwrite; a bitset is the set of its raised bit indices. */
  datatype Overwrite = Overwrite(id: Id, kind: OverwriteKind, allow: set<nat>, deny: set<nat>)

  /** The entry edited so that CONNECT is denied: removed from allow, added to deny. */
  function DenyConnect(o: Overwrite): Overwrite {
    o.(allow := o.allow - {CONNECT}, deny := o.deny + {CONNECT})
  }

  /** The entry edited so that CONNECT is allowed: added to allow, removed from deny. */
  function AllowConnect(o: Overwrite): Overwrite {
    o.(allow := o.allow + {CONNECT}, deny := o.deny - {CONNECT})
  }

  /** Index of the first entry carrying id, as lightbulb.utils.find and the
      `for ... break` loops locate it. */
  function FindFirst(os: seq<Overwrite>, id: Id): (r: Option<nat>)
    ensures r.Some? ==> r.value < |os| && os[r.value].id == id
    ensures r.Some? ==> forall j :: 0 <= j < r.value ==> os[j].id != id
    ensures r.None? <==> forall j :: 0 <= j < |os| ==> os[j].id != id
  {
    if |os| == 0 then None
    else if os[0].id == id then Some(0)
    else match FindFirst(os[1..], id)
      case None => None
      case Some(k) => Some(k + 1)
  }

  /** lobby_is_locked / member_is_banned: the first entry carrying id is read,
      and only its deny set; no entry means not denied. */
  function IsDenied(os: seq<Overwrite>, id: Id): (b: bool)
    ensures b <==> exists i :: 0 <= i < |os| && os[i].id == id && CONNECT in os[i].deny &&
                              forall j :: 0 <= j < i ==> os[j].id != id
  {
    if |os| == 0 then false
    else if os[0].id == id then CONNECT in os[0].deny
    else
      var rest := IsDenied(os[1..], id);
      assert rest ==> exists i :: 0 <= i < |os| && os[i].id == id && CONNECT in os[i].deny &&
                                 forall j :: 0 <= j < i ==> os[j].id != id by {
        if rest {
          var i :| 0 <= i < |os[1..]| && os[1..][i].id == id && CONNECT in os[1..][i].deny &&
                   forall j :: 0 <= j < i ==> os[1..][j].id != id;
          assert forall j :: 0 <= j < i + 1 ==> os[j].id != id by {
            forall j | 0 <= j < i + 1 ensures os[j].id != id {
              if j > 0 { assert os[j] == os[1..][j - 1]; }
            }
          }
        }
      }
      assert (exists i :: 0 <= i < |os| && os[i].id == id && CONNECT in os[i].deny &&
                          forall j :: 0 <= j < i ==> os[j].id != id) ==> rest by {
        if exists i :: 0 <= i < |os| && os[i].id == id && CONNECT in os[i].deny &&
                       forall j :: 0 <= j < i ==> os[j].id != id {
          var i :| 0 <= i < |os| && os[i].id == id && CONNECT in os[i].deny &&
                   forall j :: 0 <= j < i ==> os[j].id != id;
          assert i > 0;
          assert os[1..][i - 1] == os[i];
        }
      }
      rest
  }

  /** ban_member's edit, and the evidently intended lock: CONNECT is denied on
      the first entry for id, or a new entry of the given kind denying it is
      appended when there is none. */
  function Deny(os: seq<Overwrite>, id: Id, kind: OverwriteKind): seq<Overwrite> {
    match FindFirst(os, id)
    case None => os + [Overwrite(id, kind, {}, {CONNECT})]
    case Some(i) => os[i := DenyConnect(os[i])]
  }

  /** unban_member's edit: CONNECT is allowed on the first entry for id, or a new
      entry of the given kind allowing it is appended when there is none. */
  function Allow(os: seq<Overwrite>, id: Id, kind: OverwriteKind): seq<Overwrite> {
    match FindFirst(os, id)
    case None => os + [Overwrite(id, kind, {CONNECT}, {})]
    case Some(i) => os[i := AllowConnect(os[i])]
  }

  /** lock_lobby as written: only an EMPTY list gets a fresh @everyone entry; a
      non-empty list without an @everyone entry comes back unchanged. */
  function LockedAsWritten(os: seq<Overwrite>, everyone: Id): seq<Overwrite> {
    if os == [] then [Overwrite(everyone, RoleOverwrite, {}, {CONNECT})]
    else match FindFirst(os, everyone)
      case None => os
      case Some(i) => os[i := DenyConnect(os[i])]
  }

  /** unlock_lobby as written: the mirror image of LockedAsWritten. */
  function UnlockedAsWritten(os: seq<Overwrite>, everyone: Id): seq<Overwrite> {
    if os == [] then [Overwrite(everyone, RoleOverwrite, {CONNECT}, {})]
    else match FindFirst(os, everyone)
      case None => os
      case Some(i) => os[i := AllowConnect(os[i])]
  }

  // ---------------------------------------------------------------------
  // The source's loops

  /** lightbulb.utils.find over the overwrite list: the first entry with id. */
  method FindOverwrite(os: seq<Overwrite>, id: Id) returns (k: Option<nat>)
    ensures k.Some? ==> k.value < |os| && os[k.value].id == id
    ensures k.Some? ==> forall j :: 0 <= j < k.value ==> os[j].id != id
    ensures k.None? ==> forall j :: 0 <= j < |os| ==> os[j].id != id
  {
    k := None;
    var i := 0;
    while i < |os|
      invariant 0 <= i <= |os|
      invariant forall j :: 0 <= j < i ==> os[j].id != id
    {
      if os[i].id == id {
        k := Some(i);
        return;
      }
      i := i + 1;
    }
  }

  /** lock_lobby (extensions/lobbies.py:221-244): edit the first @everyone entry
      in place and break, or build a one-entry list when the list is empty. */
  method LockLobby(os: seq<Overwrite>, everyone: Id) returns (r: seq<Overwrite>)
    ensures r == LockedAsWritten(os, everyone)
  {
    if os == [] {
      r := [Overwrite(everyone, RoleOverwrite, {}, {CONNECT})];
    } else {
      r := os;
      var i := 0;
      while i < |r|
        invariant 0 <= i <= |r| == |os|
        invariant r == os
        invariant forall j :: 0 <= j < i ==> os[j].id != everyone
      {
        if r[i].id == everyone {
          r := r[i := DenyConnect(r[i])];
          break;
        }
        i := i + 1;
      }
    }
  }

  /** unlock_lobby (extensions/lobbies.py:267-288). */
  method UnlockLobby(os: seq<Overwrite>, everyone: Id) returns (r: seq<Overwrite>)
    ensures r == UnlockedAsWritten(os, everyone)
  {
    if os != [] {
      r := os;
      var i := 0;
      while i < |r|
        invariant 0 <= i <= |r| == |os|
        invariant r == os
        invariant forall j :: 0 <= j < i ==> os[j].id != everyone
      {
        if r[i].id == everyone {
          r := r[i := AllowConnect(r[i])];
          break;
        }
        i := i + 1;
      }
    } else {
      r := [Overwrite(everyone, RoleOverwrite, {CONNECT}, {})];
    }
  }

  /** ban_member (extensions/lobbies.py:338-360): find the member's entry, then
      move CONNECT from allow to deny on it, or append a denying MEMBER entry. */
  method BanMember(os: seq<Overwrite>, member: Id) returns (r: seq<Overwrite>)
    ensures r == Deny(os, member, MemberOverwrite)
  {
    var found := FindOverwrite(os, member);
    if found.None? {
      r := os + [Overwrite(member, MemberOverwrite, {}, {CONNECT})];
    } else {
      r := os[found.value := DenyConnect(os[found.value])];
    }
  }

  /** unban_member (extensions/lobbies.py:380-402). */
  method UnbanMember(os: seq<Overwrite>, member: Id) returns (r: seq<Overwrite>)
    ensures r == Allow(os, member, MemberOverwrite)
  {
    var found := FindOverwrite(os, member);
    if found.None? {
      r := os + [Overwrite(member, MemberOverwrite, {CONNECT}, {})];
    } else {
      r := os[found.value := AllowConnect(os[found.value])];
    }
  }

  /** The lock lock_lobby's docstring (extensions/lobbies.py:204-209) calls
      for: deny CONNECT on the @everyone entry, appending a ROLE entry when
      there is none, whether or not the list is empty. */
  method LockLobbyFixed(os: seq<Overwrite>, everyone: Id) returns (r: seq<Overwrite>)
    ensures r == Deny(os, everyone, RoleOverwrite)
  {
    var found := FindOverwrite(os, everyone);
    if found.None? {
      r := os + [Overwrite(everyone, RoleOverwrite, {}, {CONNECT})];
    } else {
      r := os[found.value := DenyConnect(os[found.value])];
    }
  }

  // ---------------------------------------------------------------------
  // What the edits achieve

  /** After a Deny edit for id (ban, or the fixed lock), id is denied CONNECT;
      the list grows by at most one entry. */
  lemma DenyDenies(os: seq<Overwrite>, id: Id, kind: OverwriteKind)
    ensures IsDenied(Deny(os, id, kind), id)
    ensures |os| <= |Deny(os, id, kind)| <= |os| + 1
  {
    var r := Deny(os, id, kind);
    match FindFirst(os, id)
    case None =>
      assert r[|os|].id == id && CONNECT in r[|os|].deny;
    case Some(i) =>
      assert r[i].id == id && CONNECT in r[i].deny;
  }

  /** After an Allow edit for id (unban), id is not denied CONNECT. */
  lemma AllowAllows(os: seq<Overwrite>, id: Id, kind: OverwriteKind)
    ensures !IsDenied(Allow(os, id, kind), id)
    ensures |os| <= |Allow(os, id, kind)| <= |os| + 1
  {
    var r := Allow(os, id, kind);
    match FindFirst(os, id)
    case None =>
      FirstMatchAt(r, id, |os|);
    case Some(k) =>
      FirstMatchAt(r, id, k);
  }

  /** The search's answer is pinned down by the first position carrying id. */
  lemma FirstMatchAt(os: seq<Overwrite>, id: Id, k: nat)
    requires k < |os| && os[k].id == id
    requires forall j :: 0 <= j < k ==> os[j].id != id
    ensures FindFirst(os, id) == Some(k)
    ensures IsDenied(os, id) <==> CONNECT in os[k].deny
  {
  }

  /** Nothing else changes: an edit for id leaves every old entry but the first
      one carrying id as it was, changes only CONNECT on that one, and leaves
      the denied status of every other id as it was. */
  lemma DenyFrame(os: seq<Overwrite>, id: Id, kind: OverwriteKind, other: Id)
    requires other != id
    ensures var r := Deny(os, id, kind);
      (forall j :: 0 <= j < |os| && (FindFirst(os, id).None? || j != FindFirst(os, id).value) ==> r[j] == os[j]) &&
      (FindFirst(os, id).Some? ==> var i := FindFirst(os, id).value;
         r[i].id == id && r[i].kind == os[i].kind &&
         r[i].allow - {CONNECT} == os[i].allow - {CONNECT} &&
         r[i].deny - {CONNECT} == os[i].deny - {CONNECT}) &&
      IsDenied(r, other) == IsDenied(os, other)
  {
    var r := Deny(os, id, kind);
    OtherIdUnaffected(os, r, id, other);
  }

  /** The same frame for an Allow edit. */
  lemma AllowFrame(os: seq<Overwrite>, id: Id, kind: OverwriteKind, other: Id)
    requires other != id
    ensures var r := Allow(os, id, kind);
      (forall j :: 0 <= j < |os| && (FindFirst(os, id).None? || j != FindFirst(os, id).value) ==> r[j] == os[j]) &&
      (FindFirst(os, id).Some? ==> var i := FindFirst(os, id).value;
         r[i].id == id && r[i].kind == os[i].kind &&
         r[i].allow - {CONNECT} == os[i].allow - {CONNECT} &&
         r[i].deny - {CONNECT} == os[i].deny - {CONNECT}) &&
      IsDenied(r, other) == IsDenied(os, other)
  {
    var r := Allow(os, id, kind);
    OtherIdUnaffected(os, r, id, other);
  }

  /** Entries carrying other ids keep their positions and contents, so the
      first-match reading of any other id is unchanged. */
  lemma OtherIdUnaffected(os: seq<Overwrite>, r: seq<Overwrite>, id: Id, other: Id)
    requires other != id
    requires |os| <= |r| <= |os| + 1
    requires forall j :: 0 <= j < |os| ==> r[j].id == os[j].id
    requires forall j :: 0 <= j < |os| && os[j].id != id ==> r[j] == os[j]
    requires |r| == |os| + 1 ==> r[|os|].id == id
    ensures IsDenied(r, other) == IsDenied(os, other)
  {
    if IsDenied(os, other) {
      var i :| 0 <= i < |os| && os[i].id == other && CONNECT in os[i].deny &&
               forall j :: 0 <= j < i ==> os[j].id != other;
      assert r[i] == os[i];
      assert forall j :: 0 <= j < i ==> r[j].id != other;
    }
    if IsDenied(r, other) {
      var i :| 0 <= i < |r| && r[i].id == other && CONNECT in r[i].deny &&
               forall j :: 0 <= j < i ==> r[j].id != other;
      assert i < |os|;
      assert r[i] == os[i];
      assert forall j :: 0 <= j < i ==> os[j].id != other;
    }
  }

  /** lock_lobby as written does lock whenever the list is empty or already has
      an @everyone entry, and then agrees with the intended lock. */
  lemma LockedAsWrittenLocks(os: seq<Overwrite>, everyone: Id)
    requires os == [] || FindFirst(os, everyone).Some?
    ensures LockedAsWritten(os, everyone) == Deny(os, everyone, RoleOverwrite)
    ensures IsDenied(LockedAsWritten(os, everyone), everyone)
  {
    DenyDenies(os, everyone, RoleOverwrite);
  }

  /** lock_lobby as written on a non-empty list with no @everyone entry: the
      list comes back unchanged and the lobby is NOT locked. */
  lemma LockedAsWrittenMissesEveryone(os: seq<Overwrite>, everyone: Id)
    requires os != [] && FindFirst(os, everyone).None?
    ensures LockedAsWritten(os, everyone) == os
    ensures !IsDenied(LockedAsWritten(os, everyone), everyone)
  {
  }

  /** A concrete input: a lobby whose only overwrite is a ban on member 7 stays
      unlocked after lock_lobby, although the lock command reports success. */
  lemma LockAfterBanDoesNotLock()
    ensures var banned := [Overwrite(7, MemberOverwrite, {}, {CONNECT})];
      LockedAsWritten(banned, 1) == banned && !IsDenied(LockedAsWritten(banned, 1), 1)
  {
    var banned := [Overwrite(7, MemberOverwrite, {}, {CONNECT})];
    assert FindFirst(banned, 1) == None;
  }

  /** The corrected lock always locks, whatever the list holds. */
  lemma LockFixedLocks(os: seq<Overwrite>, everyone: Id)
    ensures IsDenied(Deny(os, everyone, RoleOverwrite), everyone)
    ensures os == [] ==> Deny(os, everyone, RoleOverwrite) == LockedAsWritten(os, everyone)
  {
    DenyDenies(os, everyone, RoleOverwrite);
  }

  /** unlock_lobby always leaves the lobby unlocked: it clears CONNECT from the
      @everyone entry's deny set, and a list without such an entry was not
      locked to begin with. */
  lemma UnlockedAsWrittenUnlocks(os: seq<Overwrite>, everyone: Id)
    ensures !IsDenied(UnlockedAsWritten(os, everyone), everyone)
  {
    if os == [] {
    } else if FindFirst(os, everyone).Some? {
      AllowAllows(os, everyone, RoleOverwrite);
      assert UnlockedAsWritten(os, everyone) == Allow(os, everyone, RoleOverwrite);
    }
  }

  /** unlock_lobby changes nothing but the first @everyone entry: on a
      non-empty list without one it returns the list unchanged; otherwise it
      is the Allow edit, which keeps every other entry and, on the edited
      entry, its id, kind and every permission but CONNECT. */
  lemma UnlockedAsWrittenFrame(os: seq<Overwrite>, everyone: Id)
    ensures os != [] && FindFirst(os, everyone).None? ==> UnlockedAsWritten(os, everyone) == os
    ensures FindFirst(os, everyone).Some? ==>
      var i := FindFirst(os, everyone).value;
      var r := UnlockedAsWritten(os, everyone);
      r == Allow(os, everyone, RoleOverwrite) && |r| == |os| &&
      (forall j :: 0 <= j < |os| && j != i ==> r[j] == os[j]) &&
      r[i].id == everyone && r[i].kind == os[i].kind &&
      r[i].allow - {CONNECT} == os[i].allow - {CONNECT} &&
      r[i].deny - {CONNECT} == os[i].deny - {CONNECT} &&
      CONNECT in r[i].allow && CONNECT !in r[i].deny
  {
    if FindFirst(os, everyone).Some? {
      var i := FindFirst(os, everyone).value;
      assert os != [];
      assert UnlockedAsWritten(os, everyone) == os[i := AllowConnect(os[i])];
    }
  }

  /** Lock then unlock leaves the lobby unlocked, whether or not it had an
      @everyone entry beforehand, with either lock. */
  lemma LockThenUnlock(os: seq<Overwrite>, everyone: Id)
    ensures !IsDenied(UnlockedAsWritten(LockedAsWritten(os, everyone), everyone), everyone)
    ensures !IsDenied(UnlockedAsWritten(Deny(os, everyone, RoleOverwrite), everyone), everyone)
  {
    UnlockedAsWrittenUnlocks(LockedAsWritten(os, everyone), everyone);
    UnlockedAsWrittenUnlocks(Deny(os, everyone, RoleOverwrite), everyone);
  }

  /** Ban then unban: the member is no longer banned and no second entry was
      appended for the member. */
  lemma BanThenUnban(os: seq<Overwrite>, member: Id)
    ensures var banned := Deny(os, member, MemberOverwrite);
      !IsDenied(Allow(banned, member, MemberOverwrite), member) &&
      |Allow(banned, member, MemberOverwrite)| == |banned|
  {
    var banned := Deny(os, member, MemberOverwrite);
    AllowAllows(banned, member, MemberOverwrite);
    match FindFirst(os, member)
    case None =>
      assert banned[|os|].id == member;
      assert FindFirst(banned, member).Some?;
    case Some(i) =>
      assert banned[i].id == member;
      assert FindFirst(banned, member).Some?;
  }
}
