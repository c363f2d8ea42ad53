// internal/provider/security_context.go, and the user handling of CreatePod
// (internal/provider/pod.go:149-174).

module Users {
  import opened Strings
  import opened Kube

  datatype User = User(uid: string, gid: string)

  // os/user: LookupId and Lookup.
  datatype Accounts = Accounts(byId: map<string, User>, byName: map<string, User>)

  datatype Ids = Ids(uid: string, gid: string)

  // None: a lookup failed.
  function Resolve(context: Option<SecurityContext>, accounts: Accounts, maproot: int): Option<Ids> {
    if context.None? then Some(Ids("", ""))
    else
      var s := context.value;
      if s.runAsUser.Some? && FormatInt(s.runAsUser.value) !in accounts.byId then None
      else if s.runAsUserName.Some? && s.runAsUserName.value !in accounts.byName then None
      else
        var u := if s.runAsUserName.Some? then accounts.byName[s.runAsUserName.value]
                 else if s.runAsUser.Some? then accounts.byId[FormatInt(s.runAsUser.value)]
                 else User("", "");
        var uid := if s.runAsUserName.Some? then u.uid
                   else if s.runAsUser.Some? then FormatInt(s.runAsUser.value)
                   else "";
        var gid := if s.runAsGroup.Some? then FormatInt(s.runAsGroup.value) else "";
        MapRoot(Ids(uid, if uid != "" && gid == "" then u.gid else gid), accounts, maproot)
  }

  function MapRoot(ids: Ids, accounts: Accounts, maproot: int): Option<Ids> {
    if ids.uid == "0" && maproot > 0 then Override(accounts, maproot) else Some(ids)
  }

  function Override(accounts: Accounts, maproot: int): Option<Ids> {
    var mapuid := FormatInt(maproot);
    if mapuid in accounts.byId then Some(Ids(accounts.byId[mapuid].uid, accounts.byId[mapuid].gid)) else None
  }

  method UidGidFromSecurityContext(context: Option<SecurityContext>, accounts: Accounts, maproot: int)
    returns (ids: Option<Ids>)
    ensures ids == Resolve(context, accounts, maproot)
  {
    if context.None? {
      return Some(Ids("", ""));
    }
    var uid, gid, u := "", "", User("", "");
    var s := context.value;
    if s.runAsUser.Some? {
      uid := FormatInt(s.runAsUser.value);
      if uid !in accounts.byId {
        return None;
      }
      u := accounts.byId[uid];
    }
    if s.runAsGroup.Some? {
      gid := FormatInt(s.runAsGroup.value);
    }
    if s.runAsUserName.Some? {
      uid := s.runAsUserName.value;
      if uid !in accounts.byName {
        return None;
      }
      u := accounts.byName[uid];
      uid := u.uid;
    }
    if uid != "" && gid == "" {
      gid := u.gid;
    }
    if uid == "0" && maproot > 0 {
      var mapuid := FormatInt(maproot);
      if mapuid !in accounts.byId {
        return None;
      }
      u := accounts.byId[mapuid];
      uid := u.uid;
      gid := u.gid;
    }
    return Some(Ids(uid, gid));
  }

  // Lookups that agree with themselves: a user found by id has that id, ids are numbers, and every
  // user has a primary group.
  ghost predicate Consistent(accounts: Accounts) {
    && (forall id :: id in accounts.byId ==> accounts.byId[id].uid == id && accounts.byId[id].gid != "")
    && (forall n :: n in accounts.byName ==>
          accounts.byName[n].gid != "" && exists k: nat :: accounts.byName[n].uid == FormatInt(k))
  }

  predicate RootName(user: string) {
    user == "0" || user == "root"
  }

  lemma FormatIntNotRoot(n: int)
    ensures FormatInt(n) != "" && FormatInt(n) != "root"
    ensures FormatInt(n) == "0" <==> n == 0
  {
    FormatIntSign(n);
    assert FormatInt(n)[0] == '-' || '0' <= FormatInt(n)[0] <= '9';
    assert "root"[0] == 'r';
    assert FormatInt(0) == "0";
    if FormatInt(n) == "0" {
      FormatIntInjective(n, 0);
    }
  }

  // What can stand on a line of its own.
  predicate OneLine(v: string) {
    '\n' !in v && Tight(v) && (v != "" ==> v[|v| - 1] != '\\')
  }

  lemma FormatIntOneLine(n: int)
    ensures OneLine(FormatInt(n))
  {
    assert forall i :: 0 <= i < |FormatInt(n)| ==> FormatInt(n)[i] == '-' || '0' <= FormatInt(n)[i] <= '9';
  }

  // With an override uid, the security context never yields root.
  lemma ResolvedNotRoot(context: Option<SecurityContext>, accounts: Accounts, maproot: int)
    requires Consistent(accounts) && maproot > 0 && Resolve(context, accounts, maproot).Some?
    ensures !RootName(Resolve(context, accounts, maproot).value.uid)
    ensures OneLine(Resolve(context, accounts, maproot).value.uid)
  {
    FormatIntNotRoot(maproot);
    FormatIntOneLine(maproot);
    if context.Some? {
      var s := context.value;
      if s.runAsUserName.Some? {
        var k: nat :| accounts.byName[s.runAsUserName.value].uid == FormatInt(k);
        FormatIntNotRoot(k);
        FormatIntOneLine(k);
      } else if s.runAsUser.Some? {
        FormatIntNotRoot(s.runAsUser.value);
        FormatIntOneLine(s.runAsUser.value);
      }
    }
  }

  // The documentation says uid and gid are both empty or both set; a bare runAsGroup is the exception.
  lemma IdsBothOrNeither(context: Option<SecurityContext>, accounts: Accounts, maproot: int)
    requires Consistent(accounts) && Resolve(context, accounts, maproot).Some?
    ensures
      var ids := Resolve(context, accounts, maproot).value;
      (ids.uid == "" <==> ids.gid == "")
      <==> !(context.Some? && context.value.runAsGroup.Some?
             && context.value.runAsUser.None? && context.value.runAsUserName.None?)
  {
    FormatIntNotRoot(maproot);
    if context.Some? {
      var s := context.value;
      if s.runAsGroup.Some? {
        FormatIntNotRoot(s.runAsGroup.value);
      }
      if s.runAsUserName.Some? {
        var k: nat :| accounts.byName[s.runAsUserName.value].uid == FormatInt(k);
        FormatIntNotRoot(k);
      } else if s.runAsUser.Some? {
        FormatIntNotRoot(s.runAsUser.value);
      }
    }
  }

  // ---- The ids by the fields of the security context.

  // The user that is asked for is no account. The number is looked up even when a name decides.
  predicate NoAccount(s: SecurityContext, accounts: Accounts) {
    || (s.runAsUser.Some? && FormatInt(s.runAsUser.value) !in accounts.byId)
    || (s.runAsUserName.Some? && s.runAsUserName.value !in accounts.byName)
  }

  // It is root, and there is an override for that.
  predicate Remapped(s: SecurityContext, accounts: Accounts, maproot: int)
    requires !NoAccount(s, accounts)
  {
    && maproot > 0
    && (if s.runAsUserName.Some? then accounts.byName[s.runAsUserName.value].uid == "0" else s.runAsUser == Some(0))
  }

  lemma UserZero(s: SecurityContext)
    requires s.runAsUser.Some?
    ensures FormatInt(s.runAsUser.value) != ""
    ensures FormatInt(s.runAsUser.value) == "0" <==> s.runAsUser == Some(0)
  {
    FormatIntNotRoot(s.runAsUser.value);
  }

  lemma GroupGiven(s: SecurityContext)
    requires s.runAsGroup.Some?
    ensures FormatInt(s.runAsGroup.value) != ""
  {
    FormatIntNotRoot(s.runAsGroup.value);
  }

  // Exactly when there are none: the user asked for is unknown, or it is remapped to a user that is.
  lemma ResolvedFails(context: Option<SecurityContext>, accounts: Accounts, maproot: int)
    ensures Resolve(context, accounts, maproot).None?
      <==> context.Some? && (NoAccount(context.value, accounts)
                             || (Remapped(context.value, accounts, maproot) && FormatInt(maproot) !in accounts.byId))
  {
    if context.Some? && context.value.runAsUser.Some? {
      UserZero(context.value);
    }
  }

  // What stands in for root.
  lemma ResolvedRemapped(s: SecurityContext, accounts: Accounts, maproot: int)
    requires Resolve(Some(s), accounts, maproot).Some?
    ensures !NoAccount(s, accounts)
    ensures Remapped(s, accounts, maproot) ==>
      var u := accounts.byId[FormatInt(maproot)];
      Resolve(Some(s), accounts, maproot) == Some(Ids(u.uid, u.gid))
  {
    ResolvedFails(Some(s), accounts, maproot);
    if s.runAsUser.Some? {
      UserZero(s);
    }
  }

  // Otherwise the name decides over the number, and a group that is given over the user's own.
  lemma ResolvedIds(context: Option<SecurityContext>, accounts: Accounts, maproot: int)
    requires Resolve(context, accounts, maproot).Some?
    requires context.Some? ==>
      !NoAccount(context.value, accounts) && !Remapped(context.value, accounts, maproot)
    ensures
      var ids := Resolve(context, accounts, maproot).value;
      match context
      case None => ids == Ids("", "")
      case Some(s) =>
        && (s.runAsUserName.Some? ==> ids.uid == accounts.byName[s.runAsUserName.value].uid)
        && (s.runAsUserName.None? && s.runAsUser.Some? ==> ids.uid == FormatInt(s.runAsUser.value))
        && (s.runAsUserName.None? && s.runAsUser.None? ==> ids.uid == "")
        && (s.runAsGroup.Some? ==> ids.gid == FormatInt(s.runAsGroup.value))
        && (s.runAsGroup.None? && s.runAsUserName.Some? && ids.uid != "" ==>
              ids.gid == accounts.byName[s.runAsUserName.value].gid)
        && (s.runAsGroup.None? && s.runAsUserName.None? && s.runAsUser.Some? ==>
              ids.gid == accounts.byId[FormatInt(s.runAsUser.value)].gid)
        && (s.runAsGroup.None? && ids.uid == "" ==> ids.gid == "")
  {
    if context.Some? && context.value.runAsUser.Some? {
      UserZero(context.value);
    }
    if context.Some? && context.value.runAsGroup.Some? {
      GroupGiven(context.value);
    }
  }

  // ---- One container of CreatePod: ids are carried from container to container.

  predicate LooksRoot(values: seq<string>) {
    |values| == 0 || RootName(values[0])
  }

  function Carry(ids: Ids, unitUser: seq<string>, unitGroup: seq<string>, accounts: Accounts,
                 maproot: int): Option<Ids> {
    if ids.uid == "" && (LooksRoot(unitUser) || LooksRoot(unitGroup)) && maproot > 0 then Override(accounts, maproot)
    else Some(ids)
  }

  // The User values of the unit that is loaded.
  function FinalUser(ids: Ids, unitUser: seq<string>): seq<string> {
    if ids.uid != "" then [ids.uid] else unitUser
  }

  // The user systemd runs the unit as: the last assignment; none, or an empty one, is root.
  predicate RunsAsRoot(users: seq<string>) {
    |users| == 0 || users[|users| - 1] == "" || RootName(users[|users| - 1])
  }

  // The carried uid stays empty or non-root, and the unit runs as root exactly when nothing was
  // carried, the package's first User and Group look harmless, and yet its last User is root.
  lemma CarryNotRoot(ids: Ids, unitUser: seq<string>, unitGroup: seq<string>, accounts: Accounts, maproot: int)
    requires Consistent(accounts) && maproot > 0 && !RootName(ids.uid)
    requires Carry(ids, unitUser, unitGroup, accounts, maproot).Some?
    ensures !RootName(Carry(ids, unitUser, unitGroup, accounts, maproot).value.uid)
    ensures OneLine(ids.uid) ==> OneLine(Carry(ids, unitUser, unitGroup, accounts, maproot).value.uid)
    ensures
      var next := Carry(ids, unitUser, unitGroup, accounts, maproot).value;
      RunsAsRoot(FinalUser(next, unitUser))
      <==> ids.uid == "" && !LooksRoot(unitUser) && !LooksRoot(unitGroup) && RunsAsRoot(unitUser)
  {
    FormatIntNotRoot(maproot);
    FormatIntOneLine(maproot);
  }
}
