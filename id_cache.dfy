/** The archive's `IdCache`: a per-session memo from numeric user and group
    ids to display names. The operating system's account database is a
    parameter (`userNameOf`, `groupNameOf`): `None` when the id is unknown. */
module IdCaches {

  import opened Wrappers
  import opened JavaInt
  import opened Text
  import opened Links

  /** What the cache shows for `id`: the decimal id when numeric ids are
      requested, else the account name, falling back to the decimal id. */
  function DisplayName(nameOf: int -> Option<string>, id: int, numeric: bool): string
  {
    if numeric then IntToString(id)
    else match nameOf(id)
      case Some(name) => name
      case None => IntToString(id)
  }

  lemma NumericNameReadsBack(nameOf: int -> Option<string>, id: int)
    ensures ParseInt(DisplayName(nameOf, id, true), 10) == Some(id)
  {
    IntToStringRoundTrip(id, 10);
  }

  /** Without numeric ids the name is the account name exactly when the
      account database knows the id, and otherwise the decimal id. */
  lemma ResolvedOrDecimal(nameOf: int -> Option<string>, id: int)
    ensures nameOf(id).Some? ==> DisplayName(nameOf, id, false) == nameOf(id).value
    ensures nameOf(id).None? ==> ParseInt(DisplayName(nameOf, id, false), 10) == Some(id)
  {
    IntToStringRoundTrip(id, 10);
  }

  class IdCache {
    const userNameOf: int -> Option<string>
    const groupNameOf: int -> Option<string>
    /** The names resolved so far in this session. */
    var users: map<int, string>
    var groups: map<int, string>
    /** How many times the account database has been asked. */
    var queries: nat

    /** Every remembered name is the one a fresh lookup would give. */
    ghost predicate Valid()
      reads this
    {
      && (forall uid :: uid in users ==> users[uid] == DisplayName(userNameOf, uid, false))
      && (forall gid :: gid in groups ==> groups[gid] == DisplayName(groupNameOf, gid, false))
    }

    constructor (userNameOf: int -> Option<string>, groupNameOf: int -> Option<string>)
      ensures Valid()
      ensures this.userNameOf == userNameOf && this.groupNameOf == groupNameOf
      ensures users == map[] && groups == map[] && queries == 0
    {
      this.userNameOf := userNameOf;
      this.groupNameOf := groupNameOf;
      users := map[];
      groups := map[];
      queries := 0;
    }

    /** `getUser(link, numeric)`: the display name of the link's uid. The
        account database is asked at most once per uid and session. */
    method GetUser(link: Link, numeric: bool) returns (name: string)
      requires Valid()
      modifies this
      ensures Valid()
      ensures name == DisplayName(userNameOf, link.uid, numeric)
      ensures groups == old(groups)
      ensures numeric ==> users == old(users) && queries == old(queries)
      ensures !numeric ==> users == old(users)[link.uid := name]
      ensures !numeric ==> queries == old(queries) + (if link.uid in old(users) then 0 else 1)
    {
      if numeric {
        name := IntToString(link.uid);
      } else if link.uid in users {
        name := users[link.uid];
      } else {
        var resolved := userNameOf(link.uid);
        queries := queries + 1;
        name := if resolved.Some? then resolved.value else IntToString(link.uid);
        users := users[link.uid := name];
      }
    }

    /** `getGroup(link, numeric)`: the same for the link's gid. */
    method GetGroup(link: Link, numeric: bool) returns (name: string)
      requires Valid()
      modifies this
      ensures Valid()
      ensures name == DisplayName(groupNameOf, link.gid, numeric)
      ensures users == old(users)
      ensures numeric ==> groups == old(groups) && queries == old(queries)
      ensures !numeric ==> groups == old(groups)[link.gid := name]
      ensures !numeric ==> queries == old(queries) + (if link.gid in old(groups) then 0 else 1)
    {
      if numeric {
        name := IntToString(link.gid);
      } else if link.gid in groups {
        name := groups[link.gid];
      } else {
        var resolved := groupNameOf(link.gid);
        queries := queries + 1;
        name := if resolved.Some? then resolved.value else IntToString(link.gid);
        groups := groups[link.gid := name];
      }
    }
  }

  /** `testIdCache`: a uid the account database does not know, searched
      upwards from 60000 and stopping at 65535. */
  method FindUnknownUid(userByUid: int -> Option<string>) returns (uid: int)
    ensures 60000 <= uid <= 65535
    ensures uid < 65535 ==> userByUid(uid).None?
    ensures forall u :: 60000 <= u < uid ==> userByUid(u).Some?
  {
    uid := 60000;
    while uid < 65535 && userByUid(uid).Some?
      invariant 60000 <= uid <= 65535
      invariant forall u :: 60000 <= u < uid ==> userByUid(u).Some?
    {
      uid := uid + 1;
    }
  }

  /** The expectations of `testIdCache` as one session: a negative id in
      numeric mode, root, the uid of the current user, and then an unknown
      uid, which falls back to its decimal form. A second lookup of the
      unknown uid asks nobody. */
  method IdCacheSession(userNameOf: int -> Option<string>, groupNameOf: int -> Option<string>, uid: Int)
    returns (negative: string, root: string, own: string, invalid: int, unknown: string, askedAgain: bool)
    requires userNameOf(0) == Some("root")
    ensures negative == "-17" && root == "root"
    ensures userNameOf(uid).Some? ==> own == userNameOf(uid).value
    ensures 60000 <= invalid <= 65535
    ensures invalid < 65535 ==> unknown == IntToString(invalid)
    ensures !askedAgain
  {
    var cache := new IdCache(userNameOf, groupNameOf);
    negative := cache.GetUser(NewLink(None, None, None, -1, -1, -17, -1, 0xffff), true);
    assert negative == "-17";
    root := cache.GetUser(NewLink(None, None, None, -1, -1, 0, -1, 0xffff), false);
    own := cache.GetUser(NewLink(None, None, None, -1, -1, uid, -1, 0xffff), false);
    invalid := FindUnknownUid(userNameOf);
    unknown := cache.GetUser(NewLink(None, None, None, -1, -1, invalid, -1, 0xffff), false);
    var asked := cache.queries;
    var again := cache.GetUser(NewLink(None, None, None, -1, -1, invalid, -1, 0xffff), false);
    assert again == unknown;
    askedAgain := cache.queries != asked;
  }
}
