/**
 * The allow-list of Telegram user ids that may use the restricted commands.
 * It starts as {ADMIN_ID}; only the admin may grant or revoke.
 */
module Access {
  import opened Wrappers
  import opened Numerals

  const AdminId: int := 2028673755

  /** The reply each admin command sends. */
  datatype AdminReply = Forbidden | Usage | InvalidId | Granted(id: int) | Revoked(id: int) | NotGranted

  class AllowList {
    /** ALLOWED_USERS */
    var users: set<int>

    constructor ()
      ensures users == {AdminId}
    {
      users := {AdminId};
    }

    /** is_allowed: membership of the caller's id. */
    function IsAllowed(id: int): (allowed: bool)
      reads this
      ensures allowed <==> id in users
    {
      id in users
    }

    /**
     * /grant <user_id>: a caller other than the admin is refused, a missing
     * argument gets the usage line, an argument int() rejects gets the invalid
     * id reply; otherwise the id is added.
     */
    method Grant(caller: int, args: seq<string>) returns (reply: AdminReply)
      modifies this
      ensures caller != AdminId ==> reply == Forbidden
      ensures caller == AdminId && args == [] ==> reply == Usage
      ensures caller == AdminId && args != [] && ParseInt(args[0]).None? ==> reply == InvalidId
      ensures caller == AdminId && args != [] && ParseInt(args[0]).Some? ==>
        reply == Granted(ParseInt(args[0]).value)
      ensures users == if reply.Granted? then old(users) + {reply.id} else old(users)
    {
      if caller != AdminId {
        return Forbidden;
      }
      if args == [] {
        return Usage;
      }
      var parsed := ParseInt(args[0]);
      if parsed.None? {
        return InvalidId;
      }
      users := users + {parsed.value};
      reply := Granted(parsed.value);
    }

    /**
     * /revoke <user_id>: the same refusals as /grant; an id that is not in the
     * list gets "not granted" and changes nothing, otherwise it is removed.
     */
    method Revoke(caller: int, args: seq<string>) returns (reply: AdminReply)
      modifies this
      ensures caller != AdminId ==> reply == Forbidden
      ensures caller == AdminId && args == [] ==> reply == Usage
      ensures caller == AdminId && args != [] && ParseInt(args[0]).None? ==> reply == InvalidId
      ensures caller == AdminId && args != [] && ParseInt(args[0]).Some? ==>
        reply == if ParseInt(args[0]).value in old(users) then Revoked(ParseInt(args[0]).value) else NotGranted
      ensures users == if reply.Revoked? then old(users) - {reply.id} else old(users)
    {
      if caller != AdminId {
        return Forbidden;
      }
      if args == [] {
        return Usage;
      }
      var parsed := ParseInt(args[0]);
      if parsed.None? {
        return InvalidId;
      }
      if parsed.value in users {
        users := users - {parsed.value};
        reply := Revoked(parsed.value);
      } else {
        reply := NotGranted;
      }
    }
  }

  /**
   * A session: the admin grants a user by the decimal text of its id, the user
   * is then allowed, a second revoke reports "not granted", and a non-admin's
   * revoke of the admin changes nothing.
   */
  method GrantRevokeSession(user: int) returns (afterGrant: bool, second: AdminReply, adminStays: bool)
    requires user != AdminId
    ensures afterGrant && second == NotGranted && adminStays
  {
    var acl := new AllowList();
    ParseShowInt(user);
    ParseShowInt(AdminId);
    var r := acl.Grant(AdminId, [ShowInt(user)]);
    afterGrant := acl.IsAllowed(user);
    r := acl.Revoke(AdminId, [ShowInt(user)]);
    second := acl.Revoke(AdminId, [ShowInt(user)]);
    r := acl.Revoke(user, [ShowInt(AdminId)]);
    adminStays := acl.IsAllowed(AdminId);
  }
}
