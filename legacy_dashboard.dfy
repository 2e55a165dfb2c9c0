/** The older server, server.js: the same store, catalog and command log as the newer
    one, but the admin list has no protected member and no self-heal, adding an admin
    twice is a silent success, and there are no routes to remove an admin or a manual
    command or to list the admins. */
module LegacyDashboard {
  import opened Common
  import opened Auth
  import opened Catalog
  import opened CommandLogs

  /** The admin a missing admins file is seeded with, `DEFAULT_ADMIN_ID`. */
  const DEFAULT_ADMIN_ID: string := "510792663210131456"

  /** `ensureDataFiles` seeds a missing admins file with the default admin alone. */
  function SeedAdmins(doc: Option<seq<string>>): seq<string> {
    doc.GetOr([DEFAULT_ADMIN_ID])
  }

  /** The body of `POST /api/admin/add-admin` once the list has been read: 400 without
      an id; otherwise success with the list that now holds the id, appended only
      when it was not there. */
  function AddAdminResult(admins: seq<string>, userId: Option<string>): (r: Reply<seq<string>>)
    ensures r.Ok? <==> Truthy(userId)
    ensures !Truthy(userId) ==> r == Fail(400, "userId is required")
    ensures r.Ok? ==> IsAdmin(userId, r.body) && admins <= r.body
    ensures r.Ok? && userId.value in admins ==> r.body == admins
    ensures r.Ok? && userId.value !in admins ==> r.body == admins + [userId.value]
  {
    if !Truthy(userId) then Fail(400, "userId is required")
    else if userId.value in admins then Ok(admins)
    else Ok(admins + [userId.value])
  }

  /** Adding the same id twice has the effect of adding it once, and no id is ever
      listed twice by adding it. */
  lemma {:induction false} AddAdminIdempotent(admins: seq<string>, userId: Option<string>)
    requires Truthy(userId)
    ensures var once := AddAdminResult(admins, userId);
            once.Ok? && AddAdminResult(once.body, userId) == once
  {
    var once := AddAdminResult(admins, userId);
    assert userId.value in once.body;
  }

  /** Adding never lists an id twice: a list without duplicates stays without. */
  lemma AddAdminKeepsDistinct(admins: seq<string>, userId: Option<string>)
    requires Distinct(admins)
    ensures AddAdminResult(admins, userId).Ok? ==> Distinct(AddAdminResult(admins, userId).body)
  {
    if Truthy(userId) && userId.value !in admins {
      AppendKeepsDistinct(admins, userId.value);
    }
  }

  /** The admin file after `requireAdmin`: untouched without a user, else seeded. */
  function AdminsAfterGate(doc: Option<seq<string>>, user: Option<User>): Option<seq<string>> {
    if user.None? then doc else Some(SeedAdmins(doc))
  }

  /** The manual-commands file after `requireAdmin`: `getAdmins` seeds it too. */
  function ManualAfterGate(doc: Option<seq<ManualCommand>>, user: Option<User>): Option<seq<ManualCommand>> {
    if user.None? then doc else Some(SeedManual(doc))
  }

  /** The process state: the two JSON files (None while a file does not exist) and
      the in-memory command log. */
  class Server {
    var adminsDoc: Option<seq<string>>
    var manualDoc: Option<seq<ManualCommand>>
    const commandLogs: LogBuffer

    /** Start-up: whatever files exist, then `ensureDataFiles`, and an empty log. */
    constructor (admins: Option<seq<string>>, manual: Option<seq<ManualCommand>>)
      ensures fresh(commandLogs) && commandLogs.entries == []
      ensures adminsDoc == Some(SeedAdmins(admins)) && manualDoc == Some(SeedManual(manual))
    {
      adminsDoc := admins;
      manualDoc := manual;
      commandLogs := new LogBuffer();
      new;
      EnsureDataFiles();
    }

    /** `ensureDataFiles`: writes the default of each file that does not exist. */
    method EnsureDataFiles()
      modifies this
      ensures adminsDoc == Some(SeedAdmins(old(adminsDoc)))
      ensures manualDoc == Some(SeedManual(old(manualDoc)))
    {
      if adminsDoc.None? {
        adminsDoc := Some([DEFAULT_ADMIN_ID]);
      }
      if manualDoc.None? {
        manualDoc := Some([]);
      }
    }

    /** `saveAdmins`: the whole file is replaced. */
    method SaveAdmins(admins: seq<string>)
      modifies this
      ensures adminsDoc == Some(admins) && manualDoc == old(manualDoc)
    {
      adminsDoc := Some(admins);
    }

    /** `getAdmins`: seeds the files and returns the stored list as it is. */
    method GetAdmins() returns (admins: seq<string>)
      modifies this
      ensures admins == SeedAdmins(old(adminsDoc))
      ensures old(adminsDoc).Some? ==> admins == old(adminsDoc).value
      ensures adminsDoc == Some(admins) && manualDoc == Some(SeedManual(old(manualDoc)))
    {
      EnsureDataFiles();
      admins := adminsDoc.value;
    }

    /** `saveManualCommands`: the whole file is replaced. */
    method SaveManualCommands(commands: seq<ManualCommand>)
      modifies this
      ensures manualDoc == Some(commands) && adminsDoc == old(adminsDoc)
    {
      manualDoc := Some(commands);
    }

    /** `getManualCommands`: seeds the files and reads the list. */
    method GetManualCommands() returns (commands: seq<ManualCommand>)
      modifies this
      ensures commands == SeedManual(old(manualDoc))
      ensures manualDoc == Some(commands) && adminsDoc == Some(SeedAdmins(old(adminsDoc)))
    {
      EnsureDataFiles();
      commands := manualDoc.value;
    }

    /** `requireAdmin`: 401 without a session user (nothing is read), otherwise the
        stored admin list is read and the user must be on it. */
    method RequireAdmin(session: Session) returns (g: Gate)
      modifies this
      ensures g == AdminGate(session.user, SeedAdmins(old(adminsDoc)))
      ensures adminsDoc == AdminsAfterGate(old(adminsDoc), session.user)
      ensures manualDoc == ManualAfterGate(old(manualDoc), session.user)
    {
      if session.user.None? {
        return Deny(401, "Not authenticated");
      }
      var admins := GetAdmins();
      if !IsAdmin(session.user.value.id, admins) {
        return Deny(403, "Not an admin");
      }
      return Pass;
    }

    /** `GET /api/auth/me`: the session user and whether the stored list holds it. */
    method Me(session: Session) returns (user: Option<User>, isAdmin: bool)
      modifies this
      ensures user == session.user
      ensures isAdmin <==> user.Some? && IsAdmin(user.value.id, SeedAdmins(old(adminsDoc)))
      ensures adminsDoc == AdminsAfterGate(old(adminsDoc), session.user)
      ensures manualDoc == ManualAfterGate(old(manualDoc), session.user)
    {
      user := session.user;
      if user.None? {
        return user, false;
      }
      var admins := GetAdmins();
      isAdmin := IsAdmin(user.value.id, admins);
    }

    /** `GET /api/commands`: the manual list is read (seeding missing files) only after
        Discord's body has been parsed, and before that body is mapped over; any throw
        answers 500. On success Discord's commands are merged with the manual list. */
    method Commands(remote: RemoteReply) returns (r: Reply<seq<CatalogEntry>>)
      modifies this
      ensures !remote.Listed? ==> r == Fail(500, "Failed to fetch commands")
      ensures remote.CallThrew? ==> adminsDoc == old(adminsDoc) && manualDoc == old(manualDoc)
      ensures !remote.CallThrew? ==> adminsDoc == Some(SeedAdmins(old(adminsDoc)))
                                     && manualDoc == Some(SeedManual(old(manualDoc)))
      ensures remote.Listed? ==> r == Ok(Merge(remote.commands, SeedManual(old(manualDoc))))
    {
      if remote.CallThrew? {
        return Fail(500, "Failed to fetch commands");
      }
      var manual := GetManualCommands();
      if remote.NotAList? {
        return Fail(500, "Failed to fetch commands");
      }
      r := Ok(Merge(remote.commands, manual));
    }

    /** `POST /api/admin/manual-command` behind `requireAdmin`: on success exactly one
        record, the one returned, is appended to the stored list. */
    method AddManualCommand(session: Session, body: ManualCommandBody, now: nat) returns (r: Reply<ManualCommand>)
      modifies this
      ensures adminsDoc == AdminsAfterGate(old(adminsDoc), session.user)
      ensures var gate := AdminGate(session.user, SeedAdmins(old(adminsDoc)));
              var current := SeedManual(old(manualDoc));
              && (gate.Deny? ==> r == gate.AsReply() && manualDoc == ManualAfterGate(old(manualDoc), session.user))
              && (gate.Pass? ==> r == PostManual(body, now)
                                 && manualDoc == Some(if r.Ok? then current + [r.body] else current))
    {
      var gate := RequireAdmin(session);
      if gate.Deny? {
        return gate.AsReply();
      }
      if !Truthy(body.name) {
        return Fail(400, "Name is required");
      }
      var current := GetManualCommands();
      var command := NewManualCommand(body, now);
      current := current + [command];
      SaveManualCommands(current);
      r := Ok(command);
    }

    /** `POST /api/admin/add-admin` behind `requireAdmin`. */
    method AddAdmin(session: Session, userId: Option<string>) returns (r: Reply<seq<string>>)
      modifies this
      ensures manualDoc == ManualAfterGate(old(manualDoc), session.user)
      ensures var gate := AdminGate(session.user, SeedAdmins(old(adminsDoc)));
              && (gate.Deny? ==> r == gate.AsReply() && adminsDoc == AdminsAfterGate(old(adminsDoc), session.user))
              && (gate.Pass? ==> r == AddAdminResult(SeedAdmins(old(adminsDoc)), userId)
                                 && adminsDoc == Some(if r.Ok? then r.body else SeedAdmins(old(adminsDoc))))
    {
      var gate := RequireAdmin(session);
      if gate.Deny? {
        return gate.AsReply();
      }
      if !Truthy(userId) {
        return Fail(400, "userId is required");
      }
      var admins := GetAdmins();
      if userId.value !in admins {
        admins := admins + [userId.value];
        SaveAdmins(admins);
      }
      r := Ok(admins);
    }

    /** `GET /api/admin/command-logs` behind `requireAdmin`: the newest 200 records. */
    method CommandLogsRecent(session: Session) returns (r: Reply<seq<LogEntry>>)
      modifies this
      ensures adminsDoc == AdminsAfterGate(old(adminsDoc), session.user)
      ensures manualDoc == ManualAfterGate(old(manualDoc), session.user)
      ensures var gate := AdminGate(session.user, SeedAdmins(old(adminsDoc)));
              && (gate.Deny? ==> r == gate.AsReply())
              && (gate.Pass? ==> r.Ok? && |r.body| == (if |commandLogs.entries| < RECENT_WINDOW then |commandLogs.entries| else RECENT_WINDOW)
                                 && r.body == commandLogs.entries[|commandLogs.entries| - |r.body|..])
    {
      var gate := RequireAdmin(session);
      if gate.Deny? {
        return gate.AsReply();
      }
      var recent := commandLogs.Recent();
      r := Ok(recent);
    }
  }

  /** A new server whose files were never written starts with the default admin only
      and no manual commands. */
  method FreshStartSeedsDefaultAdmin() returns (server: Server)
    ensures server.adminsDoc == Some([DEFAULT_ADMIN_ID]) && server.manualDoc == Some([])
  {
    server := new Server(None, None);
  }
}
