/** The newer server, project25/project25/server.js: an admin list whose main admin
    can never be removed and is put back whenever it is missing, manual commands
    that can be added and deleted, the merged command catalog and the command log. */
module Dashboard {
  import opened Common
  import opened Auth
  import opened Catalog
  import opened CommandLogs

  /** The protected admin, `MAIN_ADMIN_ID`. */
  const MAIN_ADMIN_ID: string := "510792663210131456"

  /** `ensureDataFiles` seeds a missing admins file with the main admin alone. */
  function SeedAdmins(doc: Option<seq<string>>): seq<string> {
    doc.GetOr([MAIN_ADMIN_ID])
  }

  /** The self-heal in `getAdmins`: the main admin is appended when it is missing. */
  function Healed(admins: seq<string>): (r: seq<string>)
    ensures MAIN_ADMIN_ID in r
    ensures admins <= r && |r| <= |admins| + 1
    ensures forall x :: x in r ==> x in admins || x == MAIN_ADMIN_ID
    ensures MAIN_ADMIN_ID in admins ==> r == admins
  {
    if MAIN_ADMIN_ID in admins then admins else admins + [MAIN_ADMIN_ID]
  }

  /** The body of `POST /api/admin/add-admin` once the list has been read: 400 without
      an id or for an id already listed, otherwise the list with the id appended. */
  function AddAdminResult(admins: seq<string>, userId: Option<string>): (r: Reply<seq<string>>)
    ensures r.Ok? <==> Truthy(userId) && userId.value !in admins
    ensures !Truthy(userId) ==> r == Fail(400, "userId is required")
    ensures Truthy(userId) && userId.value in admins ==> r == Fail(400, "User is already admin")
    ensures r.Ok? ==> IsAdmin(userId, r.body) && admins <= r.body && |r.body| == |admins| + 1
  {
    if !Truthy(userId) then Fail(400, "userId is required")
    else if userId.value in admins then Fail(400, "User is already admin")
    else Ok(admins + [userId.value])
  }

  /** `admins.filter(id => id !== userId)`. */
  function Without(admins: seq<string>, id: string): (r: seq<string>)
    ensures forall x :: x in r <==> x in admins && x != id
    ensures |r| <= |admins|
    ensures |r| == |admins| <==> id !in admins
    ensures id !in admins ==> r == admins
  {
    if admins == [] then []
    else if admins[0] == id then Without(admins[1..], id)
    else [admins[0]] + Without(admins[1..], id)
  }

  /** The filter keeps the order of what it keeps: filtering a concatenation filters
      each part in place. */
  lemma {:induction false} WithoutDistributes(a: seq<string>, b: seq<string>, id: string)
    ensures Without(a + b, id) == Without(a, id) + Without(b, id)
  {
    if a == [] {
      assert a + b == b;
    } else {
      assert (a + b)[0] == a[0];
      assert (a + b)[1..] == a[1..] + b;
      WithoutDistributes(a[1..], b, id);
    }
  }

  /** The body of `POST /api/admin/remove-admin`: 400 without an id or for the main
      admin, 404 for an id not listed, otherwise the list with every occurrence of the
      id filtered out. */
  function RemoveAdminResult(admins: seq<string>, userId: Option<string>): (r: Reply<seq<string>>)
    ensures !Truthy(userId) ==> r == Fail(400, "userId is required")
    ensures Truthy(userId) && userId.value == MAIN_ADMIN_ID ==> r == Fail(400, "You cannot remove the main admin.")
    ensures Truthy(userId) && userId.value != MAIN_ADMIN_ID ==>
              (r.Ok? <==> userId.value in admins) && (r.Fail? ==> r == Fail(404, "Admin not found"))
    ensures r.Ok? ==> !IsAdmin(userId, r.body) && r.body == Without(admins, userId.value)
    ensures r.Ok? ==> forall x :: x != userId.value ==> (x in r.body <==> x in admins)
  {
    if !Truthy(userId) then Fail(400, "userId is required")
    else if userId.value == MAIN_ADMIN_ID then Fail(400, "You cannot remove the main admin.")
    else
      var filtered := Without(admins, userId.value);
      if |filtered| == |admins| then Fail(404, "Admin not found") else Ok(filtered)
  }

  /** One row of `GET /api/admin/admins` (its `tag` is always null and left out). */
  datatype AdminView = AdminView(userId: string, isMain: bool)

  function AdminViews(admins: seq<string>): (r: seq<AdminView>)
    ensures |r| == |admins|
    ensures forall i :: 0 <= i < |r| ==> r[i].userId == admins[i] && (r[i].isMain <==> admins[i] == MAIN_ADMIN_ID)
  {
    seq(|admins|, i requires 0 <= i < |admins| => AdminView(admins[i], admins[i] == MAIN_ADMIN_ID))
  }

  /** An admin-list request made by a signed-in admin. */
  datatype AdminOp = AddOp(userId: Option<string>) | RemoveOp(userId: Option<string>)

  /** The stored admin list after one such request: the list is read (and healed),
      then the request changes it or fails and leaves it as read. */
  function AdminsAfter(stored: seq<string>, op: AdminOp): (r: seq<string>)
    ensures MAIN_ADMIN_ID in r
  {
    var current := Healed(stored);
    var result := match op
      case AddOp(u) => AddAdminResult(current, u)
      case RemoveOp(u) => RemoveAdminResult(current, u);
    if result.Ok? then result.body else current
  }

  function AdminsAfterAll(stored: seq<string>, ops: seq<AdminOp>): seq<string>
    decreases ops
  {
    if ops == [] then stored else AdminsAfterAll(AdminsAfter(stored, ops[0]), ops[1..])
  }

  /** The main admin is a member after any sequence of add and remove requests,
      including requests to remove it. */
  lemma {:induction false} MainAdminSurvives(stored: seq<string>, ops: seq<AdminOp>)
    requires MAIN_ADMIN_ID in stored || ops != []
    ensures MAIN_ADMIN_ID in AdminsAfterAll(stored, ops)
    decreases ops
  {
    if ops != [] {
      MainAdminSurvives(AdminsAfter(stored, ops[0]), ops[1..]);
    }
  }

  /** Adding an id makes it an admin, whether or not it was one; removing an id other
      than the main admin makes it stop being one, and nobody else loses the role. */
  lemma AddGrantsRemoveRevokes(stored: seq<string>, id: string)
    requires id != ""
    ensures id in AdminsAfter(stored, AddOp(Some(id)))
    ensures id != MAIN_ADMIN_ID ==> id !in AdminsAfter(stored, RemoveOp(Some(id)))
    ensures forall x :: x != id && x in Healed(stored) ==> x in AdminsAfter(stored, RemoveOp(Some(id)))
  {
  }

  lemma {:induction false} WithoutKeepsDistinct(admins: seq<string>, id: string)
    requires Distinct(admins)
    ensures Distinct(Without(admins, id))
  {
    if admins != [] {
      WithoutKeepsDistinct(admins[1..], id);
      if admins[0] != id {
        var rest := Without(admins[1..], id);
        forall j | 0 <= j < |rest|
          ensures rest[j] != admins[0]
        {
          assert rest[j] in admins[1..];
        }
      }
    }
  }

  /** No request lists an admin twice: healing, adding and removing keep a list
      without duplicates without duplicates. */
  lemma AdminsAfterKeepsDistinct(stored: seq<string>, op: AdminOp)
    requires Distinct(stored)
    ensures Distinct(AdminsAfter(stored, op))
  {
    if MAIN_ADMIN_ID !in stored {
      AppendKeepsDistinct(stored, MAIN_ADMIN_ID);
    }
    var current := Healed(stored);
    match op {
      case AddOp(u) =>
        if Truthy(u) && u.value !in current {
          AppendKeepsDistinct(current, u.value);
        }
      case RemoveOp(u) =>
        if Truthy(u) {
          WithoutKeepsDistinct(current, u.value);
        }
    }
  }

  /** The main admin passes `requireAdmin` whatever the stored list was. */
  lemma MainAdminAlwaysPasses(stored: seq<string>, user: User)
    requires user.id == Some(MAIN_ADMIN_ID)
    ensures AdminGate(Some(user), Healed(stored)) == Pass
  {
  }

  /** The admin file after `requireAdmin`: untouched without a user, else seeded and healed. */
  function AdminsAfterGate(doc: Option<seq<string>>, user: Option<User>): Option<seq<string>> {
    if user.None? then doc else Some(Healed(SeedAdmins(doc)))
  }

  /** The manual-commands file after `requireAdmin`: `getAdmins` seeds it too. */
  function ManualAfterGate(doc: Option<seq<ManualCommand>>, user: Option<User>): Option<seq<ManualCommand>> {
    if user.None? then doc else Some(SeedManual(doc))
  }

  /** The process state: the two JSON files (None while a file does not exist) and
      the in-memory command log. */
  class Server {
    var adminsDoc: Option<seq<string>>
    var manualDoc: Option<seq<ManualCommand>>
    const commandLogs: LogBuffer

    /** Start-up: whatever files exist, then `ensureDataFiles`, and an empty log. */
    constructor (admins: Option<seq<string>>, manual: Option<seq<ManualCommand>>)
      ensures fresh(commandLogs) && commandLogs.entries == []
      ensures adminsDoc == Some(SeedAdmins(admins)) && manualDoc == Some(SeedManual(manual))
    {
      adminsDoc := admins;
      manualDoc := manual;
      commandLogs := new LogBuffer();
      new;
      EnsureDataFiles();
    }

    /** `ensureDataFiles`: writes the default of each file that does not exist. */
    method EnsureDataFiles()
      modifies this
      ensures adminsDoc == Some(SeedAdmins(old(adminsDoc)))
      ensures manualDoc == Some(SeedManual(old(manualDoc)))
    {
      if adminsDoc.None? {
        adminsDoc := Some([MAIN_ADMIN_ID]);
      }
      if manualDoc.None? {
        manualDoc := Some([]);
      }
    }

    /** `saveAdmins`: the whole file is replaced. */
    method SaveAdmins(admins: seq<string>)
      modifies this
      ensures adminsDoc == Some(admins) && manualDoc == old(manualDoc)
    {
      adminsDoc := Some(admins);
    }

    /** `getAdmins`: seeds the files, reads the list and, when the main admin is
        missing, appends it and saves the list before returning it. */
    method GetAdmins() returns (admins: seq<string>)
      modifies this
      ensures MAIN_ADMIN_ID in admins
      ensures admins == Healed(SeedAdmins(old(adminsDoc)))
      ensures adminsDoc == Some(admins) && manualDoc == Some(SeedManual(old(manualDoc)))
    {
      EnsureDataFiles();
      admins := adminsDoc.value;
      if MAIN_ADMIN_ID !in admins {
        admins := admins + [MAIN_ADMIN_ID];
        SaveAdmins(admins);
      }
    }

    /** `saveManualCommands`: the whole file is replaced. */
    method SaveManualCommands(commands: seq<ManualCommand>)
      modifies this
      ensures manualDoc == Some(commands) && adminsDoc == old(adminsDoc)
    {
      manualDoc := Some(commands);
    }

    /** `getManualCommands`: seeds the files and reads the list. */
    method GetManualCommands() returns (commands: seq<ManualCommand>)
      modifies this
      ensures commands == SeedManual(old(manualDoc))
      ensures manualDoc == Some(commands) && adminsDoc == Some(SeedAdmins(old(adminsDoc)))
    {
      EnsureDataFiles();
      commands := manualDoc.value;
    }

    /** `requireAdmin`: 401 without a session user (nothing is read), otherwise the
        admin list is read through `getAdmins` and the user must be on it. */
    method RequireAdmin(session: Session) returns (g: Gate)
      modifies this
      ensures g == AdminGate(session.user, Healed(SeedAdmins(old(adminsDoc))))
      ensures adminsDoc == AdminsAfterGate(old(adminsDoc), session.user)
      ensures manualDoc == ManualAfterGate(old(manualDoc), session.user)
    {
      if session.user.None? {
        return Deny(401, "Not authenticated");
      }
      var admins := GetAdmins();
      if !IsAdmin(session.user.value.id, admins) {
        return Deny(403, "Not an admin");
      }
      return Pass;
    }

    /** `GET /api/auth/me`: the session user and whether the healed list holds it. */
    method Me(session: Session) returns (user: Option<User>, isAdmin: bool)
      modifies this
      ensures user == session.user
      ensures isAdmin <==> user.Some? && IsAdmin(user.value.id, Healed(SeedAdmins(old(adminsDoc))))
      ensures adminsDoc == AdminsAfterGate(old(adminsDoc), session.user)
      ensures manualDoc == ManualAfterGate(old(manualDoc), session.user)
    {
      user := session.user;
      if user.None? {
        return user, false;
      }
      var admins := GetAdmins();
      isAdmin := IsAdmin(user.value.id, admins);
    }

    /** `GET /api/commands`: the manual list is read (seeding missing files) only after
        Discord's body has been parsed, and before that body is mapped over; any throw
        answers 500. On success Discord's commands are merged with the manual list. */
    method Commands(remote: RemoteReply) returns (r: Reply<seq<CatalogEntry>>)
      modifies this
      ensures !remote.Listed? ==> r == Fail(500, "Failed to fetch commands")
      ensures remote.CallThrew? ==> adminsDoc == old(adminsDoc) && manualDoc == old(manualDoc)
      ensures !remote.CallThrew? ==> adminsDoc == Some(SeedAdmins(old(adminsDoc)))
                                     && manualDoc == Some(SeedManual(old(manualDoc)))
      ensures remote.Listed? ==> r == Ok(Merge(remote.commands, SeedManual(old(manualDoc))))
    {
      if remote.CallThrew? {
        return Fail(500, "Failed to fetch commands");
      }
      var manual := GetManualCommands();
      if remote.NotAList? {
        return Fail(500, "Failed to fetch commands");
      }
      r := Ok(Merge(remote.commands, manual));
    }

    /** `POST /api/admin/manual-command` behind `requireAdmin`: on success exactly one
        record, the one returned, is appended to the stored list. */
    method AddManualCommand(session: Session, body: ManualCommandBody, now: nat) returns (r: Reply<ManualCommand>)
      modifies this
      ensures adminsDoc == AdminsAfterGate(old(adminsDoc), session.user)
      ensures var gate := AdminGate(session.user, Healed(SeedAdmins(old(adminsDoc))));
              var current := SeedManual(old(manualDoc));
              && (gate.Deny? ==> r == gate.AsReply() && manualDoc == ManualAfterGate(old(manualDoc), session.user))
              && (gate.Pass? ==> r == PostManual(body, now)
                                 && manualDoc == Some(if r.Ok? then current + [r.body] else current))
    {
      var gate := RequireAdmin(session);
      if gate.Deny? {
        return gate.AsReply();
      }
      if !Truthy(body.name) {
        return Fail(400, "Name is required");
      }
      var current := GetManualCommands();
      var command := NewManualCommand(body, now);
      current := current + [command];
      SaveManualCommands(current);
      r := Ok(command);
    }

    /** `DELETE /api/admin/manual-command` behind `requireAdmin`. */
    method DeleteManualCommand(session: Session, name: Option<string>) returns (r: Reply<()>)
      modifies this
      ensures adminsDoc == AdminsAfterGate(old(adminsDoc), session.user)
      ensures var gate := AdminGate(session.user, Healed(SeedAdmins(old(adminsDoc))));
              var current := SeedManual(old(manualDoc));
              && (gate.Deny? ==> r == gate.AsReply() && manualDoc == ManualAfterGate(old(manualDoc), session.user))
              && (gate.Pass? ==> var d := DeleteManual(current, name);
                                 r == d.Ack() && manualDoc == Some(if d.Ok? then d.body else current))
    {
      var gate := RequireAdmin(session);
      if gate.Deny? {
        return gate.AsReply();
      }
      if !Truthy(name) {
        return Fail(400, "name is required");
      }
      var current := GetManualCommands();
      var index := FirstNamed(current, name.value);
      if index.None? {
        return Fail(404, "Command not found");
      }
      current := current[..index.value] + current[index.value + 1..];
      SaveManualCommands(current);
      r := Ok(());
    }

    /** `POST /api/admin/add-admin` behind `requireAdmin`. */
    method AddAdmin(session: Session, userId: Option<string>) returns (r: Reply<seq<string>>)
      modifies this
      ensures manualDoc == ManualAfterGate(old(manualDoc), session.user)
      ensures var gate := AdminGate(session.user, Healed(SeedAdmins(old(adminsDoc))));
              && (gate.Deny? ==> r == gate.AsReply() && adminsDoc == AdminsAfterGate(old(adminsDoc), session.user))
              && (gate.Pass? ==> r == AddAdminResult(Healed(SeedAdmins(old(adminsDoc))), userId)
                                 && adminsDoc == Some(AdminsAfter(SeedAdmins(old(adminsDoc)), AddOp(userId))))
    {
      var gate := RequireAdmin(session);
      if gate.Deny? {
        return gate.AsReply();
      }
      if !Truthy(userId) {
        return Fail(400, "userId is required");
      }
      var admins := GetAdmins();
      if userId.value in admins {
        return Fail(400, "User is already admin");
      }
      admins := admins + [userId.value];
      SaveAdmins(admins);
      r := Ok(admins);
    }

    /** `GET /api/admin/admins` behind `requireAdmin`: every listed id, the main one marked. */
    method ListAdmins(session: Session) returns (r: Reply<seq<AdminView>>)
      modifies this
      ensures adminsDoc == AdminsAfterGate(old(adminsDoc), session.user)
      ensures manualDoc == ManualAfterGate(old(manualDoc), session.user)
      ensures var gate := AdminGate(session.user, Healed(SeedAdmins(old(adminsDoc))));
              && (gate.Deny? ==> r == gate.AsReply())
              && (gate.Pass? ==> r == Ok(AdminViews(Healed(SeedAdmins(old(adminsDoc))))))
      ensures r.Ok? ==> exists i :: 0 <= i < |r.body| && r.body[i].isMain
    {
      var gate := RequireAdmin(session);
      if gate.Deny? {
        return gate.AsReply();
      }
      var admins := GetAdmins();
      var i :| 0 <= i < |admins| && admins[i] == MAIN_ADMIN_ID;
      r := Ok(AdminViews(admins));
      assert r.body[i].isMain;
    }

    /** `POST /api/admin/remove-admin` behind `requireAdmin`. */
    method RemoveAdmin(session: Session, userId: Option<string>) returns (r: Reply<()>)
      modifies this
      ensures manualDoc == ManualAfterGate(old(manualDoc), session.user)
      ensures var gate := AdminGate(session.user, Healed(SeedAdmins(old(adminsDoc))));
              && (gate.Deny? ==> r == gate.AsReply() && adminsDoc == AdminsAfterGate(old(adminsDoc), session.user))
              && (gate.Pass? ==> r == RemoveAdminResult(Healed(SeedAdmins(old(adminsDoc))), userId).Ack()
                                 && adminsDoc == Some(AdminsAfter(SeedAdmins(old(adminsDoc)), RemoveOp(userId))))
    {
      var gate := RequireAdmin(session);
      if gate.Deny? {
        return gate.AsReply();
      }
      if !Truthy(userId) {
        return Fail(400, "userId is required");
      }
      if userId.value == MAIN_ADMIN_ID {
        return Fail(400, "You cannot remove the main admin.");
      }
      var admins := GetAdmins();
      var filtered := Without(admins, userId.value);
      if |filtered| == |admins| {
        return Fail(404, "Admin not found");
      }
      SaveAdmins(filtered);
      r := Ok(());
    }

    /** `GET /api/admin/command-logs` behind `requireAdmin`: the newest 200 records. */
    method CommandLogsRecent(session: Session) returns (r: Reply<seq<LogEntry>>)
      modifies this
      ensures adminsDoc == AdminsAfterGate(old(adminsDoc), session.user)
      ensures manualDoc == ManualAfterGate(old(manualDoc), session.user)
      ensures var gate := AdminGate(session.user, Healed(SeedAdmins(old(adminsDoc))));
              && (gate.Deny? ==> r == gate.AsReply())
              && (gate.Pass? ==> r.Ok? && |r.body| == (if |commandLogs.entries| < RECENT_WINDOW then |commandLogs.entries| else RECENT_WINDOW)
                                 && r.body == commandLogs.entries[|commandLogs.entries| - |r.body|..])
    {
      var gate := RequireAdmin(session);
      if gate.Deny? {
        return gate.AsReply();
      }
      var recent := commandLogs.Recent();
      r := Ok(recent);
    }
  }

  /** A new server whose admin list was never written starts with the main admin only. */
  method FreshStartSeedsMainAdmin() returns (server: Server)
    ensures server.adminsDoc == Some([MAIN_ADMIN_ID]) && server.manualDoc == Some([])
  {
    server := new Server(None, None);
  }
}
