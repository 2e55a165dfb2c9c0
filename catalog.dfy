/** The command catalog: the manual-command records kept in `manualCommands.json`,
    the bodies of the manual-command POST and DELETE routes, and the merge that
    `/api/commands` serves (Discord's commands first, then the manual ones). */
module Catalog {
  import opened Common

  /** A stored manual command. `kind` is the JSON field `type`. */
  datatype ManualCommand = ManualCommand(
    id: string,
    name: string,
    description: string,
    permissions: Option<string>,
    dmPermission: bool,
    kind: string)

  /** The JSON body of `POST /api/admin/manual-command`. */
  datatype ManualCommandBody = ManualCommandBody(
    name: Option<string>,
    description: Option<string>,
    permissions: Option<string>,
    dmPermission: Option<bool>)

  /** One entry of the application command list Discord returns. */
  datatype RemoteCommand = RemoteCommand(
    id: string,
    name: string,
    description: Option<string>,
    defaultMemberPermissions: Option<string>,
    dmPermission: Option<bool>,
    kind: int)

  /** What Discord's command endpoint gave back: the request or the parse of its body
      threw, the body parsed but was not an array (an error object, which `map` then
      fails on), or the list of commands. The status of the response is not checked. */
  datatype RemoteReply = CallThrew | NotAList | Listed(commands: seq<RemoteCommand>)

  /** One entry of the merged catalog; the constructor is the `source` tag. */
  datatype CatalogEntry =
    | Discord(id: string, name: string, description: string,
              defaultMemberPermissions: Option<string>, dmPermission: Option<bool>, kind: int)
    | Manual(command: ManualCommand)
  {
    function Source(): string {
      if Discord? then "discord" else "manual"
    }
  }

  /** `ensureDataFiles` seeds a missing manual-commands file with `[]`. */
  function SeedManual(doc: Option<seq<ManualCommand>>): seq<ManualCommand> {
    doc.GetOr([])
  }

  /** The decimal text of a natural number, as a template literal writes `Date.now()`. */
  function Decimal(n: nat): (r: string)
    ensures |r| >= 1 && forall i :: 0 <= i < |r| ==> '0' <= r[i] <= '9'
  {
    if n < 10 then [('0' as int + n) as char]
    else Decimal(n / 10) + [('0' as int + n % 10) as char]
  }

  /** The number a string of decimal digits denotes (an independent reading of `Decimal`). */
  function DecimalValue(s: string): nat {
    if s == [] then 0
    else
      var c := s[|s| - 1];
      DecimalValue(s[..|s| - 1]) * 10 + (if '0' <= c <= '9' then c as int - '0' as int else 0)
  }

  /** Reading back the text of `Date.now()` gives the time again. */
  lemma {:induction false} DecimalRoundTrip(n: nat)
    ensures DecimalValue(Decimal(n)) == n
  {
    if n >= 10 {
      DecimalRoundTrip(n / 10);
      var s := Decimal(n);
      assert s[..|s| - 1] == Decimal(n / 10);
    }
  }

  /** The record the POST route builds, for a body whose name is present. */
  function NewManualCommand(body: ManualCommandBody, now: nat): (c: ManualCommand)
    requires Truthy(body.name)
    ensures |c.id| > 7 && c.id[..7] == "manual_" && c.id[7..] == Decimal(now)
    ensures DecimalValue(c.id[7..]) == now
    ensures c.name == body.name.value && c.kind == "manual"
    ensures c.description == "" <==> !Truthy(body.description)
    ensures Truthy(body.description) ==> c.description == body.description.value
    ensures c.permissions.None? <==> !Truthy(body.permissions)
    ensures Truthy(body.permissions) ==> c.permissions == body.permissions
    ensures c.dmPermission <==> body.dmPermission != Some(false)
  {
    DecimalRoundTrip(now);
    ManualCommand(
      "manual_" + Decimal(now),
      body.name.value,
      if Truthy(body.description) then body.description.value else "",
      if Truthy(body.permissions) then body.permissions else None,
      body.dmPermission.GetOr(true),
      "manual")
  }

  /** The body of `POST /api/admin/manual-command` once the list has been read:
      400 without a name, otherwise the record to append, with its defaults filled in. */
  function PostManual(body: ManualCommandBody, now: nat): (r: Reply<ManualCommand>)
    ensures r.Fail? <==> !Truthy(body.name)
    ensures r.Fail? ==> r == Fail(400, "Name is required")
    ensures r.Ok? ==> r.body.id == "manual_" + Decimal(now) && DecimalValue(r.body.id[7..]) == now
    ensures r.Ok? ==> r.body.name == body.name.value && r.body.kind == "manual"
    ensures r.Ok? ==> (r.body.description == "" <==> !Truthy(body.description))
    ensures r.Ok? && Truthy(body.description) ==> r.body.description == body.description.value
    ensures r.Ok? ==> (r.body.permissions.None? <==> !Truthy(body.permissions))
    ensures r.Ok? && Truthy(body.permissions) ==> r.body.permissions == body.permissions
    ensures r.Ok? ==> (body.dmPermission.None? ==> r.body.dmPermission) &&
                      (body.dmPermission.Some? ==> r.body.dmPermission == body.dmPermission.value)
  {
    if !Truthy(body.name) then Fail(400, "Name is required") else Ok(NewManualCommand(body, now))
  }

  /** `findIndex(c => c.name === name)`: the first position holding that name, if any. */
  function FirstNamed(manual: seq<ManualCommand>, name: string): (r: Option<nat>)
    ensures r.Some? ==> r.value < |manual| && manual[r.value].name == name
    ensures r.Some? ==> forall j :: 0 <= j < r.value ==> manual[j].name != name
    ensures r.None? <==> forall j :: 0 <= j < |manual| ==> manual[j].name != name
  {
    if manual == [] then None
    else if manual[0].name == name then Some(0)
    else match FirstNamed(manual[1..], name)
      case None => None
      case Some(i) => Some(i + 1)
  }

  /** The body of `DELETE /api/admin/manual-command` once the list has been read:
      400 without a name, 404 if no entry has exactly that name, otherwise the list
      without its first entry of that name. */
  function DeleteManual(manual: seq<ManualCommand>, name: Option<string>): (r: Reply<seq<ManualCommand>>)
    ensures !Truthy(name) ==> r == Fail(400, "name is required")
    ensures Truthy(name) ==>
              (r == Fail(404, "Command not found") <==> forall j :: 0 <= j < |manual| ==> manual[j].name != name.value)
    ensures Truthy(name) && (exists j :: 0 <= j < |manual| && manual[j].name == name.value) ==> r.Ok?
    ensures r.Ok? ==> Truthy(name) && |r.body| == |manual| - 1
    ensures r.Ok? ==> exists i :: 0 <= i < |manual| && manual[i].name == name.value
                        && (forall j :: 0 <= j < i ==> manual[j].name != name.value)
                        && r.body == manual[..i] + manual[i + 1..]
  {
    if !Truthy(name) then Fail(400, "name is required")
    else match FirstNamed(manual, name.value)
      case None => Fail(404, "Command not found")
      case Some(i) => Ok(manual[..i] + manual[i + 1..])
  }

  /** Adding a command under a name the list does not use yet, then deleting that
      name, gives back the list as it was. */
  lemma PostThenDeleteRestores(manual: seq<ManualCommand>, body: ManualCommandBody, now: nat)
    requires Truthy(body.name)
    requires forall j :: 0 <= j < |manual| ==> manual[j].name != body.name.value
    ensures PostManual(body, now).Ok?
    ensures DeleteManual(manual + [PostManual(body, now).body], body.name) == Ok(manual)
  {
    var c := PostManual(body, now).body;
    var extended := manual + [c];
    var i := FirstNamed(extended, c.name);
    assert extended[|manual|].name == c.name;
    assert forall j :: 0 <= j < |manual| ==> extended[j].name != c.name;
    assert i == Some(|manual|);
    assert extended[..|manual|] + extended[|manual| + 1..] == manual;
  }

  /** The projection of one Discord command: description `''` when missing. */
  function FormatRemote(c: RemoteCommand): (e: CatalogEntry)
    ensures e.Source() == "discord" && e.id == c.id && e.name == c.name && e.kind == c.kind
    ensures e.defaultMemberPermissions == c.defaultMemberPermissions && e.dmPermission == c.dmPermission
    ensures c.description.Some? ==> e.description == c.description.value
    ensures c.description.None? ==> e.description == ""
  {
    Discord(c.id, c.name, c.description.GetOr(""), c.defaultMemberPermissions, c.dmPermission, c.kind)
  }

  function FormatAll(remote: seq<RemoteCommand>): (r: seq<CatalogEntry>)
    ensures |r| == |remote|
    ensures forall i :: 0 <= i < |r| ==> r[i] == FormatRemote(remote[i])
  {
    if remote == [] then [] else [FormatRemote(remote[0])] + FormatAll(remote[1..])
  }

  function TagManual(manual: seq<ManualCommand>): (r: seq<CatalogEntry>)
    ensures |r| == |manual|
    ensures forall i :: 0 <= i < |r| ==> r[i] == Manual(manual[i])
  {
    if manual == [] then [] else [Manual(manual[0])] + TagManual(manual[1..])
  }

  /** The array `/api/commands` sends: every Discord command, then every manual one. */
  function Merge(remote: seq<RemoteCommand>, manual: seq<ManualCommand>): (r: seq<CatalogEntry>)
    ensures |r| == |remote| + |manual|
    ensures r[..|remote|] == FormatAll(remote) && r[|remote|..] == TagManual(manual)
    ensures forall i, j :: 0 <= i < j < |r| && r[j].Discord? ==> r[i].Discord?
    ensures forall i :: 0 <= i < |remote| ==>
              r[i].Source() == "discord" && r[i].id == remote[i].id && r[i].name == remote[i].name
              && r[i].description == remote[i].description.GetOr("")
    ensures forall j :: |remote| <= j < |r| ==> r[j].Source() == "manual" && r[j].command == manual[j - |remote|]
  {
    FormatAll(remote) + TagManual(manual)
  }

  /** The manual commands a catalog carries, in catalog order. */
  function ManualPart(entries: seq<CatalogEntry>): seq<ManualCommand> {
    if entries == [] then []
    else (if entries[0].Manual? then [entries[0].command] else []) + ManualPart(entries[1..])
  }

  /** The Discord entries a catalog carries, in catalog order. */
  function DiscordPart(entries: seq<CatalogEntry>): seq<CatalogEntry> {
    if entries == [] then []
    else (if entries[0].Discord? then [entries[0]] else []) + DiscordPart(entries[1..])
  }

  lemma {:induction false} PartsOfConcat(a: seq<CatalogEntry>, b: seq<CatalogEntry>)
    ensures ManualPart(a + b) == ManualPart(a) + ManualPart(b)
    ensures DiscordPart(a + b) == DiscordPart(a) + DiscordPart(b)
  {
    if a == [] {
      assert a + b == b;
    } else {
      assert (a + b)[0] == a[0];
      assert (a + b)[1..] == a[1..] + b;
      PartsOfConcat(a[1..], b);
    }
  }

  lemma {:induction false} PartsOfFormatted(remote: seq<RemoteCommand>)
    ensures ManualPart(FormatAll(remote)) == []
    ensures DiscordPart(FormatAll(remote)) == FormatAll(remote)
  {
    if remote != [] {
      var r := FormatAll(remote);
      assert r[1..] == FormatAll(remote[1..]);
      PartsOfFormatted(remote[1..]);
    }
  }

  lemma {:induction false} PartsOfTagged(manual: seq<ManualCommand>)
    ensures ManualPart(TagManual(manual)) == manual
    ensures DiscordPart(TagManual(manual)) == []
  {
    if manual != [] {
      var r := TagManual(manual);
      assert r[1..] == TagManual(manual[1..]);
      PartsOfTagged(manual[1..]);
    }
  }

  /** Splitting the catalog by source gives back its two inputs: the stored manual
      list exactly, and one Discord entry per remote command, in remote order. */
  lemma MergeSplits(remote: seq<RemoteCommand>, manual: seq<ManualCommand>)
    ensures ManualPart(Merge(remote, manual)) == manual
    ensures DiscordPart(Merge(remote, manual)) == FormatAll(remote)
  {
    PartsOfConcat(FormatAll(remote), TagManual(manual));
    PartsOfFormatted(remote);
    PartsOfTagged(manual);
  }
}
